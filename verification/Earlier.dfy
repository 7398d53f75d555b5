/**
 * What a pass means for commits from before it. The list they were acknowledged under is gone, so each key the
 * pass writes is paired with that earlier list.
 */
module Earlier {
  import opened Names
  import opened QuorumState
  import opened Overlap
  import opened Replay
  import opened Phases
  import opened Growth
  import opened Repairs
  import opened Passes
  import opened PassEnds
  import opened Transfer
  import opened Traces
  import opened Seen
  import opened Election

  /** The key of `t` and the list of `s`. */
  function Paired(s: State, t: State): State {
    t.(numsync := s.numsync, sync := s.sync)
  }

  /** From any state of the registers: the key a pass ends with is safe for the commits from before the pass
      exactly if its quorum, known in closed form, covers the list they were acknowledged under. */
  lemma EndKeyExact(s: State)
    requires WellFormed(s)
    ensures var o := GenerateTransitions(s);
            var e := Ended(Given(s));
            o.Done? ==> (Safe(Paired(s, o.state)) <==> Covers(e.quorum, e.voters, s.numsync, s.sync))
  {
    hide GenerateTransitions, Ended, Given, Sound, Invariant, Safe;
    PassExact(s);
    PassIsSound(s);
    var o := GenerateTransitions(s);
    if o.Done? {
      assert Led(o.state) && o.state.leader == s.leader by {
        SameLeader(s, GenerateTransitions(s).state);
      }
      SafeExact(Paired(s, o.state));
    }
  }

  lemma SameLeader(s: State, t: State)
    requires WellFormed(s) && Led(t)
    ensures Alike(t, Ended(Given(s))) ==> t.leader == s.leader
  {
    hide Matched, AfterRepair, Invariant, AfterRemoval, AfterAdding, AfterFactor;
  }

  // ---------------------------------------------------------------- in numbers

  /** How many confirmations the key relies on after the removal, and the factor then. */
  function Stay(s: State): (int, int) {
    var dead, alive := |s.sync - s.active|, |s.sync * s.active|;
    if dead == 0 then (s.numsync, s.numsync)
    else if dead <= s.quorum then
      var factor := Min(Max(s.wanted, s.numsync), alive);
      (Min(factor, Confirmed(s)), factor)
    else (Min(s.wanted, alive), alive)
  }

  /** How many it relies on after the addition. */
  function JoinRelied(s: State): int {
    var (relied, factor) := Stay(s);
    var joining := |s.active - s.sync|;
    if joining == 0 then relied
    else if Target(s) > factor then Target(s) - Max(Min(Target(s), factor + joining) - Confirmed(s), 0)
    else Target(s) - (if Target(s) > Confirmed(s) then Max(factor - Confirmed(s), 0) else 0)
  }

  /** How many it relies on in the end. */
  function Relied(s: State): int {
    var (relied, factor) := Stay(s);
    if Target(s) > factor then Min(Target(s), Confirmed(s))
    else if s.active - s.sync != {} then JoinRelied(s)
    else if factor - Target(s) < relied
    then if factor == Target(s) then relied
         else Target(s) - (if s.wanted > Confirmed(s) then Max(factor - Confirmed(s), 0) else 0)
    else relied
  }

  /** A key that relies on this many confirmations is safe for earlier commits: it relies on none, or they are
      still to be found after the dead are discounted. */
  predicate Survives(s: State, relied: int) {
    relied <= 0 || relied + |s.sync - s.active| <= s.numsync
  }

  /** The key of the removal is seen by others. */
  predicate RemovalShown(s: State) {
    s.sync - s.active != {} && (|s.sync - s.active| > s.quorum || Target(s) > Stay(s).1)
  }

  /** Every key that others see during the pass is safe for the commits from before it. */
  predicate EarlierKept(s: State) {
    s.sync * s.active == {} ||
    (&& Survives(s, Relied(s))
     && (RemovalShown(s) ==> Survives(s, Stay(s).0))
     && (s.active - s.sync != {} ==> Survives(s, JoinRelied(s))))
  }

  lemma CoversRelied(s: State, relied: int, voters: set<Name>)
    requires voters == s.active || voters == s.sync * s.active
    ensures Covers(|voters| - relied, voters, s.numsync, s.sync) <==> Survives(s, relied)
  {
    PairCard(s.sync, s.active);
    if voters == s.active {
      PairCard(s.sync, s.active);
      assert voters + s.sync == s.sync + s.active;
    } else {
      assert voters + s.sync == s.sync;
    }
  }

  /** The repair finds nothing to do in a balanced state. */
  lemma BalancedMended(s: State)
    requires WellFormed(s) && Balanced(s)
    ensures Given(s) == EstimateConfirmed(s) && Mended(Given(s)) == Given(s) && Steady(Given(s))
  {
    hide Invariant;
    assert s.sync + s.sync == s.sync;
    InvariantPlaced(s);
    assert Given(s) == EstimateConfirmed(s);
    TrimmedAlready(Given(s));
  }

  lemma TrimmedAlready(s: State)
    requires Steady(s) && s.quorum == |s.sync| - s.numsync
    ensures Mended(s) == s
  {
    assert !(s.sync < s.voters) && !(s.voters < s.sync);
    assert AfterMatch(s) == (s.quorum, s.numsync) && Matched(s) == s.sync;
    assert Repaired(s) == s;
  }

  lemma RemovalNumbers(s: State)
    requires Balanced(s) && s.sync * s.active != {}
    ensures var e := EstimateConfirmed(s);
            AfterRemoval(e) == (|s.sync * s.active| - Stay(s).0, Stay(s).1)
    ensures s.sync - s.active == {} ==> s.sync * s.active == s.sync
  {
    PairCard(s.sync, s.active);
    if s.sync - s.active == {} {
      SubsetForms(s.sync, s.active);
    }
  }

  lemma EstimateKeeps(s: State)
    ensures EstimateConfirmed(s) == s.(confirmed := Confirmed(s))
  {}

  lemma AddingNumbers(s: State, u: State)
    requires Balanced(s) && s.sync * s.active != {}
    requires Reaches(EstimateConfirmed(s), u, |s.sync * s.active| - Stay(s).0, s.sync * s.active, Stay(s).1, s.sync * s.active)
    ensures AfterAdding(u).0 == |s.active| - JoinRelied(s)
    ensures AfterAdding(u).1 == if s.active - s.sync == {} then Stay(s).1
                                else if Target(s) > Stay(s).1 then Min(Target(s), Stay(s).1 + |s.active - s.sync|)
                                else Target(s)
    ensures u.sync == s.active <==> s.active - s.sync == {}
  {
    hide Stay, EstimateConfirmed, Confirmed;
    EstimateKeeps(s);
    assert s.active - u.sync == s.active - s.sync;
    if s.active - s.sync == {} {
      SubsetForms(s.active, s.sync);
      assert s.sync * s.active == s.active;
    } else {
      assert u.sync != s.active;
    }
  }

  lemma FactorNumbers(s: State, u: State, v: State)
    requires Balanced(s) && s.wanted >= 1 && s.sync * s.active != {} && s.confirmed <= |s.active|
    requires Reaches(EstimateConfirmed(s), u, |s.sync * s.active| - Stay(s).0, s.sync * s.active, Stay(s).1, s.sync * s.active)
    requires Reaches(u, v, AfterAdding(u).0, s.active, AfterAdding(u).1, s.active)
    ensures AfterFactor(v) == |s.active| - Relied(s)
  {
    hide Stay, JoinRelied, AfterAdding, EstimateConfirmed, Confirmed;
    EstimateKeeps(s);
    AddingNumbers(s, u);
    if s.active - s.sync != {} {
      JoinFactor(s);
    } else {
      JoinNone(s);
    }
  }

  lemma JoinNone(s: State)
    requires s.active - s.sync == {}
    ensures JoinRelied(s) == Stay(s).0
  {}

  lemma JoinFactor(s: State)
    requires s.active - s.sync != {}
    ensures Target(s) > Stay(s).1 && Min(Target(s), Stay(s).1 + |s.active - s.sync|) == Target(s) ==>
              JoinRelied(s) == Min(Target(s), Confirmed(s))
    ensures Target(s) <= Stay(s).1 ==> Relied(s) == JoinRelied(s)
  {
    hide Stay;
  }

  /** Where a pass from a balanced state ends: the key asks for all votes but the confirmations it relies on. */
  lemma BalancedEnds(s: State)
    requires WellFormed(s) && Balanced(s) && s.sync * s.active != {}
    requires !JoinFails(s) && !LeaveFails(s)
    ensures var o := GenerateTransitions(s);
            && o.Done? && o.state.voters == s.active && o.state.sync == s.active
            && o.state.numsync == Target(s) && o.state.quorum == |s.active| - Relied(s)
  {
    hide GenerateTransitions, JoinFails, LeaveFails, Given, Mended;
    hide AfterRemoval, AfterAdding, AfterFactor, Stay, Relied, EstimateConfirmed;
    PassFromBalanced(s);
    PassExact(s);
    BalancedMended(s);
    EstimateKeeps(s);
    RemovalNumbers(s);
    CountsKnown(s);
    var u := Shrunk(EstimateConfirmed(s));
    FactorNumbers(s, u, Grown(u));
  }

  lemma CountsKnown(s: State)
    requires WellFormed(s) && Balanced(s)
    ensures s.wanted >= 1 && s.confirmed <= |s.active|
  {
    SubsetCard(s.sync * s.active, s.active);
  }

  /** The keys others see during the pass cover the earlier list exactly if `EarlierKept` says so. */
  lemma BalancedSeen(s: State)
    requires WellFormed(s) && Balanced(s)
    requires !JoinFails(s) && !LeaveFails(s)
    ensures var o := GenerateTransitions(s);
            o.Done? && (SeenCover(o.state.trace, false, s.numsync, s.sync) <==> EarlierKept(s))
  {
    hide GenerateTransitions, JoinFails, LeaveFails, Balanced, WellFormed, Fails, PassKeeps, EarlierKept, SeenCover, PassTrace;
    PassFromBalanced(s);
    PassRecords(s);
    PassSeen(s);
    BalancedKeeps(s);
  }

  lemma BalancedKeeps(s: State)
    requires WellFormed(s) && Balanced(s)
    ensures PassKeeps(s) <==> EarlierKept(s)
  {
    hide EstimateConfirmed, TailKeeps, EarlierKept, Given, Mended;
    BalancedMended(s);
    if s.sync * s.active == {} {
      EmptiedKeeps(s);
    } else {
      AliveKeeps(s);
    }
  }

  lemma EmptiedKeeps(s: State)
    requires Balanced(s) && s.sync * s.active == {}
    ensures TailKeeps(EstimateConfirmed(s), s.numsync, s.sync) && EarlierKept(s)
  {
    var e := EstimateConfirmed(s);
    PairCard(s.sync, s.active);
    assert Shrunk(e).sync == {} && (s.sync == {} ==> s.sync - s.active == {});
  }

  lemma BalancedCovers(s: State)
    requires Balanced(s)
    ensures Covers(s.quorum, s.voters, s.numsync, s.sync)
  {
    assert s.voters + s.sync == s.sync;
  }

  /** The same in numbers, while some standby is alive. */
  lemma AliveKeeps(s: State)
    requires WellFormed(s) && Balanced(s) && s.sync * s.active != {}
    ensures TailKeeps(EstimateConfirmed(s), s.numsync, s.sync) <==> EarlierKept(s)
  {
    hide Covers, AfterRemoval, AfterAdding, AfterFactor, EstimateConfirmed, Confirmed;
    EstimateKeeps(s);
    RemovalNumbers(s);
    CountsKnown(s);
    var e := EstimateConfirmed(s);
    var u := Shrunk(e);
    var v := Grown(u);
    AddingNumbers(s, u);
    FactorNumbers(s, u, v);
    BalancedCovers(s);
    CoversRelied(s, Stay(s).0, s.sync * s.active);
    CoversRelied(s, JoinRelied(s), s.active);
    CoversRelied(s, Relied(s), s.active);
  }

  // ---------------------------------------------------------------- what follows

  /** From a balanced state: the key a pass ends with is safe for earlier commits exactly if the confirmations it
      relies on survive the dead. */
  lemma BalancedEndKey(s: State)
    requires WellFormed(s) && Balanced(s) && s.sync * s.active != {}
    requires !JoinFails(s) && !LeaveFails(s)
    ensures var o := GenerateTransitions(s);
            o.Done? && (Safe(Paired(s, o.state)) <==> Survives(s, Relied(s)))
  {
    hide GenerateTransitions, Relied, Sound, Invariant, Safe, JoinFails, LeaveFails, Survives, Ended, Given;
    BalancedEnds(s);
    PassIsSound(s);
    PassExact(s);
    SameLeader(s, GenerateTransitions(s).state);
    var t := GenerateTransitions(s).state;
    SafeExact(Paired(s, t));
    CoversRelied(s, Relied(s), s.active);
  }

  /** With an unchanged factor, whatever joins or leaves and however many are confirmed, every key others see is
      safe for earlier commits exactly if no standby died, or all were waited for, or as many as were waited for
      are alive and the confirmed ones survive the dead. */
  lemma UnchangedFactorKept(s: State)
    requires Balanced(s) && s.wanted >= 1 && s.sync * s.active != {}
    requires s.numsync == Min(s.wanted, |s.sync|)
    ensures var dead, alive := |s.sync - s.active|, |s.sync * s.active|;
            EarlierKept(s) <==> dead == 0 || s.numsync == |s.sync| || (s.numsync <= alive && Confirmed(s) + dead <= s.numsync)
  {
    hide EstimateConfirmed;
    PairCard(s.sync, s.active);
    PairCard(s.active, s.sync);
    assert s.active * s.sync == s.sync * s.active;
    ConfirmedRange(s);
  }

  lemma ConfirmedRange(s: State)
    requires Balanced(s) && s.sync * s.active != {}
    ensures 1 <= Confirmed(s) <= |s.sync * s.active|
  {}

  /** When standbys only leave and as many as are waited for are confirmed, this is whether anybody left, unless
      all standbys were waited for. */
  lemma LeavingKept(s: State)
    requires WellFormed(s) && Balanced(s) && s.numsync == Min(s.wanted, |s.sync|)
    requires {} < s.active <= s.sync && s.numsync <= s.confirmed
    ensures var o := GenerateTransitions(s);
            o.Done? && (Safe(Paired(s, o.state)) <==> s.active == s.sync || s.wanted >= |s.sync|)
    ensures EarlierKept(s) <==> s.active == s.sync || s.wanted >= |s.sync|
  {
    hide GenerateTransitions, Safe, EstimateConfirmed, JoinFails, LeaveFails, EarlierKept;
    assert s.sync * s.active == s.active;
    SameFactorFits(s);
    BalancedEndKey(s);
    UnchangedFactorKept(s);
    DiffCard(s.active, s.sync);
    SubsetForms(s.sync, s.active);
    LeavingRelied(s);
  }

  lemma LeavingRelied(s: State)
    requires Balanced(s) && s.wanted >= 1 && s.numsync == Min(s.wanted, |s.sync|)
    requires {} < s.active <= s.sync && s.numsync <= s.confirmed
    ensures Survives(s, Relied(s)) <==> s.active == s.sync || s.wanted >= |s.sync|
    ensures Confirmed(s) == s.confirmed || s.numsync == 0
  {
    assert s.sync * s.active == s.active && s.active - s.sync == {};
    DiffCard(s.active, s.sync);
    SubsetForms(s.sync, s.active);
  }
}
