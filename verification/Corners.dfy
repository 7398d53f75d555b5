/** Inputs on which a promise of the documentation does not hold, next to the lemmas that say exactly when it does. */
module Corners {
  import opened Names
  import opened QuorumState
  import opened Overlap
  import opened Replay
  import opened Phases
  import opened Growth
  import opened Repairs
  import opened Passes
  import opened Transfer
  import opened Election
  import opened HaLoop
  import opened PassEnds
  import opened Earlier
  import opened Traces
  import opened Seen
  import opened Survival
  import Iteration

  /** A standby joins while the wanted factor jumps by two: the pass raises. */
  lemma JoinRaises()
    ensures exists s :: WellFormed(s) && Balanced(s) && JoinFails(s) && GenerateTransitions(s).Raised?
  {
    hide GenerateTransitions;
    var s := State(9, 1, {1, 2}, 1, {1, 2}, 2, {1, 2, 3}, 3, 9, []);
    assert s.sync * s.active == {1, 2};
    assert WellFormed(s) && Balanced(s) && JoinFails(s);
    PassFromBalanced(s);
  }

  /** A standby leaves while the wanted factor falls from three to one: the pass raises. */
  lemma LeaveRaises()
    ensures exists s :: WellFormed(s) && Balanced(s) && LeaveFails(s) && GenerateTransitions(s).Raised?
  {
    hide GenerateTransitions;
    var s := State(9, 1, {1, 2, 3, 4}, 3, {1, 2, 3, 4}, 2, {1, 2, 3}, 1, 9, []);
    assert s.sync * s.active == {1, 2, 3};
    assert WellFormed(s) && Balanced(s) && LeaveFails(s);
    PassFromBalanced(s);
  }

  /** The only voter has died while a standby without a vote is alive: the interrupted update is not completed. */
  lemma RepairRaises()
    ensures exists s :: WellFormed(s) && Interrupted(s) && s.voters < s.sync && s.voters != {} && HandleNonSteadyCases(s).Raised?
  {
    hide HandleNonSteadyCases, ListFails, MarginFails, AfterRepair, Matched;
    var s := State(9, 2, {1}, 1, {1, 2, 3}, 1, {2}, 1, 9, []);
    assert s.voters + s.sync == {1, 2, 3};
    InvariantPlaced(s);
    assert WellFormed(s) && Interrupted(s);
    OnlyVoterDead(s);
    HandleNonSteadyCasesExact(s);
  }

  lemma OnlyVoterDead(s: State)
    requires s == State(9, 2, {1}, 1, {1, 2, 3}, 1, {2}, 1, 9, [])
    ensures ListFails(s)
  {
    assert s.sync * s.active == {2} && s.sync - s.active == {1, 3};
    assert (s.sync - s.active) - s.voters == {3};
    assert !(s.voters <= s.sync * s.active) by {
      assert 1 in s.voters && 1 !in s.sync * s.active;
    }
  }

  /** The repair can succeed and the pass still raise later: here the one new node is too little for the factor. */
  lemma RepairedThenRaises()
    ensures exists s :: WellFormed(s) && Interrupted(s) && s.sync < s.voters
                        && HandleNonSteadyCases(s).Done? && GenerateTransitions(s).Raised?
  {
    hide GenerateTransitions, HandleNonSteadyCases, Matched, AfterRepair, AddFails, FactorFails, RepairFails, MarginFails;
    var s := State(9, 2, {1, 2, 3}, 1, {1, 2}, 2, {1, 2, 3, 4}, 4, 9, []);
    assert s.voters + s.sync == {1, 2, 3};
    InvariantPlaced(s);
    assert WellFormed(s) && Interrupted(s);
    OneUnlisted(s);
    HandleNonSteadyCasesExact(s);
    OneJoins(Shrunk(Mended(s)));
    PassExact(s);
  }

  lemma OneUnlisted(s: State)
    requires s == State(9, 2, {1, 2, 3}, 1, {1, 2}, 2, {1, 2, 3, 4}, 4, 9, [])
    ensures !RepairFails(s) && !MarginFails(s)
    ensures AfterRepair(s) == (2, 1) && Matched(s) == {1, 2, 3}
    ensures AfterRemoval(Mended(s)) == (2, 1) && Mended(s).sync * s.active == {1, 2, 3}
  {
    assert s.voters * s.active == {1, 2, 3} && Staying(s) == {1, 2, 3};
    assert Mended(s).sync - s.active == {};
  }

  lemma OneJoins(u: State)
    requires u == State(9, 2, {1, 2, 3}, 1, {1, 2, 3}, 2, {1, 2, 3, 4}, 4, 9, [])
    ensures AddFails(u)
  {
    assert u.active - u.sync == {4};
  }

  // ---------------------------------------------------------------- more votes than voters

  /** The check of a new quorum precedes its adjustment, so a pass can ask for more votes than there are voters;
      no election can be won then until more standbys are confirmed. It does so in these cases, told from the
      registers after the repair and the removal: nobody joins and the quorum was too high already; or the factor
      falls, and falls below the number of standbys that are listed but not confirmed. */
  predicate Exceeds(e: State) {
    var u := Shrunk(Mended(e));
    var unconfirmed := u.numsync - e.confirmed;
    if u.sync == {} then (if e.active == {} then u.quorum > 0 else e.confirmed < 0)
    else if Target(e) > u.numsync then e.confirmed < 0
    else if e.active - u.sync != {} then Target(e) > e.confirmed && unconfirmed > Target(e)
    else if Target(e) == u.numsync || u.quorum + u.numsync - Target(e) >= |e.active| then u.quorum > |e.active|
    else e.wanted > e.confirmed && unconfirmed > Target(e)
  }

  lemma ExceedsEnded(e: State)
    requires e.wanted >= 1
    ensures Ended(e).quorum > |Ended(e).voters| <==> Exceeds(e)
  {
    hide AfterRepair, Matched, AfterRemoval;
    var u := Shrunk(Mended(e));
    SubsetForms(e.active, u.sync);
    SubsetCard(u.sync, e.active);
    DiffCard(u.sync, e.active);
  }

  lemma QuorumExceedsExact(s: State)
    requires WellFormed(s)
    ensures var o := GenerateTransitions(s);
            o.Done? ==> (o.state.quorum > |o.state.voters| <==> Exceeds(Given(s)))
  {
    hide GenerateTransitions, Exceeds, Ended, Matched;
    PassExact(s);
    ExceedsEnded(Given(s));
  }

  /** From a balanced state of which some standby is alive. */
  lemma BalancedExceeds(s: State)
    requires WellFormed(s) && Balanced(s) && s.sync * s.active != {}
    requires !JoinFails(s) && !LeaveFails(s)
    ensures var o := GenerateTransitions(s);
            o.Done? && (o.state.quorum > |o.state.voters| <==> Relied(s) < 0)
  {
    hide GenerateTransitions, Relied, JoinFails, LeaveFails;
    BalancedEnds(s);
  }

  /** When only the factor changes: exactly when it falls below the number of listed standbys that are not
      confirmed. */
  lemma FactorExceeds(s: State)
    requires WellFormed(s) && Balanced(s) && s.active == s.sync
    ensures var o := GenerateTransitions(s);
            var factor := Min(s.wanted, |s.sync|);
            o.Done? && (o.state.quorum > |o.state.voters| <==>
                          factor < s.numsync && s.wanted > Confirmed(s) && s.numsync - Confirmed(s) > factor)
  {
    hide GenerateTransitions, Confirmed;
    FactorChangeOrdered(s);
    assert s.sync * s.active == s.sync && s.sync - s.active == {};
    if s.sync != {} {
      ConfirmedRange(s);
      BalancedEnds(s);
    } else {
      BalancedHolds(s);
    }
  }

  /** With an unchanged factor and a living standby never. */
  lemma UnchangedFactorBelow(s: State)
    requires WellFormed(s) && Balanced(s)
    requires s.numsync == Min(s.wanted, |s.sync|) && s.sync * s.active != {}
    ensures var o := GenerateTransitions(s); o.Done? && o.state.quorum < |o.state.voters|
  {
    hide GenerateTransitions, Confirmed;
    MembershipChange(s);
    ConfirmedRange(s);
    SubsetCard(s.sync * s.active, s.active);
  }

  /** An administrator lowers the factor from five to two while one of five standbys is confirmed: seven votes of
      five are asked for. */
  lemma QuorumExceedsVoters()
    ensures exists s ::
              && WellFormed(s) && Balanced(s) && s.active == s.sync && s.quorum < |s.voters|
              && GenerateTransitions(s).Done? && GenerateTransitions(s).state.voters == s.voters
              && GenerateTransitions(s).state.quorum > |GenerateTransitions(s).state.voters|
  {
    hide GenerateTransitions;
    var s := State(9, 0, {1, 2, 3, 4, 5}, 5, {1, 2, 3, 4, 5}, 1, {1, 2, 3, 4, 5}, 2, 9, []);
    assert s.sync * s.active == {1, 2, 3, 4, 5};
    assert WellFormed(s) && Balanced(s);
    FactorExceeds(s);
    FactorChangeOrdered(s);
  }

  // ---------------------------------------------------------------- commits from before the list changed

  /** One of two standbys is gone. */
  lemma OneGoneDismissed(s: State)
    requires s == State(1, 1, {2, 3}, 1, {2, 3}, 1, {3}, 1, 1, [])
    ensures RemoveWithinQuorum(s, {2}) ==
            Done(s.(quorum := 0, voters := {3}, sync := {3},
                    trace := [Transition(Sync, 1, 1, {3}), Transition(Quorum, 1, 0, {3})]))
  {
    hide QuorumUpdate, SyncUpdate, Invariant;
    var leave := Greatest({2}, 1);
    SubsetCard(leave, {2});
    assert s.sync - {2} == {3};
    assert {2} * {3} == {} && {3} + {3} == {3} && {2, 3} + {3} == {2, 3};
    SyncRule(s, 1, {3});
    var t := SyncUpdate(s, 1, {3}).state;
    assert t.voters - {2} == {3};
    QuorumRule(t, 0, {3}, true);
  }

  lemma OneGonePass(s: State)
    requires s == State(1, 1, {2, 3}, 1, {2, 3}, 1, {3}, 1, 1, [])
    ensures GenerateTransitions(s) ==
            Done(s.(quorum := 0, voters := {3}, sync := {3},
                    trace := [Transition(Sync, 1, 1, {3}), Transition(Quorum, 1, 0, {3})]))
  {
    hide HandleNonSteadyCases, RemoveWithinQuorum, RemoveGoneNodes, AddNewNodes;
    hide ChangeReplicationFactor, Settle, Invariant, GenerateTransitions;
    assert s.sync - s.active == {2} && s.sync * s.active == {3};
    OneGoneDismissed(s);
    var u := RemoveWithinQuorum(s, {2}).state;
    assert {2} * u.sync == {};
    NothingRemains(u);
    RemoveSome(s, {2}, u);
    PassFromBalanced(s);
    BalancedHolds(s);
    SettleThrough(s, s, u);
    AddNone(u);
    FactorKept(u);
  }

  lemma OneGonePlanned(c: Config, r: Round, settings: Settings)
    requires c == Config(Some(Key(1, 1, {2, 3})), Listed(1, {2, 3}), 1)
    requires r == Round(1, {3}, 2) && settings == Settings(1, 0)
    ensures Planned(c, r, settings) == [Transition(Sync, 1, 1, {3}), Transition(Quorum, 1, 0, {3})]
  {
    hide GenerateTransitions, Iteration.Merge;
    var s := Resolve(c, r, settings);
    OneGonePass(s);
    var ts := GenerateTransitions(s).state.trace;
    Iteration.MergeStep(ts, 0);
    Iteration.MergeStep(ts, 1);
    Iteration.MergeNothing(ts);
  }

  /** The safety of elections is that of the list in force. A commit from before the list changed is covered only
      as far as the later key still fits the earlier list: here node 2 alone confirmed it and is removed, and one
      pass later node 3 may win without it. */
  lemma EarlierCommitMissed()
    ensures exists c: Config, r: Round, d ::
              && c.key.Some? && Consistent(c) && c.primary !in r.active
              && d in Visits(c, [r], Settings(1, 0)) && d.key.Some? && Consistent(d)
              && !Safe(Mixed(c, d))
  {
    hide Planned, Consistent, Safe;
    var c := Config(Some(Key(1, 1, {2, 3})), Listed(1, {2, 3}), 1);
    var r := Round(1, {3}, 2);
    var settings := Settings(1, 0);
    OneGonePlanned(c, r, settings);
    assert Consistent(c) by {
      OneGoneConsistent(c);
    }
    RoundConsistent(c, r, settings);
    var ts := Applied(c, r, settings);
    var steps := Steps(c, ts, settings.minSync);
    var d := Final(c, steps);
    assert d in steps;
    assert ts[..1] == [ts[0]] && ts[..1][..0] == [];
    assert d == Config(Some(Key(1, 0, {3})), Listed(1, {3}), 1);
    assert {3} + {2, 3} == {2, 3};
    InvariantPlaced(Mixed(c, d));
    InvariantIsSafety(Mixed(c, d));
    assert d in Visits(c, [r], settings);
  }

  /** The same from equal sets with slack: two of three standbys are waited for and confirmed, the third is gone. The pass
      trims the quorum, dismisses it and ends with a key that needs no vote. */
  lemma SlackCommitMissed()
    ensures exists s :: WellFormed(s) && Steady(s) && s.quorum + s.numsync > |s.sync| && !Fails(s) && !PassKeeps(s)
  {
    hide Fails, Mended, Given;
    var s := State(9, 2, {1, 2, 3}, 2, {1, 2, 3}, 2, {2, 3}, 2, 9, []);
    SlackTrimmedAway(s);
    var m := Mended(Given(s));
    assert m.sync - m.active == {1} && m.sync * m.active == {2, 3};
    var u := Shrunk(m);
    assert u.sync == {2, 3} && u.quorum == 0;
    assert {2, 3} + {1, 2, 3} == {1, 2, 3};
    assert !KeyCovers(u, 2, {1, 2, 3});
  }

  lemma SlackTrimmedAway(s: State)
    requires s == State(9, 2, {1, 2, 3}, 2, {1, 2, 3}, 2, {2, 3}, 2, 9, [])
    ensures WellFormed(s) && Steady(s) && !Fails(s)
    ensures Mended(Given(s)) == s.(quorum := 1)
  {
    assert s.sync + s.sync == s.sync;
    InvariantPlaced(s);
    assert Given(s) == s;
    assert s.sync - s.active == {1} && s.sync * s.active == {2, 3};
    assert Mended(s) == s.(quorum := 1);
    var u := Shrunk(Mended(s));
    assert u.sync == {2, 3} && u.active - u.sync == {};
    assert !SettleFails(s);
  }

  /** For any later key that names the primary, an earlier list is covered exactly if all members of the key are
      needed or the two are small enough together. What this means for the start of a pass is the subject of
      `Survival`. */
  lemma EarlierCommitCovered(c: Config, d: Config)
    requires d.key.Some?
    requires var s := Mixed(c, d);
             && s.leader == s.leaderWanted && s.leader !in s.voters + s.sync
             && s.quorum >= 0 && 0 <= s.numsync
    ensures var s := Mixed(c, d); Safe(s) <==> s.quorum >= |s.voters| || |s.voters + s.sync| <= s.quorum + s.numsync
  {
    hide Safe;
    SafeExact(Mixed(c, d));
  }

  lemma OneGoneConsistent(c: Config)
    requires c == Config(Some(Key(1, 1, {2, 3})), Listed(1, {2, 3}), 1)
    ensures Consistent(c)
  {
    assert {2, 3} + {2, 3} == {2, 3};
    InvariantPlaced(View(c));
  }
}
