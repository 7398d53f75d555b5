/**
 * The keys of a pass that others see, paired with the list under which earlier commits were acknowledged.
 */
module Seen {
  import opened Names
  import opened QuorumState
  import opened Overlap
  import opened Replay
  import opened Phases
  import opened Growth
  import opened Repairs
  import opened Passes
  import opened PassEnds
  import opened Transfer
  import opened Traces

  /** An election under this key meets every commit acknowledged by `num` of these nodes. */
  predicate Covers(quorum: int, voters: set<Name>, num: int, names: set<Name>) {
    quorum >= |voters| || |voters + names| <= quorum + num
  }

  predicate KeyCovers(s: State, num: int, names: set<Name>) {
    Covers(s.quorum, s.voters, num, names)
  }

  predicate StartsWithKey(ts: seq<Transition>, next: bool) {
    if ts == [] then next else ts[0].kind == Quorum
  }

  /** Every key in the list covers, unless another key follows at once and replaces it before anybody looks;
      `next` tells whether one follows the list. */
  predicate SeenCover(ts: seq<Transition>, next: bool, num: int, names: set<Name>)
    decreases |ts|
  {
    ts != [] ==>
      && (ts[0].kind == Quorum && !StartsWithKey(ts[1..], next) ==> Covers(ts[0].num, ts[0].names, num, names))
      && SeenCover(ts[1..], next, num, names)
  }

  lemma {:induction false} SeenJoin(a: seq<Transition>, b: seq<Transition>, next: bool, num: int, names: set<Name>)
    ensures SeenCover(a + b, next, num, names) <==>
              SeenCover(a, StartsWithKey(b, next), num, names) && SeenCover(b, next, num, names)
    ensures StartsWithKey(a + b, next) <==> StartsWithKey(a, StartsWithKey(b, next))
    decreases |a|
  {
    if a == [] {
      assert a + b == b;
    } else {
      assert (a + b)[1..] == a[1..] + b;
      if a[1..] == [] {
        assert a[1..] + b == b;
      }
      SeenJoin(a[1..], b, next, num, names);
    }
  }

  lemma SeenOne(a: Transition, next: bool, num: int, names: set<Name>)
    ensures SeenCover([a], next, num, names) <==>
              (a.kind == Quorum && !next ==> Covers(a.num, a.names, num, names))
    ensures StartsWithKey([a], next) <==> a.kind == Quorum
  {
    assert [a][1..] == [];
  }

  lemma SeenPair(a: Transition, b: Transition, next: bool, num: int, names: set<Name>)
    ensures SeenCover([a, b], next, num, names) <==>
              && (a.kind == Quorum && b.kind != Quorum ==> Covers(a.num, a.names, num, names))
              && (b.kind == Quorum && !next ==> Covers(b.num, b.names, num, names))
    ensures StartsWithKey([a, b], next) <==> a.kind == Quorum
  {
    hide Covers;
    assert [a, b][1..] == [b];
    SeenOne(b, next, num, names);
  }

  lemma SeenNothing(next: bool, num: int, names: set<Name>)
    ensures SeenCover([], next, num, names) && (StartsWithKey([], next) <==> next)
  {}

  lemma CoversNobody(quorum: int, num: int, names: set<Name>)
    ensures quorum >= 0 ==> Covers(quorum, {}, num, names)
  {}

  // ---------------------------------------------------------------- the phases after the repair

  /** The removal shows its last key when no other key follows at once, or when the list follows. */
  lemma RemovalSeen(s: State, next: bool, num: int, names: set<Name>)
    requires Steady(s)
    ensures var dead := s.sync - s.active;
            var rest := s.sync * s.active;
            && (SeenCover(RemovalTrace(s), next, num, names) <==>
                  (dead != {} && rest != {} && (|dead| > s.quorum || !next) ==> Covers(AfterRemoval(s).0, rest, num, names)))
            && (StartsWithKey(RemovalTrace(s), next) <==> if dead == {} then next else rest == {} || s.quorum == 0)
  {
    hide Covers, SeenCover, StartsWithKey, Greatest, SpentTrace;
    var dead := s.sync - s.active;
    var rest := s.sync * s.active;
    if dead == {} {
      SeenNothing(next, num, names);
    } else if rest == {} {
      SeenPair(KeyWrite(s, 0, {}), ListWrite(s, 0, {}), next, num, names);
      CoversNobody(0, num, names);
    } else if |dead| <= s.quorum {
      SeenPair(ListWrite(s, AfterRemoval(s).1, rest), KeyWrite(s, AfterRemoval(s).0, rest), next, num, names);
    } else {
      SeenJoin(SpentTrace(s, dead), PaidTrace(s, rest), next, num, names);
      SeenPair(KeyWrite(s, |rest| - Min(s.wanted, |rest|), rest), ListWrite(s, |rest|, rest), next, num, names);
      SpentUnseen(s, dead, num, names);
      RemovalSizes(s);
    }
  }

  lemma RemovalSizes(s: State)
    requires |s.sync - s.active| > s.quorum >= 0 && s.sync * s.active != {}
    ensures AfterRemoval(s) == (|s.sync * s.active| - Min(s.wanted, |s.sync * s.active|), |s.sync * s.active|)
  {}

  /** The key written while the quorum is spent is replaced at once. */
  lemma SpentUnseen(s: State, dead: set<Name>, num: int, names: set<Name>)
    requires s.quorum >= 0
    ensures SeenCover(SpentTrace(s, dead), true, num, names)
    ensures StartsWithKey(SpentTrace(s, dead), true) <==> s.quorum == 0
  {
    hide Covers, SeenCover, StartsWithKey, Greatest;
    if s.quorum <= 0 {
      SeenNothing(true, num, names);
    } else {
      var kept := s.sync - Greatest(dead, s.quorum);
      SeenPair(ListWrite(s, |kept|, kept), KeyWrite(s, 0, kept), true, num, names);
    }
  }

  /** The addition shows its last key; one that the rest of the nodes replace at once is not seen. */
  lemma AddingSeen(s: State, num: int, names: set<Name>)
    requires Steady(s) && {} < s.sync < s.active
    ensures SeenCover(AddingTrace(s), false, num, names) <==> Covers(AfterAdding(s).0, s.active, num, names)
  {
    hide Covers, SeenCover, StartsWithKey, Smallest;
    var joining := s.active - s.sync;
    assert s.sync + joining == s.active && joining != {};
    DiffCard(s.sync, s.active);
    if Target(s) <= s.numsync {
      SeenOthers(s, s.active, Target(s), num, names);
    } else {
      var add := Smallest(joining, Target(s) - s.numsync);
      SubsetCard(add, joining);
      if add == joining {
        SeenChosen(s, add, Target(s), false, num, names);
        assert ChosenTrace(s, add, Target(s)) + [] == ChosenTrace(s, add, Target(s));
      } else {
        var others := OthersTrace(s.(numsync := Target(s)), s.active, Target(s));
        SeenJoin(ChosenTrace(s, add, Target(s)), others, false, num, names);
        SeenChosen(s, add, Target(s), true, num, names);
        SeenOthers(s.(numsync := Target(s)), s.active, Target(s), num, names);
      }
    }
  }

  lemma AddingStarts(s: State)
    requires s.active - s.sync != {}
    ensures AddingTrace(s) != []
    ensures forall next :: StartsWithKey(AddingTrace(s), next) <==> Target(s) <= s.numsync
  {
    hide Smallest;
  }

  lemma SeenOthers(s: State, nodes: set<Name>, target: int, num: int, names: set<Name>)
    ensures SeenCover(OthersTrace(s, nodes, target), false, num, names) <==>
              Covers(|nodes| - target + (if target > s.confirmed then Max(s.numsync - s.confirmed, 0) else 0), nodes, num, names)
    ensures StartsWithKey(OthersTrace(s, nodes, target), false)
  {
    hide Covers, SeenCover;
    var ts := OthersTrace(s, nodes, target);
    SeenPair(ts[0], ts[1], false, num, names);
  }

  lemma SeenChosen(s: State, add: set<Name>, target: int, next: bool, num: int, names: set<Name>)
    ensures var all := s.sync + add;
            SeenCover(ChosenTrace(s, add, target), next, num, names) <==>
              (!next ==> Covers(|all| - target + Max(s.numsync + |add| - s.confirmed, 0), all, num, names))
  {
    hide Covers, SeenCover;
    var ts := ChosenTrace(s, add, target);
    SeenPair(ts[0], ts[1], next, num, names);
  }

  /** The change of the factor begins with the key. */
  predicate LowersFirst(s: State) {
    Min(s.wanted, |s.sync|) < s.numsync && AfterFactor(s) != s.quorum
  }

  /** The change of the factor shows its key if it writes one. */
  lemma ChangeSeen(s: State, num: int, names: set<Name>)
    ensures SeenCover(ChangeTrace(s), false, num, names) <==>
              (AfterFactor(s) != s.quorum ==> Covers(AfterFactor(s), s.sync, num, names))
    ensures StartsWithKey(ChangeTrace(s), false) <==> LowersFirst(s)
  {
    hide Covers, SeenCover, StartsWithKey;
    var factor := Min(s.wanted, |s.sync|);
    var list, key := ListWrite(s, factor, s.sync), KeyWrite(s, AfterFactor(s), s.sync);
    assert [list] + [] == [list] && [list] + [key] == [list, key] && [] + [list] == [list] && [key] + [list] == [key, list];
    SeenNothing(false, num, names);
    SeenOne(list, false, num, names);
    SeenPair(list, key, false, num, names);
    SeenPair(key, list, false, num, names);
  }

  /** The phases after the removal begin with the key. */
  predicate GrowthRewrites(s: State) {
    if s.sync == s.active then LowersFirst(s) else Target(s) <= s.numsync
  }

  /** The phases after the repair begin with the key. */
  predicate TailRewrites(s: State) {
    if s.sync - s.active == {} then GrowthRewrites(Shrunk(s)) else s.quorum == 0
  }

  /** Nothing is added where all active nodes are listed, and an addition does not make the factor fall. */
  lemma GrownForms(u: State)
    requires Steady(u) && {} < u.sync <= u.active
    ensures u.sync == u.active ==> Alike(Grown(u), u) && AddingTrace(u) == []
    ensures u.sync != u.active ==> u.active - u.sync != {} && !LowersFirst(Grown(u))
  {
    if u.sync == u.active {
      assert u.active - u.sync == {};
    } else {
      assert u.active - u.sync != {};
      assert |u.active - u.sync| > 0;
    }
  }

  /** What is seen of the last two phases. */
  lemma GrowthSeen(u: State, num: int, names: set<Name>)
    requires Steady(u) && {} < u.sync <= u.active
    ensures var v := Grown(u);
            SeenCover(GrowthTrace(u), false, num, names) <==>
              && (u.sync != u.active ==> KeyCovers(v, num, names))
              && (AfterFactor(v) != v.quorum ==> KeyCovers(Changed(v), num, names))
    ensures StartsWithKey(GrowthTrace(u), false) <==> GrowthRewrites(u)
  {
    hide AddingTrace, ChangeTrace, AfterAdding, AfterFactor, Covers, SeenCover, StartsWithKey, LowersFirst;
    var v := Grown(u);
    SeenJoin(AddingTrace(u), ChangeTrace(v), false, num, names);
    ChangeSeen(v, num, names);
    GrownForms(u);
    if u.sync == u.active {
      SeenNothing(LowersFirst(v), num, names);
      LowersAlike(v, u);
    } else {
      AddingSeen(u, num, names);
      AddingStarts(u);
    }
  }

  lemma LowersAlike(s: State, t: State)
    requires Alike(s, t)
    ensures LowersFirst(s) <==> LowersFirst(t)
    ensures AfterFactor(s) == AfterFactor(t)
  {
    hide AfterFactor;
    AlikeForms(s, t);
  }

  lemma LowersFactor(u: State)
    requires Steady(u) && {} < u.sync <= u.active
    ensures LowersFirst(u) && u.sync == u.active ==> AfterFactor(Grown(u)) != Grown(u).quorum
  {
    hide AfterFactor, AfterAdding;
    GrownForms(u);
    if u.sync == u.active {
      LowersAlike(Grown(u), u);
    }
  }

  /** Every key that is seen from the end of the repair on covers: the key it left, unless it is replaced at once; then
      those of the removal, of the addition and of the change of the factor. */
  predicate TailKeeps(s: State, num: int, names: set<Name>) {
    var u := Shrunk(s);
    var v := Grown(u);
    if u.sync == {} then KeyCovers(Restarted(u), num, names)
    else
      && (TailRewrites(s) || KeyCovers(s, num, names))
      && ((|s.sync - s.active| <= s.quorum && GrowthRewrites(u)) || KeyCovers(u, num, names))
      && (u.sync == u.active || KeyCovers(v, num, names))
      && KeyCovers(Changed(v), num, names)
  }

  lemma ShrunkSteady(s: State)
    requires Steady(s)
    ensures Steady(Shrunk(s)) && Shrunk(s).sync <= s.active
    ensures s.sync - s.active == {} ==> Shrunk(s) == s
    ensures Shrunk(s).sync == {} ==> Shrunk(s).numsync == 0 && (s.sync != {} ==> s.sync - s.active != {})
  {
    PairCard(s.sync, s.active);
    if s.sync - s.active == {} {
      SubsetForms(s.sync, s.active);
    }
  }

  /** Where no standby is left. */
  lemma RestartSeen(u: State, num: int, names: set<Name>)
    requires Steady(u) && u.sync == {}
    ensures SeenCover(GrowthTrace(u), false, num, names) <==> KeyCovers(Restarted(u), num, names)
    ensures !StartsWithKey(GrowthTrace(u), false)
  {
    hide SeenCover, StartsWithKey;
    CoversNobody(0, num, names);
    SeenNothing(false, num, names);
    if u.active != {} {
      var list := ListWrite(u, Target(u), u.active);
      var hint, last := Transition(Restart, u.leader, 0, {}), KeyWrite(u, 0, {});
      var key := KeyWrite(u, |u.active| - Target(u) + Max(Target(u) - u.confirmed, 0), u.active);
      SeenPair(list, key, false, num, names);
      SeenPair(list, last, false, num, names);
      SeenOne(list, false, num, names);
      SeenPair(hint, last, false, num, names);
      SeenJoin([list], [hint, last], false, num, names);
      assert [list] + [key] == [list, key] && [hint] + [last] == [hint, last] && [list] + [last] == [list, last];
      assert [] + [last] == [last];
    }
  }

  /** What is seen from the end of the repair on, its key included. */
  lemma TailSeen(s: State, num: int, names: set<Name>)
    requires Steady(s)
    ensures (StartsWithKey(TailTrace(s), false) || KeyCovers(s, num, names)) && SeenCover(TailTrace(s), false, num, names)
            <==> TailKeeps(s, num, names)
  {
    hide RemovalTrace, GrowthTrace, AfterRemoval, AfterAdding, AfterFactor, SeenCover, StartsWithKey, Restarted, LowersFirst;
    hide Covers;
    var u := Shrunk(s);
    ShrunkSteady(s);
    SeenJoin(RemovalTrace(s), GrowthTrace(u), false, num, names);
    RemovalSeen(s, StartsWithKey(GrowthTrace(u), false), num, names);
    if u.sync == {} {
      RestartSeen(u, num, names);
      CoversNobody(s.quorum, num, names);
    } else {
      GrowthSeen(u, num, names);
      GrownForms(u);
      LowersFactor(u);
    }
  }

  // ---------------------------------------------------------------- the repair

  predicate OwnCovers(s: State, quorum: int, voters: set<Name>) {
    Covers(quorum, voters, s.numsync, s.sync)
  }

  lemma InterruptedCovers(s: State)
    requires Interrupted(s)
    ensures OwnCovers(s, s.quorum, s.voters)
  {
    hide Invariant;
    InvariantPlaced(s);
  }

  /** Trimming the margin writes the list or the key, not both. */
  lemma TrimSeen(s: State, next: bool, num: int, names: set<Name>)
    requires Steady(s)
    ensures SeenCover(TrimTrace(s), next, num, names) <==>
              (AfterTrim(s).0 != s.quorum && !next ==> KeyCovers(Trimmed(s), num, names))
    ensures TrimTrace(s) == [] ==> AfterTrim(s).0 == s.quorum
  {
    hide Covers, SeenCover, StartsWithKey;
    SeenNothing(next, num, names);
    SeenOne(ListWrite(s, AfterTrim(s).1, s.sync), next, num, names);
    SeenOne(KeyWrite(s, AfterTrim(s).0, s.sync), next, num, names);
  }

  /** With just the votes that the unconfirmed standbys require there is nothing to trim. */
  lemma NothingToTrim(s: State)
    requires Steady(s) && s.sync != {} && s.quorum == |s.sync| - s.numsync + Max(s.numsync - s.confirmed, 0)
    ensures TrimTrace(s) == []
  {}

  /** While voters leave and the others are listed, every key covers. */
  lemma VotersSeen(s: State, next: bool)
    requires Interrupted(s) && s.sync < s.voters && !VotersFail(s)
    ensures SeenCover(VotersTrace(s), next, s.numsync, s.sync)
    ensures OwnCovers(s, AfterEviction(s), Staying(s))
  {
    hide Invariant, Covers, SeenCover, StartsWithKey, AfterEviction, Staying;
    VotersStayCovered(s);
    var list := if s.sync == Staying(s) then [] else [ListWrite(s, s.numsync, Staying(s))];
    SeenJoin(EvictionTrace(s), list, next, s.numsync, s.sync);
    SeenNothing(next, s.numsync, s.sync);
    SeenNothing(StartsWithKey(list, next), s.numsync, s.sync);
    SeenOne(ListWrite(s, s.numsync, Staying(s)), next, s.numsync, s.sync);
    SeenOne(KeyWrite(s, AfterEviction(s), Staying(s)), StartsWithKey(list, next), s.numsync, s.sync);
  }

  lemma VotersStayCovered(s: State)
    requires Interrupted(s) && s.sync < s.voters
    ensures OwnCovers(s, AfterEviction(s), Staying(s))
  {
    hide Invariant;
    VotersFit(s);
    assert Staying(s) + s.sync == Staying(s);
  }

  /** While living standbys get a vote and the others leave the list: the last key is seen unless it is replaced at once,
      or covers anyway. */
  predicate Shows(s: State, ts: seq<Transition>, r: State, next: bool) {
    || (SeenCover(ts, next, s.numsync, s.sync) && OwnCovers(s, r.quorum, r.voters))
    || (TrimTrace(r) == [] && (SeenCover(ts, next, s.numsync, s.sync) <==> next || OwnCovers(s, r.quorum, r.voters)))
  }

  /** Nobody is admitted, or the key is reset: the key that is left covers. */
  lemma AdmissionSilent(s: State, d: State, next: bool)
    requires OwnCovers(s, d.quorum, d.voters) && d.voters <= d.sync
    requires (d.sync - d.voters) * d.active == {} || (d.voters == {} && d.confirmed == 0)
    ensures SeenCover(AdmissionTrace(d) + VotelessTrace(d), next, s.numsync, s.sync)
    ensures OwnCovers(s, AfterAdmission(d).0, Voting(d))
  {
    hide SeenCover, StartsWithKey, Covers;
    var num, names := s.numsync, s.sync;
    CoversNobody(0, num, names);
    SeenJoin(AdmissionTrace(d), VotelessTrace(d), next, num, names);
    SeenNothing(next, num, names);
    SeenOne(ListWrite(d, AfterAdmission(d).1, Voting(d)), next, num, names);
    var after := StartsWithKey(VotelessTrace(d), next);
    SeenNothing(after, num, names);
    SeenOne(KeyWrite(d, 0, {}), after, num, names);
    SeenPair(Transition(Restart, d.leader, 0, {}), KeyWrite(d, 0, {}), after, num, names);
    var hint, key := Transition(Restart, d.leader, 0, {}), KeyWrite(d, 0, {});
    assert [hint] + [key] == [hint, key] && [] + [key] == [key];
    VotingSets(d, (d.sync - d.voters) * d.active);
  }

  /** Some are admitted. */
  lemma AdmissionSeen(s: State, d: State, next: bool)
    requires d.voters <= d.sync && (d.sync - d.voters) * d.active != {} && (d.voters != {} || d.confirmed != 0)
    ensures SeenCover(AdmissionTrace(d) + VotelessTrace(d), next, s.numsync, s.sync) <==>
              (next && Voting(d) == d.sync) || OwnCovers(s, AfterAdmission(d).0, Voting(d))
  {
    hide SeenCover, StartsWithKey, Covers, AfterAdmission, Voting;
    var num, names := s.numsync, s.sync;
    SeenJoin(AdmissionTrace(d), VotelessTrace(d), next, num, names);
    SeenNothing(next, num, names);
    SeenOne(ListWrite(d, AfterAdmission(d).1, Voting(d)), next, num, names);
    SeenOne(KeyWrite(d, AfterAdmission(d).0, Voting(d)), StartsWithKey(VotelessTrace(d), next), num, names);
  }

  /** Nothing is dropped first: the key of the admission covers the list it was taken from. */
  lemma ListedWhole(s: State, next: bool)
    requires Interrupted(s) && s.voters < s.sync && !ListFails(s) && !Drops(s)
    ensures SeenCover(ListedTrace(s), next, s.numsync, s.sync) && OwnCovers(s, AfterAdmission(s).0, Voting(s))
  {
    hide SeenCover, Covers, AdmissionTrace, VotelessTrace, AfterAdmission, Voting, ListFails, Invariant;
    InterruptedCovers(s);
    if (s.sync - s.voters) * s.active == {} || (s.voters == {} && s.confirmed == 0) {
      AdmissionSilent(s, s, next);
    } else {
      ListFailsSkipping(s);
      AdmissionCovers(s);
      AdmissionSeen(s, s, next);
    }
  }

  lemma AdmissionCovers(s: State)
    requires Interrupted(s) && s.voters < s.sync && !AdmitFails(s) && !Drops(s)
    requires (s.sync - s.voters) * s.active != {} && (s.voters != {} || s.confirmed != 0)
    ensures OwnCovers(s, AfterAdmission(s).0, Voting(s))
  {
    hide Invariant;
    var admitted := (s.sync - s.voters) * s.active;
    VotingSets(s, admitted);
    DisjointCard(s.voters, admitted);
    assert Voting(s) + s.sync == s.sync;
    if s.voters == {} {
      assert admitted == s.sync * s.active;
      SubsetForms(s.sync, s.active);
      assert Voting(s) == s.sync;
    }
  }

  /** The dead are dropped first: then all that remain vote, and the key may no longer cover. */
  lemma ListedDropped(s: State, next: bool)
    requires Interrupted(s) && s.voters < s.sync && !ListFails(s) && Drops(s)
    ensures var d := Dropped(s);
            Shows(s, AdmissionTrace(d) + VotelessTrace(d), Repaired(s), next)
  {
    hide SeenCover, Covers, AdmissionTrace, VotelessTrace, Invariant;
    var d := Dropped(s);
    InterruptedCovers(s);
    DroppedForms(s);
    if (d.sync - d.voters) * d.active == {} || (d.voters == {} && d.confirmed == 0) {
      AdmissionSilent(s, d, next);
    } else {
      AdmissionSeen(s, d, next);
      DroppedTrim(s);
    }
  }

  lemma DroppedForms(s: State)
    requires Interrupted(s) && s.voters < s.sync && !ListFails(s) && Drops(s)
    ensures s.voters <= Dropped(s).sync && Matched(s) == Voting(Dropped(s)) && AfterMatch(s) == AfterAdmission(Dropped(s))
    ensures s.voters != {} || s.confirmed != 0 ==> Voting(Dropped(s)) == Dropped(s).sync
  {
    hide AfterAdmission, Invariant;
    VotingDropped(s);
    assert s.sync * s.active * s.voters != {} ==> s.voters != {};
    if s.voters == {} {
      assert s.voters <= s.sync * s.active;
    }
    assert s.voters <= s.sync * s.active;
    assert s.voters + s.sync * s.active == s.sync * s.active;
  }

  lemma DroppedTrim(s: State)
    requires Interrupted(s) && s.voters < s.sync && !ListFails(s) && Drops(s)
    requires var d := Dropped(s); (d.sync - d.voters) * d.active != {} && (d.voters != {} || d.confirmed != 0)
    ensures TrimTrace(Repaired(s)) == []
  {
    hide Invariant;
    var r, d := Repaired(s), Dropped(s);
    DroppedForms(s);
    NothingToTrim(r);
  }

  lemma MatchSeen(s: State, next: bool)
    requires Interrupted(s) && !RepairFails(s)
    ensures Shows(s, MatchTrace(s), Repaired(s), next)
  {
    hide SeenCover, StartsWithKey, Covers, Invariant, AdmissionTrace, VotelessTrace, VotersTrace, AfterAdmission, AfterEviction;
    hide Voting, Staying, VotersFail, ListFails;
    if s.sync < s.voters {
      VotersSeen(s, next);
    } else if s.voters < s.sync {
      if Drops(s) {
        var rest := AdmissionTrace(Dropped(s)) + VotelessTrace(Dropped(s));
        SeenJoin([ListWrite(s, Dropped(s).numsync, Dropped(s).sync)], rest, next, s.numsync, s.sync);
        SeenOne(ListWrite(s, Dropped(s).numsync, Dropped(s).sync), StartsWithKey(rest, next), s.numsync, s.sync);
        ListedDropped(s, next);
      } else {
        ListedWhole(s, next);
      }
    } else {
      SeenNothing(next, s.numsync, s.sync);
      InterruptedCovers(s);
      InvariantPlaced(s);
      assert s.voters == s.sync;
      assert Repaired(s) == s;
    }
  }

  lemma RepairedSteady(s: State)
    requires Interrupted(s) && !RepairFails(s)
    ensures Steady(Repaired(s))
    ensures !MarginFails(s) ==> Steady(Mended(s))
  {
    hide Invariant, RepairFails, MarginFails, MatchSets, HandleNonSteadyCases;
    hide AfterMatch, AfterRepair, Matched, RepairTrace, MatchTrace;
    MatchSetsExact(s);
    HandleNonSteadyCasesExact(s);
  }

  /** What is seen of the repair: its last key, unless it is replaced at once. */
  lemma RepairSeen(s: State, next: bool)
    requires Interrupted(s) && !RepairFails(s)
    ensures SeenCover(RepairTrace(s), next, s.numsync, s.sync) <==> next || OwnCovers(s, Mended(s).quorum, Mended(s).voters)
  {
    hide SeenCover, StartsWithKey, Covers, RepairFails, AfterMatch, Matched, AfterTrim, MatchTrace, TrimTrace, Interrupted;
    var r := Repaired(s);
    var after := StartsWithKey(TrimTrace(r), next);
    SeenJoin(MatchTrace(s), TrimTrace(r), next, s.numsync, s.sync);
    MatchSeen(s, after);
    RepairedSteady(s);
    TrimSeen(r, next, s.numsync, s.sync);
    SeenNothing(next, s.numsync, s.sync);
  }

  /** The four phases, for the list they start from. */
  lemma SettleSeen(s: State)
    requires Interrupted(s) && !SettleFails(s)
    ensures SeenCover(SettleTrace(s), false, s.numsync, s.sync) <==> TailKeeps(Mended(s), s.numsync, s.sync)
  {
    hide SeenCover, StartsWithKey, Covers, Interrupted, RepairFails, MarginFails, Mended, RepairTrace, TailTrace, TailKeeps;
    var m := Mended(s);
    SettleSucceeds(s);
    RepairedSteady(s);
    SeenJoin(RepairTrace(s), TailTrace(m), false, s.numsync, s.sync);
    RepairSeen(s, StartsWithKey(TailTrace(m), false));
    TailSeen(m, s.numsync, s.sync);
  }

  lemma SettleSucceeds(s: State)
    requires !SettleFails(s)
    ensures !RepairFails(s) && !MarginFails(s)
  {}

  /** A new primary without a list: the claim is seen unless it is replaced at once. */
  lemma FirstClaimSeen(s: State)
    requires HandedOver(s) && s.sync == {} && s.quorum < |Inherited(s)| && !Stops(s)
    ensures SeenCover(PassTrace(s), false, 0, {}) <==> TailKeeps(Mended(TakenOver(s)), 0, {})
  {
    hide SeenCover, StartsWithKey, Covers, RepairTrace, TailTrace, TailKeeps, Mended;
    var e := TakenOver(s);
    FirstClaimMended(s);
    var list, key := ListWrite(s, |Inherited(s)| - s.quorum, Inherited(s)), KeyWrite(Takeover(s), s.quorum, Inherited(s));
    assert [list] + [key] == [list, key];
    assert [] + TailTrace(e) == TailTrace(e);
    SeenJoin([list, key], TailTrace(e), false, 0, {});
    SeenPair(list, key, StartsWithKey(TailTrace(e), false), 0, {});
    TailSeen(e, 0, {});
  }

  lemma FirstClaimMended(s: State)
    requires HandedOver(s) && s.sync == {} && s.quorum < |Inherited(s)| && !Stops(s)
    ensures Steady(TakenOver(s)) && Mended(TakenOver(s)) == TakenOver(s) && RepairTrace(TakenOver(s)) == []
  {
    hide RepairFails, MarginFails;
    var e := TakenOver(s);
    assert e.sync * e.active != {} && e.sync != {};
    assert e.sync == e.voters;
  }

  /** The condition for every key of a pass that others see: what the phases leave covers the list the pass started from,
      told from the registers, the active nodes, the wanted factor and the confirmed count. */
  predicate PassKeeps(s: State) {
    if s.leader == s.leaderWanted then TailKeeps(Mended(Given(s)), s.numsync, s.sync)
    else if Stops(s) then s.sync != {}
    else TailKeeps(Mended(TakenOver(s)), s.numsync, s.sync)
  }

  lemma GivenOwn(s: State)
    requires WellFormed(s)
    ensures Given(s).numsync == s.numsync && Given(s).sync == s.sync
    ensures !Invariant(s) ==> Covers(Entered(s).quorum, s.sync, s.numsync, s.sync)
  {
    assert s.sync + s.sync == s.sync;
  }

  lemma KnownSeen(s: State)
    requires WellFormed(s) && !PassFails(s)
    ensures SeenCover(PassTrace(s), false, s.numsync, s.sync) <==> PassKeeps(s)
  {
    hide SeenCover, StartsWithKey, Covers, Invariant, Interrupted, SettleFails, SettleTrace, Given, Entered, TailKeeps, Mended;
    EnteredExact(s);
    GivenOwn(s);
    SettleSeen(Given(s));
    var next := StartsWithKey(SettleTrace(Given(s)), false);
    SeenJoin(EntryTrace(s), SettleTrace(Given(s)), false, s.numsync, s.sync);
    SeenNothing(next, s.numsync, s.sync);
    SeenOne(KeyWrite(s, Entered(s).quorum, s.sync), next, s.numsync, s.sync);
  }

  lemma ClaimSeen(s: State)
    requires HandedOver(s) && s.sync != {} && s.quorum < |Inherited(s)| && (Stops(s) || !SettleFails(TakenOver(s)))
    ensures SeenCover(PassTrace(s), false, s.numsync, s.sync) <==> PassKeeps(s)
  {
    hide SeenCover, StartsWithKey, SettleFails, SettleTrace, TailKeeps, Mended, Interrupted;
    var key := KeyWrite(Takeover(s), s.quorum, Inherited(s));
    var rest := if Stops(s) then [] else SettleTrace(TakenOver(s));
    assert [] + [key] == [key];
    SeenJoin([key], rest, false, s.numsync, s.sync);
    SeenOne(key, StartsWithKey(rest, false), s.numsync, s.sync);
    assert s.sync + s.sync == s.sync;
    SeenNothing(false, s.numsync, s.sync);
    if !Stops(s) {
      TakenOverSteady(s);
      SettleSeen(TakenOver(s));
    }
  }

  lemma StoppedSeen(s: State)
    requires HandedOver(s) && s.sync == {} && s.quorum < |Inherited(s)| && Stops(s)
    ensures !SeenCover(PassTrace(s), false, 0, {})
  {
    hide SeenCover, StartsWithKey;
    var list, key := ListWrite(s, |Inherited(s)| - s.quorum, Inherited(s)), KeyWrite(Takeover(s), s.quorum, Inherited(s));
    assert [list] + [key] == [list, key] && [list, key] + [] == [list, key];
    SeenPair(list, key, false, 0, {});
    assert Inherited(s) + {} == Inherited(s);
  }

  /** The keys of a pass that others see all cover the list from before it exactly if `PassKeeps` says so: under a known
      primary from any registers, with slack, interrupted or broken, and for the first pass of a new primary. */
  lemma PassSeen(s: State)
    requires Starts(s) && !Fails(s)
    ensures SeenCover(PassTrace(s), false, s.numsync, s.sync) <==> PassKeeps(s)
  {
    hide PassTrace, TailKeeps, SeenCover, PassFails, SettleFails, Mended, TakenOver, Given;
    if WellFormed(s) {
      KnownSeen(s);
    } else if s.sync != {} {
      ClaimSeen(s);
    } else if Stops(s) {
      StoppedSeen(s);
    } else {
      FirstClaimSeen(s);
    }
  }
}
