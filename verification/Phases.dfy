/** What each phase of a pass does, for every state it can meet: where it ends, and exactly when it raises. */
module Phases {
  import opened Names
  import opened QuorumState
  import opened Overlap
  import opened Replay

  /** The key and the standby list name the same nodes and satisfy the invariant. */
  predicate Steady(s: State) {
    && Led(s) && s.voters == s.sync
    && 0 <= s.numsync <= |s.sync| <= s.quorum + s.numsync
    && s.wanted >= 1
  }

  /** The registers of `s` replaced by other values. */
  predicate Reaches(s: State, t: State, quorum: int, voters: set<Name>, numsync: int, sync: set<Name>) {
    t == s.(quorum := quorum, voters := voters, numsync := numsync, sync := sync, trace := t.trace)
  }

  predicate Nested(a: set<Name>, b: set<Name>) {
    a <= b || b <= a
  }

  function Adjustment(s: State, adjust: bool): nat {
    if adjust then Max(s.numsync - s.confirmed, 0) else 0
  }

  /** How a write of the key under an unchanged leader ends. */
  lemma QuorumRule(s: State, quorum: int, voters: set<Name>, adjust: bool)
    requires Led(s) && s.leader !in voters
    requires 0 <= quorum && (quorum == 0 || quorum < |voters|)
    requires s.confirmed != 0 || s.voters != {}
    ensures var q := quorum + Adjustment(s, adjust);
            var o := QuorumUpdate(s, quorum, voters, None, adjust);
            var fits := Nested(voters, s.sync) && (voters == {} || |voters + s.sync| <= q + s.numsync);
            if (q, voters) != (s.quorum, s.voters)
            then o == if fits then Done(Emit(s.(quorum := q, voters := voters), Quorum))
                      else Raised(QuorumError, s.(quorum := q, voters := voters))
            else if s.voters != {} then o == Done(s)
            else o == Done(Emit(Emit(s, Restart), Quorum))
  {
    hide Invariant, Electorate, Holders, FewEnough;
    var q := quorum + Adjustment(s, adjust);
    var t := s.(quorum := q, voters := voters);
    InvariantPlaced(t);
    assert EffectiveKey(s, quorum, voters, None, adjust) == (q, voters);
    if (q, voters) == (s.quorum, s.voters) {
      InvariantPlaced(Emit(s, Restart));
    }
  }

  /** How a write of the standby list ends. */
  lemma SyncRule(s: State, numsync: int, sync: set<Name>)
    requires Led(s) && s.leader !in sync
    ensures var o := SyncUpdate(s, numsync, sync);
            var t := s.(numsync := numsync, sync := sync);
            var fits := 0 <= numsync <= |sync| && Nested(s.voters, sync) &&
              (s.voters == {} || |s.voters + sync| <= s.quorum + numsync);
            && (fits ==> o == Done(Emit(t, Sync)))
            && (!fits ==> o.Raised? && o.error == QuorumError)
  {
    hide Invariant;
    InvariantPlaced(s.(numsync := numsync, sync := sync));
  }

  // ---------------------------------------------------------------- removing dead nodes

  function KeyWrite(s: State, quorum: int, names: set<Name>): Transition {
    Transition(Quorum, s.leader, quorum, names)
  }

  function ListWrite(s: State, num: int, names: set<Name>): Transition {
    Transition(Sync, s.leader, num, names)
  }

  /** What was recorded after the trace of `s`. */
  predicate Records(s: State, t: State, ts: seq<Transition>) {
    t.trace == s.trace + ts
  }

  lemma RecordsTwo(s: State, t: State, a: Transition, b: Transition)
    requires t.trace == (s.trace + [a]) + [b]
    ensures Records(s, t, [a, b])
  {
    assert (s.trace + [a]) + [b] == s.trace + [a, b];
  }

  lemma RecordsMore(s: State, t: State, u: State, ts: seq<Transition>, us: seq<Transition>)
    requires Records(s, t, ts) && Records(t, u, us)
    ensures Records(s, u, ts + us)
  {
    assert (s.trace + ts) + us == s.trace + (ts + us);
  }

  /** Dismissing some, not all, of the nodes of a steady state. */
  lemma DismissRule(s: State, leave: set<Name>, last: bool)
    requires Steady(s) && {} < leave < s.sync && |leave| <= s.quorum
    ensures var o := Dismiss(s, leave, last);
            var rest := s.sync - leave;
            var numsync := Min(Max(s.wanted, s.numsync), |rest|);
            var quorum := |rest| - numsync + (if last then Max(numsync - s.confirmed, 0) else 0);
            && |rest| == |s.sync| - |leave|
            && o.Done? && Reaches(s, o.state, quorum, rest, numsync, rest)
            && Records(s, o.state, [ListWrite(s, numsync, rest), KeyWrite(s, quorum, rest)])
  {
    hide Invariant, QuorumUpdate, SyncUpdate;
    var rest := s.sync - leave;
    var numsync := Min(Max(s.wanted, s.numsync), |rest|);
    PairCard(leave, s.sync);
    assert s.voters + rest == s.voters;
    SyncRule(s, numsync, rest);
    var t := SyncUpdate(s, numsync, rest).state;
    assert t.voters - leave == rest && rest + rest == rest;
    assert rest != {} && rest != s.voters;
    QuorumRule(t, |rest| - numsync, rest, last);
    var u := QuorumUpdate(t, |rest| - numsync, rest, None, last).state;
    RecordsTwo(s, u, ListWrite(s, numsync, rest), KeyWrite(s, u.quorum, rest));
  }

  /** Removing the nodes that the quorum does not cover lowers the replication factor by as many. */
  lemma RemoveRemainingRule(s: State, dead: set<Name>)
    requires Steady(s) && {} < dead < s.sync && s.quorum == 0
    ensures var o := RemoveRemaining(s, dead);
            var rest := s.sync - dead;
            && |rest| == |s.sync| - |dead| && s.numsync == |s.sync|
            && o.Done? && Reaches(s, o.state, |rest| - Min(s.wanted, |rest|), rest, |rest|, rest)
            && Records(s, o.state, PaidTrace(s, rest))
  {
    hide Invariant, QuorumUpdate, SyncUpdate;
    var rest := s.sync - dead;
    PairCard(dead, s.sync);
    assert s.voters - dead == rest && rest + s.sync == s.sync && rest + rest == rest;
    assert rest != {};
    QuorumRule(s, |rest| - Min(s.wanted, |rest|), rest, false);
    var t := QuorumUpdate(s, |rest| - Min(s.wanted, |rest|), rest, None, false).state;
    SyncRule(t, |rest|, rest);
    RecordsTwo(s, SyncUpdate(t, |rest|, rest).state, KeyWrite(s, t.quorum, rest), ListWrite(s, |rest|, rest));
  }

  /** With votes still asked for it is an error that no handler expects; nothing is changed. */
  lemma RemoveRemainingAsserts(s: State, dead: set<Name>)
    requires dead != {}
    ensures RemoveRemaining(s, dead) == Raised(AssertionError, s) <==> s.quorum != 0
  {
    hide QuorumUpdate, SyncUpdate;
    if s.quorum == 0 {
      var voters := s.voters - dead;
      var numsync := s.numsync - |dead|;
      var decrease := numsync - Min(s.wanted, |s.sync - dead|);
      NoAssertion(s, if decrease != 0 then Min(decrease, |voters| - 1) else 0, voters, numsync, s.sync - dead);
    }
  }

  lemma NoAssertion(s: State, quorum: int, voters: set<Name>, numsync: int, sync: set<Name>)
    ensures var o := QuorumUpdate(s, quorum, voters, None, false);
            && (o.Raised? ==> o.error == QuorumError)
            && (o.Done? && SyncUpdate(o.state, numsync, sync).Raised? ==> SyncUpdate(o.state, numsync, sync).error == QuorumError)
  {
    hide Invariant;
  }

  /** When every standby is dead, both registers are emptied. */
  lemma RemoveAllRule(s: State)
    requires Steady(s) && s.sync != {} && s.sync * s.active == {}
    ensures RemoveGoneNodes(s).Done? && Reaches(s, RemoveGoneNodes(s).state, 0, {}, 0, {})
    ensures Records(s, RemoveGoneNodes(s).state, [KeyWrite(s, 0, {}), ListWrite(s, 0, {})])
  {
    hide Invariant, QuorumUpdate, SyncUpdate, RemoveWithinQuorum, RemoveRemaining;
    assert s.sync - s.active == s.sync;
    QuorumRule(s, 0, {}, false);
    var t := QuorumUpdate(s, 0, {}, None, false).state;
    SyncRule(t, 0, {});
    RecordsTwo(s, SyncUpdate(t, 0, {}).state, KeyWrite(s, 0, {}), ListWrite(s, 0, {}));
  }

  /** The quorum and the replication factor left after the dead nodes are gone. */
  function AfterRemoval(s: State): (int, int) {
    var dead := |s.sync - s.active|;
    var alive := |s.sync * s.active|;
    if dead == 0 then (s.quorum, s.numsync)
    else if alive == 0 then (0, 0)
    else if dead <= s.quorum then
      var numsync := Min(Max(s.wanted, s.numsync), alive);
      (alive - numsync + Max(numsync - s.confirmed, 0), numsync)
    else (alive - Min(s.wanted, alive), alive)
  }

  /** What the removal records while it spends the quorum on the last of the dead. */
  function SpentTrace(s: State, dead: set<Name>): seq<Transition> {
    if s.quorum <= 0 then []
    else
      var kept := s.sync - Greatest(dead, s.quorum);
      [ListWrite(s, |kept|, kept), KeyWrite(s, 0, kept)]
  }

  /** What it records while it lowers the factor. */
  function PaidTrace(s: State, rest: set<Name>): seq<Transition> {
    [KeyWrite(s, |rest| - Min(s.wanted, |rest|), rest), ListWrite(s, |rest|, rest)]
  }

  /** What the removal records. */
  function RemovalTrace(s: State): seq<Transition> {
    var dead := s.sync - s.active;
    var rest := s.sync * s.active;
    if dead == {} then []
    else if rest == {} then [KeyWrite(s, 0, {}), ListWrite(s, 0, {})]
    else if |dead| <= s.quorum then [ListWrite(s, AfterRemoval(s).1, rest), KeyWrite(s, AfterRemoval(s).0, rest)]
    else SpentTrace(s, dead) + PaidTrace(s, rest)
  }

  /** The quorum covers the dead nodes: they leave both registers, and the factor may grow. */
  lemma RemoveCovered(s: State, dead: set<Name>)
    requires Steady(s) && dead == s.sync - s.active && {} < dead < s.sync && |dead| <= s.quorum
    ensures var rest := s.sync - dead;
            var numsync := Min(Max(s.wanted, s.numsync), |rest|);
            && RemoveGoneNodes(s).Done?
            && Reaches(s, RemoveGoneNodes(s).state, |rest| - numsync + Max(numsync - s.confirmed, 0), rest, numsync, rest)
            && Records(s, RemoveGoneNodes(s).state,
                       [ListWrite(s, numsync, rest), KeyWrite(s, |rest| - numsync + Max(numsync - s.confirmed, 0), rest)])
  {
    hide Invariant, Dismiss, RemoveRemaining, RemoveGoneNodes;
    var leave := Greatest(dead, s.quorum);
    SubsetCard(leave, dead);
    assert dead * (s.sync - dead) == {};
    DismissRule(s, dead, true);
    var t := Dismiss(s, dead, true).state;
    RemoveSome(s, dead, t);
    NothingRemains(t);
  }

  lemma NothingRemains(s: State)
    ensures RemoveRemaining(s, {}) == Done(s)
  {}

  /** How the removal of some nodes runs once the first part has finished in `t`. */
  lemma RemoveSome(s: State, dead: set<Name>, t: State)
    requires dead == s.sync - s.active && {} < dead < s.sync
    requires RemoveWithinQuorum(s, dead) == Done(t)
    ensures RemoveGoneNodes(s) == RemoveRemaining(t, dead * t.sync)
  {
    hide RemoveWithinQuorum, RemoveRemaining;
  }

  lemma RecordsNothing(s: State, t: State, ts: seq<Transition>)
    requires Records(s, t, ts)
    ensures Records(s, t, [] + ts)
  {
    assert [] + ts == ts;
  }

  /** The quorum is spent first. */
  lemma SpendFirst(s: State, dead: set<Name>) returns (t: State, left: set<Name>)
    requires Steady(s) && dead == s.sync - s.active && {} < dead < s.sync && 0 < s.quorum < |dead|
    ensures Steady(t) && t.quorum == 0 && {} < left < t.sync && t.sync - left == s.sync - dead
    ensures RemoveGoneNodes(s) == RemoveRemaining(t, left)
    ensures Reaches(s, t, 0, t.sync, t.numsync, t.sync) && Records(s, t, SpentTrace(s, dead))
  {
    hide Invariant, Dismiss, RemoveRemaining, RemoveGoneNodes;
    var leave := Greatest(dead, s.quorum);
    PairCard(leave, dead);
    left := dead - leave;
    assert dead * (s.sync - leave) == left && left != {};
    DismissRule(s, leave, false);
    t := Dismiss(s, leave, false).state;
    RemoveSome(s, dead, t);
    assert t.sync - left == s.sync - dead;
  }

  /** It does not: the quorum is used up first, then the replication factor pays for the rest. */
  lemma RemoveUncovered(s: State, dead: set<Name>)
    requires Steady(s) && dead == s.sync - s.active && {} < dead < s.sync && s.quorum < |dead|
    ensures var rest := s.sync - dead;
            && RemoveGoneNodes(s).Done?
            && Reaches(s, RemoveGoneNodes(s).state, |rest| - Min(s.wanted, |rest|), rest, |rest|, rest)
            && Records(s, RemoveGoneNodes(s).state, SpentTrace(s, dead) + PaidTrace(s, rest))
  {
    hide Invariant, RemoveRemaining, RemoveGoneNodes, Greatest;
    if s.quorum == 0 {
      assert dead * s.sync == dead;
      RemoveSome(s, dead, s);
      RemoveRemainingRule(s, dead);
      RecordsNothing(s, RemoveGoneNodes(s).state, PaidTrace(s, s.sync - dead));
    } else {
      var t, left := SpendFirst(s, dead);
      RemoveRemainingRule(t, left);
      RecordsMore(s, t, RemoveGoneNodes(s).state, SpentTrace(s, dead), PaidTrace(t, s.sync - dead));
    }
  }

  lemma RemoveNone(s: State)
    requires s.sync - s.active == {}
    ensures RemoveGoneNodes(s) == Done(s)
  {}

  lemma RemoveGoneNodesReaches(s: State)
    requires Steady(s)
    ensures var o := RemoveGoneNodes(s);
            var alive := s.sync * s.active;
            o.Done? && Reaches(s, o.state, AfterRemoval(s).0, alive, AfterRemoval(s).1, alive)
            && Records(s, o.state, RemovalTrace(s))
  {
    hide Invariant, RemoveGoneNodes, SpentTrace, PaidTrace;
    var dead := s.sync - s.active;
    var alive := s.sync * s.active;
    assert alive + dead == s.sync && s.sync - dead == alive;
    if dead == {} {
      assert alive == s.sync;
      RemoveNone(s);
    } else if alive == {} {
      RemoveAllRule(s);
    } else if |dead| <= s.quorum {
      RemoveCovered(s, dead);
    } else {
      RemoveUncovered(s, dead);
    }
  }

  /** Removing dead nodes is total: from every steady state, whatever is alive and however many standbys
      are confirmed, nothing is raised and the living nodes are left in a steady state. */
  lemma RemoveGoneNodesTotal(s: State)
    requires Steady(s)
    ensures var o := RemoveGoneNodes(s);
            && o.Done? && Steady(o.state)
            && o.state.sync == s.sync * s.active
  {
    hide Invariant, RemoveGoneNodes;
    PairCard(s.sync, s.active);
    RemoveGoneNodesReaches(s);
  }
}
