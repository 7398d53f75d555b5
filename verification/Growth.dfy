/** Adding nodes and changing the replication factor: where they end, and exactly when they raise. */
module Growth {
  import opened Names
  import opened QuorumState
  import opened Overlap
  import opened Replay
  import opened Phases

  /** With no voters and nothing confirmed, a write resets the key; if it was reset already, the write is
      preceded by the hint to start over. */
  lemma ResetRule(s: State, quorum: int, voters: set<Name>, adjust: bool)
    requires Led(s) && s.voters == {} && s.confirmed == 0
    requires 0 <= quorum && (quorum == 0 || quorum < |voters|)
    ensures var o := QuorumUpdate(s, quorum, voters, None, adjust);
            o == Done(Emit((if s.quorum == 0 then Emit(s, Restart) else s).(quorum := 0, voters := {}), Quorum))
  {
    hide Invariant, Electorate, Holders, FewEnough;
    InvariantPlaced(s.(quorum := 0));
    InvariantPlaced(Emit(s, Restart));
  }

  // ---------------------------------------------------------------- adding nodes

  function Target(s: State): int {
    Min(s.wanted, |s.active|)
  }

  /** There are standbys already, the new nodes are too few to reach the requested factor, and the votes
      asked for do not make up for it. */
  predicate AddFails(s: State) {
    var added := |s.active - s.sync|;
    && s.sync != {} && 0 < added < Target(s) - s.numsync
    && s.numsync + added + Max(s.numsync + added - s.confirmed, 0) < Target(s)
  }

  /** The quorum and the replication factor after new nodes joined existing standbys. */
  function AfterAdding(s: State): (int, int) {
    var added := |s.active - s.sync|;
    var nodes := |s.active|;
    if added == 0 then (s.quorum, s.numsync)
    else if Target(s) > s.numsync then
      var numsync := Min(Target(s), s.numsync + added);
      (nodes - Target(s) + Max(numsync - s.confirmed, 0), numsync)
    else (nodes - Target(s) + (if Target(s) > s.confirmed then Max(s.numsync - s.confirmed, 0) else 0), Target(s))
  }

  /** What is recorded while the factor grows with the nodes. */
  function ChosenTrace(s: State, add: set<Name>, target: int): seq<Transition> {
    var all := s.sync + add;
    var numsync := s.numsync + |add|;
    [ListWrite(s, numsync, all), KeyWrite(s, |all| - target + Max(numsync - s.confirmed, 0), all)]
  }

  /** What is recorded while the other nodes follow. */
  function OthersTrace(s: State, nodes: set<Name>, target: int): seq<Transition> {
    [KeyWrite(s, |nodes| - target + (if target > s.confirmed then Max(s.numsync - s.confirmed, 0) else 0), nodes),
     ListWrite(s, target, nodes)]
  }

  /** What is recorded while nodes join existing standbys. */
  function AddingTrace(s: State): seq<Transition> {
    var joining := s.active - s.sync;
    if joining == {} then []
    else if Target(s) <= s.numsync then OthersTrace(s, s.active, Target(s))
    else
      var add := Smallest(joining, Target(s) - s.numsync);
      ChosenTrace(s, add, Target(s))
      + (if add == joining then [] else OthersTrace(s.(numsync := Target(s)), s.active, Target(s)))
  }

  /** What is recorded while all nodes join at once. */
  function FirstTrace(s: State): seq<Transition> {
    [ListWrite(s, Target(s), s.active)]
    + (if s.confirmed != 0 then [KeyWrite(s, |s.active| - Target(s) + Max(Target(s) - s.confirmed, 0), s.active)]
       else (if s.quorum == 0 then [Transition(Restart, s.leader, 0, {})] else []) + [KeyWrite(s, 0, {})])
  }

  lemma AddChosenRule(s: State, add: set<Name>, target: int)
    requires Steady(s) && s.sync != {} && add != {} && add * s.sync == {} && s.leader !in add
    requires 1 <= target <= |s.sync| + |add|
    ensures var o := AddChosen(s, add, |add|, target);
            var all := s.sync + add;
            var numsync := s.numsync + |add|;
            && |all| == |s.sync| + |add|
            && (o.Raised? <==> numsync + Max(numsync - s.confirmed, 0) < target)
            && (o.Raised? ==> o.error == QuorumError)
            && (o.Done? ==> Reaches(s, o.state, |all| - target + Max(numsync - s.confirmed, 0), all, numsync, all)
                            && Records(s, o.state, ChosenTrace(s, add, target)))
  {
    hide Invariant, QuorumUpdate, SyncUpdate, Records;
    var all := s.sync + add;
    PairCard(s.sync, add);
    assert s.voters + all == all;
    SyncRule(s, s.numsync + |add|, all);
    var t := SyncUpdate(s, s.numsync + |add|, all).state;
    assert t.voters + add == all && all + all == all;
    assert all != t.voters;
    QuorumRule(t, |all| - target, all, true);
    var u := QuorumUpdate(t, |all| - target, all, None, true);
    if u.Done? {
      RecordsTwo(s, u.state, ListWrite(s, s.numsync + |add|, all), KeyWrite(s, u.state.quorum, all));
    }
  }

  lemma AddRemainingRule(s: State, joining: set<Name>, target: int)
    requires Steady(s) && s.sync != {} && joining != {} && joining * s.sync == {} && s.leader !in joining
    requires 1 <= target <= |s.sync| + |joining| && target <= s.numsync
    ensures var o := AddRemaining(s, joining, target);
            var all := s.sync + joining;
            && |all| == |s.sync| + |joining| && o.Done?
            && Reaches(s, o.state, |all| - target + (if target > s.confirmed then Max(s.numsync - s.confirmed, 0) else 0), all, target, all)
            && Records(s, o.state, OthersTrace(s, all, target))
  {
    hide Invariant, QuorumUpdate, SyncUpdate, Records;
    var all := s.sync + joining;
    PairCard(s.sync, joining);
    assert all + s.sync == all && all + all == all && s.voters + joining == all;
    QuorumRule(s, |all| - target, all, target > s.confirmed);
    var t := QuorumUpdate(s, |all| - target, all, None, target > s.confirmed).state;
    SyncRule(t, target, all);
    RecordsTwo(s, SyncUpdate(t, target, all).state, KeyWrite(s, t.quorum, all), ListWrite(s, target, all));
  }

  /** With no standbys yet, all nodes are listed at once; they get a vote when some are confirmed. */
  lemma AddFirst(s: State)
    requires Steady(s) && s.sync == {} && s.active != {}
    ensures var o := AddNewNodes(s);
            && o.Done? && o.state.sync == s.active && o.state.numsync == Target(s)
            && (if s.confirmed == 0 then o.state.voters == {} && o.state.quorum == 0
                else o.state.voters == s.active && o.state.quorum == |s.active| - Target(s) + Max(Target(s) - s.confirmed, 0))
            && Reaches(s, o.state, o.state.quorum, o.state.voters, Target(s), s.active)
            && Records(s, o.state, FirstTrace(s))
  {
    hide Invariant, QuorumUpdate, SyncUpdate;
    var target := Target(s);
    assert s.active - s.sync == s.active && s.sync + s.active == s.active;
    SyncRule(s, target, s.active);
    var t := SyncUpdate(s, target, s.active).state;
    assert t.voters + s.active == s.active && s.active + s.active == s.active;
    if s.confirmed == 0 {
      ResetRule(t, |s.active| - target, s.active, true);
    } else {
      QuorumRule(t, |s.active| - target, s.active, true);
    }
    assert s.active - s.active == {};
  }

  /** How adding runs when there are standbys and new nodes. */
  lemma AddSome(s: State, joining: set<Name>, o: Outcome)
    requires joining == s.active - s.sync && joining != {} && s.sync <= s.active
    requires o == AddForFactor(s, joining, Target(s))
    ensures |s.active| == |s.sync| + |joining|
    ensures AddNewNodes(s) == if o.Raised? then o
              else AddRemaining(o.state, if Target(s) > s.numsync then joining - o.state.sync else joining, Target(s))
  {
    hide AddForFactor, AddRemaining;
    assert s.sync + joining == s.active;
    PairCard(s.sync, s.active);
  }

  /** The new nodes cannot carry the factor past the target. */
  lemma AddKeeping(s: State)
    requires Steady(s) && {} < s.sync < s.active && Target(s) <= s.numsync
    ensures var o := AddNewNodes(s);
            o.Done? && Reaches(s, o.state, AfterAdding(s).0, s.active, AfterAdding(s).1, s.active)
            && Records(s, o.state, AddingTrace(s))
  {
    hide Invariant, AddRemaining, AddNewNodes, Records, OthersTrace, ChosenTrace;
    var joining := s.active - s.sync;
    assert joining != {} && s.sync + joining == s.active;
    AddSome(s, joining, Done(s));
    AddRemainingRule(s, joining, Target(s));
  }

  /** The new nodes first raise the factor; those not needed for that follow. */
  lemma AddRaising(s: State, joining: set<Name>, add: set<Name>)
    requires Steady(s) && {} < s.sync < s.active && Target(s) > s.numsync
    requires joining == s.active - s.sync && add == Smallest(joining, Target(s) - s.numsync)
    ensures var o := AddNewNodes(s);
            var chosen := AddChosen(s, add, |add|, Target(s));
            o == if chosen.Raised? then chosen else AddRemaining(chosen.state, joining - chosen.state.sync, Target(s))
  {
    hide AddChosen, AddRemaining, AddNewNodes;
    assert joining != {};
    AddSome(s, joining, AddForFactor(s, joining, Target(s)));
  }

  lemma RestJoins(sync: set<Name>, joining: set<Name>, add: set<Name>)
    requires joining * sync == {} && add <= joining
    ensures joining - (sync + add) == joining - add
    ensures (sync + add) + (joining - add) == sync + joining
    ensures (joining - add) * (sync + add) == {}
    ensures |sync + joining| == |sync + add| + |joining - add|
    ensures joining - add == {} <==> add == joining
  {
    forall x | x in joining
      ensures x !in sync
    {
      assert x in sync ==> x in joining * sync;
    }
    DisjointCard(sync + add, joining - add);
  }

  /** What follows once the chosen nodes are in. */
  lemma AddAfterChosen(s: State, t: State, joining: set<Name>, add: set<Name>)
    requires joining * s.sync == {} && s.leader !in joining && add <= joining
    requires 1 <= Target(s) <= |s.sync + joining| && (add == joining || t.numsync == Target(s))
    requires Steady(t) && t.sync != {} && Reaches(s, t, t.quorum, s.sync + add, t.numsync, s.sync + add)
    ensures var o := AddRemaining(t, joining - t.sync, Target(s));
            var quorum := if add == joining then t.quorum else |s.sync + joining| - Target(s) + Max(Target(s) - s.confirmed, 0);
            o.Done? && Reaches(s, o.state, quorum, s.sync + joining, t.numsync, s.sync + joining)
            && Records(t, o.state, if add == joining then [] else OthersTrace(t, s.sync + joining, Target(s)))
  {
    hide Invariant, AddRemaining, OthersTrace;
    RestJoins(s.sync, joining, add);
    if add == joining {
      NothingToAdd(t, Target(s));
    } else {
      AddRemainingRule(t, joining - add, Target(s));
    }
  }

  lemma SameOthers(s: State, t: State, nodes: set<Name>, target: int)
    requires s.leader == t.leader && s.confirmed == t.confirmed
    ensures s.numsync == t.numsync ==> OthersTrace(s, nodes, target) == OthersTrace(t, nodes, target)
  {}

  lemma AddSteps(s: State)
    requires Steady(s) && {} < s.sync < s.active && Target(s) > s.numsync
    ensures var o := AddNewNodes(s);
            && (o.Raised? <==> AddFails(s))
            && (o.Raised? ==> o.error == QuorumError)
            && (o.Done? ==> Reaches(s, o.state, AfterAdding(s).0, s.active, AfterAdding(s).1, s.active)
                            && Records(s, o.state, AddingTrace(s)))
  {
    hide Invariant, AddChosen, AddRemaining, AddNewNodes, Smallest, Records, OthersTrace, ChosenTrace;
    var joining := s.active - s.sync;
    var add := Smallest(joining, Target(s) - s.numsync);
    assert s.sync + joining == s.active && joining != {};
    DiffCard(s.sync, s.active);
    SubsetCard(add, joining);
    AddRaising(s, joining, add);
    AddChosenRule(s, add, Target(s));
    var chosen := AddChosen(s, add, |add|, Target(s));
    if chosen.Done? {
      AddAfterChosen(s, chosen.state, joining, add);
      SameOthers(chosen.state, s.(numsync := Target(s)), s.active, Target(s));
      RecordsMore(s, chosen.state, AddNewNodes(s).state, ChosenTrace(s, add, Target(s)),
                  if add == joining then [] else OthersTrace(chosen.state, s.active, Target(s)));
    }
  }

  lemma NothingToAdd(s: State, target: int)
    ensures AddRemaining(s, {}, target) == Done(s)
  {}

  lemma AddNone(s: State)
    requires s.active <= s.sync
    ensures AddNewNodes(s) == Done(s)
  {
    assert s.active - s.sync == {};
  }

  /** Adding raises exactly in the states `AddFails` describes; otherwise every active node is listed, and
      votes unless nothing is confirmed yet. */
  lemma AddNewNodesExact(s: State)
    requires Steady(s) && s.sync <= s.active
    ensures var o := AddNewNodes(s);
            && (o.Raised? <==> AddFails(s))
            && (o.Raised? ==> o.error == QuorumError)
            && (o.Done? ==>
                  && Follows(s.(trace := []), o.state) && o.state.sync == s.active && o.state.leader == s.leader
                  && (if s.sync == {} && s.confirmed == 0 && s.active != {}
                      then o.state.voters == {} && o.state.quorum == 0 && o.state.numsync == Target(s)
                      else Steady(o.state) && (s.sync != {} ==> o.state.quorum == AfterAdding(s).0 && o.state.numsync == AfterAdding(s).1)))
  {
    hide Invariant, AddNewNodes;
    PairCard(s.sync, s.active);
    if s.sync == s.active {
      AddNone(s);
      assert s.active - s.sync == {};
    } else if s.sync == {} {
      AddFirst(s);
    } else if Target(s) <= s.numsync {
      AddKeeping(s);
    } else {
      AddSteps(s);
    }
  }

  /** What adding records, if it ends. */
  lemma AddNewNodesRecords(s: State)
    requires Steady(s) && s.sync <= s.active
    ensures AddNewNodes(s).Done? ==>
              Records(s, AddNewNodes(s).state,
                      if s.sync != {} then AddingTrace(s) else if s.active == {} then [] else FirstTrace(s))
  {
    hide Invariant, AddNewNodes, ChosenTrace, OthersTrace, FirstTrace;
    if s.sync == s.active {
      AddNone(s);
      assert s.active - s.sync == {};
    } else if s.sync == {} {
      AddFirst(s);
    } else if Target(s) <= s.numsync {
      AddKeeping(s);
    } else {
      AddSteps(s);
    }
  }

  // ---------------------------------------------------------------- changing the replication factor

  /** The factor must fall, the quorum looks too high to be raised, and yet is too low for the new factor. */
  predicate FactorFails(s: State) {
    var factor := Min(s.wanted, |s.sync|);
    && factor < s.numsync
    && |s.sync| <= s.quorum + (s.numsync - factor)
    && s.quorum + factor < |s.sync|
  }

  /** The quorum after the change of the replication factor. */
  function AfterFactor(s: State): int {
    var factor := Min(s.wanted, |s.sync|);
    if factor > s.numsync then |s.sync| - factor + Max(factor - s.confirmed, 0)
    else if factor < s.numsync && s.quorum + (s.numsync - factor) < |s.sync|
    then |s.sync| - factor + (if s.wanted > s.confirmed then Max(s.numsync - s.confirmed, 0) else 0)
    else s.quorum
  }

  lemma RaiseFactorRule(s: State)
    requires Steady(s) && s.numsync < Min(s.wanted, |s.sync|)
    ensures var factor := Min(s.wanted, |s.sync|);
            var o := RaiseFactor(s, factor - s.numsync);
            var quorum := |s.sync| - factor + Max(factor - s.confirmed, 0);
            var listed := Emit(s.(numsync := factor), Sync);
            && o == Done(if quorum == s.quorum then listed else Emit(listed.(quorum := quorum), Quorum))
  {
    hide Invariant, QuorumUpdate, SyncUpdate;
    var factor := Min(s.wanted, |s.sync|);
    assert s.sync + s.sync == s.sync;
    SyncRule(s, factor, s.sync);
    QuorumRule(SyncUpdate(s, factor, s.sync).state, |s.sync| - factor, s.sync, true);
  }

  lemma LowerFactorRule(s: State)
    requires Steady(s) && s.numsync > Min(s.wanted, |s.sync|)
    ensures var factor := Min(s.wanted, |s.sync|);
            var o := LowerFactor(s, s.numsync - factor);
            var quorum := AfterFactor(s);
            var voted := if quorum == s.quorum then s else Emit(s.(quorum := quorum), Quorum);
            && (o.Raised? <==> FactorFails(s))
            && (o.Raised? ==> o.error == QuorumError)
            && (o.Done? ==> o == Done(Emit(voted.(numsync := factor), Sync)))
  {
    hide Invariant, QuorumUpdate, SyncUpdate;
    var factor := Min(s.wanted, |s.sync|);
    var decrease := s.numsync - factor;
    assert s.sync + s.sync == s.sync;
    var t := s;
    if s.quorum + decrease < |s.voters| {
      QuorumRule(s, |s.sync| - factor, s.sync, s.wanted > s.confirmed);
      t := RaiseQuorum(s, decrease).state;
    }
    SyncRule(t, factor, s.sync);
  }

  /** What the change records: an increase in the list first, a decrease in the key first. */
  function ChangeTrace(s: State): seq<Transition> {
    var factor := Min(s.wanted, |s.sync|);
    var key := if AfterFactor(s) == s.quorum then [] else [KeyWrite(s, AfterFactor(s), s.sync)];
    if factor > s.numsync then [ListWrite(s, factor, s.sync)] + key
    else if factor < s.numsync then key + [ListWrite(s, factor, s.sync)]
    else []
  }

  lemma ChangeRecords(s: State)
    requires Steady(s)
    ensures ChangeReplicationFactor(s).Done? ==> Records(s, ChangeReplicationFactor(s).state, ChangeTrace(s))
  {
    hide Invariant, RaiseFactor, LowerFactor;
    var factor := Min(s.wanted, |s.sync|);
    var list, key := ListWrite(s, factor, s.sync), KeyWrite(s, AfterFactor(s), s.sync);
    if factor > s.numsync {
      RaiseFactorRule(s);
      assert [list] + [] == [list] && [list] + [key] == [list, key];
      assert (s.trace + [list]) + [key] == s.trace + [list, key];
    } else if factor < s.numsync {
      LowerFactorRule(s);
      assert [] + [list] == [list] && [key] + [list] == [key, list];
      assert (s.trace + [key]) + [list] == s.trace + [key, list];
    }
  }

  /** Changing the factor raises exactly in the states `FactorFails` describes; otherwise it reaches the
      requested factor. */
  lemma ChangeReplicationFactorExact(s: State)
    requires Steady(s)
    ensures var o := ChangeReplicationFactor(s);
            && (o.Raised? <==> FactorFails(s))
            && (o.Raised? ==> o.error == QuorumError)
            && (o.Done? ==> Steady(o.state) && Reaches(s, o.state, AfterFactor(s), s.voters, Min(s.wanted, |s.sync|), s.sync))
  {
    hide Invariant, RaiseFactor, LowerFactor;
    var factor := Min(s.wanted, |s.sync|);
    if factor > s.numsync {
      RaiseFactorRule(s);
    } else if factor < s.numsync {
      LowerFactorRule(s);
    }
  }
}
