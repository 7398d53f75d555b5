/** Whole passes: where they end, when they raise, and when they have nothing to do. */
module Passes {
  import opened Names
  import opened QuorumState
  import opened Overlap
  import opened Replay
  import opened Phases
  import opened Growth
  import opened Repairs

  /** What a pass may assume of its inputs: a known primary that is in none of the sets, and counts in range. */
  predicate WellFormed(s: State) {
    && Led(s) && s.trace == []
    && 0 <= s.numsync <= |s.sync| && (s.sync != {} ==> s.numsync >= 1)
    && s.wanted >= 1
  }

  /** The optimal state for the active nodes. */
  predicate Optimal(s: State) {
    && s.sync == s.active && s.voters == s.active
    && s.numsync == Min(s.wanted, |s.active|)
    && s.quorum == |s.active| - s.numsync
  }

  /** Every active node is listed and waited for as requested; each also votes, or nobody does yet. */
  predicate Reached(s: State) {
    && s.sync == s.active
    && s.numsync == Min(s.wanted, |s.active|)
    && (if s.voters == {} then s.quorum == 0 || s.active == {} else s.voters == s.active && Steady(s))
  }

  // ---------------------------------------------------------------- a broken state

  /** Broken states are repaired in one write: the handler's update of the key never fails, changes the key,
      and leaves equal sets that satisfy the invariant. */
  lemma BrokenRepaired(s: State)
    requires WellFormed(s) && !Invariant(s)
    ensures var o := Recover(s);
            && o.Done? && Steady(o.state) && o.state.sync == s.sync && o.state.numsync == s.numsync
            && (o.state.quorum, o.state.voters) != (s.quorum, s.voters)
            && Reaches(s, o.state, |s.sync| - s.numsync + Max(s.numsync - s.confirmed, 0), s.sync, s.numsync, s.sync)
            && o.state.trace == [KeyWrite(s, o.state.quorum, s.sync)]
  {
    hide Invariant, QuorumUpdate;
    InvariantPlaced(s);
    assert s.sync + s.sync == s.sync;
    assert s.voters != {};
    QuorumRule(s, |s.sync| - s.numsync, s.sync, true);
  }

  lemma EntryWhole(s: State)
    requires WellFormed(s) && Invariant(s)
    ensures Recover(s) == Done(s) && Interrupted(EstimateConfirmed(s))
  {
    hide Invariant;
    InvariantPlaced(s);
    InvariantPlaced(EstimateConfirmed(s));
  }

  lemma EntryBroken(s: State)
    requires WellFormed(s) && !Invariant(s)
    ensures Recover(s).Done? && Interrupted(EstimateConfirmed(Recover(s).state))
    ensures Recover(s).state.active == s.active && Recover(s).state.wanted == s.wanted
  {
    hide Invariant, QuorumUpdate, Recover;
    BrokenRepaired(s);
    var t := Recover(s).state;
    InvariantPlaced(EstimateConfirmed(t));
    assert t.voters + t.sync == t.sync;
  }

  /** Whatever the registers say, entering the pass leaves a state the repair can start from. */
  lemma EntryInterrupted(s: State)
    requires WellFormed(s)
    ensures Recover(s).Done? && Interrupted(EstimateConfirmed(Recover(s).state))
    ensures Recover(s).state.active == s.active && Recover(s).state.wanted == s.wanted
    ensures Invariant(s) ==> Recover(s) == Done(s)
  {
    hide *;
    if Invariant(s) {
      EntryWhole(s);
    } else {
      EntryBroken(s);
    }
  }

  // ---------------------------------------------------------------- convergence

  lemma UnionAlive(a: set<Name>, b: set<Name>, active: set<Name>)
    ensures (a + b * active) * active == {} <==> a * active == {} && b * active == {}
    ensures a <= b && b * active == {} ==> a * active == {}
  {
    assert (a + b * active) * active == a * active + b * active;
    if a <= b {
      assert a * active <= b * active;
    }
  }

  lemma NoneAlive(a: set<Name>, b: set<Name>, active: set<Name>)
    requires a <= b && b * active == {}
    ensures a * active == {}
  {
    assert a * active <= b * active;
  }

  lemma VotingAlive(s: State)
    requires s.voters < s.sync
    ensures Voting(s) * s.active == {} <==>
              s.voters * s.active == {} && (s.sync * s.active == {} || (s.voters == {} && s.confirmed == 0))
  {
    if s.voters == {} && s.confirmed == 0 {
      assert s.voters * s.active == {} && Voting(s) * s.active == {};
    } else {
      UnionAlive(s.voters, s.sync, s.active);
    }
  }

  lemma MatchedAlive(s: State)
    requires Interrupted(s)
    ensures Matched(s) * s.active == {} <==>
              s.voters * s.active == {} && (s.sync * s.active == {} || (s.voters < s.sync && s.voters == {} && s.confirmed == 0))
  {
    hide Invariant, Voting;
    InvariantPlaced(s);
    if s.sync < s.voters {
      UnionAlive(s.sync, s.voters, s.active);
      if s.voters * s.active == {} {
        NoneAlive(s.sync, s.voters, s.active);
      }
    } else if s.voters < s.sync {
      VotingAlive(s);
    } else {
      assert s.sync == s.voters;
    }
  }

  /** The last phase, after the nodes were added. */
  lemma FactorReached(s: State)
    requires s.sync == s.active && s.wanted >= 1
    requires Steady(s) || (s.voters == {} && s.quorum == 0 && s.numsync == Min(s.wanted, |s.sync|))
    ensures var o := ChangeReplicationFactor(s);
            o.Done? ==> Reached(o.state) && o.state.voters == s.voters && o.state.active == s.active && o.state.wanted == s.wanted
  {
    if s.numsync != Min(s.wanted, |s.sync|) {
      ChangeReplicationFactorExact(s);
    }
  }

  lemma SettleReaches(s: State)
    requires Interrupted(s)
    ensures var o := Settle(s);
            o.Done? ==> Reached(o.state) && o.state.active == s.active && o.state.wanted == s.wanted
                        && (o.state.voters != s.active <==>
                              s.active != {} && s.confirmed == 0 && Matched(s) * s.active == {})
  {
    hide Invariant, HandleNonSteadyCases, RemoveGoneNodes, AddNewNodes, ChangeReplicationFactor, Matched;
    HandleNonSteadyCasesExact(s);
    if Settle(s).Done? {
      var t := HandleNonSteadyCases(s).state;
      RemoveGoneNodesTotal(t);
      RemoveGoneNodesReaches(t);
      var u := RemoveGoneNodes(t).state;
      AddNewNodesExact(u);
      var v := AddNewNodes(u).state;
      FactorReached(v);
    }
  }

  /** From any state of the two registers, broken or interrupted, and for any active nodes: a pass that
      returns has listed exactly the active nodes and waits for as many as requested. They all vote, except
      exactly when no voter was alive and nothing was confirmed: then nobody does until some catch up. */
  lemma PassReaches(s: State)
    requires WellFormed(s) && 0 <= s.confirmed <= |s.sync * s.active|
    ensures GenerateTransitions(s).Done? ==>
              var t := GenerateTransitions(s).state;
              && Reached(t) && t.active == s.active && t.wanted == s.wanted
              && (t.voters != s.active <==>
                    && s.active != {} && (Invariant(s) ==> s.voters * s.active == {})
                    && (s.sync * s.active == {} || (s.voters == {} && s.confirmed == 0 && s.quorum == 0)))
  {
    hide Invariant, Settle, Recover;
    EntryInterrupted(s);
    var e := EstimateConfirmed(Recover(s).state);
    SettleReaches(e);
    MatchedAlive(e);
    if !Invariant(s) {
      BrokenRepaired(s);
      InvariantPlaced(s);
    }
  }

  // ---------------------------------------------------------------- from a balanced state

  /** Equal sets, with a quorum that is optimal for the current, perhaps no longer wanted, factor. */
  predicate Balanced(s: State) {
    && Steady(s) && (s.sync != {} ==> s.numsync >= 1)
    && s.quorum == |s.sync| - s.numsync
    && 0 <= s.confirmed <= |s.sync * s.active|
  }

  /** The confirmed count a pass works with. */
  function Confirmed(s: State): int {
    EstimateConfirmed(s).confirmed
  }

  /** Nodes join, but too few for the wanted factor, and enough are confirmed for the shortfall to show. */
  predicate JoinFails(s: State) {
    var raised := s.numsync + |s.active| - |s.sync|;
    && {} < s.sync < s.active
    && raised < Min(s.wanted, |s.active|)
    && raised + Max(raised - Confirmed(s), 0) < Min(s.wanted, |s.active|)
  }

  /** Nodes leave while the factor falls below half, and the confirmed count lies in the gap. */
  predicate LeaveFails(s: State) {
    && {} < s.active < s.sync
    && s.numsync <= |s.active|
    && s.wanted < Confirmed(s) <= s.numsync - s.wanted
  }

  lemma BalancedHolds(s: State)
    requires Balanced(s)
    ensures HandleNonSteadyCases(EstimateConfirmed(s)) == Done(EstimateConfirmed(s))
    ensures s.sync * s.active != {} ==> Confirmed(s) == if s.confirmed == 0 then Min(|s.sync * s.active|, s.numsync) else s.confirmed
    ensures s.sync * s.active == {} ==> Confirmed(s) == 0
  {
    assert s.sync + s.sync == s.sync;
  }

  lemma SettleThrough(s: State, t: State, u: State)
    ensures HandleNonSteadyCases(s) == Done(t) && RemoveGoneNodes(t) == Done(u) ==>
              Settle(s) == if AddNewNodes(u).Raised? then AddNewNodes(u) else ChangeReplicationFactor(AddNewNodes(u).state)
  {
    hide HandleNonSteadyCases, RemoveGoneNodes, AddNewNodes, ChangeReplicationFactor;
  }

  /** What the phases after the repair do to a balanced state. */
  lemma BalancedChain(s: State) returns (u: State)
    requires Balanced(s)
    ensures var e := EstimateConfirmed(s);
            && RemoveGoneNodes(e) == Done(u) && Steady(u)
            && Reaches(e, u, AfterRemoval(e).0, s.sync * s.active, AfterRemoval(e).1, s.sync * s.active)
            && Settle(e) == (if AddNewNodes(u).Raised? then AddNewNodes(u) else ChangeReplicationFactor(AddNewNodes(u).state))
            && (AddNewNodes(u).Raised? <==> AddFails(u))
  {
    hide HandleNonSteadyCases, RemoveGoneNodes, AddNewNodes, ChangeReplicationFactor, Settle;
    BalancedHolds(s);
    var e := EstimateConfirmed(s);
    RemoveGoneNodesTotal(e);
    RemoveGoneNodesReaches(e);
    u := RemoveGoneNodes(e).state;
    SettleThrough(e, e, u);
    AddNewNodesExact(u);
  }

  /** No node is dead. */
  lemma BalancedGrows(s: State)
    requires Balanced(s) && {} < s.sync <= s.active
    ensures Settle(EstimateConfirmed(s)).Raised? <==> JoinFails(s)
    ensures !LeaveFails(s)
  {
    hide HandleNonSteadyCases, RemoveGoneNodes, AddNewNodes, ChangeReplicationFactor, Settle;
    var u := BalancedChain(s);
    assert s.sync * s.active == s.sync && s.sync - s.active == {};
    DiffCard(s.sync, s.active);
    AddNewNodesExact(u);
    if !AddFails(u) {
      ChangeReplicationFactorExact(AddNewNodes(u).state);
    }
  }

  /** Some nodes are dead, some are not. */
  lemma BalancedShrinks(s: State)
    requires Balanced(s) && s.sync - s.active != {} && s.sync * s.active != {}
    ensures Settle(EstimateConfirmed(s)).Raised? <==> LeaveFails(s)
    ensures !JoinFails(s)
  {
    hide HandleNonSteadyCases, RemoveGoneNodes, AddNewNodes, ChangeReplicationFactor, Settle;
    var u := BalancedChain(s);
    var alive := s.sync * s.active;
    PairCard(s.sync, s.active);
    DiffCard(alive, s.active);
    assert s.active - u.sync == s.active - alive;
    assert s.active < s.sync <==> s.active - alive == {} by {
      assert s.active - alive == {} ==> s.active <= alive;
    }
    BalancedHolds(s);
    AddNewNodesExact(u);
    if !AddFails(u) {
      ChangeReplicationFactorExact(AddNewNodes(u).state);
    }
  }

  /** There is no living standby. */
  lemma BalancedRestarts(s: State)
    requires Balanced(s) && s.sync * s.active == {}
    ensures Settle(EstimateConfirmed(s)).Done? && !JoinFails(s) && !LeaveFails(s)
  {
    hide HandleNonSteadyCases, RemoveGoneNodes, AddNewNodes, ChangeReplicationFactor, Settle;
    var u := BalancedChain(s);
    SubsetForms(s.sync, s.active);
    SubsetForms(s.active, s.sync);
    AddNewNodesExact(u);
    BalancedHolds(s);
    if u.active == {} {
      AddNone(u);
    }
    FactorKept(AddNewNodes(u).state);
  }

  lemma FactorKept(s: State)
    requires s.numsync == Min(s.wanted, |s.sync|)
    ensures ChangeReplicationFactor(s) == Done(s)
  {}

  /** From a balanced state, for any active nodes, any wanted factor and any confirmed count: the pass raises
      in two families of states and in no other. */
  lemma BalancedExact(s: State)
    requires Balanced(s)
    ensures Settle(EstimateConfirmed(s)).Raised? <==> JoinFails(s) || LeaveFails(s)
  {
    hide Settle;
    SubsetForms(s.sync, s.active);
    if s.sync * s.active == {} {
      BalancedRestarts(s);
    } else if s.sync <= s.active {
      BalancedGrows(s);
    } else {
      BalancedShrinks(s);
    }
  }

  lemma PassFromBalanced(s: State)
    requires WellFormed(s) && Balanced(s)
    ensures GenerateTransitions(s) == Settle(EstimateConfirmed(s))
    ensures GenerateTransitions(s).Raised? <==> JoinFails(s) || LeaveFails(s)
  {
    hide Settle, Invariant, Recover;
    assert s.sync + s.sync == s.sync;
    InvariantPlaced(s);
    EntryInterrupted(s);
    BalancedExact(s);
  }

  /** While the wanted factor stays the same, one pass follows any change of membership that leaves a
      standby alive: it never raises, ends with the active nodes in both registers and the wanted factor, and
      asks for no more votes than the unconfirmed standbys require. */
  lemma MembershipChange(s: State)
    requires WellFormed(s) && Balanced(s)
    requires s.numsync == Min(s.wanted, |s.sync|) && s.sync * s.active != {}
    ensures var o := GenerateTransitions(s);
            && o.Done? && o.state.sync == s.active && o.state.voters == s.active
            && o.state.numsync == Min(s.wanted, |s.active|)
            && |s.active| - o.state.numsync <= o.state.quorum <= |s.active| - Min(o.state.numsync, Confirmed(s))
  {
    hide HandleNonSteadyCases, RemoveGoneNodes, AddNewNodes, ChangeReplicationFactor;
    hide Settle, Invariant, GenerateTransitions;
    PassFromBalanced(s);
    SameFactorFits(s);
    SameFactorEnds(s);
  }

  lemma SameFactorFits(s: State)
    requires Balanced(s) && s.numsync == Min(s.wanted, |s.sync|)
    ensures !JoinFails(s) && !LeaveFails(s)
  {
    if s.sync <= s.active {
      SubsetCard(s.sync, s.active);
    }
  }

  /** What the wanted factor leaves after the removal, and what adding makes of it. */
  lemma SameFactorEnds(s: State)
    requires Balanced(s) && s.numsync == Min(s.wanted, |s.sync|) && s.sync * s.active != {}
    ensures Settle(EstimateConfirmed(s)).Done? ==>
              var t := Settle(EstimateConfirmed(s)).state;
              && t.sync == s.active && t.voters == s.active && t.numsync == Min(s.wanted, |s.active|)
              && |s.active| - t.numsync <= t.quorum <= |s.active| - Min(t.numsync, Confirmed(s))
  {
    hide HandleNonSteadyCases, RemoveGoneNodes, AddNewNodes, ChangeReplicationFactor;
    hide Settle, Invariant, AfterRemoval, AfterAdding, EstimateConfirmed;
    if Settle(EstimateConfirmed(s)).Done? {
      var u := BalancedChain(s);
      SameFactorAfterRemoval(s, u);
      AddNewNodesExact(u);
      SubsetForms(u.sync, s.active);
      SameFactorAfterAdding(u);
      FactorKept(AddNewNodes(u).state);
    }
  }

  lemma SameFactorAfterRemoval(s: State, u: State)
    requires Balanced(s) && s.numsync == Min(s.wanted, |s.sync|) && s.sync * s.active != {}
    requires var e := EstimateConfirmed(s);
             Reaches(e, u, AfterRemoval(e).0, s.sync * s.active, AfterRemoval(e).1, s.sync * s.active)
    ensures u.sync != {} && u.sync <= s.active && u.active == s.active && u.wanted == s.wanted && u.confirmed == Confirmed(s)
    ensures u.numsync == Min(s.wanted, |u.sync|)
    ensures u.quorum <= |u.sync| - Min(u.numsync, Confirmed(s))
  {
    PairCard(s.sync, s.active);
    SubsetForms(s.sync, s.active);
  }

  lemma SameFactorAfterAdding(u: State)
    requires u.sync <= u.active && u.sync != {} && u.wanted >= 1
    requires u.numsync == Min(u.wanted, |u.sync|) && u.quorum <= |u.sync| - Min(u.numsync, u.confirmed)
    ensures AfterAdding(u).1 == Min(u.wanted, |u.active|)
    ensures AfterAdding(u).0 <= |u.active| - Min(AfterAdding(u).1, u.confirmed)
  {
    DiffCard(u.sync, u.active);
    SubsetCard(u.sync, u.active);
  }

  // ---------------------------------------------------------------- from any steady state

  /** The registers once the margin is trimmed, the dead nodes are gone, and the new ones have joined. */
  function Trimmed(s: State): State {
    s.(quorum := AfterTrim(s).0, numsync := AfterTrim(s).1)
  }

  function Shrunk(s: State): State {
    s.(quorum := AfterRemoval(s).0, numsync := AfterRemoval(s).1, voters := s.sync * s.active, sync := s.sync * s.active)
  }

  function Grown(s: State): State {
    s.(quorum := AfterAdding(s).0, numsync := AfterAdding(s).1, voters := s.active, sync := s.active)
  }

  /** A standby survives, and then the nodes that join are too few, or the quorum carries just enough slack to
      hide that a lower factor needs more votes. */
  predicate SteadyFails(s: State) {
    var u := Shrunk(Trimmed(s));
    u.sync != {} && (AddFails(u) || FactorFails(Grown(u)))
  }

  /** The two last phases, with no standby left. */
  lemma RestartFits(u: State)
    requires Steady(u) && u.sync == {} && u.numsync == 0
    ensures AddNewNodes(u).Done? && ChangeReplicationFactor(AddNewNodes(u).state).Done?
  {
    hide AddNewNodes;
    if u.active == {} {
      AddNone(u);
    } else {
      AddFirst(u);
    }
    FactorKept(AddNewNodes(u).state);
  }

  /** The two last phases, with some standbys. */
  lemma GrowthFits(u: State, v: State)
    requires Steady(u) && {} < u.sync <= u.active
    requires u == v.(trace := u.trace)
    ensures AddNewNodes(u).Raised? <==> AddFails(v)
    ensures AddNewNodes(u).Done? ==> (ChangeReplicationFactor(AddNewNodes(u).state).Raised? <==> FactorFails(Grown(v)))
  {
    hide AddNewNodes, ChangeReplicationFactor, AfterAdding;
    AddNewNodesExact(u);
    if AddNewNodes(u).Done? {
      assert AfterAdding(u) == AfterAdding(v) by {
        SameGrowth(u, v);
      }
      ChangeReplicationFactorExact(AddNewNodes(u).state);
    }
  }

  lemma SameGrowth(u: State, v: State)
    requires u == v.(trace := u.trace)
    ensures AfterAdding(u) == AfterAdding(v) && (AddFails(u) <==> AddFails(v))
  {}

  lemma SteadyTrims(s: State)
    requires Steady(s) && (s.sync != {} ==> s.numsync >= 1)
    ensures HandleNonSteadyCases(s).Done?
    ensures var t := HandleNonSteadyCases(s).state; Steady(t) && t == Trimmed(s).(trace := t.trace)
  {
    hide TrimMargin;
    assert MatchSets(s) == Done(s);
    TrimMarginExact(s);
  }

  lemma SteadyExact(s: State)
    requires Steady(s) && (s.sync != {} ==> s.numsync >= 1)
    ensures Settle(s).Raised? <==> SteadyFails(s)
  {
    hide HandleNonSteadyCases, RemoveGoneNodes, AddNewNodes, ChangeReplicationFactor;
    hide Settle, AfterTrim, AddFails, FactorFails;
    SteadyTrims(s);
    var t := HandleNonSteadyCases(s).state;
    RemoveGoneNodesTotal(t);
    RemoveGoneNodesReaches(t);
    var u := RemoveGoneNodes(t).state;
    SettleThrough(s, t, u);
    assert u == Shrunk(Trimmed(s)).(trace := u.trace);
    if u.sync == {} {
      RestartFits(u);
    } else {
      GrowthFits(u, Shrunk(Trimmed(s)));
    }
  }

  /** From every state in which both registers name the same nodes, so from every state that a completed pass
      leaves with voters, the next pass raises in exactly these cases. */
  lemma PassFromSteady(s: State)
    requires WellFormed(s) && Steady(s)
    ensures GenerateTransitions(s).Raised? <==> SteadyFails(EstimateConfirmed(s))
  {
    hide Settle, Invariant, Recover, SteadyFails;
    assert s.sync + s.sync == s.sync;
    InvariantPlaced(s);
    EntryInterrupted(s);
    SteadyExact(EstimateConfirmed(s));
  }

  /** What one pass could not settle for want of confirmations, the next one settles: once as many standbys are
      confirmed as are waited for, a pass from where another ended releases the slack and is at the optimum. */
  lemma SecondPassOptimal(s: State)
    requires WellFormed(s) && Reached(s) && s.voters == s.active
    requires s.numsync <= s.confirmed <= |s.active|
    ensures GenerateTransitions(s).Done? && Optimal(GenerateTransitions(s).state)
  {
    hide Settle, Invariant, Recover, HandleNonSteadyCases;
    hide RemoveGoneNodes, AddNewNodes, ChangeReplicationFactor, AfterTrim;
    assert s.sync + s.sync == s.sync;
    InvariantPlaced(s);
    EntryInterrupted(s);
    assert s.sync - s.active == {};
    var e := EstimateConfirmed(s);
    assert e == s by {
      assert s.sync == {} ==> s.sync * s.active == {};
    }
    SteadyTrims(s);
    var t := HandleNonSteadyCases(s).state;
    SlackTrimmed(s);
    RemoveNone(t);
    SettleThrough(s, t, t);
    AddNone(t);
    FactorKept(t);
  }

  lemma SlackTrimmed(s: State)
    requires Steady(s) && s.numsync == Min(s.wanted, |s.sync|) && s.numsync <= s.confirmed
    ensures AfterTrim(s) == (|s.sync| - s.numsync, s.numsync)
  {}
}
