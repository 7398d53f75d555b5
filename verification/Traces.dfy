/** The transitions of a whole pass, in closed form. */
module Traces {
  import opened Names
  import opened QuorumState
  import opened Overlap
  import opened Replay
  import opened Phases
  import opened Growth
  import opened Repairs
  import opened Passes
  import opened PassEnds
  import opened Transfer

  /** A broken key is rewritten. */
  function EntryTrace(s: State): seq<Transition> {
    if Invariant(s) then [] else [KeyWrite(s, Entered(s).quorum, s.sync)]
  }

  /** The last two phases: nodes join, and the factor changes; where no standby is left, all join at once. */
  function GrowthTrace(s: State): seq<Transition> {
    if s.sync != {} then AddingTrace(s) + ChangeTrace(Grown(s))
    else if s.active == {} then []
    else FirstTrace(s)
  }

  /** The phases after the repair. */
  function TailTrace(s: State): seq<Transition> {
    RemovalTrace(s) + GrowthTrace(Shrunk(s))
  }

  function SettleTrace(s: State): seq<Transition> {
    RepairTrace(s) + TailTrace(Mended(s))
  }

  /** A new primary stops after the claim while none of the members is connected. */
  predicate Stops(s: State) {
    Inherited(s) * s.active == {}
  }

  /** What a pass records: under a known primary, or as the first pass of a new one. */
  function PassTrace(s: State): seq<Transition> {
    if s.leader == s.leaderWanted then EntryTrace(s) + SettleTrace(Given(s))
    else ClaimTrace(s) + (if Stops(s) then [] else SettleTrace(TakenOver(s)))
  }

  lemma AlikeTails(s: State, t: State)
    requires Alike(s, t)
    ensures RemovalTrace(s) == RemovalTrace(t) && AddingTrace(s) == AddingTrace(t)
    ensures ChangeTrace(s) == ChangeTrace(t) && FirstTrace(s) == FirstTrace(t)
  {
    hide *;
    AlikeRemovals(s, t);
    AlikeAdditions(s, t);
    AlikeFirst(s, t);
    AlikeChanges(s, t);
  }

  lemma AlikeRemovals(s: State, t: State)
    requires Alike(s, t)
    ensures RemovalTrace(s) == RemovalTrace(t)
  {
    hide Greatest, AfterRemoval;
    AlikeForms(s, t);
  }

  lemma AlikeAdditions(s: State, t: State)
    requires Alike(s, t)
    ensures AddingTrace(s) == AddingTrace(t)
  {
    hide Smallest, ChosenTrace, OthersTrace;
    var joining, target := s.active - s.sync, Target(s);
    AlikeOthers(s, t, s.active, target);
    AlikeOthers(s.(numsync := target), t.(numsync := target), s.active, target);
    if target > s.numsync {
      AlikeChosen(s, t, Smallest(joining, target - s.numsync), target);
    }
  }

  lemma AlikeOthers(s: State, t: State, nodes: set<Name>, target: int)
    requires Alike(s, t)
    ensures OthersTrace(s, nodes, target) == OthersTrace(t, nodes, target)
  {}

  lemma AlikeChosen(s: State, t: State, add: set<Name>, target: int)
    requires Alike(s, t)
    ensures ChosenTrace(s, add, target) == ChosenTrace(t, add, target)
  {}

  lemma AlikeFirst(s: State, t: State)
    requires Alike(s, t)
    ensures FirstTrace(s) == FirstTrace(t)
  {}

  lemma AlikeChanges(s: State, t: State)
    requires Alike(s, t)
    ensures ChangeTrace(s) == ChangeTrace(t)
  {
    hide AfterFactor;
    AlikeForms(s, t);
  }

  lemma AlikeGrowth(s: State, t: State)
    requires Alike(s, t)
    ensures GrowthTrace(s) == GrowthTrace(t) && Alike(Shrunk(s), Shrunk(t)) && Alike(Grown(s), Grown(t))
  {
    hide RemovalTrace, AddingTrace, ChangeTrace, FirstTrace, AfterRemoval, AfterAdding;
    AlikeForms(s, t);
    AlikeTails(s, t);
    AlikeTails(Grown(s), Grown(t));
  }

  lemma AlikeRepairs(s: State, t: State)
    requires Alike(s, t)
    ensures MatchTrace(s) == MatchTrace(t)
  {
    hide Voting, AfterAdmission, AfterEviction, Dropped, AdmissionTrace, VotelessTrace;
    AlikeSets(s, t);
    SameAdmission(Dropped(s), Dropped(t));
  }

  lemma AlikeSettles(s: State, t: State)
    requires Alike(s, t)
    ensures SettleTrace(s) == SettleTrace(t)
  {
    hide MatchTrace, TrimTrace, RemovalTrace, GrowthTrace, Mended, Shrunk, Matched, AfterMatch;
    AlikeRepairs(s, t);
    AlikeMatch(s, t);
    SameTrim(Repaired(s), Repaired(t));
    AlikeMended(s, t);
    AlikeTails(Mended(s), Mended(t));
    AlikeGrowth(Mended(s), Mended(t));
    AlikeGrowth(Shrunk(Mended(s)), Shrunk(Mended(t)));
  }

  /** The last two phases. */
  lemma GrowthRecords(u: State, v: State)
    requires Steady(u) && u.sync <= u.active && (u.sync == {} ==> u.numsync == 0)
    requires AddNewNodes(u) == Done(v)
    ensures ChangeReplicationFactor(v).Done? ==> Records(u, ChangeReplicationFactor(v).state, GrowthTrace(u))
  {
    hide AddNewNodes, ChangeReplicationFactor, AddingTrace, ChangeTrace, FirstTrace, AfterAdding;
    AddNewNodesExact(u);
    AddNewNodesRecords(u);
    if u.sync == {} {
      if u.active == {} {
        AddNone(u);
      } else {
        AddFirst(u);
      }
      FactorKept(v);
    } else if ChangeReplicationFactor(v).Done? {
      AlikeTails(v, Grown(u));
      ChangeRecords(v);
      RecordsMore(u, v, ChangeReplicationFactor(v).state, AddingTrace(u), ChangeTrace(v));
    }
  }

  lemma SettleRecords(s: State)
    requires Interrupted(s)
    ensures Settle(s).Done? ==> Records(s, Settle(s).state, SettleTrace(s))
  {
    hide Invariant, HandleNonSteadyCases, RemoveGoneNodes, AddNewNodes, ChangeReplicationFactor, Settle;
    hide Matched, AfterRepair, RepairTrace, RemovalTrace, GrowthTrace, RepairFails, MarginFails;
    if Settle(s).Done? {
      var t, u, v := SettleStates(s);
      AlikeTails(t, Mended(s));
      AlikeForms(t, Mended(s));
      AlikeGrowth(u, Shrunk(Mended(s)));
      GrowthRecords(u, v);
      RecordsMore(t, u, Settle(s).state, RemovalTrace(t), GrowthTrace(u));
      RecordsMore(s, t, Settle(s).state, RepairTrace(s), TailTrace(Mended(s)));
    }
  }

  /** The states between the phases. */
  lemma SettleStates(s: State) returns (t: State, u: State, v: State)
    requires Interrupted(s)
    ensures Settle(s).Done? ==>
              && AddNewNodes(u) == Done(v) && Settle(s) == ChangeReplicationFactor(v)
              && Alike(t, Mended(s)) && Records(s, t, RepairTrace(s))
              && Alike(u, Shrunk(Mended(s))) && Records(t, u, RemovalTrace(t))
              && Steady(u) && u.sync <= u.active && (u.sync == {} ==> u.numsync == 0)
  {
    hide Invariant, HandleNonSteadyCases, RemoveGoneNodes, AddNewNodes, ChangeReplicationFactor;
    hide Matched, AfterRepair, RepairTrace, RemovalTrace, RepairFails, MarginFails;
    HandleNonSteadyCasesExact(s);
    t, u, v := s, s, s;
    if Settle(s).Done? {
      t := HandleNonSteadyCases(s).state;
      RemoveGoneNodesTotal(t);
      RemoveGoneNodesReaches(t);
      u := RemoveGoneNodes(t).state;
      v := AddNewNodes(u).state;
      AlikeForms(t, Mended(s));
    }
  }

  lemma EntryRecords(s: State)
    requires WellFormed(s)
    ensures Recover(s).Done? && Recover(s).state.trace == EntryTrace(s)
  {
    hide Invariant, QuorumUpdate;
    if !Invariant(s) {
      BrokenRepaired(s);
    }
  }

  lemma KnownRecords(s: State)
    requires WellFormed(s)
    ensures GenerateTransitions(s).Done? ==> GenerateTransitions(s).state.trace == PassTrace(s)
  {
    hide Invariant, Recover, Settle, SettleTrace, EntryTrace, Interrupted, Entered, StopsEarly;
    EnteredExact(s);
    EntryRecords(s);
    LeaderEntered(s);
    var r := Recover(s).state;
    AlikeGiven(r, Entered(s));
    SettleRecords(EstimateConfirmed(r));
    AlikeSettles(EstimateConfirmed(r), Given(s));
  }

  lemma FailoverRecords(s: State)
    requires HandedOver(s)
    ensures GenerateTransitions(s).Done? ==> GenerateTransitions(s).state.trace == PassTrace(s)
  {
    hide GenerateTransitions, Invariant, Settle, SettleTrace, Interrupted, Failover, SettleFails, ClaimTrace, Ended;
    FailoverExact(s);
    if s.quorum < |Inherited(s)| && !Stops(s) {
      var t := Failover(s).state;
      TakenOverInterrupted(s, t);
      SettleRecords(EstimateConfirmed(t));
      AlikeGiven(t, Takeover(s));
      AlikeSettles(EstimateConfirmed(t), TakenOver(s));
    } else if s.quorum < |Inherited(s)| {
      assert ClaimTrace(s) + [] == ClaimTrace(s);
    }
  }

  lemma TakenOverSteady(s: State)
    requires HandedOver(s) && s.quorum < |Inherited(s)|
    ensures Interrupted(TakenOver(s))
  {
    hide Failover, Interrupted, Steady;
    FailoverClaims(s);
    AlikeSteady(Failover(s).state, Takeover(s));
    TakenOverInterrupted(s, Takeover(s));
  }

  lemma AlikeSteady(s: State, t: State)
    requires Alike(s, t)
    ensures Steady(s) <==> Steady(t)
  {}

  /** A pass under a known primary, or the first one of a new primary. */
  predicate Starts(s: State) {
    WellFormed(s) || HandedOver(s)
  }

  /** The passes that raise. */
  predicate Fails(s: State) {
    if s.leader == s.leaderWanted then PassFails(s)
    else s.quorum >= |Inherited(s)| || (!Stops(s) && SettleFails(TakenOver(s)))
  }

  /** Exactly when a pass raises, and every transition it records otherwise, in order: under a known primary from any
      registers, broken and interrupted ones included, and for the first pass of a new primary, whatever is active,
      wanted and confirmed. */
  lemma PassRecords(s: State)
    requires Starts(s)
    ensures GenerateTransitions(s).Raised? <==> Fails(s)
    ensures GenerateTransitions(s).Done? ==> GenerateTransitions(s).state.trace == PassTrace(s)
  {
    hide GenerateTransitions, PassFails, SettleFails, TakenOver, PassTrace, Ended, Given;
    if WellFormed(s) {
      PassExact(s);
      KnownRecords(s);
    } else {
      FailoverExact(s);
      FailoverRecords(s);
    }
  }

  // ---------------------------------------------------------------- an unknown confirmed count

  /** The count a pass works with, when none was given and some listed standby is alive: as many of the living as the key
      does not ask votes from. A broken key has just been rewritten to ask for all votes. */
  lemma DerivedCount(s: State)
    requires WellFormed(s)
    ensures s.confirmed != 0 || s.sync * s.active == {} ==> Given(s).confirmed == s.confirmed
    ensures s.confirmed == 0 && s.sync * s.active != {} ==>
              Given(s).confirmed == if Invariant(s) then Min(|s.sync * s.active|, |s.voters| - s.quorum) else 0
  {
    hide Invariant;
  }

  /** The same for a new primary: the key it claims asks for the old quorum. */
  lemma DerivedCountClaimed(s: State)
    requires HandedOver(s)
    ensures s.confirmed != 0 || Inherited(s) * s.active == {} ==> TakenOver(s).confirmed == s.confirmed
    ensures s.confirmed == 0 && Inherited(s) * s.active != {} ==>
              TakenOver(s).confirmed == Min(|Inherited(s) * s.active|, |Inherited(s)| - s.quorum)
  {}

  /** So a key with slack is not trimmed on the strength of a count that nobody reported: one write is left, which asks for
      more votes where fewer standbys are alive than the key relies on. */
  lemma DerivedCountTrims(s: State)
    requires WellFormed(s) && Steady(s) && s.confirmed == 0 && s.sync * s.active != {}
    ensures var alive, nodes := |s.sync * s.active|, |s.sync|;
            TrimTrace(Given(s)) == if s.numsync == s.wanted && s.quorum + s.numsync > nodes && s.quorum + alive < nodes
                                   then [KeyWrite(s, nodes - alive, s.sync)] else []
  {
    hide Invariant;
    InvariantPlaced(s);
    assert s.sync + s.sync == s.sync;
    SubsetCard(s.sync * s.active, s.sync);
    SubsetCard({}, s.sync * s.active);
  }

  /** After a restart of Patroni, with everybody listed and voting, the pass is silent whatever the slack of the key. */
  lemma DerivedCountSilent(s: State)
    requires WellFormed(s) && Invariant(s) && s.voters == s.sync == s.active && s.active != {}
    requires s.confirmed == 0 && s.numsync == Min(s.wanted, |s.sync|)
    ensures GenerateTransitions(s).Done? && GenerateTransitions(s).state.trace == []
    ensures SameRegisters(GenerateTransitions(s).state, s)
  {
    hide Invariant, GenerateTransitions, Sound, Fails, EntryTrace, RepairTrace, TailTrace, Given;
    InvariantPlaced(s);
    assert s.sync + s.sync == s.sync && s.sync * s.active == s.sync && s.sync - s.active == {};
    PassRecords(s);
    SilentParts(s);
    PassIsSound(s);
    SoundSilent(s, GenerateTransitions(s).state);
  }

  lemma SilentParts(s: State)
    requires WellFormed(s) && Invariant(s) && Steady(s) && s.sync == s.active && s.active != {}
    requires s.confirmed == 0 && s.numsync == Min(s.wanted, |s.sync|)
    ensures EntryTrace(s) == [] && RepairTrace(Given(s)) == [] && TailTrace(Mended(Given(s))) == [] && !Fails(s)
  {
    hide Invariant;
    assert s.sync * s.active == s.sync && s.sync - s.active == {};
    DerivedCountTrims(s);
    var e := Given(s);
    assert Repaired(e) == e;
    assert Mended(e) == e;
  }
}
