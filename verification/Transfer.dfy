/** Hand-over to a new primary, changes of the replication factor, and passes that have nothing to do. */
module Transfer {
  import opened Names
  import opened QuorumState
  import opened Overlap
  import opened Replay
  import opened Phases
  import opened Growth
  import opened Repairs
  import opened Passes
  import opened PassEnds

  // ---------------------------------------------------------------- fail-over

  /** The nodes that the new primary synchronises to: all members of the key but itself. */
  function Inherited(s: State): set<Name> {
    Electorate(s) - {s.leaderWanted}
  }

  /** The key still names the old leader; the new primary waits for enough of the members, or for more of them
      than that, or has no standby list yet. */
  predicate HandedOver(s: State) {
    && s.leader != s.leaderWanted && s.trace == []
    && s.leader !in s.voters && s.leaderWanted !in s.active
    && s.quorum >= 0 && s.wanted >= 1
    && (if s.sync == {} then s.numsync == 0 && s.confirmed == 0
        else s.sync == Inherited(s) && |s.sync| - s.quorum <= s.numsync <= |s.sync| && s.numsync >= 0)
    && 0 <= s.confirmed <= |s.sync * s.active|
  }

  /** The registers after the new primary has claimed the key. */
  function Takeover(s: State): State {
    s.(leader := s.leaderWanted, voters := Inherited(s), sync := Inherited(s),
       numsync := if s.sync == {} then |Inherited(s)| - s.quorum else s.numsync)
  }

  /** What is recorded on the way. */
  function ClaimTrace(s: State): seq<Transition> {
    (if s.sync == {} then [ListWrite(s, |Inherited(s)| - s.quorum, Inherited(s))] else [])
    + [KeyWrite(Takeover(s), s.quorum, Inherited(s))]
  }

  predicate Claimed(s: State, t: State) {
    Alike(t, Takeover(s)) && t.trace == ClaimTrace(s)
  }

  /** Taking over the key with the inherited voters always fits. */
  lemma ClaimFits(s: State, t: State)
    requires Led(t) && t.voters == t.sync && |t.sync| <= t.quorum + t.numsync
    ensures Invariant(t)
  {
    InvariantPlaced(t);
    assert t.voters + t.sync == t.sync;
  }

  lemma ListedOnce(s: State, numsync: int, sync: set<Name>)
    requires SyncUpdate(s, numsync, sync).Done?
    ensures SyncUpdate(s, numsync, sync) == Done(Emit(s.(numsync := numsync, sync := sync), Sync))
  {
    hide Invariant;
  }

  lemma ClaimRule(s: State, voters: set<Name>)
    requires s.leader != s.leaderWanted && 0 <= s.quorum < |voters|
    requires Invariant(s.(leader := s.leaderWanted, voters := voters))
    ensures QuorumUpdate(s, s.quorum, voters, Some(s.leaderWanted), true) ==
            Done(Emit(s.(leader := s.leaderWanted, voters := voters), Quorum))
  {
    hide Invariant;
  }

  lemma FailoverClaims(s: State)
    requires HandedOver(s) && s.quorum < |Inherited(s)|
    ensures Failover(s).Done? && Claimed(s, Failover(s).state) && Steady(Failover(s).state)
    ensures s.sync == {} || s.numsync == |s.sync| - s.quorum ==> Balanced(Failover(s).state)
  {
    hide Invariant, SyncUpdate, QuorumUpdate;
    var voters := (s.voters - {s.leaderWanted}) + {s.leader};
    assert voters == Inherited(s);
    var listed := FailoverListed(s);
    if s.sync == {} {
      ListedOnce(s, |voters| - s.quorum, voters);
      assert s.sync * s.active == {};
    }
    ClaimFits(s, listed.(leader := s.leaderWanted, voters := voters));
    ClaimRule(listed, voters);
  }

  /** Without room the claim fails before the key names the new primary, and the handler does not change its leader. */
  lemma FailoverStuck(s: State)
    requires HandedOver(s) && s.quorum >= |Inherited(s)|
    ensures GenerateTransitions(s).Raised?
  {
    hide Invariant, Settle, Failover, QuorumUpdate;
    ClaimRefused(s);
    var at := Failover(s).at;
    LeaderKept(at, |at.sync| - at.numsync, at.sync, true);
    RecoverKeeps(s);
  }

  lemma ClaimRefused(s: State)
    requires HandedOver(s) && s.quorum >= |Inherited(s)|
    ensures Failover(s).Raised? && Failover(s).at.leader == s.leader
  {
    hide Invariant;
    var voters := (s.voters - {s.leaderWanted}) + {s.leader};
    assert voters == Inherited(s) && s.leader in voters;
    assert |voters| > 0;
  }

  lemma LeaderKept(s: State, quorum: int, voters: set<Name>, adjust: bool)
    ensures Left(QuorumUpdate(s, quorum, voters, None, adjust)).leader == s.leader
  {
    hide Invariant;
  }

  /** What the pass works with after the claim, if it goes on. */
  function TakenOver(s: State): State {
    EstimateConfirmed(Takeover(s))
  }

  lemma TakenOverInterrupted(s: State, t: State)
    requires HandedOver(s) && s.quorum < |Inherited(s)| && Alike(t, Takeover(s)) && Steady(t)
    ensures Interrupted(EstimateConfirmed(t))
  {
    hide Invariant;
    ClaimFits(s, EstimateConfirmed(t));
  }

  /** The first pass of a new primary. It claims the key exactly when the old quorum leaves room, that is when
      it is below the number of nodes that remain; it then stops if none of them is connected yet, and otherwise
      goes on from equal sets, raising exactly where the phases do and ending as they do. */
  lemma FailoverExact(s: State)
    requires HandedOver(s)
    ensures s.quorum >= |Inherited(s)| ==> GenerateTransitions(s).Raised?
    ensures s.quorum < |Inherited(s)| ==> Failover(s).Done?
    ensures s.quorum < |Inherited(s)| ==>
              var o, t := GenerateTransitions(s), Failover(s).state;
              && Claimed(s, t) && Steady(t)
              && o == (if t.sync * t.active == {} then Done(t) else Settle(EstimateConfirmed(t)))
              && (o.Raised? <==> t.sync * t.active != {} && SettleFails(TakenOver(s)))
              && (o.Done? && t.sync * t.active != {} ==> Alike(o.state, Ended(TakenOver(s))))
  {
    hide Settle, Invariant, Failover, SettleFails, Ended, Interrupted;
    if s.quorum >= |Inherited(s)| {
      FailoverStuck(s);
    } else {
      FailoverClaims(s);
      var t := Failover(s).state;
      TakenOverInterrupted(s, t);
      SettleExact(EstimateConfirmed(t));
      AlikeGiven(t, Takeover(s));
      AlikeEnds(EstimateConfirmed(t), TakenOver(s));
    }
  }

  /** If the list waits for just enough members, or there was none, the claim leaves a balanced state, and the pass
      raises only in the families known for those. */
  lemma FailoverBalanced(s: State)
    requires HandedOver(s) && s.quorum < |Inherited(s)|
    requires s.sync == {} || s.numsync == |s.sync| - s.quorum
    ensures Failover(s).Done? && Balanced(Failover(s).state)
    ensures var t := Failover(s).state;
            GenerateTransitions(s).Raised? <==> t.sync * t.active != {} && (JoinFails(t) || LeaveFails(t))
  {
    hide GenerateTransitions, Settle, Failover, JoinFails, LeaveFails, SettleFails, TakenOver, Ended;
    FailoverClaims(s);
    FailoverExact(s);
    BalancedExact(Failover(s).state);
  }

  // ---------------------------------------------------------------- a change of the replication factor

  /** The transitions of a pass in which only the wanted factor differs from the optimum. */
  function FactorTrace(s: State): seq<Transition> {
    var nodes := |s.sync|;
    var factor := Min(s.wanted, nodes);
    var list := Transition(Sync, s.leader, factor, s.sync);
    if factor > s.numsync then
      var quorum := nodes - factor + Max(factor - Confirmed(s), 0);
      if quorum == s.quorum then [list] else [list, Transition(Quorum, s.leader, quorum, s.sync)]
    else if factor < s.numsync then
      [Transition(Quorum, s.leader, nodes - factor + (if s.wanted > Confirmed(s) then Max(s.numsync - Confirmed(s), 0) else 0), s.sync), list]
    else []
  }

  /** When only the factor changes, an increase is written to the standby list before any vote is given up,
      and a decrease asks for the votes before it is written to the standby list; nothing is ever raised. */
  lemma FactorChangeOrdered(s: State)
    requires WellFormed(s) && Balanced(s) && s.active == s.sync
    ensures var o := GenerateTransitions(s);
            && o.Done? && o.state.trace == FactorTrace(s)
            && o.state.sync == s.sync && o.state.voters == s.sync && o.state.numsync == Min(s.wanted, |s.sync|)
            && (Confirmed(s) >= Max(s.numsync, o.state.numsync) ==> o.state.quorum == |s.sync| - o.state.numsync)
  {
    hide HandleNonSteadyCases, RemoveGoneNodes, AddNewNodes, ChangeReplicationFactor;
    hide Settle, Invariant, GenerateTransitions;
    assert s.sync * s.active == s.sync;
    PassFromBalanced(s);
    var e := EstimateConfirmed(s);
    BalancedHolds(s);
    SubsetForms(s.sync, s.active);
    RemoveNone(e);
    SettleThrough(e, e, e);
    AddNone(e);
    FactorTraced(e);
  }

  lemma FactorTraced(s: State)
    requires Balanced(s.(confirmed := 0)) && s.trace == []
    ensures var o := ChangeReplicationFactor(s);
            var nodes := |s.sync|;
            var factor := Min(s.wanted, nodes);
            var list := Transition(Sync, s.leader, factor, s.sync);
            var raised := nodes - factor + Max(factor - s.confirmed, 0);
            var lowered := nodes - factor + (if s.wanted > s.confirmed then Max(s.numsync - s.confirmed, 0) else 0);
            && o.Done? && o.state.sync == s.sync && o.state.voters == s.sync && o.state.numsync == factor
            && o.state.quorum == (if factor > s.numsync then raised else if factor < s.numsync then lowered else s.quorum)
            && o.state.trace ==
                 (if factor > s.numsync then
                    if raised == s.quorum then [list] else [list, Transition(Quorum, s.leader, raised, s.sync)]
                  else if factor < s.numsync then [Transition(Quorum, s.leader, lowered, s.sync), list]
                  else [])
  {
    hide RaiseFactor, LowerFactor;
    var factor := Min(s.wanted, |s.sync|);
    if factor > s.numsync {
      RaiseFactorRule(s);
    } else if factor < s.numsync {
      LowerFactorRule(s);
    }
  }

  // ---------------------------------------------------------------- silence

  lemma OptimalSilent(s: State)
    requires WellFormed(s) && Optimal(s) && s.numsync <= s.confirmed <= |s.sync * s.active|
    ensures GenerateTransitions(s).Done? && GenerateTransitions(s).state.trace == []
  {
    hide GenerateTransitions;
    assert s.sync * s.active == s.sync;
    FactorChangeOrdered(s);
  }

  /** A pass without transitions started with equal sets: nothing was repaired. */
  lemma SilentMeansSteady(s: State)
    requires WellFormed(s)
    ensures GenerateTransitions(s).Done? && GenerateTransitions(s).state.trace == [] ==>
              Recover(s) == Done(s)
              && var o := HandleNonSteadyCases(EstimateConfirmed(s)); o.Done? && SameRegisters(o.state, s)
  {
    hide HandleNonSteadyCases, RemoveGoneNodes, AddNewNodes, ChangeReplicationFactor, Invariant, Recover, Sound;
    if GenerateTransitions(s).Done? && GenerateTransitions(s).state.trace == [] {
      EntryInterrupted(s);
      RecoverKeeps(s);
      RecoverSound(s);
      var r := Recover(s).state;
      EstimateSound(s, r);
      var e := EstimateConfirmed(r);
      SettleSound(s, e);
      if !Invariant(s) {
        BrokenRepaired(s);
      }
      HandleNonSteadyCasesSound(s, e);
      var t := HandleNonSteadyCases(e).state;
      RemoveGoneNodesSound(s, t);
      var u := RemoveGoneNodes(t).state;
      AddNewNodesSound(s, u);
      ChangeReplicationFactorSound(s, AddNewNodes(u).state);
      SoundSilent(s, t);
    }
  }

  lemma SoundSilent(first: State, s: State)
    requires Sound(first, s) && s.trace == []
    ensures SameRegisters(s, first)
  {}

  /** Silence means optimal: with enough confirmed standbys, a pass plans nothing exactly in the optimal state. */
  lemma SilentIffOptimal(s: State)
    requires WellFormed(s) && s.numsync <= s.confirmed <= |s.sync * s.active|
    ensures GenerateTransitions(s).Done? && GenerateTransitions(s).state.trace == [] <==> Optimal(s)
  {
    hide GenerateTransitions, HandleNonSteadyCases, Invariant, Sound;
    if Optimal(s) {
      OptimalSilent(s);
    } else if GenerateTransitions(s).Done? && GenerateTransitions(s).state.trace == [] {
      PassReaches(s);
      SilentMeansSteady(s);
      SilentUnchanged(s);
      SilentTrimmed(s);
    }
  }

  lemma SilentUnchanged(s: State)
    requires WellFormed(s)
    ensures GenerateTransitions(s).Done? && GenerateTransitions(s).state.trace == [] ==>
              SameRegisters(GenerateTransitions(s).state, s)
  {
    hide GenerateTransitions, Sound;
    PassIsSound(s);
    if GenerateTransitions(s).Done? && GenerateTransitions(s).state.trace == [] {
      SoundSilent(s, GenerateTransitions(s).state);
    }
  }

  /** If the repair leaves the registers alone, the quorum was optimal for them. */
  lemma SilentTrimmed(s: State)
    requires WellFormed(s) && Invariant(s) && s.numsync <= s.confirmed <= |s.sync * s.active|
    requires var o := HandleNonSteadyCases(EstimateConfirmed(s)); o.Done? && SameRegisters(o.state, s)
    ensures s.voters == s.sync && s.quorum == |s.sync| - s.numsync
  {
    hide MatchSets, TrimMargin, Invariant;
    var e := EstimateConfirmed(s);
    InvariantPlaced(s);
    InvariantPlaced(e);
    HandleNonSteadyCasesExact(e);
    assert s.voters == s.sync;
    assert s.sync + s.sync == s.sync;
    SetsMatch(e);
    TrimMarginExact(e);
  }

  lemma SetsMatch(s: State)
    requires s.voters == s.sync
    ensures MatchSets(s) == Done(s)
  {}
}
