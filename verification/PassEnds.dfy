/** Every pass under a known primary, in closed form: when it raises, and the registers it ends with. */
module PassEnds {
  import opened Names
  import opened QuorumState
  import opened Overlap
  import opened Replay
  import opened Phases
  import opened Growth
  import opened Repairs
  import opened Passes

  /** The registers once the pass is entered: a broken key is rewritten from the list. */
  function Entered(s: State): State {
    if Invariant(s) then s
    else s.(quorum := |s.sync| - s.numsync + Max(s.numsync - s.confirmed, 0), voters := s.sync)
  }

  /** The registers once the sets match and the margin is trimmed. */
  function Mended(s: State): State {
    s.(quorum := AfterRepair(s).0, numsync := AfterRepair(s).1, voters := Matched(s), sync := Matched(s))
  }

  /** The registers once the active nodes are listed where no standby was left. */
  function Restarted(s: State): State {
    if s.active == {} then s
    else if s.confirmed == 0 then s.(quorum := 0, voters := {}, numsync := Target(s), sync := s.active)
    else s.(quorum := |s.active| - Target(s) + Max(Target(s) - s.confirmed, 0), voters := s.active,
            numsync := Target(s), sync := s.active)
  }

  /** The registers once the factor is the wanted one. */
  function Changed(s: State): State {
    s.(quorum := AfterFactor(s), numsync := Min(s.wanted, |s.sync|))
  }

  /** The registers after the repair, the removal, the addition and the change of the factor. */
  function Ended(s: State): State {
    var u := Shrunk(Mended(s));
    if u.sync == {} then Restarted(u) else Changed(Grown(u))
  }

  /** What the pass works with: the key entered, and the confirmed count known or derived. */
  function Given(s: State): State {
    EstimateConfirmed(Entered(s))
  }

  predicate SettleFails(s: State) {
    var u := Shrunk(Mended(s));
    RepairFails(s) || MarginFails(s) || (u.sync != {} && (AddFails(u) || FactorFails(Grown(u))))
  }

  /** The passes that raise, by what they start from. */
  predicate PassFails(s: State) {
    SettleFails(Given(s))
  }

  predicate Alike(s: State, t: State) {
    s == t.(trace := s.trace)
  }

  lemma AlikeForms(s: State, t: State)
    requires Alike(s, t)
    ensures AfterRemoval(s) == AfterRemoval(t) && AfterAdding(s) == AfterAdding(t) && AfterFactor(s) == AfterFactor(t)
    ensures (AddFails(s) <==> AddFails(t)) && (FactorFails(s) <==> FactorFails(t))
  {}

  /** Adding and changing the factor where no standby is left. */
  lemma RestartEnds(s: State, t: State)
    requires Steady(s) && s.sync == {} && s.numsync == 0 && Alike(s, t)
    ensures AddNewNodes(s).Done?
    ensures var o := ChangeReplicationFactor(AddNewNodes(s).state); o.Done? && Alike(o.state, Restarted(t))
  {
    hide AddNewNodes;
    if s.active == {} {
      AddNone(s);
    } else {
      AddFirst(s);
    }
    FactorKept(AddNewNodes(s).state);
  }

  /** Adding and changing the factor where some standby is. */
  lemma GrowthEnds(s: State, t: State)
    requires Steady(s) && {} < s.sync <= s.active && Alike(s, t)
    ensures var o := AddNewNodes(s);
            && (o.Raised? <==> AddFails(t))
            && (o.Raised? ==> o.error == QuorumError)
            && (o.Done? ==> var p := ChangeReplicationFactor(o.state);
                            && (p.Raised? <==> FactorFails(Grown(t)))
                            && (p.Raised? ==> p.error == QuorumError)
                            && (p.Done? ==> Alike(p.state, Changed(Grown(t)))))
  {
    hide AddNewNodes, ChangeReplicationFactor, AfterAdding, AfterFactor, AddFails, FactorFails;
    AlikeForms(s, t);
    AddNewNodesExact(s);
    if AddNewNodes(s).Done? {
      var v := AddNewNodes(s).state;
      assert Alike(v, Grown(t));
      AlikeForms(v, Grown(t));
      ChangeReplicationFactorExact(v);
    }
  }

  /** From any state the repair can start from. */
  lemma SettleExact(s: State)
    requires Interrupted(s)
    ensures Settle(s).Raised? <==> SettleFails(s)
    ensures Settle(s).Raised? ==> (Settle(s).error == AssertionError <==> s.voters < s.sync && ListFailsAssertion(s))
    ensures Settle(s).Done? ==> Alike(Settle(s).state, Ended(s))
  {
    hide Invariant, HandleNonSteadyCases, RemoveGoneNodes, AddNewNodes, ChangeReplicationFactor;
    hide Matched, AfterRepair, RepairFails, MarginFails, AddFails, FactorFails, ListFailsAssertion, Restarted, Grown, Changed;
    HandleNonSteadyCasesExact(s);
    if HandleNonSteadyCases(s).Done? {
      AssertionFails(s);
      var t := HandleNonSteadyCases(s).state;
      RemoveGoneNodesTotal(t);
      RemoveGoneNodesReaches(t);
      var u := RemoveGoneNodes(t).state;
      AlikeForms(t, Mended(s));
      assert Alike(u, Shrunk(Mended(s)));
      if u.sync == {} {
        RestartEnds(u, Shrunk(Mended(s)));
      } else {
        GrowthEnds(u, Shrunk(Mended(s)));
      }
    }
  }

  lemma AssertionFails(s: State)
    ensures s.voters < s.sync && ListFailsAssertion(s) ==> RepairFails(s)
  {}

  lemma EnteredExact(s: State)
    requires WellFormed(s)
    ensures Recover(s).Done? && Alike(Recover(s).state, Entered(s)) && !StopsEarly(s)
    ensures Interrupted(Given(s))
  {
    hide Invariant, QuorumUpdate, Recover, Interrupted;
    EntryInterrupted(s);
    if !Invariant(s) {
      BrokenRepaired(s);
    }
    AlikeGiven(Recover(s).state, Entered(s));
  }

  lemma AlikeGiven(s: State, t: State)
    requires Alike(s, t)
    ensures Alike(EstimateConfirmed(s), EstimateConfirmed(t))
    ensures Interrupted(EstimateConfirmed(s)) <==> Interrupted(EstimateConfirmed(t))
  {
    hide Invariant;
    GuardedAlike(EstimateConfirmed(s), EstimateConfirmed(t));
  }

  lemma GuardedAlike(s: State, t: State)
    requires Alike(s, t)
    ensures Invariant(s) <==> Invariant(t)
  {
    assert Electorate(s) == Electorate(t) && Holders(s) == Holders(t);
  }

  lemma AlikeSets(s: State, t: State)
    requires Alike(s, t)
    ensures Matched(s) == Matched(t) && Voting(s) == Voting(t) && Alike(Dropped(s), Dropped(t))
    ensures AfterEviction(s) == AfterEviction(t)
  {}

  lemma AlikeMatch(s: State, t: State)
    requires Alike(s, t)
    ensures AfterMatch(s) == AfterMatch(t) && Matched(s) == Matched(t)
  {
    hide Voting, Matched, AfterAdmission, AfterEviction, Dropped;
    AlikeSets(s, t);
    SameAdmission(Dropped(s), Dropped(t));
  }

  lemma AlikeFails(s: State, t: State)
    requires Alike(s, t)
    ensures RepairFails(s) <==> RepairFails(t)
    ensures MarginFails(s) <==> MarginFails(t)
    ensures ListFailsAssertion(s) <==> ListFailsAssertion(t)
  {}

  lemma AlikeMended(s: State, t: State)
    requires Alike(s, t)
    ensures Alike(Mended(s), Mended(t))
  {
    hide AfterMatch, Matched, AfterTrim;
    AlikeMatch(s, t);
    SameTrim(Repaired(s), Repaired(t));
  }

  lemma AlikeEnds(s: State, t: State)
    requires Alike(s, t)
    ensures SettleFails(s) <==> SettleFails(t)
    ensures Alike(Ended(s), Ended(t))
    ensures ListFailsAssertion(s) <==> ListFailsAssertion(t)
  {
    hide AfterRemoval, AfterAdding, AfterFactor, AddFails, FactorFails, RepairFails, MarginFails, ListFailsAssertion, Mended;
    AlikeFails(s, t);
    AlikeMended(s, t);
    AlikeForms(Mended(s), Mended(t));
    AlikeForms(Shrunk(Mended(s)), Shrunk(Mended(t)));
    AlikeForms(Grown(Shrunk(Mended(s))), Grown(Shrunk(Mended(t))));
  }

  /** For every state of the registers under a known primary, broken and interrupted ones included, every set of
      active nodes, every wanted factor and every confirmed count: exactly when the pass raises, with which error,
      and the registers it ends with otherwise. */
  lemma PassExact(s: State)
    requires WellFormed(s)
    ensures var o := GenerateTransitions(s);
            && (o.Raised? <==> PassFails(s))
            && (o.Raised? ==> (o.error == AssertionError <==> Given(s).voters < Given(s).sync && ListFailsAssertion(Given(s))))
            && (o.Done? ==> Alike(o.state, Ended(Given(s))))
  {
    hide Invariant, Recover, Settle, SettleFails, Ended, Interrupted, Entered, ListFailsAssertion, StopsEarly;
    EnteredExact(s);
    var r := Recover(s).state;
    AlikeGiven(r, Entered(s));
    SettleExact(EstimateConfirmed(r));
    AlikeEnds(EstimateConfirmed(r), Given(s));
    LeaderEntered(s);
  }

  lemma LeaderEntered(s: State)
    requires WellFormed(s)
    ensures Entered(s).leader == s.leaderWanted == Entered(s).leaderWanted
  {}
}
