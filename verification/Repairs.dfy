/** Completing an interrupted update: where the repair ends, and exactly when it raises. */
module Repairs {
  import opened Names
  import opened QuorumState
  import opened Overlap
  import opened Replay
  import opened Phases
  import opened Growth

  /** A state in which the registers may disagree, because an update stopped between two writes. */
  predicate Interrupted(s: State) {
    && Led(s) && Invariant(s)
    && 0 <= s.numsync <= |s.sync| && (s.sync != {} ==> s.numsync >= 1)
    && s.wanted >= 1
  }

  lemma GuardFails(s: State, quorum: int, voters: set<Name>, adjust: bool)
    requires quorum < 0 || (quorum > 0 && quorum >= |voters|)
    ensures QuorumUpdate(s, quorum, voters, None, adjust) == Raised(QuorumError, s)
  {}

  // ---------------------------------------------------------------- the key names more nodes

  /** Nothing is listed, some voters are gone and some are not. */
  predicate VotersFail(s: State) {
    s.sync == {} && s.voters - s.active != {} && s.voters * s.active != {}
  }

  /** The voters that stay: those listed and those alive. */
  function Staying(s: State): set<Name> {
    s.sync + s.voters * s.active
  }

  lemma KeptVoters(s: State, gone: set<Name>)
    requires s.sync < s.voters && gone == s.voters - (s.sync + s.active)
    ensures s.voters - gone == Staying(s) && |Staying(s)| == |s.voters| - |gone|
    ensures s.sync <= Staying(s) && |s.sync| <= |Staying(s)|
    ensures Staying(s) + s.sync == Staying(s) && s.voters + s.sync == s.voters
    ensures gone == {} <==> Staying(s) == s.voters
  {
    assert s.voters - gone == Staying(s);
    DiffCard(gone, s.voters);
    SubsetCard(s.sync, Staying(s));
  }

  lemma VotersFailKept(s: State, gone: set<Name>)
    requires s.sync < s.voters && gone == s.voters - (s.sync + s.active)
    ensures VotersFail(s) <==> s.sync == {} && gone != {} && Staying(s) != {}
  {
    if s.sync == {} {
      assert gone == s.voters - s.active && Staying(s) == s.voters * s.active;
    }
  }

  /** The quorum once the voters that are neither listed nor alive are gone. */
  function AfterEviction(s: State): int {
    if Staying(s) == s.voters then s.quorum
    else |Staying(s)| - s.numsync + (if s.sync - s.active == {} then Max(s.numsync - s.confirmed, 0) else 0)
  }

  function EvictionTrace(s: State): seq<Transition> {
    if Staying(s) == s.voters then [] else [KeyWrite(s, AfterEviction(s), Staying(s))]
  }

  /** What is recorded while voters leave and the others are listed. */
  function VotersTrace(s: State): seq<Transition> {
    EvictionTrace(s) + (if s.sync == Staying(s) then [] else [ListWrite(s, s.numsync, Staying(s))])
  }

  lemma EvictSteps(s: State, gone: set<Name>)
    requires gone == s.voters - (s.sync + s.active)
    ensures EvictGone(s) ==
            if gone == {} then Done(s)
            else QuorumUpdate(s, |s.voters| - |gone| - s.numsync, s.voters - gone, None, s.sync - s.active == {})
  {
    hide QuorumUpdate;
  }

  /** Some voters leave; the invariant held before, so the new quorum fits. */
  lemma EvictRule(s: State, kept: set<Name>, adjust: bool)
    requires Led(s) && 0 <= s.numsync && s.sync <= kept < s.voters && (s.numsync >= 1 || kept == {})
    requires s.numsync <= |kept|
    ensures var o := QuorumUpdate(s, |kept| - s.numsync, kept, None, adjust);
            var quorum := |kept| - s.numsync + (if adjust then Max(s.numsync - s.confirmed, 0) else 0);
            && o.Done? && Reaches(s, o.state, quorum, kept, s.numsync, s.sync)
            && Records(s, o.state, [KeyWrite(s, quorum, kept)])
  {
    hide Invariant, QuorumUpdate;
    assert kept + s.sync == kept;
    QuorumRule(s, |kept| - s.numsync, kept, adjust);
  }

  lemma VotersFit(s: State)
    requires Interrupted(s) && s.sync < s.voters
    ensures |s.voters| <= s.quorum + s.numsync
  {
    hide Invariant, Electorate, Holders, FewEnough;
    InvariantPlaced(s);
    assert s.voters + s.sync == s.voters;
  }

  lemma EvictNone(s: State)
    requires Interrupted(s) && s.sync < s.voters && s.voters - (s.sync + s.active) == {}
    ensures EvictGone(s) == Done(s) && Staying(s) == s.voters && !VotersFail(s)
  {
    hide Invariant, QuorumUpdate, VotersFail, Staying, EvictGone;
    KeptVoters(s, {});
    VotersFailKept(s, {});
    EvictSteps(s, {});
  }

  lemma EvictCounts(s: State, gone: set<Name>)
    requires Interrupted(s) && s.sync < s.voters && gone == s.voters - (s.sync + s.active) && gone != {}
    ensures s.voters - gone == Staying(s) && |s.voters| - |gone| == |Staying(s)|
    ensures s.sync <= Staying(s) < s.voters && 0 <= s.numsync <= |Staying(s)|
    ensures VotersFail(s) <==> s.numsync == 0 && Staying(s) != {}
  {
    hide Invariant, VotersFail, Staying;
    KeptVoters(s, gone);
    VotersFailKept(s, gone);
  }

  lemma EvictSome(s: State, gone: set<Name>)
    requires Interrupted(s) && s.sync < s.voters && gone == s.voters - (s.sync + s.active) && gone != {}
    ensures var o := EvictGone(s);
            if VotersFail(s) then o == Raised(QuorumError, s)
            else o.Done? && Reaches(s, o.state, AfterEviction(s), Staying(s), s.numsync, s.sync)
                 && |Staying(s)| <= AfterEviction(s) + s.numsync && AfterEviction(s) >= 0
                 && Records(s, o.state, EvictionTrace(s))
  {
    hide Invariant, QuorumUpdate, VotersFail, Staying, EvictGone, Interrupted, Reaches, Records;
    EvictCounts(s, gone);
    EvictSteps(s, gone);
    if VotersFail(s) {
      GuardFails(s, |Staying(s)| - s.numsync, Staying(s), s.sync - s.active == {});
    } else {
      InterruptedLed(s);
      EvictRule(s, Staying(s), s.sync - s.active == {});
    }
  }

  lemma InterruptedLed(s: State)
    requires Interrupted(s)
    ensures Led(s)
  {}

  lemma EvictGoneExact(s: State)
    requires Interrupted(s) && s.sync < s.voters
    ensures var o := EvictGone(s);
            && (o.Raised? <==> VotersFail(s))
            && (o.Raised? ==> o.error == QuorumError)
            && (o.Done? ==> Reaches(s, o.state, AfterEviction(s), Staying(s), s.numsync, s.sync)
                            && o.state.quorum >= 0 && |Staying(s)| <= o.state.quorum + s.numsync
                            && Records(s, o.state, EvictionTrace(s)))
  {
    hide Invariant, VotersFail, Staying, EvictGone;
    var gone := s.voters - (s.sync + s.active);
    VotersFit(s);
    if gone == {} {
      EvictNone(s);
      assert s.trace + [] == s.trace;
    } else {
      EvictSome(s, gone);
    }
  }

  lemma ListLivingRule(s: State)
    requires Led(s) && s.sync <= s.voters && s.voters - s.sync <= s.active
    requires 0 <= s.numsync <= |s.sync| && |s.voters| <= s.quorum + s.numsync
    ensures var o := ListLiving(s);
            && o.Done? && Reaches(s, o.state, s.quorum, s.voters, s.numsync, s.voters)
            && Records(s, o.state, if s.sync == s.voters then [] else [ListWrite(s, s.numsync, s.voters)])
  {
    hide Invariant, QuorumUpdate, SyncUpdate;
    var joining := s.voters * s.active - s.sync;
    assert s.sync + joining == s.voters && s.voters + s.voters == s.voters;
    PairCard(s.sync, s.voters);
    if joining != {} {
      SyncRule(s, s.numsync, s.voters);
    }
  }

  lemma RepairVotersExact(s: State)
    requires Interrupted(s) && s.sync < s.voters
    ensures var o := RepairVoters(s);
            && (o.Raised? <==> VotersFail(s))
            && (o.Raised? ==> o.error == QuorumError)
            && (o.Done? ==> Steady(o.state) && o.state.sync == Staying(s)
                            && Reaches(s, o.state, AfterEviction(s), Staying(s), s.numsync, Staying(s))
                            && Records(s, o.state, VotersTrace(s)))
  {
    hide Invariant, EvictGone, ListLiving, AfterEviction, EvictionTrace;
    EvictGoneExact(s);
    PairCard(s.sync, Staying(s));
    if EvictGone(s).Done? {
      var t := EvictGone(s).state;
      ListLivingRule(t);
      RecordsMore(s, t, ListLiving(t).state, EvictionTrace(s), if s.sync == Staying(s) then [] else [ListWrite(s, s.numsync, Staying(s))]);
    }
  }

  // ---------------------------------------------------------------- the standby list names more nodes

  /** A dead standby and a living one are listed, some voter is dead, and it is not the case that only dead
      nodes vote and the votes of the living would be enough. */
  predicate ListFails(s: State) {
    var dead := s.sync - s.active;
    var alive := s.sync * s.active;
    && dead != {} && alive != {} && !(s.voters <= alive)
    && !(s.voters * alive == {} && s.numsync <= |s.voters| + |alive| && |dead - s.voters| <= Max(s.numsync - s.confirmed, 0))
  }

  /** The failure is the one no handler expects: some living node votes, and no living node lacks a vote. */
  predicate ListFailsAssertion(s: State) {
    var alive := s.sync * s.active;
    && ListFails(s) && alive < s.voters
    && |s.voters| <= s.quorum + Min(s.numsync, |alive|)
  }

  lemma MoreListed(s: State)
    requires Interrupted(s) && s.voters < s.sync
    ensures s.voters != {} ==> |s.sync| <= s.quorum + s.numsync
  {
    hide Invariant;
    InvariantPlaced(s);
    assert s.voters + s.sync == s.sync;
  }

  /** Whether the list can shrink to the living standbys without losing the invariant. */
  predicate CanDropDead(s: State) {
    var alive := s.sync * s.active;
    s.voters <= alive || (alive <= s.voters && |s.voters| <= s.quorum + Min(s.numsync, |alive|))
  }

  lemma CanDropDeadFits(s: State, alive: set<Name>, numsync: int)
    requires s.voters < s.sync && s.quorum >= 0 && (s.voters != {} ==> |s.sync| <= s.quorum + s.numsync)
    requires alive == s.sync * s.active && numsync == Min(s.numsync, |alive|)
    ensures CanDropDead(s) <==> Nested(s.voters, alive) && (s.voters == {} || |s.voters + alive| <= s.quorum + numsync)
    ensures s.voters <= alive && s.voters != {} ==> |alive| <= s.quorum + numsync
  {
    SubsetCard(alive, s.sync);
    if s.voters <= alive {
      assert s.voters + alive == alive;
    } else if alive <= s.voters {
      assert s.voters + alive == s.voters;
    }
  }

  lemma DropDeadRule(s: State)
    requires Interrupted(s) && s.voters < s.sync
    requires s.sync - s.active != {} && s.sync * s.active != {}
    requires s.voters == {} || s.sync * s.active * s.voters != {}
    ensures var o := DropDead(s);
            var alive := s.sync * s.active;
            var numsync := Min(s.numsync, |alive|);
            && (o.Raised? ==> o.error == QuorumError)
            && (o.Done? <==> CanDropDead(s))
            && (o.Done? ==> o == Done(Emit(s.(numsync := numsync, sync := alive), Sync)))
            && (s.voters <= alive && s.voters != {} ==> |alive| <= s.quorum + numsync)
  {
    hide Invariant, QuorumUpdate, SyncUpdate, CanDropDead;
    var gone := s.sync - s.active;
    var alive := s.sync * s.active;
    assert s.sync - gone == alive;
    DiffCard(gone, s.sync);
    MoreListed(s);
    CanDropDeadFits(s, alive, Min(s.numsync, |alive|));
    SyncRule(s, Min(s.numsync, |alive|), alive);
  }

  lemma DropDeadSkips(s: State)
    requires s.sync - s.active == {} || s.sync * s.active == {} || (s.voters != {} && s.sync * s.active * s.voters == {})
    ensures DropDead(s) == Done(s)
  {
    assert s.sync - (s.sync - s.active) == s.sync * s.active;
  }

  /** The nodes that vote once the living standbys are admitted. */
  function Voting(s: State): set<Name> {
    if s.voters == {} && s.confirmed == 0 then {} else s.voters + s.sync * s.active
  }

  /** The quorum and the factor once the living standbys are admitted and the voteless unlisted. */
  function AfterAdmission(s: State): (int, int) {
    var voters := Voting(s);
    (if (s.sync - s.voters) * s.active == {} then s.quorum
     else if s.voters == {} && s.confirmed == 0 then 0
     else |voters| - s.numsync + Max(s.numsync - s.confirmed, 0),
     if voters == s.sync then s.numsync else Min(s.numsync, |voters|))
  }

  /** What is recorded while the living standbys get a vote. */
  function AdmissionTrace(s: State): seq<Transition> {
    if (s.sync - s.voters) * s.active == {} then []
    else if s.voters == {} && s.confirmed == 0
    then (if s.quorum == 0 then [Transition(Restart, s.leader, 0, {})] else []) + [KeyWrite(s, 0, {})]
    else [KeyWrite(s, AfterAdmission(s).0, Voting(s))]
  }

  /** And while what has no vote is unlisted. */
  function VotelessTrace(s: State): seq<Transition> {
    if Voting(s) == s.sync then [] else [ListWrite(s, AfterAdmission(s).1, Voting(s))]
  }

  /** Living standbys get a vote; with nothing confirmed and no voters, the key is reset instead. */
  lemma AdmitListedRule(s: State, admitted: set<Name>)
    requires Led(s) && s.voters <= s.sync && 1 <= s.numsync
    requires admitted == (s.sync - s.voters) * s.active && admitted != {}
    ensures var o := AdmitListed(s);
            var voters := s.voters + admitted;
            var quorum := |voters| - s.numsync + Max(s.numsync - s.confirmed, 0);
            && |voters| == |s.voters| + |admitted|
            && (o.Raised? ==> o.error == QuorumError)
            && (if s.voters == {} && s.confirmed == 0 && |voters| >= s.numsync
                then o.Done? && Reaches(s, o.state, 0, {}, s.numsync, s.sync)
                else (o.Done? <==> |voters| >= s.numsync && |s.sync| <= quorum + s.numsync)
                     && (o.Done? ==> Reaches(s, o.state, quorum, voters, s.numsync, s.sync)))
            && (o.Done? ==> Records(s, o.state, AdmissionTrace(s)))
  {
    hide Invariant, QuorumUpdate, AdmitListed, AdmissionTrace;
    var voters := s.voters + admitted;
    AdmitCalls(s, admitted);
    DisjointCard(s.voters, admitted);
    if |voters| < s.numsync {
      GuardFails(s, |voters| - s.numsync, voters, true);
    } else if s.voters == {} && s.confirmed == 0 {
      AdmissionResets(s);
      ResetRule(s, |voters| - s.numsync, voters, true);
    } else {
      AdmissionForms(s, admitted);
      QuorumRule(s, |voters| - s.numsync, voters, true);
    }
  }

  lemma AdmitCalls(s: State, admitted: set<Name>)
    requires s.voters <= s.sync && admitted == (s.sync - s.voters) * s.active && admitted != {}
    ensures var voters := s.voters + admitted;
            && AdmitListed(s) == QuorumUpdate(s, |voters| - s.numsync, voters, None, true)
            && voters + s.sync == s.sync && s.voters * admitted == {}
  {
    hide QuorumUpdate;
  }

  lemma AdmissionResets(s: State)
    requires s.voters == {} && s.confirmed == 0 && (s.sync - s.voters) * s.active != {}
    ensures s.trace + AdmissionTrace(s) ==
            (if s.quorum == 0 then s.trace + [Transition(Restart, s.leader, 0, {})] else s.trace) + [KeyWrite(s, 0, {})]
  {
    var hint, key := Transition(Restart, s.leader, 0, {}), KeyWrite(s, 0, {});
    assert [hint] + [key] == [hint, key] && [] + [key] == [key];
    assert s.trace + [hint, key] == (s.trace + [hint]) + [key];
  }

  lemma AdmissionForms(s: State, admitted: set<Name>)
    requires s.voters <= s.sync && admitted == (s.sync - s.voters) * s.active && admitted != {}
    ensures s.voters != {} || s.confirmed != 0 ==>
              Voting(s) == s.voters + admitted
              && AdmissionTrace(s) == [KeyWrite(s, |s.voters + admitted| - s.numsync + Max(s.numsync - s.confirmed, 0), s.voters + admitted)]
  {
    assert s.voters + admitted == s.voters + s.sync * s.active;
  }

  lemma DropVotelessRule(s: State)
    requires Led(s) && s.voters <= s.sync && 0 <= s.numsync
    requires s.voters == {} || |s.sync| <= s.quorum + s.numsync
    ensures var o := DropVoteless(s);
            var numsync := if s.voters == s.sync then s.numsync else Min(s.numsync, |s.voters|);
            && o.Done? && Reaches(s, o.state, s.quorum, s.voters, numsync, s.voters)
            && Records(s, o.state, if s.voters == s.sync then [] else [ListWrite(s, numsync, s.voters)])
  {
    hide Invariant, QuorumUpdate, SyncUpdate;
    var extra := s.sync - s.voters;
    DiffCard(s.voters, s.sync);
    assert s.sync - extra == s.voters && s.voters + s.voters == s.voters;
    if extra != {} {
      DropVotelessCalls(s);
      SyncRule(s, Min(s.numsync, |s.voters|), s.voters);
    } else {
      assert s.voters == s.sync;
    }
  }

  lemma DropVotelessCalls(s: State)
    requires s.voters <= s.sync && s.sync - s.voters != {}
    ensures DropVoteless(s) == SyncUpdate(s, Min(s.numsync, |s.voters|), s.voters) && s.voters != s.sync
  {
    hide SyncUpdate;
    var extra := s.sync - s.voters;
    DiffCard(s.voters, s.sync);
    assert s.sync - extra == s.voters;
  }

  lemma AdmitNone(s: State)
    requires (s.sync - s.voters) * s.active == {}
    ensures AdmitListed(s) == Done(s)
  {}

  /** The three steps of the repair, chained. */
  lemma RepairSteps(s: State, dropped: Outcome, admitted: Outcome)
    requires dropped == DropDead(s)
    requires dropped.Done? ==> admitted == AdmitListed(dropped.state)
    ensures RepairSync(s) == if dropped.Raised? then dropped else if admitted.Raised? then admitted else DropVoteless(admitted.state)
  {
    hide DropDead, AdmitListed, DropVoteless;
  }

  /** The listed nodes that have no vote and are alive are too few, or leave too many others without one. */
  predicate AdmitFails(s: State) {
    var admitted := (s.sync - s.voters) * s.active;
    && admitted != {}
    && !(|s.voters| + |admitted| >= s.numsync
         && (s.voters == {} || |s.sync| <= |s.voters| + |admitted| + Max(s.numsync - s.confirmed, 0)))
  }

  /** A steady state reached from `s`, with the given quorum, factor and nodes. */
  predicate Settled(s: State, t: State, values: (int, int), nodes: set<Name>) {
    && Steady(t) && Reaches(s, t, values.0, nodes, values.1, nodes)
    && (s.numsync >= 1 && nodes != {} ==> values.1 >= 1)
  }

  lemma VotingSets(s: State, admitted: set<Name>)
    requires s.voters <= s.sync && admitted == (s.sync - s.voters) * s.active
    ensures Voting(s) == if s.voters == {} && s.confirmed == 0 then {} else s.voters + admitted
    ensures admitted == {} ==> Voting(s) == s.voters
    ensures s.voters == {} && s.sync <= s.active ==> admitted == s.sync
    ensures s.voters == {} && s.sync * s.active == {} ==> admitted == {}
  {
    assert s.voters + admitted == s.voters + s.sync * s.active;
    if s.voters == {} {
      assert admitted == s.sync * s.active;
    }
  }

  /** The nodes without a vote are unlisted from a state that already satisfies the invariant. */
  lemma DropSettles(s: State)
    requires Led(s) && s.wanted >= 1 && s.voters <= s.sync && 0 <= s.numsync
    requires s.voters != {} ==> |s.sync| <= s.quorum + s.numsync
    requires s.voters == s.sync ==> s.numsync <= |s.sync|
    ensures var values := (s.quorum, if s.voters == s.sync then s.numsync else Min(s.numsync, |s.voters|));
            && DropVoteless(s).Done? && Settled(s, DropVoteless(s).state, values, s.voters)
            && Records(s, DropVoteless(s).state, if s.voters == s.sync then [] else [ListWrite(s, values.1, s.voters)])
  {
    hide Invariant, DropVoteless;
    DropVotelessRule(s);
    SubsetCard(s.voters, s.sync);
  }

  /** The last two steps of the repair. */
  lemma AdmitThenDrop(s: State)
    requires Led(s) && s.wanted >= 1 && s.voters <= s.sync && 1 <= s.numsync
    requires s.voters != {} ==> |s.sync| <= s.quorum + s.numsync
    requires s.voters == s.sync ==> s.numsync <= |s.sync|
    requires s.voters == {} ==> s.sync <= s.active || s.sync * s.active == {}
    ensures var o := AdmitListed(s);
            && (o.Raised? <==> AdmitFails(s))
            && (o.Raised? ==> o.error == QuorumError)
            && (o.Done? ==> DropVoteless(o.state).Done?
                            && Settled(s, DropVoteless(o.state).state, AfterAdmission(s), Voting(s))
                            && Records(s, DropVoteless(o.state).state, AdmissionTrace(s) + VotelessTrace(s)))
  {
    hide Invariant, AdmitListed, DropVoteless, Voting, AdmissionTrace;
    var admitted := (s.sync - s.voters) * s.active;
    VotingSets(s, admitted);
    if admitted == {} {
      AdmitNone(s);
      DropSettles(s);
      NoneAdmitted(s);
      RecordsNothing(s, DropVoteless(s).state, VotelessTrace(s));
    } else {
      AdmitListedRule(s, admitted);
      if AdmitListed(s).Done? {
        var t := AdmitListed(s).state;
        DropSettles(t);
        RecordsMore(s, t, DropVoteless(t).state, AdmissionTrace(s), VotelessTrace(s));
      }
    }
  }

  lemma NoneAdmitted(s: State)
    requires (s.sync - s.voters) * s.active == {}
    ensures AdmissionTrace(s) == []
  {}

  /** All listed nodes that have no vote are alive, or everything listed is dead, or only dead nodes vote:
      nothing is dropped before the living are admitted. */
  lemma RepairWithoutDropping(s: State)
    requires Interrupted(s) && s.voters < s.sync
    requires s.sync - s.active == {} || s.sync * s.active == {} || (s.voters != {} && s.sync * s.active * s.voters == {})
    ensures var o := RepairSync(s);
            && (o.Raised? <==> ListFails(s))
            && (o.Raised? ==> o.error == QuorumError)
            && (o.Done? ==> Settled(s, o.state, AfterAdmission(s), Voting(s))
                            && Records(s, o.state, AdmissionTrace(s) + VotelessTrace(s)))
  {
    hide Invariant, DropDead, AdmitListed, DropVoteless, ListFails, RepairSync, AdmitFails, AfterAdmission;
    hide AdmissionTrace, VotelessTrace;
    MoreListed(s);
    DropDeadSkips(s);
    ListFailsSkipping(s);
    RepairSteps(s, Done(s), AdmitListed(s));
    AdmitThenDrop(s);
  }

  /** When only dead nodes vote, the standbys fall into voters, living ones and voteless dead ones. */
  lemma OnlyDeadVote(voters: set<Name>, sync: set<Name>, active: set<Name>)
    requires voters <= sync && sync * active * voters == {}
    ensures (sync - voters) * active == sync * active
    ensures |sync| == |voters| + |sync * active| + |(sync - active) - voters|
  {
    var alive := sync * active;
    var rest := (sync - active) - voters;
    forall x | x in alive
      ensures x !in voters
    {
      assert x in voters ==> x in alive * voters;
    }
    assert (sync - voters) * active == alive;
    assert voters * alive == {} && (voters + alive) * rest == {};
    assert voters + alive + rest == sync;
  }

  /** The failing condition when nothing is dropped first. */
  lemma ListFailsSkipping(s: State)
    requires s.voters < s.sync
    requires s.sync - s.active == {} || s.sync * s.active == {} || (s.voters != {} && s.sync * s.active * s.voters == {})
    requires s.sync - s.active == {} ==> s.numsync <= |s.sync|
    ensures ListFails(s) <==> AdmitFails(s)
  {
    var dead := s.sync - s.active;
    var alive := s.sync * s.active;
    if dead == {} {
      assert (s.sync - s.voters) * s.active == s.sync - s.voters;
      DiffCard(s.voters, s.sync);
    } else if alive == {} {
      assert (s.sync - s.voters) * s.active == {};
    } else {
      OnlyDeadVote(s.voters, s.sync, s.active);
      assert s.voters * alive == {} by {
        assert s.voters * alive == alive * s.voters;
      }
      assert s.voters <= alive ==> s.voters == s.voters * alive;
    }
  }

  /** After dropping the dead, every voter is listed: the rest of the living are admitted. */
  lemma NeverTooFew(s: State)
    requires s.voters <= s.sync <= s.active && s.numsync <= |s.sync|
    ensures !AdmitFails(s)
  {
    assert (s.sync - s.voters) * s.active == s.sync - s.voters;
    DiffCard(s.voters, s.sync);
  }

  /** Dead standbys are dropped before anything else. */
  predicate Drops(s: State) {
    && s.sync - s.active != {} && s.sync * s.active != {}
    && (s.voters == {} || s.sync * s.active * s.voters != {})
  }

  /** The registers after that. */
  function Dropped(s: State): State {
    if Drops(s) then s.(numsync := Min(s.numsync, |s.sync * s.active|), sync := s.sync * s.active) else s
  }

  /** What the second case records. */
  function ListedTrace(s: State): seq<Transition> {
    var rest := AdmissionTrace(Dropped(s)) + VotelessTrace(Dropped(s));
    if Drops(s) then [ListWrite(s, Dropped(s).numsync, Dropped(s).sync)] + rest else rest
  }

  lemma VotingDropped(s: State)
    ensures Voting(Dropped(s)) == Voting(s)
  {
    assert s.sync * s.active * s.active == s.sync * s.active;
  }

  /** Dead standbys are dropped first; what then remains without a vote is alive and admitted. */
  lemma RepairAfterDropping(s: State)
    requires Interrupted(s) && s.voters < s.sync && Drops(s)
    ensures var o := RepairSync(s);
            && (o.Done? <==> CanDropDead(s))
            && (o.Raised? ==> o.error == QuorumError)
            && (s.voters <= s.sync * s.active ==>
                  && o.Done? && Settled(s, o.state, AfterAdmission(Dropped(s)), Voting(s))
                  && Records(s, o.state, ListedTrace(s)))
            && (o.Done? && !(s.voters <= s.sync * s.active) ==> o.state.sync < o.state.voters)
  {
    hide Invariant, DropDead, AdmitListed, DropVoteless, RepairSync, AdmitFails, AfterAdmission, Voting;
    hide AdmissionTrace, VotelessTrace;
    DropDeadRule(s);
    VotingDropped(s);
    var alive := s.sync * s.active;
    if DropDead(s).Raised? {
      RepairSteps(s, DropDead(s), Done(s));
    } else {
      var t := DropDead(s).state;
      RepairSteps(s, DropDead(s), AdmitListed(t));
      if s.voters <= alive {
        NeverTooFew(t);
        assert t.sync * t.active == alive;
        AdmitThenDrop(t);
        SameAdmission(t, Dropped(s));
        RecordsMore(s, t, RepairSync(s).state, [ListWrite(s, t.numsync, t.sync)], AdmissionTrace(t) + VotelessTrace(t));
      } else {
        assert t.sync - t.voters == {};
        AdmitNone(t);
        VoteForAll(t);
      }
    }
  }

  lemma SameAdmission(s: State, t: State)
    requires s == t.(trace := s.trace)
    ensures AfterAdmission(s) == AfterAdmission(t) && Voting(s) == Voting(t)
    ensures AdmissionTrace(s) == AdmissionTrace(t) && VotelessTrace(s) == VotelessTrace(t)
  {}

  lemma VoteForAll(s: State)
    requires s.sync <= s.voters
    ensures DropVoteless(s) == Done(s)
  {
    assert s.sync - s.voters == {};
  }

  // ---------------------------------------------------------------- the whole repair

  /** The states whose interrupted update cannot be completed. */
  predicate RepairFails(s: State) {
    if s.sync < s.voters then VotersFail(s)
    else s.voters < s.sync && ListFails(s)
  }

  /** The nodes both registers name after a successful repair. */
  function Matched(s: State): set<Name> {
    if s.sync < s.voters then Staying(s)
    else if s.voters < s.sync then Voting(s)
    else s.sync
  }

  /** The quorum and the factor after a successful repair. */
  function AfterMatch(s: State): (int, int) {
    if s.sync < s.voters then (AfterEviction(s), s.numsync)
    else if s.voters < s.sync then AfterAdmission(Dropped(s))
    else (s.quorum, s.numsync)
  }

  /** What matching the sets records. */
  function MatchTrace(s: State): seq<Transition> {
    if s.sync < s.voters then VotersTrace(s)
    else if s.voters < s.sync then ListedTrace(s)
    else []
  }

  /** Matching the sets fails exactly in the states `RepairFails` describes, and then either raises or leaves
      different sets behind, which the next statement asserts cannot happen. */
  lemma MatchSetsExact(s: State)
    requires Interrupted(s)
    ensures var o := MatchSets(s);
            && (o.Raised? ==> RepairFails(s) && o.error == QuorumError)
            && (o.Done? && o.state.voters != o.state.sync <==> s.voters < s.sync && ListFailsAssertion(s))
            && (o.Done? ==> (RepairFails(s) <==> o.state.voters != o.state.sync))
            && (!RepairFails(s) ==> Settled(s, o.state, AfterMatch(s), Matched(s)) && Records(s, o.state, MatchTrace(s)))
  {
    hide Invariant, RepairVoters, RepairSync, AfterAdmission, AfterEviction, VotersTrace, AdmissionTrace, VotelessTrace;
    if s.sync < s.voters {
      RepairVotersExact(s);
    } else if s.voters < s.sync {
      if !Drops(s) {
        RepairWithoutDropping(s);
        NeverAsserts(s);
      } else {
        RepairAfterDropping(s);
      }
    } else {
      InvariantPlaced(s);
      assert s.voters == s.sync && s.voters + s.sync == s.sync;
      assert s.trace + [] == s.trace;
    }
  }

  lemma NeverAsserts(s: State)
    requires s.sync - s.active == {} || s.sync * s.active == {} || (s.voters != {} && s.sync * s.active * s.voters == {})
    ensures !ListFailsAssertion(s)
  {
    if s.sync * s.active < s.voters && s.sync * s.active != {} {
      assert s.sync * s.active * s.voters == s.sync * s.active;
    }
  }

  // ---------------------------------------------------------------- the safety margin

  /** Nothing is waited for although there are standbys, and the quorum is more than their number. */
  predicate TrimFails(s: State) {
    s.numsync == 0 && s.sync != {} && s.quorum + Min(0, s.confirmed) > |s.sync|
  }

  /** The quorum and the factor once the margin is trimmed. */
  function AfterTrim(s: State): (int, int) {
    var nodes := |s.sync|;
    if s.quorum + Min(s.numsync, s.confirmed) > nodes then
      if s.numsync > s.wanted then (s.quorum, Max(s.wanted, nodes - s.quorum))
      else if nodes == 0 && s.confirmed == 0 then (0, 0)
      else (nodes - s.numsync + Max(s.numsync - s.confirmed, 0), s.numsync)
    else if s.numsync == s.wanted && s.quorum + s.numsync > nodes && s.numsync > s.confirmed
    then (nodes - s.confirmed, s.numsync)
    else (s.quorum, s.numsync)
  }

  /** What trimming the margin records: one write or none. */
  function TrimTrace(s: State): seq<Transition> {
    if AfterTrim(s).1 != s.numsync then [ListWrite(s, AfterTrim(s).1, s.sync)]
    else if AfterTrim(s).0 != s.quorum then [KeyWrite(s, AfterTrim(s).0, s.sync)]
    else []
  }

  /** Asking for just the votes that the confirmed standbys leave open. */
  lemma TrimVotes(s: State)
    requires Steady(s)
    ensures var o := QuorumUpdate(s, |s.sync| - s.numsync, s.voters, None, true);
            var quorum := if s.sync == {} && s.confirmed == 0 then 0 else |s.sync| - s.numsync + Max(s.numsync - s.confirmed, 0);
            && (o.Raised? <==> s.numsync == 0 && s.sync != {})
            && (o.Raised? ==> o.error == QuorumError)
            && (o.Done? ==> Reaches(s, o.state, quorum, s.voters, s.numsync, s.sync))
            && (o.Done? && (s.sync != {} || quorum != s.quorum) ==>
                  Records(s, o.state, if quorum == s.quorum then [] else [KeyWrite(s, quorum, s.sync)]))
  {
    hide Invariant, QuorumUpdate, SyncUpdate;
    assert s.sync + s.sync == s.sync;
    assert s.trace + [] == s.trace;
    if s.numsync == 0 && s.sync != {} {
      GuardFails(s, |s.sync|, s.sync, true);
    } else if s.sync == {} && s.confirmed == 0 {
      ResetRule(s, 0, {}, true);
    } else {
      QuorumRule(s, |s.sync| - s.numsync, s.sync, true);
    }
  }

  lemma TrimMarginExact(s: State)
    requires Steady(s)
    ensures var o := TrimMargin(s);
            && (o.Raised? <==> TrimFails(s))
            && (o.Raised? ==> o.error == QuorumError)
            && (o.Done? ==> Steady(o.state) && Reaches(s, o.state, AfterTrim(s).0, s.voters, AfterTrim(s).1, s.sync)
                            && Records(s, o.state, TrimTrace(s)))
  {
    hide Invariant, QuorumUpdate, SyncUpdate;
    assert s.sync + s.sync == s.sync;
    assert s.trace + [] == s.trace;
    if s.quorum + Min(s.numsync, s.confirmed) > |s.sync| && s.numsync > s.wanted {
      SyncRule(s, Max(s.wanted, |s.sync| - s.quorum), s.sync);
    } else {
      TrimVotes(s);
    }
  }

  /** The key names nodes, all alive, none is listed, and more votes are asked for than there are voters. */
  predicate MarginFails(s: State) {
    s.sync == {} && s.voters != {} && s.voters <= s.active && s.quorum + Min(0, s.confirmed) > |s.voters|
  }

  /** The registers after the repair and before the margin is trimmed. */
  function Repaired(s: State): State {
    s.(quorum := AfterMatch(s).0, numsync := AfterMatch(s).1, voters := Matched(s), sync := Matched(s))
  }

  lemma MarginFailsRepaired(s: State)
    requires Interrupted(s) && !RepairFails(s)
    requires s.numsync >= 1 && Matched(s) != {} ==> AfterMatch(s).1 >= 1
    ensures TrimFails(Repaired(s)) <==> MarginFails(s)
  {
    hide Invariant, AfterAdmission;
    if s.sync < s.voters && s.sync == {} {
      SubsetForms(s.voters, s.active);
      assert Staying(s) == s.voters * s.active;
    } else if s.sync == {} {
      assert s.voters == {} by {
        InvariantPlaced(s);
      }
    }
  }

  /** What the repair records. */
  function RepairTrace(s: State): seq<Transition> {
    MatchTrace(s) + TrimTrace(Repaired(s))
  }

  /** The quorum and the factor at the end of the repair. */
  function AfterRepair(s: State): (int, int) {
    AfterTrim(Repaired(s))
  }

  /** The repair as a whole: exactly when it raises, and which of the two errors. */
  lemma HandleNonSteadyCasesExact(s: State)
    requires Interrupted(s)
    ensures var o := HandleNonSteadyCases(s);
            && (o.Raised? <==> RepairFails(s) || MarginFails(s))
            && (o.Raised? ==> (o.error == AssertionError <==> s.voters < s.sync && ListFailsAssertion(s)))
            && (o.Done? ==> Steady(o.state) && Reaches(s, o.state, AfterRepair(s).0, Matched(s), AfterRepair(s).1, Matched(s))
                            && Records(s, o.state, RepairTrace(s)))
            && (o.Done? && s.numsync >= 1 && Matched(s) != {} ==> AfterRepair(s).1 >= 1)
  {
    hide Invariant, Matched, AfterMatch, MatchSets, TrimMargin, RepairFails, ListFailsAssertion, TrimFails, MarginFails, AfterTrim;
    hide MatchTrace, TrimTrace;
    MatchSetsExact(s);
    if !RepairFails(s) {
      var t := MatchSets(s).state;
      MarginFailsRepaired(s);
      TrimMarginExact(t);
      SameTrim(t, Repaired(s));
      FactorStays(t);
      if TrimMargin(t).Done? {
        RecordsMore(s, t, TrimMargin(t).state, MatchTrace(s), TrimTrace(Repaired(s)));
      }
    }
  }

  lemma SameTrim(s: State, t: State)
    requires s == t.(trace := s.trace)
    ensures AfterTrim(s) == AfterTrim(t) && (TrimFails(s) <==> TrimFails(t)) && TrimTrace(s) == TrimTrace(t)
  {}

  lemma FactorStays(s: State)
    requires Steady(s)
    ensures s.numsync >= 1 ==> AfterTrim(s).1 >= 1
  {}

  /** An update that stopped between its two writes is completed: with nodes still to be listed and a quorum
      below the number of voters, whatever is alive; or with nodes still to be given a vote, all of them alive. */
  lemma InterruptedCompleted(s: State)
    requires Interrupted(s)
    requires (s.sync < s.voters && s.quorum < |s.voters|) || (s.voters < s.sync && s.sync <= s.active)
    ensures HandleNonSteadyCases(s).Done?
    ensures var t := HandleNonSteadyCases(s).state;
            Steady(t) && Reaches(s, t, AfterRepair(s).0, Matched(s), AfterRepair(s).1, Matched(s))
  {
    hide Invariant, TrimMargin, HandleNonSteadyCases, Matched, AfterRepair;
    InvariantPlaced(s);
    if s.sync < s.voters {
      assert s.voters + s.sync == s.voters;
    } else {
      SubsetForms(s.sync, s.active);
    }
    HandleNonSteadyCasesExact(s);
  }
}
