/** Where an iteration of the loop ends that is carried out in full: the key, the names of the list, and their number. */
module Rounds {
  import opened Names
  import opened QuorumState
  import opened Overlap
  import opened Replay
  import opened Phases
  import opened Growth
  import opened Repairs
  import opened Passes
  import opened PassEnds
  import opened Transfer
  import opened Traces
  import opened HaLoop
  import opened Survival
  import Iteration

  /** What the phases leave lists the active nodes with the wanted factor, and all of them vote, or nobody does yet. */
  lemma EndedActive(e: State)
    requires Interrupted(e) && !SettleFails(e)
    ensures var t := Ended(e);
            && t.sync == e.active && t.numsync == Min(e.wanted, |e.active|) && t.leader == e.leader
            && (t.voters == e.active || t.voters == {})
  {
    hide Invariant, AfterRepair, Matched, RepairFails, MarginFails, AddFails, FactorFails, AfterAdding, AfterFactor;
    SettleEndsSteady(e);
    var u := Shrunk(Mended(e));
    PairCard(Mended(e).sync, e.active);
    if u.sync == {} {
      ShrunkNobody(Mended(e));
    }
  }

  lemma ShrunkNobody(m: State)
    requires Steady(m) && Shrunk(m).sync == {}
    ensures Shrunk(m).numsync == 0 && Shrunk(m).voters == {}
  {
    PairCard(m.sync, m.active);
  }

  lemma SettleEndsSteady(e: State)
    requires Interrupted(e) && !SettleFails(e)
    ensures Steady(Mended(e)) && Mended(e).active == e.active && Mended(e).wanted == e.wanted && Mended(e).leader == e.leader
  {
    hide HandleNonSteadyCases, Invariant, AfterRepair, Matched, RepairFails, MarginFails, RepairTrace;
    HandleNonSteadyCasesExact(e);
  }

  /** What the pass works with after its entry, if it does not stop there. */
  function Working(s: State): State {
    if s.leader == s.leaderWanted then Given(s) else TakenOver(s)
  }

  /** A pass that ended as the phases do from here. */
  predicate EndsFrom(s: State, e: State) {
    var o := GenerateTransitions(s);
    && o.Done? && Alike(o.state, Ended(e)) && Interrupted(e) && !SettleFails(e)
    && e.active == s.active && e.wanted == s.wanted && e.leader == s.leaderWanted
  }

  lemma KnownEnds(s: State)
    requires WellFormed(s) && !PassFails(s)
    ensures EndsFrom(s, Given(s))
  {
    hide GenerateTransitions, SettleFails, Ended, Interrupted, Invariant;
    PassExact(s);
    EnteredExact(s);
  }

  lemma NewEnds(s: State)
    requires HandedOver(s) && s.quorum < |Inherited(s)| && !Stops(s) && !SettleFails(TakenOver(s))
    ensures EndsFrom(s, TakenOver(s))
  {
    hide GenerateTransitions, SettleFails, Ended, Interrupted, Invariant, Failover;
    FailoverExact(s);
    TakenOverSteady(s);
  }

  lemma WorkingEnds(s: State)
    requires Starts(s) && !Fails(s) && (s.leader == s.leaderWanted || !Stops(s))
    ensures EndsFrom(s, Working(s))
  {
    hide EndsFrom, Given, TakenOver, PassFails, SettleFails;
    if WellFormed(s) {
      KnownEnds(s);
    } else {
      NewEnds(s);
    }
  }

  /** A list that is handed out without a hint at its end leads where the whole list leads. */
  lemma MergedWithoutHint(s: State, ts: seq<Transition>)
    ensures var out := Iteration.Merge(ts, 0);
            (out != [] ==> out[|out| - 1].kind != Restart) ==> WriteAll(s, out) == WriteAll(s, ts)
  {
    hide Iteration.Merge, Iteration.KeptPositions, WriteAll;
    var out := Iteration.Merge(ts, 0);
    Iteration.MergeShape(ts, 0);
    Iteration.MergedLength(ts, 0);
    if ts == [] {
      Iteration.MergeNothing(ts);
    } else if out[|out| - 1].kind != Restart {
      var n := |out| - 1;
      Iteration.KeptEnds(ts, 0);
      Iteration.MergedAt(ts, 0, n);
      Iteration.MergeVisits(s, ts, n);
      assert out[..n + 1] == out && ts[..|ts|] == ts;
    }
  }

  /** An iteration carried out in full, that neither raises nor hands out a hint, from any registers under a known primary
      or as the first of a new one: the key is the closed form of the pass, the list names exactly the active nodes, and if
      it was written it waits for as many as wanted, or for the required minimum if that is more. */
  lemma IterationEnds(c: Config, r: Round, settings: Settings)
    requires c.key.Some? && Starts(Resolve(c, r, settings))
    ensures var s := Resolve(c, r, settings);
            var d := Final(c, Steps(c, Applied(c, r, settings), settings.minSync));
            !Fails(s) && (s.leader == s.leaderWanted || !Stops(s))
            && r.applied >= |Planned(c, r, settings)| && !Continues(c, r, settings) ==>
              && d.key == Some(Key(c.primary, Ended(Working(s)).quorum, Ended(Working(s)).voters))
              && ListedNames(d.list) == r.active
              && (d.list == c.list || d.list.num == Max(Min(settings.wanted, |r.active|), settings.minSync))
  {
    hide GenerateTransitions, Planned, Fails, CarryAll, Starts, WriteAll, Ended, Interrupted, SettleFails, Working, Sound, Stops;
    var s := Resolve(c, r, settings);
    if !Fails(s) && (s.leader == s.leaderWanted || !Stops(s))
       && r.applied >= |Planned(c, r, settings)| && !Continues(c, r, settings) {
      var ts := Planned(c, r, settings);
      StartSane(c, r, settings);
      WorkingEnds(s);
      EndedActive(Working(s));
      PlannedEnds(c, r, settings);
      AppliedInside(c, r, settings, 0, {});
      assert ts[..|ts|] == ts;
      RoundTracks(c, r, settings, |ts|);
      PlannedNumber(c, r, settings, |ts|);
    }
  }

  lemma PlannedEnds(c: Config, r: Round, settings: Settings)
    requires c.key.Some? && Starts(Resolve(c, r, settings))
    ensures var s := Resolve(c, r, settings);
            var ts := Planned(c, r, settings);
            !Fails(s) && (ts != [] ==> ts[|ts| - 1].kind != Restart) ==>
              GenerateTransitions(s).Done? && SameRegisters(WriteAll(s, ts), GenerateTransitions(s).state)
  {
    hide GenerateTransitions, Fails, Starts, WriteAll, PassTrace, Iteration.Merge, Resolve;
    var s := Resolve(c, r, settings);
    StartsStartable(s);
    PassRecords(s);
    PassIsSound(s);
    if !Fails(s) {
      MergedWithoutHint(s, GenerateTransitions(s).state.trace);
    }
  }

  lemma StartsStartable(s: State)
    requires Starts(s)
    ensures Startable(s)
  {}

  // ---------------------------------------------------------------- the first standbys

  /** Nobody votes and nobody is listed, but nodes are active: they are all listed, and the hint asks for another iteration
      with what the list then makes of them. */
  lemma FirstStandbys(c: Config, r: Round, settings: Settings)
    requires c.key == Some(Key(c.primary, 0, {})) && ListedNames(c.list) == {} && c.list.num >= 0
    requires r.active != {} && c.primary !in r.active && r.confirmed == 0 && settings.wanted >= 1 && r.applied >= 2
    ensures Continues(c, r, settings)
    ensures Final(c, Steps(c, Applied(c, r, settings), settings.minSync)) ==
            c.(list := Listed(Max(Min(settings.wanted, |r.active|), settings.minSync), r.active))
  {
    hide GenerateTransitions, Iteration.Merge, Fails, PassTrace;
    var s := Resolve(c, r, settings);
    FirstPass(s);
    PassRecords(s);
    var list, hint, key := ListWrite(s, Target(s), s.active), Transition(Restart, s.leader, 0, {}), KeyWrite(s, 0, {});
    var ts := [list, hint, key];
    Iteration.MergeStep(ts, 0);
    Iteration.MergeStep(ts, 1);
    var out := Iteration.Merge(ts, 0);
    assert out == [list, hint];
    assert Applied(c, r, settings) == out;
    assert out[..1] == [list] && [list][..0] == [];
  }

  lemma FirstPass(s: State)
    requires WellFormed(s) && s.quorum == 0 && s.voters == {} && s.sync == {} && s.active != {} && s.confirmed == 0
    ensures !Fails(s)
    ensures PassTrace(s) == [ListWrite(s, Target(s), s.active), Transition(Restart, s.leader, 0, {}), KeyWrite(s, 0, {})]
  {
    hide Invariant;
    InvariantPlaced(s);
    assert s.sync * s.active == {} && s.sync - s.active == {};
    assert Given(s) == s;
    assert RepairTrace(s) == [] && Mended(s) == s;
    assert Shrunk(s) == s;
    assert TailTrace(s) == FirstTrace(s);
    assert SettleTrace(s) == FirstTrace(s);
  }

  /** Once some of the listed are confirmed, an iteration ends with the votes of all active nodes. */
  lemma ThenTheyVote(c: Config, r: Round, settings: Settings)
    requires c.key.Some? && WellFormed(Resolve(c, r, settings))
    requires 0 < r.confirmed <= |ListedNames(c.list) * r.active|
    ensures var d := Final(c, Steps(c, Applied(c, r, settings), settings.minSync));
            !Fails(Resolve(c, r, settings)) && r.applied >= |Planned(c, r, settings)| && !Continues(c, r, settings) ==>
              && d.key.Some? && d.key.value.leader == c.primary && d.key.value.voters == r.active
              && ListedNames(d.list) == r.active
  {
    hide GenerateTransitions, Planned, Fails, CarryAll, Ended, Working, Invariant, PassTrace;
    var s := Resolve(c, r, settings);
    IterationEnds(c, r, settings);
    PassRecords(s);
    PassReaches(s);
    if !Fails(s) {
      WorkingEnds(s);
      assert s.sync * s.active != {};
    }
  }
}
