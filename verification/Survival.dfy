/** Commits from before a pass, followed through every key the HA loop writes from then on. */
module Survival {
  import opened Names
  import opened QuorumState
  import opened Overlap
  import opened Replay
  import opened Phases
  import opened Passes
  import opened PassEnds
  import opened Transfer
  import opened Traces
  import opened Hints
  import opened Election
  import opened Seen
  import opened Earlier
  import opened HaLoop
  import Iteration

  /** The registers while the key is already the later one and a commit still dates from the earlier list. */
  function Mixed(earlier: Config, later: Config): State
    requires later.key.Some?
  {
    View(earlier.(key := later.key))
  }

  /** How many of the names a commit was acknowledged by. */
  function Awaited(c: Config): int {
    Min(c.list.num, |ListedNames(c.list)|)
  }

  // ---------------------------------------------------------------- what is handed out

  predicate EachCovers(ts: seq<Transition>, num: int, names: set<Name>) {
    forall t :: t in ts && t.kind == Quorum ==> Covers(t.num, t.names, num, names)
  }

  lemma EachJoin(t: Transition, ts: seq<Transition>, num: int, names: set<Name>)
    ensures EachCovers([t] + ts, num, names) <==>
              (t.kind == Quorum ==> Covers(t.num, t.names, num, names)) && EachCovers(ts, num, names)
  {
    assert t in [t] + ts;
    assert forall u :: u in ts ==> u in [t] + ts;
  }

  lemma NoneCovers(num: int, names: set<Name>)
    ensures EachCovers([], num, names)
  {}

  lemma {:induction false} EmptiedSeen(ts: seq<Transition>, leader: Name, num: int, names: set<Name>)
    requires Emptied(ts, leader)
    ensures SeenCover(ts, false, num, names)
    decreases |ts|
  {
    if ts != [] {
      assert ts[0] in ts;
      EmptiedSeen(ts[1..], leader, num, names);
    }
  }

  /** The keys that are handed out are those that are seen; what a hint to restart hides covers anyway. */
  lemma {:induction false} MergedCovers(ts: seq<Transition>, i: nat, leader: Name, num: int, names: set<Name>)
    requires i <= |ts| && Tidy(ts, leader)
    ensures SeenCover(ts[i..], false, num, names) <==> EachCovers(Iteration.Merge(ts, i), num, names)
    decreases |ts| - i
  {
    hide Covers, EachCovers, Iteration.Merge, Iteration.NextKept, Emptied;
    if i == |ts| {
      Iteration.MergeNothing(ts);
      NoneCovers(num, names);
    } else {
      MergedCovers(ts, i + 1, leader, num, names);
      Iteration.MergeStep(ts, i);
      assert ts[i..][1..] == ts[i + 1..];
      EachJoin(ts[i], Iteration.Merge(ts, i + 1), num, names);
      EachJoin(ts[i], [], num, names);
      NoneCovers(num, names);
      if ts[i].kind == Restart {
        EmptiedSeen(ts[i..], leader, num, names);
      }
    }
  }

  /** What is handed out was planned. */
  lemma {:induction false} MergedInside(ts: seq<Transition>, i: nat)
    requires i <= |ts|
    ensures forall t :: t in Iteration.Merge(ts, i) ==> t in ts
    decreases |ts| - i
  {
    hide Iteration.Merge, Iteration.NextKept;
    if i == |ts| {
      Iteration.MergeNothing(ts);
    } else {
      MergedInside(ts, i + 1);
      Iteration.MergeStep(ts, i);
    }
  }

  // ---------------------------------------------------------------- what is carried out

  predicate HasKey(ts: seq<Transition>) {
    exists t :: t in ts && t.kind == Quorum
  }

  /** The key in force after these transitions covers, if they wrote one. */
  predicate WrittenCovers(c: Config, ts: seq<Transition>, minSync: int, num: int, names: set<Name>) {
    var d := CarryAll(c, ts, minSync);
    HasKey(ts) ==> d.key.Some? && Covers(d.key.value.quorum, d.key.value.voters, num, names)
  }

  predicate AllWrittenCover(c: Config, ts: seq<Transition>, minSync: int, num: int, names: set<Name>) {
    forall n :: 0 <= n <= |ts| ==> WrittenCovers(c, ts[..n], minSync, num, names)
  }

  lemma EachLast(ts: seq<Transition>, t: Transition, num: int, names: set<Name>)
    ensures EachCovers(ts + [t], num, names) <==>
              EachCovers(ts, num, names) && (t.kind == Quorum ==> Covers(t.num, t.names, num, names))
    ensures HasKey(ts + [t]) <==> HasKey(ts) || t.kind == Quorum
  {
    assert t in ts + [t];
    assert forall u :: u in ts ==> u in ts + [t];
  }

  lemma AllWrittenLast(c: Config, ts: seq<Transition>, minSync: int, num: int, names: set<Name>)
    requires ts != []
    ensures AllWrittenCover(c, ts, minSync, num, names) <==>
              AllWrittenCover(c, ts[..|ts| - 1], minSync, num, names) && WrittenCovers(c, ts, minSync, num, names)
  {
    hide WrittenCovers;
    var front := ts[..|ts| - 1];
    assert ts[..|ts|] == ts;
    assert forall n :: 0 <= n <= |front| ==> front[..n] == ts[..n];
  }

  /** The keys of the visited configurations are those that were carried out. */
  lemma {:induction false} WrittenExact(c: Config, ts: seq<Transition>, minSync: int, num: int, names: set<Name>)
    ensures AllWrittenCover(c, ts, minSync, num, names) <==> EachCovers(ts, num, names)
    decreases |ts|
  {
    hide EachCovers, Covers, HasKey;
    if ts == [] {
      NoneCovers(num, names);
      NoKey();
    } else {
      var front, t := ts[..|ts| - 1], ts[|ts| - 1];
      WrittenExact(c, front, minSync, num, names);
      assert ts == front + [t];
      EachLast(front, t, num, names);
      AllWrittenLast(c, ts, minSync, num, names);
      WrittenAt(c, front, minSync, num, names);
    }
  }

  lemma WrittenAt(c: Config, ts: seq<Transition>, minSync: int, num: int, names: set<Name>)
    ensures AllWrittenCover(c, ts, minSync, num, names) ==> WrittenCovers(c, ts, minSync, num, names)
  {
    assert ts[..|ts|] == ts;
  }

  lemma NoKey()
    ensures !HasKey([])
  {}

  /** Until a key is carried out it is the one at the start; after that it names the leader of those carried out. */
  lemma {:induction false} CarriedKey(c: Config, ts: seq<Transition>, minSync: int, leader: Name)
    requires c.key.Some? && forall t :: t in ts && t.kind == Quorum ==> t.leader == leader
    ensures var d := CarryAll(c, ts, minSync);
            d.key.Some? && (if HasKey(ts) then d.key.value.leader == leader else d.key == c.key)
    decreases |ts|
  {
    hide HasKey;
    if ts == [] {
      NoKey();
    } else {
      var front, t := ts[..|ts| - 1], ts[|ts| - 1];
      assert ts == front + [t] && t in ts;
      CarriedKey(c, front, minSync, leader);
      EachLast(front, t, 0, {});
    }
  }

  /** Under a later key that names the primary, commits of an earlier list are safe exactly if the key covers it. */
  lemma MixedExact(b: Config, d: Config)
    requires b.primary == d.primary && d.primary !in ListedNames(b.list) && Awaited(b) >= 0
    requires Consistent(d) && d.key.Some? && d.key.value.leader == d.primary
    ensures Safe(Mixed(b, d)) <==> Covers(d.key.value.quorum, d.key.value.voters, Awaited(b), ListedNames(b.list))
  {
    hide Safe, Invariant, FewEnough;
    SafeExact(Mixed(b, d));
  }

  // ---------------------------------------------------------------- one iteration

  /** Some commits date from the list of `b`. No key that others see while the pass of this iteration is carried out, if
      it does not raise, exposes them. */
  predicate RoundKeeps(b: Config, c: Config, r: Round, settings: Settings)
    requires c.key.Some?
  {
    var s := Resolve(c, r, settings);
    Fails(s) || SeenCover(PassTrace(s), false, Awaited(b), ListedNames(b.list))
  }

  /** They are not exposed yet; or the registers are broken, and the first write replaces the key. */
  ghost predicate StillHeld(b: Config, c: Config, r: Round, settings: Settings)
    requires c.key.Some?
  {
    var s := Resolve(c, r, settings);
    Safe(Mixed(b, c)) || (WellFormed(s) && !Invariant(s))
  }

  predicate SamePrimary(b: Config, c: Config) {
    b.primary == c.primary && c.primary !in ListedNames(b.list) && Awaited(b) >= 0
  }

  lemma StartSane(c: Config, r: Round, settings: Settings)
    requires c.key.Some? && Starts(Resolve(c, r, settings))
    ensures Sane(c) && c.primary !in r.active && Resolve(c, r, settings).leaderWanted == c.primary
  {}

  /** The transitions carried out, as far as they matter here. */
  lemma PlannedCovers(c: Config, r: Round, settings: Settings, num: int, names: set<Name>)
    requires c.key.Some? && Starts(Resolve(c, r, settings))
    ensures var s := Resolve(c, r, settings);
            var ts := Planned(c, r, settings);
            && (Fails(s) ==> ts == [])
            && (!Fails(s) ==> ts == Iteration.Merge(PassTrace(s), 0)
                              && (EachCovers(ts, num, names) <==> SeenCover(PassTrace(s), false, num, names)))
            && (forall t :: t in ts && t.kind == Quorum ==> t.leader == c.primary)
  {
    hide GenerateTransitions, SeenCover, EachCovers, Iteration.Merge, Resolve, Starts, Fails, PassTrace, Emptied;
    var s := Resolve(c, r, settings);
    StartSane(c, r, settings);
    PassRecords(s);
    if !Fails(s) {
      var ts := PassTrace(s);
      PassTidy(s);
      assert ts[0..] == ts;
      MergedCovers(ts, 0, c.primary, num, names);
      MergedInside(ts, 0);
    }
  }

  /** A broken key is the first thing to be rewritten. */
  lemma BrokenFirst(c: Config, r: Round, settings: Settings)
    requires c.key.Some?
    requires var s := Resolve(c, r, settings); WellFormed(s) && !Invariant(s) && !Fails(s)
    ensures var ts := Iteration.Merge(PassTrace(Resolve(c, r, settings)), 0);
            ts != [] && ts[0].kind == Quorum
  {
    hide Invariant, Fails, Resolve, SettleTrace, Iteration.Merge, Given, Entered;
    var s := Resolve(c, r, settings);
    assert PassTrace(s) != [] && PassTrace(s)[0] == EntryTrace(s)[0];
    Iteration.MergeShape(PassTrace(s), 0);
  }

  lemma AppliedInside(c: Config, r: Round, settings: Settings, num: int, names: set<Name>)
    requires c.key.Some?
    ensures var ts, all := Applied(c, r, settings), Planned(c, r, settings);
            && (forall t :: t in ts ==> t in all)
            && (EachCovers(all, num, names) ==> EachCovers(ts, num, names))
            && (r.applied >= |all| ==> ts == all)
            && (ts != [] ==> all != [] && ts[0] == all[0])
  {
    hide Planned, Covers;
  }

  /** One configuration on the way. */
  lemma StepSafe(b: Config, c: Config, r: Round, settings: Settings, n: nat)
    requires c.key.Some? && Starts(Resolve(c, r, settings)) && SamePrimary(b, c)
    requires StillHeld(b, c, r, settings)
    ensures 0 < n <= |Applied(c, r, settings)| ==>
            var ts := Applied(c, r, settings)[..n];
            var d := CarryAll(c, ts, settings.minSync);
            d.key.Some? && (Safe(Mixed(b, d)) <==> WrittenCovers(c, ts, settings.minSync, Awaited(b), ListedNames(b.list)))
  {
    hide GenerateTransitions, Iteration.Merge, Safe, Resolve, Starts, Fails, PassTrace, Covers;
    hide CarryAll, View, Consistent, Planned, Applied, HasKey;
    if 0 < n <= |Applied(c, r, settings)| {
      StartSane(c, r, settings);
      PlannedCovers(c, r, settings, 0, {});
      AppliedInside(c, r, settings, 0, {});
      var ts := Applied(c, r, settings)[..n];
      var d := CarryAll(c, ts, settings.minSync);
      assert forall t :: t in ts ==> t in Planned(c, r, settings);
      CarriedKey(c, ts, settings.minSync, c.primary);
      CarryPrimary(c, ts, settings.minSync);
      StepConsistent(c, r, settings, n);
      if HasKey(ts) {
        MixedExact(b, d);
      } else {
        assert ts[0] in ts;
        if !Safe(Mixed(b, c)) {
          BrokenFirst(c, r, settings);
          HasKeyFirst(ts);
        }
        assert Mixed(b, d) == Mixed(b, c);
      }
    }
  }

  lemma HasKeyFirst(ts: seq<Transition>)
    requires ts != [] && ts[0].kind == Quorum
    ensures HasKey(ts)
  {
    assert ts[0] in ts;
  }

  lemma StepConsistent(c: Config, r: Round, settings: Settings, n: nat)
    requires Sane(c) && c.primary !in r.active
    ensures 0 < n <= |Applied(c, r, settings)| ==>
              Consistent(CarryAll(c, Applied(c, r, settings)[..n], settings.minSync))
  {
    hide Planned, CarryAll, Consistent;
    if 0 < n <= |Applied(c, r, settings)| {
      assert Applied(c, r, settings)[..n] == Planned(c, r, settings)[..n];
      RoundTracks(c, r, settings, n);
    }
  }

  ghost predicate AllSafe(b: Config, ds: seq<Config>) {
    forall d :: d in ds ==> d.key.Some? && Safe(Mixed(b, d))
  }

  /** Carried out to any point, safe configurations and covering keys are the same thing. */
  lemma StepsSafe(b: Config, c: Config, r: Round, settings: Settings)
    requires c.key.Some? && Starts(Resolve(c, r, settings)) && SamePrimary(b, c)
    requires StillHeld(b, c, r, settings)
    ensures var ts := Applied(c, r, settings);
            AllSafe(b, Steps(c, ts, settings.minSync)) <==> EachCovers(ts, Awaited(b), ListedNames(b.list))
  {
    hide Starts, Resolve, Safe, EachCovers, WrittenCovers, CarryAll, StillHeld, Applied, Steps;
    var ts := Applied(c, r, settings);
    var steps := Steps(c, ts, settings.minSync);
    var num, names := Awaited(b), ListedNames(b.list);
    WrittenExact(c, ts, settings.minSync, num, names);
    NothingWritten(c, settings.minSync, num, names);
    assert ts[..0] == [];
    forall n | 0 < n <= |ts|
      ensures steps[n - 1] == CarryAll(c, ts[..n], settings.minSync) && steps[n - 1].key.Some?
      ensures Safe(Mixed(b, steps[n - 1])) <==> WrittenCovers(c, ts[..n], settings.minSync, num, names)
    {
      StepAt(c, ts, settings.minSync, n - 1);
      StepSafe(b, c, r, settings, n);
    }
    if AllSafe(b, steps) {
      forall n | 0 <= n <= |ts|
        ensures WrittenCovers(c, ts[..n], settings.minSync, num, names)
      {
        assert n > 0 ==> steps[n - 1] in steps;
      }
    } else {
      var d :| d in steps && !(d.key.Some? && Safe(Mixed(b, d)));
      var k :| 0 <= k < |steps| && steps[k] == d;
      assert steps[(k + 1) - 1] == d;
      assert !WrittenCovers(c, ts[..k + 1], settings.minSync, num, names);
    }
  }

  lemma NothingWritten(c: Config, minSync: int, num: int, names: set<Name>)
    ensures WrittenCovers(c, [], minSync, num, names)
  {}

  /** One iteration, carried out to any point: with `RoundKeeps` no earlier commit can be missed by an election under any
      key it writes; and if it is carried out in full, only with it. */
  lemma RoundSurvives(b: Config, c: Config, r: Round, settings: Settings)
    requires c.key.Some? && Starts(Resolve(c, r, settings)) && SamePrimary(b, c)
    requires StillHeld(b, c, r, settings)
    ensures var steps := Steps(c, Applied(c, r, settings), settings.minSync);
            && (RoundKeeps(b, c, r, settings) ==> AllSafe(b, steps))
            && (r.applied >= |Planned(c, r, settings)| && AllSafe(b, steps) ==> RoundKeeps(b, c, r, settings))
  {
    hide Planned, Steps, Starts, Resolve, Safe, EachCovers, StillHeld, Fails, PassTrace, SeenCover, AllSafe, Applied;
    PlannedCovers(c, r, settings, Awaited(b), ListedNames(b.list));
    AppliedInside(c, r, settings, Awaited(b), ListedNames(b.list));
    StepsSafe(b, c, r, settings);
    NoneCovers(Awaited(b), ListedNames(b.list));
  }

  // ---------------------------------------------------------------- the next iteration

  /** The list waits for somebody, if it names anybody. */
  predicate Counted(s: State) {
    s.numsync >= (if s.sync == {} then 0 else 1)
  }

  /** A hint that is handed out leaves such a list. */
  lemma HintCounted(s: State, ts: seq<Transition>, leader: Name)
    requires Counted(s) && Tidy(ts, leader)
    ensures var out := Iteration.Merge(ts, 0);
            out != [] && out[|out| - 1].kind == Restart ==> Counted(WriteAll(s, out))
  {
    hide Emptied, Iteration.Merge, Iteration.KeptPositions, WriteAll;
    var out := Iteration.Merge(ts, 0);
    if out != [] && out[|out| - 1].kind == Restart {
      var n := |out| - 1;
      Iteration.MergeVisits(s, ts, n);
      Iteration.MergedAt(ts, 0, n);
      var k := Iteration.KeptPositions(ts, 0)[n];
      assert out[..n + 1] == out;
      assert ts[..k + 1] == ts[..k] + [ts[k]];
      WriteAllOne(s, ts[..k], ts[k]);
      if k == 0 {
        assert ts[..k] == [];
        WriteNothing(s);
      } else {
        assert ts[..k] == ts[..k - 1] + [ts[k - 1]];
        WriteAllOne(s, ts[..k - 1], ts[k - 1]);
      }
    }
  }

  lemma WriteNothing(s: State)
    ensures WriteAll(s, []) == s
  {}

  lemma PlannedCounted(c: Config, r: Round, settings: Settings)
    requires c.key.Some? && Starts(Resolve(c, r, settings))
    ensures Continues(c, r, settings) ==>
              WellFormed(Resolve(c, r, settings)) && Counted(WriteAll(Resolve(c, r, settings), Planned(c, r, settings)))
  {
    hide GenerateTransitions, Iteration.Merge, Resolve, WellFormed, HandedOver, Fails, PassTrace, Tidy;
    var s := Resolve(c, r, settings);
    var ts := Planned(c, r, settings);
    PlannedCovers(c, r, settings, 0, {});
    if Continues(c, r, settings) {
      PassTidy(s);
      MergedInside(PassTrace(s), 0);
      assert ts[|ts| - 1] in ts;
      WellFormedCounted(s);
      HintCounted(s, PassTrace(s), s.leaderWanted);
    }
  }

  lemma WellFormedCounted(s: State)
    ensures WellFormed(s) ==> Counted(s)
  {}

  /** After a hint to restart the next pass may start, whatever it observes. */
  lemma NextStarts(c: Config, r: Round, next: Round, settings: Settings)
    requires c.key.Some? && Starts(Resolve(c, r, settings))
    requires c.primary !in next.active && settings.wanted >= 1
    ensures var d := Final(c, Steps(c, Applied(c, r, settings), settings.minSync));
            Continues(c, r, settings) ==>
              d.key.Some? && d.primary == c.primary && WellFormed(Resolve(d, next, settings))
  {
    hide GenerateTransitions, Planned, Starts, WriteAll, CarryAll, Guarded;
    var ts := Planned(c, r, settings);
    var d := CarryAll(c, ts, settings.minSync);
    StartSane(c, r, settings);
    if Continues(c, r, settings) {
      PlannedCounted(c, r, settings);
      AppliedInside(c, r, settings, 0, {});
      assert ts[..|ts|] == ts;
      RoundTracks(c, r, settings, |ts|);
      CarryPrimary(c, ts, settings.minSync);
      PlannedCovers(c, r, settings, 0, {});
      CarriedKey(c, ts, settings.minSync, c.primary);
      NextWellFormed(d, WriteAll(Resolve(c, r, settings), ts), next, settings);
    }
  }

  lemma NextWellFormed(d: Config, w: State, next: Round, settings: Settings)
    requires Consistent(d) && d.key.Some? && d.key.value.leader == d.primary
    requires Tracks(d, w) && Counted(w) && d.primary !in next.active && settings.wanted >= 1
    ensures WellFormed(Resolve(d, next, settings))
  {
    hide Invariant, FewEnough;
  }

  // ---------------------------------------------------------------- the loop

  /** The condition for every iteration the loop comes to. */
  predicate AllKeep(b: Config, c: Config, rounds: seq<Round>, settings: Settings)
    requires c.key.Some?
    decreases |rounds|
  {
    rounds != [] ==>
      && RoundKeeps(b, c, rounds[0], settings)
      && (Continues(c, rounds[0], settings) ==>
            AllKeep(b, Final(c, Steps(c, Applied(c, rounds[0], settings), settings.minSync)), rounds[1..], settings))
  }

  /** Every iteration is carried out in full. */
  predicate Uncut(c: Config, rounds: seq<Round>, settings: Settings)
    requires c.key.Some?
    decreases |rounds|
  {
    rounds != [] ==>
      && rounds[0].applied >= |Planned(c, rounds[0], settings)|
      && (Continues(c, rounds[0], settings) ==>
            Uncut(Final(c, Steps(c, Applied(c, rounds[0], settings), settings.minSync)), rounds[1..], settings))
  }

  lemma AllSafeJoin(b: Config, xs: seq<Config>, ys: seq<Config>)
    ensures AllSafe(b, xs + ys) <==> AllSafe(b, xs) && AllSafe(b, ys)
  {
    hide Safe;
    assert forall d :: d in xs || d in ys ==> d in xs + ys;
  }

  lemma AllSafeFinal(b: Config, c: Config, xs: seq<Config>)
    requires AllSafe(b, xs) && xs != []
    ensures Final(c, xs).key.Some? && Safe(Mixed(b, Final(c, xs)))
  {
    hide Safe;
    assert xs[|xs| - 1] in xs;
  }

  /** The whole loop, from any point at which the commits of an earlier list are not exposed: no key it goes through, in
      any number of iterations cut short anywhere, exposes them if each iteration meets the condition; and if none is cut
      short, only then. */
  lemma {:induction false} EarlierCommitsSurvive(b: Config, c: Config, rounds: seq<Round>, settings: Settings)
    requires c.key.Some? && rounds != [] && Starts(Resolve(c, rounds[0], settings)) && SamePrimary(b, c)
    requires StillHeld(b, c, rounds[0], settings)
    requires settings.wanted >= 1 && forall r :: r in rounds ==> c.primary !in r.active
    ensures AllKeep(b, c, rounds, settings) ==> AllSafe(b, Visits(c, rounds, settings))
    ensures Uncut(c, rounds, settings) && AllSafe(b, Visits(c, rounds, settings)) ==> AllKeep(b, c, rounds, settings)
    decreases |rounds|
  {
    hide Planned, Steps, Safe, Resolve, Applied, AllSafe, RoundKeeps, Final, WellFormed, HandedOver, Continues, Mixed, Invariant;
    var steps := Steps(c, Applied(c, rounds[0], settings), settings.minSync);
    RoundSurvives(b, c, rounds[0], settings);
    VisitsStep(c, rounds, settings);
    if Continues(c, rounds[0], settings) && rounds[1..] != [] {
      var d := Final(c, steps);
      NextStarts(c, rounds[0], rounds[1], settings);
      ContinuedSteps(c, rounds[0], settings);
      AllSafeJoin(b, steps, Visits(d, rounds[1..], settings));
      if AllSafe(b, steps) {
        AllSafeFinal(b, c, steps);
        EarlierCommitsSurvive(b, d, rounds[1..], settings);
      }
    } else if Continues(c, rounds[0], settings) {
      VisitsNothing(Final(c, steps), rounds[1..], settings);
    }
  }

  lemma ContinuedSteps(c: Config, r: Round, settings: Settings)
    requires c.key.Some?
    ensures Continues(c, r, settings) ==> Steps(c, Applied(c, r, settings), settings.minSync) != []
  {
    hide Planned;
  }

  // ---------------------------------------------------------------- the list in force at the start

  /** For the list in force when the loop starts, the condition on its first iteration is one on the registers, the active
      nodes, the wanted factor and the confirmed count. */
  lemma StartKeeps(c: Config, r: Round, settings: Settings)
    requires c.key.Some? && Starts(Resolve(c, r, settings))
    ensures RoundKeeps(c, c, r, settings) <==> Fails(Resolve(c, r, settings)) || PassKeeps(Resolve(c, r, settings))
  {
    hide Starts, Fails, PassTrace, SeenCover, PassKeeps;
    var s := Resolve(c, r, settings);
    if !Fails(s) {
      PassSeen(s);
    }
  }

  /** Its commits are not exposed yet, unless the registers are broken. */
  lemma StartHeld(c: Config, r: Round, settings: Settings)
    requires c.key.Some? && Starts(Resolve(c, r, settings))
    requires c.key.value.leader == c.primary || Consistent(c)
    ensures StillHeld(c, c, r, settings) && SamePrimary(c, c)
  {
    hide Safe, Invariant, FewEnough;
    var s := Resolve(c, r, settings);
    if Consistent(c) {
      GuardedSafe(View(c));
    } else if Invariant(s) {
      InvariantPlaced(s);
      SameInvariant(View(c), s);
      SafeExact(View(c));
    }
  }

  lemma SameInvariant(s: State, t: State)
    requires SameRegisters(s, t)
    ensures Invariant(s) <==> Invariant(t)
  {
    GuardedSame(s, t);
    assert Electorate(s) == Electorate(t) && Holders(s) == Holders(t);
  }

  lemma GuardedSafe(s: State)
    requires Guarded(s)
    ensures Safe(s)
  {
    hide Guarded, Acknowledges, Reads, Answers, WinsVotes, Truthful;
    forall c, statuses, holders, position |
      Reads(c, s) && Answers(c, statuses) && WinsVotes(c, statuses)
      && Acknowledges(s, holders) && Truthful(c, statuses, holders, position)
      ensures c.wal >= position
    {
      VotesHoldCommits(s, c, statuses, holders, position);
    }
  }

  /** Commits from before the loop, in one iteration carried out in full: from registers that are balanced, have slack, were
      left half-written or are broken, and in the first pass of a new primary, none can be missed under any key that is
      written exactly if the pass raises or `PassKeeps` holds. */
  lemma CommitsBeforeSurvive(c: Config, r: Round, settings: Settings)
    requires c.key.Some? && Starts(Resolve(c, r, settings))
    requires c.key.value.leader == c.primary || Consistent(c)
    ensures r.applied >= |Planned(c, r, settings)| ==>
              var s := Resolve(c, r, settings);
              AllSafe(c, Steps(c, Applied(c, r, settings), settings.minSync)) <==> Fails(s) || PassKeeps(s)
  {
    hide Planned, Steps, Starts, Resolve, Fails, PassKeeps, AllSafe, Applied, StillHeld, RoundKeeps, Consistent;
    StartHeld(c, r, settings);
    StartKeeps(c, r, settings);
    RoundSurvives(c, c, r, settings);
  }
}
