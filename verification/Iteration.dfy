/** The list of transitions that a pass hands out: neighbours of one kind are merged, and a hint ends it. */
module Iteration {
  import opened Names
  import opened QuorumState
  import opened Overlap
  import opened Replay

  /** A transition is skipped when the next one is of the same kind. */
  predicate Skipped(ts: seq<Transition>, i: nat)
    requires i < |ts|
  {
    i + 1 < |ts| && ts[i].kind == ts[i + 1].kind
  }

  /** The first position from `i` on whose transition is handed out: the end of a run of equal kinds. */
  function NextKept(ts: seq<Transition>, i: nat): (k: nat)
    requires i < |ts|
    ensures i <= k < |ts| && !Skipped(ts, k)
    ensures forall j :: i <= j <= k ==> ts[j].kind == ts[k].kind
    decreases |ts| - i
  {
    if Skipped(ts, i) then NextKept(ts, i + 1) else i
  }

  /** The positions, from `i` on, of the transitions handed out. */
  function KeptPositions(ts: seq<Transition>, i: nat): seq<nat>
    requires i <= |ts|
    decreases |ts| - i
  {
    if i == |ts| then []
    else
      var k := NextKept(ts, i);
      if ts[k].kind == Restart then [k] else [k] + KeptPositions(ts, k + 1)
  }

  /** The transitions handed out. */
  function Merge(ts: seq<Transition>, i: nat): seq<Transition>
    requires i <= |ts|
    decreases |ts| - i
  {
    if i == |ts| then []
    else
      var k := NextKept(ts, i);
      if ts[k].kind == Restart then [ts[k]] else [ts[k]] + Merge(ts, k + 1)
  }

  lemma MergeForm(ts: seq<Transition>, i: nat)
    requires i < |ts|
    ensures var k := NextKept(ts, i);
            Merge(ts, i) == [ts[k]] + (if ts[k].kind == Restart then [] else Merge(ts, k + 1))
  {
    hide NextKept;
    var k := NextKept(ts, i);
    assert [ts[k]] + [] == [ts[k]];
  }

  lemma MergeStep(ts: seq<Transition>, i: nat)
    requires i < |ts|
    ensures Skipped(ts, i) ==> Merge(ts, i) == Merge(ts, i + 1)
    ensures !Skipped(ts, i) ==> Merge(ts, i) == [ts[i]] + (if ts[i].kind == Restart then [] else Merge(ts, i + 1))
  {
    hide Merge, NextKept;
    NextStep(ts, i);
    MergeForm(ts, i);
    if Skipped(ts, i) {
      MergeForm(ts, i + 1);
    }
  }

  lemma NextStep(ts: seq<Transition>, i: nat)
    requires i < |ts|
    ensures NextKept(ts, i) == if Skipped(ts, i) then NextKept(ts, i + 1) else i
  {}

  method Iterate(ts: seq<Transition>) returns (out: seq<Transition>)
    ensures out == Merge(ts, 0)
  {
    hide Merge, NextKept;
    out := [];
    var i := 0;
    while i < |ts|
      invariant i <= |ts|
      invariant out + Merge(ts, i) == Merge(ts, 0)
    {
      MergeStep(ts, i);
      if Skipped(ts, i) {
        i := i + 1;
      } else {
        var before := out;
        out := out + [ts[i]];
        if ts[i].kind == Restart {
          return;
        }
        assert before + Merge(ts, i) == out + Merge(ts, i + 1);
        i := i + 1;
      }
    }
    MergeNothing(ts);
  }

  lemma MergeNothing(ts: seq<Transition>)
    ensures Merge(ts, |ts|) == []
  {}

  lemma WriteTwice(s: State, t: Transition, u: Transition)
    requires t.kind == u.kind
    ensures Write(Write(s, t), u) == Write(s, u)
  {}

  /** Skipping the earlier ones of a run of equal kinds makes no difference to the state after it. */
  lemma {:induction false} SkipRun(s: State, ts: seq<Transition>, i: nat, k: nat)
    requires i <= k < |ts|
    requires forall j :: i <= j <= k ==> ts[j].kind == ts[k].kind
    ensures WriteAll(s, ts[..k + 1]) == Write(WriteAll(s, ts[..i]), ts[k])
    decreases k - i
  {
    assert ts[..k + 1] == ts[..k] + [ts[k]];
    WriteAllOne(s, ts[..k], ts[k]);
    if i < k {
      SkipRun(s, ts, i, k - 1);
      WriteTwice(WriteAll(s, ts[..i]), ts[k - 1], ts[k]);
    }
  }

  lemma MergedFirst(s: State, ts: seq<Transition>, i: nat)
    requires i < |ts|
    ensures WriteAll(WriteAll(s, ts[..i]), [ts[NextKept(ts, i)]]) == WriteAll(s, ts[..NextKept(ts, i) + 1])
  {
    hide Write;
    var k := NextKept(ts, i);
    SkipRun(s, ts, i, k);
    var start := WriteAll(s, ts[..i]);
    WriteAllOne(start, [], ts[k]);
    assert [] + [ts[k]] == [ts[k]];
  }

  lemma {:induction false} MergedFrom(s: State, ts: seq<Transition>, i: nat, n: nat)
    requires i <= |ts| && n < |KeptPositions(ts, i)|
    ensures |Merge(ts, i)| == |KeptPositions(ts, i)| && i <= KeptPositions(ts, i)[n] < |ts|
    ensures WriteAll(WriteAll(s, ts[..i]), Merge(ts, i)[..n + 1]) == WriteAll(s, ts[..KeptPositions(ts, i)[n] + 1])
    ensures n > 0 ==> KeptPositions(ts, i)[n - 1] < KeptPositions(ts, i)[n]
    decreases |ts| - i
  {
    hide Write, WriteAll, NextKept, KeptPositions, Merge;
    MergedLength(ts, i);
    KeptForm(ts, i);
    MergedFirst(s, ts, i);
    var k := NextKept(ts, i);
    if n > 0 {
      MergedFrom(s, ts, k + 1, n - 1);
      MergedStep(s, ts, i, k, n);
    } else {
      assert Merge(ts, i)[..1] == [ts[k]];
    }
  }

  lemma KeptForm(ts: seq<Transition>, i: nat)
    requires i <= |ts| && KeptPositions(ts, i) != []
    ensures i < |ts|
    ensures var k := NextKept(ts, i);
            && Merge(ts, i) == [ts[k]] + (if ts[k].kind == Restart then [] else Merge(ts, k + 1))
            && KeptPositions(ts, i) == [k] + (if ts[k].kind == Restart then [] else KeptPositions(ts, k + 1))
  {
    hide NextKept, Merge;
    KeptNothing(ts);
    MergeForm(ts, i);
    var k := NextKept(ts, i);
    assert [k] + [] == [k];
  }

  lemma KeptNothing(ts: seq<Transition>)
    ensures KeptPositions(ts, |ts|) == []
  {}

  /** One kept transition, followed by what is kept after it. */
  lemma MergedStep(s: State, ts: seq<Transition>, i: nat, k: nat, n: nat)
    requires i <= k < |ts| && 0 < n <= |Merge(ts, k + 1)|
    requires Merge(ts, i) == [ts[k]] + Merge(ts, k + 1)
    requires WriteAll(WriteAll(s, ts[..i]), [ts[k]]) == WriteAll(s, ts[..k + 1])
    ensures WriteAll(WriteAll(s, ts[..i]), Merge(ts, i)[..n + 1]) == WriteAll(WriteAll(s, ts[..k + 1]), Merge(ts, k + 1)[..n])
  {
    hide Merge, Write, WriteAll;
    assert Merge(ts, i)[..n + 1] == [ts[k]] + Merge(ts, k + 1)[..n];
    WriteAllAppend(WriteAll(s, ts[..i]), [ts[k]], Merge(ts, k + 1)[..n]);
  }

  lemma {:induction false} MergedLength(ts: seq<Transition>, i: nat)
    requires i <= |ts|
    ensures |Merge(ts, i)| == |KeptPositions(ts, i)|
    decreases |ts| - i
  {
    hide NextKept;
    if i < |ts| && ts[NextKept(ts, i)].kind != Restart {
      MergedLength(ts, NextKept(ts, i) + 1);
    }
  }

  lemma {:induction false} MergedAt(ts: seq<Transition>, i: nat, n: nat)
    requires i <= |ts| && n < |KeptPositions(ts, i)|
    ensures |Merge(ts, i)| == |KeptPositions(ts, i)| && KeptPositions(ts, i)[n] < |ts|
    ensures Merge(ts, i)[n] == ts[KeptPositions(ts, i)[n]]
    decreases |ts| - i
  {
    hide NextKept, KeptPositions, Merge;
    MergedLength(ts, i);
    KeptForm(ts, i);
    if n > 0 {
      MergedAt(ts, NextKept(ts, i) + 1, n - 1);
    }
  }

  /** Merging hides states but invents none: the state after each transition handed out is the state after
      some transition planned, in the same order. */
  lemma MergeVisits(s: State, ts: seq<Transition>, n: nat)
    requires n < |Merge(ts, 0)|
    ensures |KeptPositions(ts, 0)| == |Merge(ts, 0)| && KeptPositions(ts, 0)[n] < |ts|
    ensures WriteAll(s, Merge(ts, 0)[..n + 1]) == WriteAll(s, ts[..KeptPositions(ts, 0)[n] + 1])
    ensures n > 0 ==> KeptPositions(ts, 0)[n - 1] < KeptPositions(ts, 0)[n]
  {
    MergedLength(ts, 0);
    MergedFrom(s, ts, 0, n);
    assert ts[..0] == [];
  }

  lemma {:induction false} KeptEnds(ts: seq<Transition>, i: nat)
    requires i < |ts|
    ensures KeptPositions(ts, i) != []
    ensures var last := KeptPositions(ts, i)[|KeptPositions(ts, i)| - 1];
            last < |ts| && (ts[last].kind == Restart || last == |ts| - 1)
    decreases |ts| - i
  {
    hide NextKept;
    var k := NextKept(ts, i);
    if ts[k].kind != Restart && k + 1 < |ts| {
      KeptEnds(ts, k + 1);
    }
  }

  /** And without a hint to restart, both lists end in the same state. */
  lemma MergeEnds(s: State, ts: seq<Transition>)
    requires forall i :: 0 <= i < |ts| ==> ts[i].kind != Restart
    ensures WriteAll(s, Merge(ts, 0)) == WriteAll(s, ts)
  {
    if ts != [] {
      KeptEnds(ts, 0);
      MergedLength(ts, 0);
      var n := |Merge(ts, 0)| - 1;
      MergeVisits(s, ts, n);
      assert Merge(ts, 0)[..n + 1] == Merge(ts, 0);
      assert ts[..|ts|] == ts;
    }
  }

  /** What is handed out alternates between the kinds, and nothing follows a hint to restart. */
  lemma {:induction false} MergeShape(ts: seq<Transition>, i: nat)
    requires i <= |ts|
    ensures forall k :: 0 <= k < |Merge(ts, i)| - 1 ==>
              Merge(ts, i)[k].kind != Merge(ts, i)[k + 1].kind && Merge(ts, i)[k].kind != Restart
    ensures i < |ts| ==> Merge(ts, i) != [] && Merge(ts, i)[0].kind == ts[i].kind
    decreases |ts| - i
  {
    if i < |ts| {
      var k := NextKept(ts, i);
      if ts[k].kind != Restart {
        MergeShape(ts, k + 1);
        assert !Skipped(ts, k);
      }
    }
  }

  /** Stopping after any number of the transitions handed out leaves a guarded state. */
  lemma MergedPassGuarded(s: State, n: nat)
    requires Startable(s)
    ensures var o := GenerateTransitions(s);
            o.Done? && n < |Merge(o.state.trace, 0)| ==> Guarded(WriteAll(s, Merge(o.state.trace, 0)[..n + 1]))
  {
    hide GenerateTransitions, Guarded;
    var o := GenerateTransitions(s);
    PassIsSound(s);
    if o.Done? && n < |Merge(o.state.trace, 0)| {
      MergeVisits(s, o.state.trace, n);
    }
  }
}
