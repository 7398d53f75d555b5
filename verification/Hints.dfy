/**
 * The hints to restart in what a pass records: what comes before one and what comes after.
 */
module Hints {
  import opened Names
  import opened QuorumState
  import opened Overlap
  import opened Replay
  import opened Phases
  import opened Growth
  import opened Repairs
  import opened Passes
  import opened PassEnds
  import opened Transfer
  import opened Traces

  /** Every key names this leader, and there is no hint. */
  predicate Named(ts: seq<Transition>, leader: Name) {
    forall t :: t in ts ==> t.kind != Restart && (t.kind == Quorum ==> t.leader == leader)
  }

  /** Every key names this leader and nobody else. */
  predicate Emptied(ts: seq<Transition>, leader: Name) {
    forall t :: t in ts && t.kind == Quorum ==> t.leader == leader && t.num == 0 && t.names == {}
  }

  /** A hint comes first or right after a list that waits for somebody. */
  predicate Prepared(ts: seq<Transition>, k: nat)
    requires k < |ts|
  {
    k > 0 ==> ts[k - 1].kind == Sync && ts[k - 1].num >= 1
  }

  /** Every key names this leader, hints are prepared, and from the first of them on nobody else can vote. */
  predicate Tidy(ts: seq<Transition>, leader: Name) {
    && (forall t :: t in ts && t.kind == Quorum ==> t.leader == leader)
    && (forall k :: 0 <= k < |ts| && ts[k].kind == Restart ==> Prepared(ts, k) && Emptied(ts[k..], leader))
  }

  lemma NamedTidy(ts: seq<Transition>, leader: Name)
    requires Named(ts, leader)
    ensures Tidy(ts, leader)
  {
    assert forall k :: 0 <= k < |ts| ==> ts[k] in ts;
  }

  lemma NamedJoin(a: seq<Transition>, b: seq<Transition>, leader: Name)
    requires Named(a, leader) && Named(b, leader)
    ensures Named(a + b, leader)
  {}

  lemma EmptiedJoin(a: seq<Transition>, b: seq<Transition>, leader: Name)
    requires Emptied(a, leader) && Emptied(b, leader)
    ensures Emptied(a + b, leader)
  {}

  lemma EmptiedFrom(ts: seq<Transition>, k: nat, leader: Name)
    requires Emptied(ts, leader) && k <= |ts|
    ensures Emptied(ts[k..], leader)
  {}

  /** Hints stay prepared when something is recorded before them that cannot disturb them. */
  lemma TidyJoin(a: seq<Transition>, b: seq<Transition>, leader: Name)
    requires Tidy(a, leader) && Tidy(b, leader)
    requires Named(a, leader) || Emptied(b, leader)
    requires a != [] && b != [] && b[0].kind == Restart ==> a[|a| - 1].kind == Sync && a[|a| - 1].num >= 1
    ensures Tidy(a + b, leader)
  {
    hide Emptied, Prepared;
    var ts := a + b;
    forall k | 0 <= k < |ts| && ts[k].kind == Restart
      ensures Prepared(ts, k) && Emptied(ts[k..], leader)
    {
      if k < |a| {
        assert a[k] in a;
        assert ts[k..] == a[k..] + b;
        EmptiedJoin(a[k..], b, leader);
        PreparedEarly(a, b, k);
      } else {
        assert ts[k..] == b[k - |a|..];
        assert b[k - |a|].kind == Restart;
        PreparedLate(a, b, k - |a|);
      }
    }
  }

  lemma PreparedEarly(a: seq<Transition>, b: seq<Transition>, k: nat)
    requires k < |a| && Prepared(a, k)
    ensures Prepared(a + b, k)
  {}

  lemma PreparedLate(a: seq<Transition>, b: seq<Transition>, k: nat)
    requires k < |b| && Prepared(b, k)
    requires k == 0 && a != [] ==> a[|a| - 1].kind == Sync && a[|a| - 1].num >= 1
    ensures Prepared(a + b, |a| + k)
  {}

  // ---------------------------------------------------------------- the phases without hints

  lemma RemovalNamed(s: State)
    ensures Named(RemovalTrace(s), s.leader)
  {
    hide Greatest, AfterRemoval, SpentTrace, PaidTrace, Named;
    var dead, rest := s.sync - s.active, s.sync * s.active;
    NoneNamed(s.leader);
    SpentNamed(s, dead);
    PairNamed(KeyWrite(s, |rest| - Min(s.wanted, |rest|), rest), ListWrite(s, |rest|, rest), s.leader);
    PaidForms(s, rest);
    NamedJoin(SpentTrace(s, dead), PaidTrace(s, rest), s.leader);
    PairNamed(KeyWrite(s, 0, {}), ListWrite(s, 0, {}), s.leader);
    PairNamed(ListWrite(s, AfterRemoval(s).1, rest), KeyWrite(s, AfterRemoval(s).0, rest), s.leader);
  }

  lemma PaidForms(s: State, rest: set<Name>)
    ensures PaidTrace(s, rest) == [KeyWrite(s, |rest| - Min(s.wanted, |rest|), rest), ListWrite(s, |rest|, rest)]
  {}

  lemma SpentNamed(s: State, dead: set<Name>)
    ensures Named(SpentTrace(s, dead), s.leader)
  {
    hide Greatest;
  }

  lemma PairNamed(a: Transition, b: Transition, leader: Name)
    requires a.kind != Restart && b.kind != Restart
    requires (a.kind == Quorum ==> a.leader == leader) && (b.kind == Quorum ==> b.leader == leader)
    ensures Named([a, b], leader)
  {}

  lemma AddingNamed(s: State)
    ensures Named(AddingTrace(s), s.leader)
  {
    hide Smallest, Named, ChosenTrace, OthersTrace;
    var joining := s.active - s.sync;
    NoneNamed(s.leader);
    OthersNamed(s, s.active, Target(s));
    OthersNamed(s.(numsync := Target(s)), s.active, Target(s));
    if joining != {} && Target(s) > s.numsync {
      var add := Smallest(joining, Target(s) - s.numsync);
      ChosenNamed(s, add, Target(s));
      NamedJoin(ChosenTrace(s, add, Target(s)), OthersTrace(s.(numsync := Target(s)), s.active, Target(s)), s.leader);
      NamedJoin(ChosenTrace(s, add, Target(s)), [], s.leader);
    }
  }

  lemma NoneNamed(leader: Name)
    ensures Named([], leader)
  {}

  lemma ChosenNamed(s: State, add: set<Name>, target: int)
    ensures Named(ChosenTrace(s, add, target), s.leader)
  {}

  lemma OthersNamed(s: State, nodes: set<Name>, target: int)
    ensures Named(OthersTrace(s, nodes, target), s.leader)
  {}

  lemma ChangeNamed(s: State)
    ensures Named(ChangeTrace(s), s.leader)
  {
    hide AfterFactor;
  }

  lemma TrimNamed(s: State)
    ensures Named(TrimTrace(s), s.leader)
  {
    hide AfterTrim;
  }

  lemma VotersNamed(s: State)
    ensures Named(VotersTrace(s), s.leader)
  {
    hide AfterEviction, Staying;
  }

  // ---------------------------------------------------------------- the phases with hints

  /** Nobody is left and nobody is confirmed: all active nodes are listed, and the key is reset. */
  lemma FirstTidy(s: State)
    requires s.wanted >= 1 && s.active != {}
    ensures Tidy(FirstTrace(s), s.leader) && FirstTrace(s)[0].kind == Sync
    ensures s.confirmed == 0 ==> Emptied(FirstTrace(s), s.leader)
  {
    var ts := FirstTrace(s);
    if s.confirmed == 0 {
      assert Emptied(ts, s.leader);
      forall k | 0 <= k < |ts| && ts[k].kind == Restart
        ensures Prepared(ts, k) && Emptied(ts[k..], s.leader)
      {
        EmptiedFrom(ts, k, s.leader);
      }
    } else {
      NamedTidy(ts, s.leader);
    }
  }

  lemma GrowthTidy(u: State)
    requires u.wanted >= 1
    ensures Tidy(GrowthTrace(u), u.leader)
    ensures u.sync == {} ==> GrowthTrace(u) == [] || GrowthTrace(u)[0].kind == Sync
    ensures u.sync == {} && u.confirmed == 0 ==> Emptied(GrowthTrace(u), u.leader)
    ensures u.sync != {} ==> Named(GrowthTrace(u), u.leader)
  {
    hide Named, Tidy, Emptied, AddingTrace, ChangeTrace, FirstTrace, AfterAdding;
    NothingTidy(u.leader);
    if u.sync != {} {
      AddingNamed(u);
      ChangeNamed(Grown(u));
      NamedJoin(AddingTrace(u), ChangeTrace(Grown(u)), u.leader);
      NamedTidy(GrowthTrace(u), u.leader);
    } else if u.active != {} {
      FirstTidy(u);
    }
  }

  lemma NothingTidy(leader: Name)
    ensures Tidy([], leader) && Emptied([], leader) && Named([], leader)
  {}

  lemma TailTidy(m: State)
    requires m.wanted >= 1
    ensures Tidy(TailTrace(m), m.leader)
    ensures m.sync * m.active != {} ==> Named(TailTrace(m), m.leader)
  {
    hide Named, Tidy, Emptied, RemovalTrace, GrowthTrace, AfterRemoval;
    var u := Shrunk(m);
    RemovalNamed(m);
    NamedTidy(RemovalTrace(m), m.leader);
    GrowthTidy(u);
    if u.sync != {} {
      NamedJoin(RemovalTrace(m), GrowthTrace(u), m.leader);
      NamedTidy(TailTrace(m), m.leader);
    } else {
      TidyJoin(RemovalTrace(m), GrowthTrace(u), m.leader);
    }
  }

  /** The key is reset in the repair: nobody votes, nobody is confirmed, and a listed standby is alive. */
  predicate Resets(s: State) {
    s.voters < s.sync && s.voters == {} && s.confirmed == 0 && s.sync * s.active != {}
  }

  lemma AdmissionNamed(s: State)
    requires (s.sync - s.voters) * s.active == {} || s.voters != {} || s.confirmed != 0
    ensures Named(AdmissionTrace(s) + VotelessTrace(s), s.leader)
  {
    hide AfterAdmission, Voting;
  }

  lemma ListedNamed(s: State)
    requires s.voters < s.sync && !Resets(s)
    ensures Named(ListedTrace(s), s.leader)
  {
    hide Named, AdmissionTrace, VotelessTrace;
    var d := Dropped(s);
    if s.voters == {} {
      assert (d.sync - d.voters) * d.active == d.sync * d.active;
      assert d.sync * d.active == s.sync * s.active by {
        assert s.sync * s.active * s.active == s.sync * s.active;
      }
    }
    AdmissionNamed(d);
    var list := ListWrite(s, d.numsync, d.sync);
    assert Named([list], s.leader) by {
      ListNamed(s, d.numsync, d.sync);
    }
    NamedJoin([list], AdmissionTrace(d) + VotelessTrace(d), s.leader);
  }

  lemma ListNamed(s: State, num: int, names: set<Name>)
    ensures Named([ListWrite(s, num, names)], s.leader)
  {}

  lemma RepairNamed(s: State)
    requires Interrupted(s) && !Resets(s)
    ensures Named(RepairTrace(s), s.leader)
  {
    hide Named, VotersTrace, ListedTrace, TrimTrace, Resets, AfterMatch, Matched;
    VotersNamed(s);
    TrimNamed(Repaired(s));
    NoneNamed(s.leader);
    if s.voters < s.sync {
      ListedNamed(s);
    }
    NamedJoin(MatchTrace(s), TrimTrace(Repaired(s)), s.leader);
  }

  /** The registers after the reset. */
  lemma ResetForms(s: State)
    requires Interrupted(s) && Resets(s)
    ensures var d := Dropped(s);
            && d.voters == {} && (d.sync - d.voters) * d.active != {} && Voting(d) == {} && d.sync != {}
            && AfterAdmission(d) == (0, 0)
    ensures Mended(s) == s.(quorum := 0, voters := {}, numsync := 0, sync := {})
    ensures RepairTrace(s) == ListedTrace(s)
  {
    hide Invariant, AfterAdmission, Dropped, Voting, ListedTrace, TrimTrace, AfterTrim;
    ResetDropped(s);
    VotingDropped(s);
    var r := Repaired(s);
    assert r == s.(quorum := 0, voters := {}, numsync := 0, sync := {});
    EmptyTrimmed(r);
    assert ListedTrace(s) + [] == ListedTrace(s);
  }

  lemma ResetDropped(s: State)
    requires Interrupted(s) && Resets(s)
    ensures var d := Dropped(s);
            && d.voters == {} && (d.sync - d.voters) * d.active != {} && Voting(d) == {} && d.sync != {}
            && AfterAdmission(d) == (0, 0)
  {
    hide Invariant;
    var d := Dropped(s);
    assert d.sync * d.active == s.sync * s.active by {
      assert s.sync * s.active * s.active == s.sync * s.active;
    }
    assert (d.sync - d.voters) * d.active == d.sync * d.active;
  }

  lemma EmptyTrimmed(r: State)
    requires r.quorum == 0 && r.numsync == 0 && r.sync == {} && r.confirmed == 0 && r.wanted >= 1
    ensures AfterTrim(r) == (0, 0) && TrimTrace(r) == []
  {}

  lemma ResetTidy(s: State)
    requires Interrupted(s) && Resets(s)
    ensures Tidy(ListedTrace(s), s.leader)
  {
    hide Interrupted, Resets;
    ResetForms(s);
    var d := Dropped(s);
    var rest := AdmissionTrace(d) + VotelessTrace(d);
    var list := ListWrite(s, d.numsync, d.sync);
    ResetRest(d);
    if Drops(s) {
      NamedTidy([list], s.leader);
      DroppedCount(s);
      TidyJoin([list], rest, s.leader);
    }
  }

  lemma DroppedCount(s: State)
    requires Interrupted(s) && Resets(s) && Drops(s)
    ensures Dropped(s).numsync >= 1
  {
    hide Invariant;
  }

  lemma ResetRest(d: State)
    requires d.voters == {} && d.confirmed == 0 && (d.sync - d.voters) * d.active != {}
    requires Voting(d) == {} && d.sync != {} && AfterAdmission(d) == (0, 0)
    ensures Tidy(AdmissionTrace(d) + VotelessTrace(d), d.leader)
  {
    hide AfterAdmission, Voting;
    var hint, key, list := Transition(Restart, d.leader, 0, {}), KeyWrite(d, 0, {}), ListWrite(d, 0, {});
    var ts := AdmissionTrace(d) + VotelessTrace(d);
    assert ts == if d.quorum == 0 then [hint, key, list] else [key, list];
    forall k | 0 <= k < |ts| && ts[k].kind == Restart
      ensures Prepared(ts, k) && Emptied(ts[k..], d.leader)
    {
      assert Emptied(ts, d.leader);
      EmptiedFrom(ts, k, d.leader);
    }
  }

  lemma SettleTidy(s: State)
    requires Interrupted(s)
    ensures Tidy(SettleTrace(s), s.leader)
    ensures !Resets(s) && Mended(s).sync * s.active != {} ==> Named(SettleTrace(s), s.leader)
    ensures !Resets(s) && RepairTrace(s) == [] ==> SettleTrace(s) == TailTrace(Mended(s))
  {
    hide Interrupted, Resets, RepairTrace, TailTrace, Tidy, Named, Emptied, Mended, ListedTrace;
    var m := Mended(s);
    MendedKeeps(s);
    assert [] + TailTrace(m) == TailTrace(m);
    TailTidy(m);
    if Resets(s) {
      ResetForms(s);
      ResetTidy(s);
      ResetTail(s);
      TidyJoin(RepairTrace(s), TailTrace(m), s.leader);
    } else {
      RepairNamed(s);
      NamedTidy(RepairTrace(s), s.leader);
      TailStarts(m);
      TidyJoin(RepairTrace(s), TailTrace(m), s.leader);
      if m.sync * m.active != {} {
        NamedJoin(RepairTrace(s), TailTrace(m), s.leader);
      }
    }
  }

  lemma MendedKeeps(s: State)
    requires Interrupted(s)
    ensures var m := Mended(s); m.leader == s.leader && m.wanted == s.wanted >= 1 && m.active == s.active
  {
    hide AfterRepair, Matched, Invariant;
  }

  /** The phases after the repair do not begin with a hint. */
  lemma TailStarts(m: State)
    requires m.wanted >= 1
    ensures TailTrace(m) != [] ==> TailTrace(m)[0].kind != Restart
  {
    hide Emptied, RemovalTrace, GrowthTrace, AfterRemoval;
    var u := Shrunk(m);
    RemovalNamed(m);
    GrowthTidy(u);
    if RemovalTrace(m) != [] {
      assert TailTrace(m)[0] == RemovalTrace(m)[0];
      assert RemovalTrace(m)[0] in RemovalTrace(m);
    } else {
      assert TailTrace(m) == GrowthTrace(u);
      if u.sync != {} && GrowthTrace(u) != [] {
        assert GrowthTrace(u)[0] in GrowthTrace(u);
      }
    }
  }

  lemma ResetTail(s: State)
    requires Interrupted(s) && Resets(s)
    ensures Emptied(TailTrace(Mended(s)), s.leader)
    ensures var ts := TailTrace(Mended(s)); ts != [] ==> ts[0].kind != Restart
  {
    hide Interrupted, GrowthTrace, Emptied;
    ResetForms(s);
    var m := Mended(s);
    MendedKeeps(s);
    ResetConfirmed(s);
    assert m.sync - m.active == {} && Shrunk(m).sync == {};
    assert TailTrace(m) == GrowthTrace(Shrunk(m));
    GrowthTidy(Shrunk(m));
    TailStarts(m);
  }

  lemma ResetConfirmed(s: State)
    requires Resets(s)
    ensures s.confirmed == 0
  {}

  // ---------------------------------------------------------------- whole passes

  /** In every pass: the keys name the primary, a hint follows a list that waits for somebody or comes first, and from a
      hint on nobody but the primary can vote. The first pass of a new primary gives no hint. */
  lemma PassTidy(s: State)
    requires Starts(s) && !Fails(s)
    ensures Tidy(PassTrace(s), s.leaderWanted)
    ensures HandedOver(s) ==> Named(PassTrace(s), s.leaderWanted)
  {
    hide Tidy, Named, WellFormed, HandedOver, SettleFails, PassTrace;
    if WellFormed(s) {
      KnownTidy(s);
      NotBoth(s);
    } else {
      HandedNamed(s);
      NamedTidy(PassTrace(s), s.leaderWanted);
    }
  }

  lemma NotBoth(s: State)
    requires WellFormed(s)
    ensures !HandedOver(s)
  {}

  lemma KnownTidy(s: State)
    requires WellFormed(s)
    ensures Tidy(PassTrace(s), s.leader) && s.leader == s.leaderWanted
  {
    hide Tidy, Named, Invariant, Interrupted, SettleTrace, Emptied, Given;
    EnteredExact(s);
    var e := Given(s);
    SettleTidy(e);
    EntryNamed(s);
    NamedTidy(EntryTrace(s), s.leader);
    if Invariant(s) {
      assert [] + SettleTrace(e) == SettleTrace(e);
      assert PassTrace(s) == SettleTrace(e);
    } else {
      BrokenStarts(s);
      TidyJoin(EntryTrace(s), SettleTrace(e), s.leader);
    }
  }

  lemma EntryNamed(s: State)
    requires WellFormed(s)
    ensures Named(EntryTrace(s), s.leader) && Given(s).leader == s.leader == s.leaderWanted
  {
    hide Invariant;
  }

  /** After a broken key has been rewritten, both registers name the same nodes, and nothing is reset. */
  lemma BrokenStarts(s: State)
    requires WellFormed(s) && !Invariant(s) && Interrupted(Given(s))
    ensures SettleTrace(Given(s)) != [] ==> SettleTrace(Given(s))[0].kind != Restart
  {
    hide Invariant, Interrupted, TailTrace, RepairTrace, Mended;
    var e := Given(s);
    assert e.voters == e.sync;
    RepairNamed(e);
    MendedKeeps(e);
    TailStarts(Mended(e));
    if RepairTrace(e) != [] {
      assert RepairTrace(e)[0] in RepairTrace(e);
      assert SettleTrace(e)[0] == RepairTrace(e)[0];
    } else {
      assert SettleTrace(e) == TailTrace(Mended(e));
    }
  }

  lemma HandedNamed(s: State)
    requires HandedOver(s) && !Fails(s)
    ensures Named(PassTrace(s), s.leaderWanted)
  {
    hide Named, SettleFails, SettleTrace, Interrupted, Failover, TakenOver, ClaimTrace;
    ClaimNamed(s);
    NoneNamed(s.leaderWanted);
    if Stops(s) {
      NamedJoin(ClaimTrace(s), [], s.leaderWanted);
    } else {
      TakenOverReady(s);
      SettleTidy(TakenOver(s));
      NamedJoin(ClaimTrace(s), SettleTrace(TakenOver(s)), s.leaderWanted);
    }
  }

  lemma ClaimNamed(s: State)
    ensures Named(ClaimTrace(s), s.leaderWanted)
  {}

  lemma TakenOverReady(s: State)
    requires HandedOver(s) && s.quorum < |Inherited(s)| && !Stops(s)
    ensures Interrupted(TakenOver(s)) && !Resets(TakenOver(s)) && TakenOver(s).leader == s.leaderWanted
    ensures Mended(TakenOver(s)).sync * TakenOver(s).active != {}
  {
    hide Failover, Invariant;
    TakenOverSteady(s);
    var e := TakenOver(s);
    assert !(e.voters < e.sync) && !(e.sync < e.voters);
    assert Matched(e) == e.sync;
  }
}
