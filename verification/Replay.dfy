/** The registers as an outside observer sees them while a list of transitions is carried out. */
module Replay {
  import opened Names
  import opened QuorumState
  import opened Overlap

  /** Carry out one transition. A `Restart` is only a hint to the caller. */
  function Write(s: State, t: Transition): State {
    match t.kind
    case Sync => s.(numsync := t.num, sync := t.names)
    case Quorum => s.(leader := t.leader, quorum := t.num, voters := t.names)
    case Restart => s
  }

  function WriteAll(s: State, ts: seq<Transition>): State {
    if ts == [] then s else Write(WriteAll(s, ts[..|ts| - 1]), ts[|ts| - 1])
  }

  lemma {:induction false} WriteAllAppend(s: State, ts: seq<Transition>, us: seq<Transition>)
    ensures WriteAll(s, ts + us) == WriteAll(WriteAll(s, ts), us)
    decreases |us|
  {
    if us == [] {
      assert ts + us == ts;
    } else {
      var front := us[..|us| - 1];
      WriteAllAppend(s, ts, front);
      assert (ts + us)[..|ts + us| - 1] == ts + front;
    }
  }

  predicate SameRegisters(a: State, b: State) {
    && a.leader == b.leader && a.quorum == b.quorum && a.voters == b.voters
    && a.numsync == b.numsync && a.sync == b.sync && a.leaderWanted == b.leaderWanted
  }

  /** After each of the transitions the registers are in a guarded state. */
  predicate AllGuarded(s: State, ts: seq<Transition>) {
    forall k :: 1 <= k <= |ts| ==> Guarded(WriteAll(s, ts[..k]))
  }

  /** The transitions recorded so far lead from `first` to `s` through guarded states only. */
  predicate Sound(first: State, s: State) {
    && SameRegisters(WriteAll(first, s.trace), s) && AllGuarded(first, s.trace)
    && s.numsync <= |s.sync|
  }

  /** The leader of the key is the running primary, and is not listed as its own standby. */
  predicate Led(s: State) {
    && s.leader == s.leaderWanted
    && s.leader !in s.voters + s.sync + s.active
    && s.quorum >= 0
  }

  /** What the later steps of a pass may not touch. */
  predicate Follows(s: State, t: State) {
    && s.trace <= t.trace
    && t.active == s.active && t.wanted == s.wanted && t.leaderWanted == s.leaderWanted && t.confirmed == s.confirmed
  }

  lemma WriteAllOne(first: State, ts: seq<Transition>, t: Transition)
    ensures WriteAll(first, ts + [t]) == Write(WriteAll(first, ts), t)
  {
    assert (ts + [t])[..|ts + [t]| - 1] == ts;
  }

  lemma GuardedSame(a: State, b: State)
    requires SameRegisters(a, b)
    ensures Guarded(a) <==> Guarded(b)
  {
    assert Electorate(a) == Electorate(b) && Holders(a) == Holders(b);
  }

  /** Recording one more transition keeps the record sound when it describes the registers it leads to. */
  lemma SoundEmit(first: State, before: State, s: State, t: Transition)
    requires Sound(first, before)
    requires s.trace == before.trace + [t]
    requires SameRegisters(Write(before, t), s)
    requires Guarded(s)
    ensures Sound(first, s)
  {
    hide Invariant, FewEnough;
    WriteAllOne(first, before.trace, t);
    GuardedSame(WriteAll(first, s.trace), s);
    forall k | 1 <= k <= |s.trace|
      ensures Guarded(WriteAll(first, s.trace[..k]))
    {
      if k <= |before.trace| {
        assert s.trace[..k] == before.trace[..k];
      } else {
        assert s.trace[..k] == s.trace;
      }
    }
  }

  /** A successful write of the key is one transition, after a hint if it changes nothing. */
  lemma QuorumUpdateWrites(s: State, quorum: int, voters: set<Name>, leader: Option<Name>, adjust: bool) returns (before: State)
    requires s.quorum >= 0
    requires if leader.Some? then leader.value == s.leaderWanted else s.leader == s.leaderWanted
    requires QuorumUpdate(s, quorum, voters, leader, adjust).Done?
    ensures var t := QuorumUpdate(s, quorum, voters, leader, adjust).state;
            && (before == s || before == Emit(s, Restart))
            && (t == s || (t.trace == before.trace + [Transition(Quorum, t.leader, t.quorum, t.voters)] && Invariant(t)))
            && t == s.(leader := s.leaderWanted, quorum := t.quorum, voters := t.voters, trace := t.trace)
            && (before != s ==> SameRegisters(s, t))
            && t.quorum >= 0 && (t.voters == {} || t.voters == voters)
  {
    var (q, v) := EffectiveKey(s, quorum, voters, leader, adjust);
    var led := if leader.Some? then s.(leader := leader.value) else s;
    var same := led.leader == s.leader && q == s.quorum && v == s.voters;
    before := if same then Emit(s, Restart) else s;
  }

  lemma QuorumUpdateSound(first: State, s: State, quorum: int, voters: set<Name>, leader: Option<Name>, adjust: bool)
    requires Sound(first, s) && s.quorum >= 0
    requires s.leaderWanted !in voters + s.sync + s.active
    requires if leader.Some? then leader.value == s.leaderWanted else Led(s)
    requires QuorumUpdate(s, quorum, voters, leader, adjust).Done?
    ensures var t := QuorumUpdate(s, quorum, voters, leader, adjust).state;
            Sound(first, t) && Led(t) && Follows(s, t) && t.sync == s.sync && t.numsync == s.numsync
  {
    hide Sound, QuorumUpdate;
    var before := QuorumUpdateWrites(s, quorum, voters, leader, adjust);
    var t := QuorumUpdate(s, quorum, voters, leader, adjust).state;
    if t != s {
      KeyWritten(first, s, before, t);
    }
  }

  lemma KeyWritten(first: State, s: State, before: State, t: State)
    requires Sound(first, s)
    requires before == s || (before == Emit(s, Restart) && SameRegisters(s, t))
    requires t.trace == before.trace + [Transition(Quorum, t.leader, t.quorum, t.voters)]
    requires t == s.(leader := s.leaderWanted, quorum := t.quorum, voters := t.voters, trace := t.trace)
    requires Invariant(t) && Led(t)
    ensures Sound(first, t) && Follows(s, t)
  {
    InvariantPlaced(t);
    assert Guarded(t);
    if before != s {
      SoundEmit(first, s, before, Transition(Restart, s.leader, s.quorum, s.voters));
    }
    SoundEmit(first, before, t, Transition(Quorum, t.leader, t.quorum, t.voters));
  }

  lemma SyncUpdateSound(first: State, s: State, numsync: int, sync: set<Name>)
    requires Sound(first, s) && Led(s) && s.leader !in sync
    requires SyncUpdate(s, numsync, sync).Done?
    ensures var t := SyncUpdate(s, numsync, sync).state;
            Sound(first, t) && Led(t) && Follows(s, t) && |t.trace| > |s.trace|
  {
    var t := SyncUpdate(s, numsync, sync).state;
    InvariantPlaced(t);
    SoundEmit(first, s, t, Transition(Sync, t.leader, t.numsync, t.sync));
  }

  /** One phase of a pass, run from a soundly recorded state, stays soundly recorded. */
  predicate KeepsSound(first: State, s: State, o: Outcome) {
    o.Done? ==> Sound(first, o.state) && Led(o.state) && Follows(s, o.state)
  }

  lemma EvictGoneSound(first: State, s: State)
    requires Sound(first, s) && Led(s)
    ensures KeepsSound(first, s, EvictGone(s))
  {
    hide Sound, QuorumUpdate, SyncUpdate;
    var gone := s.voters - (s.sync + s.active);
    if gone != {} && EvictGone(s).Done? {
      QuorumUpdateSound(first, s, |s.voters| - |gone| - s.numsync, s.voters - gone, None, s.sync - s.active == {});
    }
  }

  lemma ListLivingSound(first: State, s: State)
    requires Sound(first, s) && Led(s)
    ensures KeepsSound(first, s, ListLiving(s))
  {
    hide Sound, QuorumUpdate, SyncUpdate;
    var joining := (s.voters * s.active) - s.sync;
    if joining != {} && ListLiving(s).Done? {
      SyncUpdateSound(first, s, s.numsync, s.sync + joining);
    }
  }

  lemma RepairVotersSound(first: State, s: State)
    requires Sound(first, s) && Led(s)
    ensures KeepsSound(first, s, RepairVoters(s))
  {
    hide Sound, EvictGone, ListLiving;
    EvictGoneSound(first, s);
    if EvictGone(s).Done? {
      ListLivingSound(first, EvictGone(s).state);
    }
  }

  lemma DropDeadSound(first: State, s: State)
    requires Sound(first, s) && Led(s)
    ensures KeepsSound(first, s, DropDead(s))
  {
    hide Sound, QuorumUpdate, SyncUpdate;
    var gone := s.sync - s.active;
    if DropDead(s).Done? && DropDead(s) != Done(s) {
      SyncUpdateSound(first, s, Min(s.numsync, |s.sync| - |gone|), s.sync - gone);
    }
  }

  lemma AdmitListedSound(first: State, s: State)
    requires Sound(first, s) && Led(s)
    ensures KeepsSound(first, s, AdmitListed(s))
  {
    hide Sound, QuorumUpdate, SyncUpdate;
    var admitted := (s.sync - s.voters) * s.active;
    var voters := s.voters + admitted;
    if AdmitListed(s).Done? && admitted != {} {
      QuorumUpdateSound(first, s, |voters| - s.numsync, voters, None, true);
    }
  }

  lemma DropVotelessSound(first: State, s: State)
    requires Sound(first, s) && Led(s)
    ensures KeepsSound(first, s, DropVoteless(s))
  {
    hide Sound, QuorumUpdate, SyncUpdate;
    var extra := s.sync - s.voters;
    if DropVoteless(s).Done? && extra != {} {
      SyncUpdateSound(first, s, Min(s.numsync, |s.sync| - |extra|), s.sync - extra);
    }
  }

  lemma RepairSyncSound(first: State, s: State)
    requires Sound(first, s) && Led(s)
    ensures KeepsSound(first, s, RepairSync(s))
  {
    hide Sound, QuorumUpdate, SyncUpdate;
    DropDeadSound(first, s);
    if DropDead(s).Done? {
      var t := DropDead(s).state;
      AdmitListedSound(first, t);
      if AdmitListed(t).Done? {
        DropVotelessSound(first, AdmitListed(t).state);
      }
    }
  }

  lemma TrimMarginSound(first: State, s: State)
    requires Sound(first, s) && Led(s)
    ensures KeepsSound(first, s, TrimMargin(s))
  {
    hide Sound, QuorumUpdate, SyncUpdate;
    if TrimMargin(s).Done? {
      if s.quorum + Min(s.numsync, s.confirmed) - |s.voters + s.sync| > 0 && s.numsync > s.wanted {
        SyncUpdateSound(first, s, Max(s.wanted, |s.voters| - s.quorum), s.sync);
      } else if TrimMargin(s) != Done(s) {
        QuorumUpdateSound(first, s, |s.sync| - s.numsync, s.voters, None, true);
      }
    }
  }

  lemma HandleNonSteadyCasesSound(first: State, s: State)
    requires Sound(first, s) && Led(s)
    ensures KeepsSound(first, s, HandleNonSteadyCases(s))
  {
    hide Sound, QuorumUpdate, SyncUpdate;
    RepairVotersSound(first, s);
    RepairSyncSound(first, s);
    if MatchSets(s).Done? {
      TrimMarginSound(first, MatchSets(s).state);
    }
  }

  lemma DismissSound(first: State, s: State, leave: set<Name>, last: bool)
    requires Sound(first, s) && Led(s)
    ensures KeepsSound(first, s, Dismiss(s, leave, last))
  {
    hide Sound, QuorumUpdate, SyncUpdate;
    if Dismiss(s, leave, last).Done? {
      var sync := s.sync - leave;
      var numsync := Min(if s.wanted > s.numsync then s.wanted else s.numsync, |sync|);
      SyncUpdateSound(first, s, numsync, sync);
      var t := SyncUpdate(s, numsync, sync).state;
      QuorumUpdateSound(first, t, |t.voters - leave| - t.numsync, t.voters - leave, None, last);
    }
  }

  lemma RemoveWithinQuorumSound(first: State, s: State, dead: set<Name>)
    requires Sound(first, s) && Led(s)
    ensures KeepsSound(first, s, RemoveWithinQuorum(s, dead))
  {
    hide Sound, QuorumUpdate, SyncUpdate;
    if s.quorum != 0 {
      var leave := Greatest(dead, SliceLength(|dead|, s.quorum));
      DismissSound(first, s, leave, dead * (s.sync - leave) == {});
    }
  }

  lemma RemoveRemainingSound(first: State, s: State, dead: set<Name>)
    requires Sound(first, s) && Led(s)
    ensures KeepsSound(first, s, RemoveRemaining(s, dead))
  {
    hide Sound, QuorumUpdate, SyncUpdate;
    if RemoveRemaining(s, dead).Done? && dead != {} {
      var numsync := s.numsync - |dead|;
      var sync := s.sync - dead;
      var voters := s.voters - dead;
      var decrease := numsync - Min(s.wanted, |sync|);
      var quorum := if decrease != 0 then Min(decrease, |voters| - 1) else 0;
      QuorumUpdateSound(first, s, quorum, voters, None, false);
      var t := QuorumUpdate(s, quorum, voters, None, false).state;
      SyncUpdateSound(first, t, numsync, sync);
    }
  }

  lemma RemoveGoneNodesSound(first: State, s: State)
    requires Sound(first, s) && Led(s)
    ensures KeepsSound(first, s, RemoveGoneNodes(s))
  {
    hide Sound, QuorumUpdate, SyncUpdate;
    var dead := s.sync - s.active;
    if RemoveGoneNodes(s).Done? && dead != {} {
      if s.sync == dead {
        QuorumUpdateSound(first, s, 0, {}, None, false);
        SyncUpdateSound(first, QuorumUpdate(s, 0, {}, None, false).state, 0, {});
      } else {
        RemoveWithinQuorumSound(first, s, dead);
        var t := RemoveWithinQuorum(s, dead).state;
        RemoveRemainingSound(first, t, dead * t.sync);
      }
    }
  }

  lemma AddChosenSound(first: State, s: State, add: set<Name>, step: int, target: int)
    requires Sound(first, s) && Led(s) && add <= s.active
    ensures KeepsSound(first, s, AddChosen(s, add, step, target))
  {
    hide Sound, QuorumUpdate, SyncUpdate;
    if AddChosen(s, add, step, target).Done? {
      SyncUpdateSound(first, s, s.numsync + step, s.sync + add);
      var t := SyncUpdate(s, s.numsync + step, s.sync + add).state;
      QuorumUpdateSound(first, t, |t.voters + add| - target, t.voters + add, None, true);
    }
  }

  lemma AddForFactorSound(first: State, s: State, joining: set<Name>, target: int)
    requires Sound(first, s) && Led(s) && joining <= s.active
    ensures KeepsSound(first, s, AddForFactor(s, joining, target))
  {
    hide Sound, QuorumUpdate, SyncUpdate;
    var increase := target - s.numsync;
    if increase > 0 {
      var add := Smallest(joining, increase);
      AddChosenSound(first, s, add, |add|, target);
      AddChosenSound(first, s, joining, increase, target);
    }
  }

  lemma AddRemainingSound(first: State, s: State, joining: set<Name>, target: int)
    requires Sound(first, s) && Led(s) && joining <= s.active
    ensures KeepsSound(first, s, AddRemaining(s, joining, target))
  {
    hide Sound, QuorumUpdate, SyncUpdate;
    if AddRemaining(s, joining, target).Done? && joining != {} {
      var voters := s.voters + joining;
      QuorumUpdateSound(first, s, |voters| - target, voters, None, target > s.confirmed);
      var t := QuorumUpdate(s, |voters| - target, voters, None, target > s.confirmed).state;
      SyncUpdateSound(first, t, target, t.sync + joining);
    }
  }

  lemma AddNewNodesSound(first: State, s: State)
    requires Sound(first, s) && Led(s)
    ensures KeepsSound(first, s, AddNewNodes(s))
  {
    hide Sound, QuorumUpdate, SyncUpdate;
    var joining := s.active - s.sync;
    var target := Min(s.wanted, |s.sync + joining|);
    AddForFactorSound(first, s, joining, target);
    if AddForFactor(s, joining, target).Done? {
      var t := AddForFactor(s, joining, target).state;
      AddRemainingSound(first, t, joining - t.sync, target);
      AddRemainingSound(first, t, joining, target);
    }
  }

  lemma RaiseFactorSound(first: State, s: State, increase: int)
    requires Sound(first, s) && Led(s)
    ensures KeepsSound(first, s, RaiseFactor(s, increase))
  {
    hide Sound, QuorumUpdate, SyncUpdate;
    if RaiseFactor(s, increase).Done? {
      SyncUpdateSound(first, s, s.numsync + increase, s.sync);
      var t := SyncUpdate(s, s.numsync + increase, s.sync).state;
      QuorumUpdateSound(first, t, |t.voters| - t.numsync, t.voters, None, true);
    }
  }

  lemma RaiseQuorumSound(first: State, s: State, decrease: int)
    requires Sound(first, s) && Led(s)
    ensures KeepsSound(first, s, RaiseQuorum(s, decrease))
  {
    hide Sound, QuorumUpdate, SyncUpdate;
    if s.quorum + decrease < |s.voters| && RaiseQuorum(s, decrease).Done? {
      QuorumUpdateSound(first, s, |s.voters| - s.numsync + decrease, s.voters, None, s.wanted > s.confirmed);
    }
  }

  lemma LowerFactorSound(first: State, s: State, decrease: int)
    requires Sound(first, s) && Led(s)
    ensures KeepsSound(first, s, LowerFactor(s, decrease))
  {
    hide Sound, QuorumUpdate, SyncUpdate;
    RaiseQuorumSound(first, s, decrease);
    if LowerFactor(s, decrease).Done? {
      var t := RaiseQuorum(s, decrease).state;
      SyncUpdateSound(first, t, t.numsync - decrease, t.sync);
    }
  }

  lemma ChangeReplicationFactorSound(first: State, s: State)
    requires Sound(first, s) && Led(s)
    ensures KeepsSound(first, s, ChangeReplicationFactor(s))
  {
    hide Sound, QuorumUpdate, SyncUpdate;
    var increase := Min(s.wanted, |s.sync|) - s.numsync;
    RaiseFactorSound(first, s, increase);
    LowerFactorSound(first, s, -increase);
  }

  lemma SettleSound(first: State, s: State)
    requires Sound(first, s) && Led(s)
    ensures KeepsSound(first, s, Settle(s))
  {
    hide Sound, QuorumUpdate, SyncUpdate;
    if Settle(s).Done? {
      HandleNonSteadyCasesSound(first, s);
      var t := HandleNonSteadyCases(s).state;
      RemoveGoneNodesSound(first, t);
      var u := RemoveGoneNodes(t).state;
      AddNewNodesSound(first, u);
      var v := AddNewNodes(u).state;
      ChangeReplicationFactorSound(first, v);
    }
  }

  /** The state a pass may start from: the primary is not its own standby. */
  predicate Startable(s: State) {
    && s.trace == [] && s.quorum >= 0 && s.numsync <= |s.sync|
    && s.leader !in s.voters
    && s.leaderWanted !in s.sync + s.active
  }

  lemma StartSound(s: State)
    requires s.trace == [] && s.numsync <= |s.sync|
    ensures Sound(s, s)
  {}

  /** The optional first write of a failover, when there are no synchronous standbys yet. */
  lemma FailoverListed(s: State) returns (t: State)
    requires Startable(s) && s.leader != s.leaderWanted
    requires s.sync == {} ==> 0 <= |(s.voters - {s.leaderWanted}) + {s.leader}| - s.quorum
    ensures s.sync == {} ==>
              var voters := (s.voters - {s.leaderWanted}) + {s.leader};
              SyncUpdate(s, |voters| - s.quorum, voters) == Done(t)
    ensures s.sync != {} ==> t == s
    ensures Sound(s, t) && Follows(s, t) && t.leaderWanted !in t.sync
    ensures t == s.(numsync := t.numsync, sync := t.sync, trace := t.trace)
  {
    var voters := (s.voters - {s.leaderWanted}) + {s.leader};
    t := s;
    if s.sync == {} {
      var u := s.(numsync := |voters| - s.quorum, sync := voters);
      assert Electorate(u) + Holders(u) == voters + {s.leaderWanted};
      assert Electorate(u) <= Holders(u);
      t := Emit(u, Sync);
      assert Guarded(t);
      SoundEmit(s, s, t, Transition(Sync, t.leader, t.numsync, t.sync));
    }
  }

  lemma FailoverSound(s: State)
    requires Startable(s) && s.leader != s.leaderWanted
    ensures KeepsSound(s, s, Failover(s))
  {
    hide Sound, QuorumUpdate;
    if Failover(s).Done? {
      var voters := (s.voters - {s.leaderWanted}) + {s.leader};
      var t := FailoverListed(s);
      QuorumUpdateSound(s, t, t.quorum, voters, Some(s.leaderWanted), true);
    }
  }

  /** A state that claimed the key without a write being recorded is repaired by one write, recorded soundly. */
  lemma ClaimRepaired(first: State, t: State, at: State)
    requires Sound(first, t) && t.quorum >= 0 && t.leaderWanted !in t.sync + t.active
    requires at == t.(leader := t.leaderWanted, voters := at.voters) && at.leader !in at.voters && at.voters != {}
    requires !Invariant(at)
    requires QuorumUpdate(at, |at.sync| - at.numsync, at.sync, None, true).Done?
    ensures var u := QuorumUpdate(at, |at.sync| - at.numsync, at.sync, None, true).state;
            Sound(first, u) && Led(u) && Follows(t, u)
  {
    hide Sound, Invariant, FewEnough, Electorate, Holders;
    var u := QuorumUpdate(at, |at.sync| - at.numsync, at.sync, None, true).state;
    var before := QuorumUpdateWrites(at, |at.sync| - at.numsync, at.sync, None, true);
    InvariantPlaced(at);
    if at.voters == at.sync {
      assert at.voters + at.sync == at.sync;
    }
    KeyWritten(first, t, t, u);
  }

  /** A failover fails before it claims the key, or because the claimed key breaks the invariant. */
  lemma FailoverFails(s: State) returns (t: State)
    requires Startable(s) && s.leader != s.leaderWanted && Failover(s).Raised?
    ensures var at := Failover(s).at;
            || at.leader == s.leader
            || (Sound(s, t) && Follows(s, t) && t.leaderWanted !in t.sync + t.active && t.quorum >= 0
                && at == t.(leader := t.leaderWanted, voters := at.voters)
                && at.leader !in at.voters && at.voters != {} && !Invariant(at))
  {
    hide Sound, Invariant, SyncUpdate;
    t := s;
    if s.sync != {} || 0 <= |(s.voters - {s.leaderWanted}) + {s.leader}| - s.quorum {
      t := FailoverListed(s);
    } else {
      var voters := (s.voters - {s.leaderWanted}) + {s.leader};
      SyncTooFew(s, |voters| - s.quorum, voters);
    }
  }

  lemma SyncTooFew(s: State, numsync: int, sync: set<Name>)
    requires numsync < 0
    ensures SyncUpdate(s, numsync, sync) == Raised(QuorumError, s)
  {}

  lemma FailoverRecovered(s: State)
    requires Startable(s) && s.leader != s.leaderWanted
    requires Failover(s).Raised? && Recover(s).Done? && Recover(s).state.leader == s.leaderWanted
    ensures KeepsSound(s, s, Recover(s))
  {
    hide Sound, Failover, Invariant;
    var t := FailoverFails(s);
    var at := Failover(s).at;
    assert Recover(s) == QuorumUpdate(at, |at.sync| - at.numsync, at.sync, None, true);
    if at.leader != s.leader {
      ClaimRepaired(s, t, at);
    }
  }

  /** The state an outcome carries, finished or not. */
  function Left(o: Outcome): State {
    if o.Done? then o.state else o.at
  }

  lemma QuorumUpdateKeeps(s: State, quorum: int, voters: set<Name>, leader: Option<Name>, adjust: bool)
    ensures Left(QuorumUpdate(s, quorum, voters, leader, adjust)).leaderWanted == s.leaderWanted
  {
    hide Invariant;
  }

  lemma SyncUpdateKeeps(s: State, numsync: int, sync: set<Name>)
    ensures Left(SyncUpdate(s, numsync, sync)).leaderWanted == s.leaderWanted
  {
    hide Invariant;
  }

  lemma RecoverKeeps(s: State)
    ensures Left(Enter(s)).leaderWanted == s.leaderWanted
    ensures Left(Recover(s)).leaderWanted == s.leaderWanted
  {
    hide Invariant, QuorumUpdate, SyncUpdate;
    var voters := (s.voters - {s.leaderWanted}) + {s.leader};
    SyncUpdateKeeps(s, |voters| - s.quorum, voters);
    var t := Left(if s.sync == {} then SyncUpdate(s, |voters| - s.quorum, voters) else Done(s));
    QuorumUpdateKeeps(t, t.quorum, voters, Some(s.leaderWanted), true);
    var at := Left(Enter(s));
    QuorumUpdateKeeps(at, |at.sync| - at.numsync, at.sync, None, true);
  }

  lemma RecoverSound(s: State)
    requires Startable(s)
    requires Recover(s).Done? && Recover(s).state.leader == s.leaderWanted
    ensures KeepsSound(s, s, Recover(s))
  {
    hide Sound, QuorumUpdate, Invariant, Failover;
    if s.leader != s.leaderWanted {
      if Failover(s).Done? {
        FailoverSound(s);
      } else {
        FailoverRecovered(s);
      }
    } else if Invariant(s) {
      StartSound(s);
    } else {
      StartSound(s);
      QuorumUpdateSound(s, s, |s.sync| - s.numsync, s.sync, None, true);
    }
  }

  lemma EstimateSound(first: State, s: State)
    requires Sound(first, s) && Led(s)
    ensures Sound(first, EstimateConfirmed(s)) && Led(EstimateConfirmed(s))
  {}

  lemma EarlyStop(s: State)
    requires StopsEarly(s)
    ensures Recover(s) == Failover(s) && Failover(s).Done?
  {}

  /** Whatever a pass starts from, each transition it plans leads to a guarded state, and together they
      lead to the registers it ends with. */
  lemma PassIsSound(s: State)
    requires Startable(s)
    ensures var o := GenerateTransitions(s); o.Done? ==> Sound(s, o.state) && Led(o.state)
  {
    hide Sound, Settle, Recover, Failover;
    if GenerateTransitions(s).Done? {
      var t := Recover(s).state;
      if StopsEarly(s) {
        EarlyStop(s);
        FailoverSound(s);
      } else {
        assert GenerateTransitions(s) == Proceed(t);
        RecoverKeeps(s);
        RecoverSound(s);
        EstimateSound(s, t);
        SettleSound(s, EstimateConfirmed(t));
      }
    }
  }

  /** So every state an observer can see during a pass lets elections meet commits. */
  lemma PassOverlaps(s: State, k: nat)
    requires Startable(s)
    ensures var o := GenerateTransitions(s);
            o.Done? && 1 <= k <= |o.state.trace| ==> Overlaps(WriteAll(s, o.state.trace[..k]))
  {
    hide GenerateTransitions, Guarded, Overlaps;
    var o := GenerateTransitions(s);
    PassIsSound(s);
    if o.Done? && 1 <= k <= |o.state.trace| {
      GuardedOverlaps(WriteAll(s, o.state.trace[..k]));
    }
  }
}
