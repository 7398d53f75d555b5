/**
 * What one pass of the quorum state resolver computes, as functions on values.
 *
 * A pass reads two registers that are written one after the other: the `/sync` key
 * (leader, quorum, voters) and `synchronous_standby_names` (numsync, sync).
 */
module QuorumState {
  import opened Names

  datatype Kind = Sync | Quorum | Restart

  datatype Transition = Transition(kind: Kind, leader: Name, num: int, names: set<Name>)

  datatype Error = QuorumError | AssertionError

  datatype State = State(
    leader: Name, quorum: int, voters: set<Name>,
    numsync: int, sync: set<Name>,
    confirmed: int, active: set<Name>, wanted: int, leaderWanted: Name,
    trace: seq<Transition>)

  /** A step either finishes, or raises an error and leaves the fields as they were at that moment. */
  datatype Outcome = Done(state: State) | Raised(error: Error, at: State) {
    predicate IsFailure() {
      Raised?
    }

    function PropagateFailure(): Outcome
      requires Raised?
    {
      this
    }

    function Extract(): State
      requires Done?
    {
      state
    }
  }

  function Init(leader: Name, quorum: int, voters: set<Name>, numsync: int, sync: set<Name>,
                confirmed: int, active: set<Name>, wanted: int, leaderWanted: Name): State
  {
    State(leader, quorum, voters, Min(numsync, |sync|), sync, confirmed, active, wanted, leaderWanted, [])
  }

  /** The members of the `/sync` key. */
  function Electorate(s: State): set<Name> {
    s.voters + {s.leader}
  }

  /** The nodes that can hold an acknowledged commit: the primary and its listed standbys. */
  function Holders(s: State): set<Name> {
    s.sync + {s.leaderWanted}
  }

  predicate Invariant(s: State) {
    && (s.voters != {} ==> |Electorate(s) + Holders(s)| <= s.quorum + s.numsync + 1)
    && (Electorate(s) <= Holders(s) || Holders(s) <= Electorate(s))
  }

  function CheckInvariants(s: State): Outcome {
    if Invariant(s) then Done(s) else Raised(QuorumError, s)
  }

  function Emit(s: State, kind: Kind): State {
    s.(trace := s.trace +
      [if kind == Sync then Transition(Sync, s.leader, s.numsync, s.sync)
       else Transition(kind, s.leader, s.quorum, s.voters)])
  }

  /** The quorum and voters that an update really writes. */
  function EffectiveKey(s: State, quorum: int, voters: set<Name>, leader: Option<Name>, adjust: bool): (int, set<Name>) {
    if leader.Some? then (quorum, voters)
    else if s.confirmed == 0 && s.voters == {} then (0, {})
    else if adjust then (quorum + Max(s.numsync - s.confirmed, 0), voters)
    else (quorum, voters)
  }

  function QuorumUpdate(s: State, quorum: int, voters: set<Name>, leader: Option<Name>, adjust: bool): Outcome {
    if quorum < 0 || (quorum > 0 && quorum >= |voters|) then Raised(QuorumError, s)
    else
      var (q, v) := EffectiveKey(s, quorum, voters, leader, adjust);
      var led := if leader.Some? then s.(leader := leader.value) else s;
      var same := led.leader == s.leader && q == s.quorum && v == s.voters;
      if same && s.voters != {} then Done(led)
      else
        var hinted := if same then Emit(led, Restart) else led;
        var t :- CheckInvariants(hinted.(quorum := q, voters := v));
        Done(Emit(t, Quorum))
  }

  function SyncUpdate(s: State, numsync: int, sync: set<Name>): Outcome {
    if numsync < 0 || numsync > |sync| then Raised(QuorumError, s)
    else
      var t :- CheckInvariants(s.(numsync := numsync, sync := sync));
      Done(Emit(t, Sync))
  }

  /** Take the vote from nodes that are neither listed nor alive. */
  function EvictGone(s: State): Outcome {
    var gone := s.voters - (s.sync + s.active);
    if gone != {}
    then QuorumUpdate(s, |s.voters| - |gone| - s.numsync, s.voters - gone, None, s.sync - s.active == {})
    else Done(s)
  }

  /** Start waiting for living voters. */
  function ListLiving(s: State): Outcome {
    var joining := (s.voters * s.active) - s.sync;
    if joining != {} then SyncUpdate(s, s.numsync, s.sync + joining) else Done(s)
  }

  /** `/sync` names more nodes than `synchronous_standby_names`: an earlier pass stopped half-way. */
  function RepairVoters(s: State): Outcome {
    var t :- EvictGone(s);
    ListLiving(t)
  }

  /** Stop waiting for dead nodes, as long as some living node stays in both registers. */
  function DropDead(s: State): Outcome {
    var gone := s.sync - s.active;
    var alive := s.sync - gone;
    if gone != {} && alive != {} && (s.voters == {} || alive * s.voters != {})
    then SyncUpdate(s, Min(s.numsync, |s.sync| - |gone|), alive)
    else Done(s)
  }

  /** Give a vote to the living nodes that are already listed as standbys. */
  function AdmitListed(s: State): Outcome {
    var admitted := (s.sync - s.voters) * s.active;
    var voters := s.voters + admitted;
    if admitted != {} then QuorumUpdate(s, |voters| - s.numsync, voters, None, true) else Done(s)
  }

  /** Unlist what still has no vote. */
  function DropVoteless(s: State): Outcome {
    var extra := s.sync - s.voters;
    if extra != {} then SyncUpdate(s, Min(s.numsync, |s.sync| - |extra|), s.sync - extra) else Done(s)
  }

  /** `synchronous_standby_names` names more nodes than `/sync`: an earlier pass stopped half-way. */
  function RepairSync(s: State): Outcome {
    var t :- DropDead(s);
    var u :- AdmitListed(t);
    DropVoteless(u)
  }

  /** With equal sets, finish an interrupted change of the replication factor. */
  function TrimMargin(s: State): Outcome {
    if s.quorum + Min(s.numsync, s.confirmed) - |s.voters + s.sync| > 0 then
      if s.numsync > s.wanted
      then SyncUpdate(s, Max(s.wanted, |s.voters| - s.quorum), s.sync)
      else QuorumUpdate(s, |s.sync| - s.numsync, s.voters, None, true)
    else if s.numsync == s.wanted && s.quorum + s.numsync - |s.voters + s.sync| > 0 && s.numsync > s.confirmed
    then QuorumUpdate(s, |s.sync| - s.numsync, s.voters, None, true)
    else Done(s)
  }

  function MatchSets(s: State): Outcome {
    if s.sync < s.voters then RepairVoters(s)
    else if s.voters < s.sync then RepairSync(s)
    else Done(s)
  }

  function HandleNonSteadyCases(s: State): Outcome {
    var t :- MatchSets(s);
    if t.voters != t.sync then Raised(AssertionError, t) else TrimMargin(t)
  }

  /** How many elements `[:count]` keeps of a list: a negative count drops from the end. */
  function SliceLength(length: nat, count: int): nat {
    if count >= 0 then count else Max(length + count, 0)
  }

  /** Unlist the nodes, perhaps waiting for more of the others, then take their vote away. */
  function Dismiss(s: State, leave: set<Name>, last: bool): Outcome {
    var sync := s.sync - leave;
    var t :- SyncUpdate(s, Min(if s.wanted > s.numsync then s.wanted else s.numsync, |sync|), sync);
    var voters := t.voters - leave;
    QuorumUpdate(t, |voters| - t.numsync, voters, None, last)
  }

  /** The part of the removal that spends the quorum: as many dead nodes as it allows. */
  function RemoveWithinQuorum(s: State, dead: set<Name>): Outcome {
    if s.quorum == 0 then Done(s)
    else
      var leave := Greatest(dead, SliceLength(|dead|, s.quorum));
      Dismiss(s, leave, dead * (s.sync - leave) == {})
  }

  /** The part of the removal that lowers the replication factor. */
  function RemoveRemaining(s: State, dead: set<Name>): Outcome {
    if dead == {} then Done(s)
    else if s.quorum != 0 then Raised(AssertionError, s)
    else
      var numsync := s.numsync - |dead|;
      var sync := s.sync - dead;
      var voters := s.voters - dead;
      var decrease := numsync - Min(s.wanted, |sync|);
      var quorum := if decrease != 0 then Min(decrease, |voters| - 1) else 0;
      var t :- QuorumUpdate(s, quorum, voters, None, false);
      SyncUpdate(t, numsync, sync)
  }

  function RemoveGoneNodes(s: State): Outcome {
    var dead := s.sync - s.active;
    if dead == {} then Done(s)
    else if s.sync == dead then
      var t :- QuorumUpdate(s, 0, {}, None, false);
      SyncUpdate(t, 0, {})
    else
      var t :- RemoveWithinQuorum(s, dead);
      RemoveRemaining(t, dead * t.sync)
  }

  /** List the nodes and wait for `step` more standbys, then let the nodes vote. */
  function AddChosen(s: State, add: set<Name>, step: int, target: int): Outcome {
    var t :- SyncUpdate(s, s.numsync + step, s.sync + add);
    QuorumUpdate(t, |t.voters + add| - target, t.voters + add, None, true)
  }

  /** Add nodes while the requested replication factor is not reached. */
  function AddForFactor(s: State, joining: set<Name>, target: int): Outcome {
    var increase := target - s.numsync;
    if increase <= 0 then Done(s)
    else if s.sync != {} then
      var add := Smallest(joining, increase);
      AddChosen(s, add, |add|, target)
    else AddChosen(s, joining, increase, target)
  }

  /** Add the other nodes, to the key first. */
  function AddRemaining(s: State, joining: set<Name>, target: int): Outcome {
    if joining == {} then Done(s)
    else
      var voters := s.voters + joining;
      var t :- QuorumUpdate(s, |voters| - target, voters, None, target > s.confirmed);
      SyncUpdate(t, target, t.sync + joining)
  }

  function AddNewNodes(s: State): Outcome {
    var joining := s.active - s.sync;
    if joining == {} then Done(s)
    else
      var target := Min(s.wanted, |s.sync + joining|);
      var t :- AddForFactor(s, joining, target);
      AddRemaining(t, if target > s.numsync then joining - t.sync else joining, target)
  }

  /** Wait for more standbys first, then ask for fewer votes. */
  function RaiseFactor(s: State, increase: int): Outcome {
    var t :- SyncUpdate(s, s.numsync + increase, s.sync);
    QuorumUpdate(t, |t.voters| - t.numsync, t.voters, None, true)
  }

  /** Ask for the votes that a lower replication factor will need. */
  function RaiseQuorum(s: State, decrease: int): Outcome {
    if s.quorum + decrease < |s.voters|
    then QuorumUpdate(s, |s.voters| - s.numsync + decrease, s.voters, None, s.wanted > s.confirmed)
    else Done(s)
  }

  /** Ask for more votes first, then wait for fewer standbys. */
  function LowerFactor(s: State, decrease: int): Outcome {
    var t :- RaiseQuorum(s, decrease);
    SyncUpdate(t, t.numsync - decrease, t.sync)
  }

  function ChangeReplicationFactor(s: State): Outcome {
    var increase := Min(s.wanted, |s.sync|) - s.numsync;
    if increase > 0 then RaiseFactor(s, increase)
    else if increase < 0 then LowerFactor(s, -increase)
    else Done(s)
  }

  /** The old leader joins the voters and the new one takes its place. */
  function Failover(s: State): Outcome {
    var voters := (s.voters - {s.leaderWanted}) + {s.leader};
    var t :- if s.sync == {} then SyncUpdate(s, |voters| - s.quorum, voters) else Done(s);
    QuorumUpdate(t, t.quorum, voters, Some(s.leaderWanted), true)
  }

  /** The first statement of a pass: fail over, or check that the registers still fit together. */
  function Enter(s: State): Outcome {
    if s.leaderWanted != s.leader then Failover(s) else CheckInvariants(s)
  }

  /** The handler around it: rewrite the key from `synchronous_standby_names`. */
  function Recover(s: State): Outcome {
    var entered := Enter(s);
    if entered.Done? then entered
    else QuorumUpdate(entered.at, |entered.at.sync| - entered.at.numsync, entered.at.sync, None, true)
  }

  /** A pass stops early right after a failover when no standby has reconnected yet. */
  predicate StopsEarly(s: State) {
    s.leaderWanted != s.leader && Enter(s).Done? && Enter(s).state.sync * Enter(s).state.active == {}
  }

  /** The confirmed count may be unknown after a restart; it is then derived from the key. */
  function EstimateConfirmed(s: State): State {
    if s.confirmed == 0 && s.sync * s.active != {}
    then s.(confirmed := Min(|s.sync * s.active|, |s.voters| - s.quorum))
    else s
  }

  function Settle(s: State): Outcome {
    var t :- HandleNonSteadyCases(s);
    var u :- RemoveGoneNodes(t);
    var v :- AddNewNodes(u);
    ChangeReplicationFactor(v)
  }

  function Proceed(s: State): Outcome {
    if s.leader != s.leaderWanted then Raised(AssertionError, s) else Settle(EstimateConfirmed(s))
  }

  function GenerateTransitions(s: State): Outcome {
    var t :- Recover(s);
    if StopsEarly(s) then Done(t) else Proceed(t)
  }
}
