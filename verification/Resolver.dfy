/** The resolver as the stateful object it is: each update assigns fields and records a transition. */
module Resolver {
  import opened Names
  import opened QuorumState

  datatype Status = Success | Failure(error: Error) {
    predicate IsFailure() {
      Failure?
    }

    function PropagateFailure(): Status
      requires Failure?
    {
      this
    }
  }

  function AsOutcome(status: Status, s: State): Outcome {
    if status.Success? then Done(s) else Raised(status.error, s)
  }

  class QuorumStateResolver {
    var leader: Name
    var quorum: int
    var voters: set<Name>
    var numsync: int
    var sync: set<Name>
    var confirmed: int
    var trace: seq<Transition>
    const active: set<Name>
    const wanted: int
    const leaderWanted: Name

    function View(): State
      reads this
    {
      State(leader, quorum, voters, numsync, sync, confirmed, active, wanted, leaderWanted, trace)
    }

    constructor (leader: Name, quorum: int, voters: set<Name>, numsync: int, sync: set<Name>,
                 confirmed: int, active: set<Name>, wanted: int, leaderWanted: Name)
      ensures View() == Init(leader, quorum, voters, numsync, sync, confirmed, active, wanted, leaderWanted)
    {
      this.leader, this.quorum, this.voters := leader, quorum, voters;
      this.numsync, this.sync := Min(numsync, |sync|), sync;
      this.confirmed, this.active, this.wanted, this.leaderWanted := confirmed, active, wanted, leaderWanted;
      this.trace := [];
    }

    method CheckInvariantsHere() returns (status: Status)
      ensures AsOutcome(status, View()) == CheckInvariants(View())
    {
      var nodes := voters + {leader};
      var standbys := sync + {leaderWanted};
      if voters != {} && !(|nodes + standbys| <= quorum + numsync + 1) {
        return Failure(QuorumError);
      }
      if !(nodes <= standbys || standbys <= nodes) {
        return Failure(QuorumError);
      }
      status := Success;
    }

    method UpdateQuorum(quorum: int, voters: set<Name>, newLeader: Option<Name>, adjust: bool) returns (status: Status)
      modifies this
      ensures AsOutcome(status, View()) == QuorumUpdate(old(View()), quorum, voters, newLeader, adjust)
    {
      hide Invariant;
      if quorum < 0 || (quorum > 0 && quorum >= |voters|) {
        return Failure(QuorumError);
      }
      var q, v := quorum, voters;
      var oldLeader := leader;
      if newLeader.Some? {
        leader := newLeader.value;
      } else if confirmed == 0 && this.voters == {} {
        q, v := 0, {};
      } else if adjust {
        q := q + Max(numsync - confirmed, 0);
      }
      if leader == oldLeader && q == this.quorum && v == this.voters {
        if this.voters != {} {
          return Success;
        }
        trace := trace + [Transition(Restart, leader, this.quorum, this.voters)];
      }
      this.quorum, this.voters := q, v;
      :- CheckInvariantsHere();
      trace := trace + [Transition(Quorum, leader, this.quorum, this.voters)];
      status := Success;
    }

    method UpdateSync(numsync: int, sync: set<Name>) returns (status: Status)
      modifies this
      ensures AsOutcome(status, View()) == SyncUpdate(old(View()), numsync, sync)
    {
      hide Invariant;
      if numsync < 0 || numsync > |sync| {
        return Failure(QuorumError);
      }
      this.numsync, this.sync := numsync, sync;
      :- CheckInvariantsHere();
      trace := trace + [Transition(Sync, leader, this.numsync, this.sync)];
      status := Success;
    }

    method EvictVoters() returns (status: Status)
      modifies this
      ensures AsOutcome(status, View()) == EvictGone(old(View()))
    {
      hide QuorumUpdate, SyncUpdate;
      var gone := voters - (sync + active);
      if gone != {} {
        :- UpdateQuorum(|voters| - |gone| - numsync, voters - gone, None, sync - active == {});
      }
      status := Success;
    }

    method ListVoters() returns (status: Status)
      modifies this
      ensures AsOutcome(status, View()) == ListLiving(old(View()))
    {
      hide QuorumUpdate, SyncUpdate;
      var joining := (voters * active) - sync;
      if joining != {} {
        :- UpdateSync(numsync, sync + joining);
      }
      status := Success;
    }

    method RepairFewerListed() returns (status: Status)
      modifies this
      ensures AsOutcome(status, View()) == RepairVoters(old(View()))
    {
      hide EvictGone, ListLiving;
      status := EvictVoters();
      :- status;
      status := ListVoters();
    }

    method UnlistDead() returns (status: Status)
      modifies this
      ensures AsOutcome(status, View()) == DropDead(old(View()))
    {
      hide QuorumUpdate, SyncUpdate;
      var gone := sync - active;
      var alive := sync - gone;
      if gone != {} && alive != {} && (voters == {} || alive * voters != {}) {
        :- UpdateSync(Min(numsync, |sync| - |gone|), alive);
      }
      status := Success;
    }

    method AdmitVoters() returns (status: Status)
      modifies this
      ensures AsOutcome(status, View()) == AdmitListed(old(View()))
    {
      hide QuorumUpdate, SyncUpdate;
      var admitted := (sync - voters) * active;
      if admitted != {} {
        var members := voters + admitted;
        :- UpdateQuorum(|members| - numsync, members, None, true);
      }
      status := Success;
    }

    method UnlistVoteless() returns (status: Status)
      modifies this
      ensures AsOutcome(status, View()) == DropVoteless(old(View()))
    {
      hide QuorumUpdate, SyncUpdate;
      var extra := sync - voters;
      if extra != {} {
        :- UpdateSync(Min(numsync, |sync| - |extra|), sync - extra);
      }
      status := Success;
    }

    method RepairMoreListed() returns (status: Status)
      modifies this
      ensures AsOutcome(status, View()) == RepairSync(old(View()))
    {
      hide DropDead, AdmitListed, DropVoteless;
      status := UnlistDead();
      :- status;
      :- AdmitVoters();
      status := UnlistVoteless();
    }

    method TrimSafetyMargin() returns (status: Status)
      modifies this
      ensures AsOutcome(status, View()) == TrimMargin(old(View()))
    {
      hide QuorumUpdate, SyncUpdate;
      var margin := quorum + Min(numsync, confirmed) - |voters + sync|;
      if margin > 0 {
        if numsync > wanted {
          :- UpdateSync(Max(wanted, |voters| - quorum), sync);
        } else {
          :- UpdateQuorum(|sync| - numsync, voters, None, true);
        }
      } else {
        margin := quorum + numsync - |voters + sync|;
        if numsync == wanted && margin > 0 && numsync > confirmed {
          :- UpdateQuorum(|sync| - numsync, voters, None, true);
        }
      }
      status := Success;
    }

    method RepairInterrupted() returns (status: Status)
      modifies this
      ensures AsOutcome(status, View()) == HandleNonSteadyCases(old(View()))
    {
      hide RepairVoters, RepairSync, TrimMargin;
      if sync < voters {
        :- RepairFewerListed();
      } else if sync > voters {
        :- RepairMoreListed();
      }
      if voters != sync {
        return Failure(AssertionError);
      }
      status := TrimSafetyMargin();
    }

    method UnlistThenUnvote(leave: set<Name>, last: bool) returns (status: Status)
      modifies this
      ensures AsOutcome(status, View()) == Dismiss(old(View()), leave, last)
    {
      hide QuorumUpdate, SyncUpdate;
      var standbys := sync - leave;
      :- UpdateSync(Min(if wanted > numsync then wanted else numsync, |standbys|), standbys);
      var members := voters - leave;
      status := UpdateQuorum(|members| - numsync, members, None, last);
    }

    method SpendQuorum(dead: set<Name>) returns (status: Status)
      modifies this
      ensures AsOutcome(status, View()) == RemoveWithinQuorum(old(View()), dead)
    {
      hide QuorumUpdate, SyncUpdate;
      if quorum != 0 {
        var leave := Greatest(dead, SliceLength(|dead|, quorum));
        :- UnlistThenUnvote(leave, dead * (sync - leave) == {});
      }
      status := Success;
    }

    method SpendFactor(dead: set<Name>) returns (status: Status)
      modifies this
      ensures AsOutcome(status, View()) == RemoveRemaining(old(View()), dead)
    {
      hide QuorumUpdate, SyncUpdate;
      if dead != {} {
        if quorum != 0 {
          return Failure(AssertionError);
        }
        var fewer := numsync - |dead|;
        var standbys := sync - dead;
        var members := voters - dead;
        var decrease := fewer - Min(wanted, |standbys|);
        :- UpdateQuorum(if decrease != 0 then Min(decrease, |members| - 1) else 0, members, None, false);
        :- UpdateSync(fewer, standbys);
      }
      status := Success;
    }

    method RemoveGone() returns (status: Status)
      modifies this
      ensures AsOutcome(status, View()) == RemoveGoneNodes(old(View()))
    {
      hide QuorumUpdate, SyncUpdate, RemoveWithinQuorum, RemoveRemaining;
      var dead := sync - active;
      if dead != {} {
        if sync == dead {
          :- UpdateQuorum(0, {}, None, false);
          :- UpdateSync(0, {});
        } else {
          :- SpendQuorum(dead);
          :- SpendFactor(dead * sync);
        }
      }
      status := Success;
    }

    method ListThenVote(add: set<Name>, step: int, target: int) returns (status: Status)
      modifies this
      ensures AsOutcome(status, View()) == AddChosen(old(View()), add, step, target)
    {
      hide QuorumUpdate, SyncUpdate;
      status := UpdateSync(numsync + step, sync + add);
      :- status;
      var members := voters + add;
      status := UpdateQuorum(|members| - target, members, None, true);
    }

    method RaiseByAdding(joining: set<Name>, target: int) returns (status: Status)
      modifies this
      ensures AsOutcome(status, View()) == AddForFactor(old(View()), joining, target)
    {
      hide AddChosen;
      var increase := target - numsync;
      if increase > 0 {
        var add := joining;
        if sync != {} {
          add := Smallest(joining, increase);
          increase := |add|;
        }
        :- ListThenVote(add, increase, target);
      }
      status := Success;
    }

    method AddOthers(joining: set<Name>, target: int) returns (status: Status)
      modifies this
      ensures AsOutcome(status, View()) == AddRemaining(old(View()), joining, target)
    {
      hide QuorumUpdate, SyncUpdate;
      if joining != {} {
        var members := voters + joining;
        :- UpdateQuorum(|members| - target, members, None, target > confirmed);
        :- UpdateSync(target, sync + joining);
      }
      status := Success;
    }

    method AddNew() returns (status: Status)
      modifies this
      ensures AsOutcome(status, View()) == AddNewNodes(old(View()))
    {
      hide AddForFactor, AddRemaining;
      var joining := active - sync;
      if joining != {} {
        var target := Min(wanted, |sync + joining|);
        var raising := target > numsync;
        :- RaiseByAdding(joining, target);
        if raising {
          joining := joining - sync;
        }
        :- AddOthers(joining, target);
      }
      status := Success;
    }

    method ChangeFactor() returns (status: Status)
      modifies this
      ensures AsOutcome(status, View()) == ChangeReplicationFactor(old(View()))
    {
      hide QuorumUpdate, SyncUpdate;
      var increase := Min(wanted, |sync|) - numsync;
      if increase > 0 {
        :- UpdateSync(numsync + increase, sync);
        :- UpdateQuorum(|voters| - numsync, voters, None, true);
      } else if increase < 0 {
        if quorum - increase < |voters| {
          :- UpdateQuorum(|voters| - numsync - increase, voters, None, wanted > confirmed);
        }
        :- UpdateSync(numsync + increase, sync);
      }
      status := Success;
    }

    method EnterPass() returns (status: Status)
      modifies this
      ensures AsOutcome(status, View()) == Enter(old(View()))
    {
      hide QuorumUpdate, SyncUpdate;
      if leaderWanted != leader {
        var members := (voters - {leaderWanted}) + {leader};
        if sync == {} {
          :- UpdateSync(|members| - quorum, members);
        }
        :- UpdateQuorum(quorum, members, Some(leaderWanted), true);
        status := Success;
      } else {
        status := CheckInvariantsHere();
      }
    }

    /** The guarded entry of a pass: a failed check is answered by rewriting the key. */
    method EnterOrRecover() returns (entered: bool, status: Status)
      modifies this
      ensures AsOutcome(status, View()) == Recover(old(View()))
      ensures entered <==> Enter(old(View())).Done?
      ensures entered ==> Enter(old(View())).state == View()
    {
      hide QuorumUpdate, SyncUpdate;
      status := EnterPass();
      entered := status.Success?;
      if !entered {
        status := UpdateQuorum(|sync| - numsync, sync, None, true);
      }
    }

    method SettleDown() returns (status: Status)
      modifies this
      ensures AsOutcome(status, View()) == Settle(old(View()))
    {
      hide HandleNonSteadyCases, RemoveGoneNodes, AddNewNodes, ChangeReplicationFactor;
      status := RepairInterrupted();
      :- status;
      :- RemoveGone();
      :- AddNew();
      status := ChangeFactor();
    }

    method ProceedFromEntry() returns (status: Status)
      modifies this
      ensures AsOutcome(status, View()) == Proceed(old(View()))
    {
      hide Settle;
      if leader != leaderWanted {
        return Failure(AssertionError);
      }
      if confirmed == 0 && sync * active != {} {
        confirmed := Min(|sync * active|, |voters| - quorum);
      }
      status := SettleDown();
    }

    method Generate() returns (status: Status)
      modifies this
      ensures AsOutcome(status, View()) == GenerateTransitions(old(View()))
    {
      hide Recover, Enter, Proceed;
      var failover := leaderWanted != leader;
      var entered, st := EnterOrRecover();
      :- st;
      if failover && entered && sync * active == {} {
        return Success;
      }
      status := ProceedFromEntry();
    }
  }
}
