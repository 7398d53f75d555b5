/** From the won race to the claimed key: the list written before the promotion is what the resolver needs after it. */
module Handover {
  import opened Names
  import opened QuorumState
  import opened Overlap
  import opened Replay
  import opened Passes
  import opened PassEnds
  import opened Transfer
  import opened Election
  import opened HaLoop
  import opened Traces
  import opened Survival

  /** With a quorum below the number of voters there is always room to take over. */
  lemma FailoverRoom(s: State)
    requires s.leader !in s.voters
    ensures |s.voters| <= |Inherited(s)|
    ensures s.quorum < |s.voters| ==> s.quorum < |Inherited(s)|
  {
    if s.leaderWanted in Electorate(s) {
      DiffCard({s.leaderWanted}, Electorate(s));
    } else {
      assert Inherited(s) == Electorate(s);
    }
  }

  lemma InheritedListed(c: Config, me: Name, r: Round, settings: Settings)
    requires Consistent(c) && c.key.Some? && me != c.key.value.leader
    requires me !in r.active && settings.wanted >= 1
    requires c.key.value.quorum <= |c.key.value.voters + {c.key.value.leader} - {me}|
    requires var d := Prepromote(c, me, true, 0, true).value; 0 <= r.confirmed <= |ListedNames(d.list) * r.active|
    ensures Prepromote(c, me, true, 0, true).Some?
    ensures var d := Prepromote(c, me, true, 0, true).value;
            d.key == c.key && d.primary == me && HandedOver(Resolve(d, r, settings))
  {
    var key := c.key.value;
    var members := key.voters + {key.leader};
    var d := Prepromote(c, me, true, 0, true).value;
    if me in members {
      DiffCard({me}, members);
    } else {
      assert members - {me} == members;
    }
    assert key.leader in members - {me};
  }

  /** Hand-over across leaders: for the winner of a vote, voter or not, the first pass starts from the state the
      fail-over branch expects; and if the quorum is below the number of voters, it raises nothing there and claims the
      key with the same nodes in both registers. Whatever was acknowledged before the promotion is held by the winner and
      by as many of its standbys as its list waits for, and whoever is elected under the claimed key meets a holder. */
  lemma WinnerClaims(c: Config, contest: Contest, statuses: seq<MemberStatus>, r: Round, settings: Settings)
    requires Consistent(c) && c.key.Some? && contest.me != c.key.value.leader
    requires Reads(contest, View(c)) && Answers(contest, statuses) && WinsVotes(contest, statuses)
    requires contest.me !in r.active && settings.wanted >= 1
    requires var d := Prepromote(c, contest.me, true, 0, true).value; 0 <= r.confirmed <= |ListedNames(d.list) * r.active|
    ensures var d := Prepromote(c, contest.me, true, 0, true).value;
            var s := Resolve(d, r, settings);
            && HandedOver(s)
            && (s.quorum < |s.voters| ==>
                  Failover(s).Done? && Claimed(s, Failover(s).state)
                  && Failover(s).state.leader == contest.me && Failover(s).state.voters == Failover(s).state.sync)
            && (forall holders :: Acked(c, holders) ==> Acked(d, holders + {contest.me}))
            && (forall holders :: Acked(c, holders) && s.quorum < |s.voters| ==> Meets(Failover(s).state, holders + {contest.me}))
  {
    hide *;
    VotersLeft(c, contest, statuses);
    InheritedListed(c, contest.me, r, settings);
    var s := Resolve(Prepromote(c, contest.me, true, 0, true).value, r, settings);
    ResolvedFor(Prepromote(c, contest.me, true, 0, true).value, r, settings);
    ClaimsWithRoom(s);
    forall holders | Acked(c, holders)
      ensures Acked(Prepromote(c, contest.me, true, 0, true).value, holders + {contest.me})
      ensures s.quorum < |s.voters| ==> Meets(Failover(s).state, holders + {contest.me})
    {
      ConsistentMeets(c, holders, contest.me);
      HeirAcked(c, contest.me, holders + {contest.me});
      if s.quorum < |s.voters| {
        SameKey(Prepromote(c, contest.me, true, 0, true).value, c, r, settings);
        ClaimedForms(s, Failover(s).state);
        ClaimMeets(s, Failover(s).state, holders + {contest.me});
      }
    }
  }

  lemma SameKey(d: Config, c: Config, r: Round, settings: Settings)
    requires c.key.Some? && d.key == c.key
    ensures var s := Resolve(d, r, settings);
            forall holders :: Meets(View(c), holders) ==> Meets(s, holders)
  {
    var s := Resolve(d, r, settings);
    forall holders | Meets(View(c), holders)
      ensures Meets(s, holders)
    {
      assert forall electors :: Elects(s, electors) ==> Elects(View(c), electors);
    }
  }

  lemma ClaimedForms(s: State, t: State)
    requires Claimed(s, t)
    ensures t.leader == s.leaderWanted && t.quorum == s.quorum && t.voters == Electorate(s) - {s.leaderWanted}
  {}

  lemma ResolvedFor(d: Config, r: Round, settings: Settings)
    requires d.key.Some?
    ensures Resolve(d, r, settings).leaderWanted == d.primary
  {}

  lemma ClaimsWithRoom(s: State)
    requires HandedOver(s)
    ensures s.quorum < |s.voters| ==>
              Failover(s).Done? && Claimed(s, Failover(s).state)
              && Failover(s).state.leader == s.leaderWanted && Failover(s).state.voters == Failover(s).state.sync
  {
    hide Failover;
    FailoverRoom(s);
    FailoverExact(s);
  }

  // ---------------------------------------------------------------- commits from before the promotion

  /** What was acknowledged under a consistent configuration meets every election under its key, and so it does with one
      holder more. */
  lemma ConsistentMeets(c: Config, holders: set<Name>, me: Name)
    requires Consistent(c) && c.key.Some? && Acked(c, holders)
    ensures Meets(View(c), holders) && Meets(View(c), holders + {me}) && c.key.value.quorum >= 0
  {
    hide Invariant, FewEnough, Elects;
    AckedAcknowledges(c, holders);
    GuardedOverlaps(View(c));
    forall electors | Elects(View(c), electors)
      ensures electors * (holders + {me}) != {}
    {
      assert electors * holders <= electors * (holders + {me});
    }
  }

  /** The members of the key that are no holders are too few to elect. */
  lemma FewOthers(s: State, holders: set<Name>)
    requires Meets(s, holders)
    ensures |Electorate(s) - holders| <= s.quorum
  {
    var others := Electorate(s) - holders;
    assert others * holders == {};
    assert !Elects(s, others);
  }

  /** If the new primary is a holder itself, the list it sets before its promotion counts the commit as acknowledged. */
  lemma HeirAcked(c: Config, me: Name, holders: set<Name>)
    requires c.key.Some? && c.key.value.quorum >= 0 && me in holders && Meets(View(c), holders)
    ensures Prepromote(c, me, true, 0, true).Some?
    ensures Acked(Prepromote(c, me, true, 0, true).value, holders)
  {
    hide Meets;
    var members := Electorate(View(c));
    FewOthers(View(c), holders);
    HeirCount(members, holders, me);
    assert c.key.value.leader in members;
    assert members - {me} == {} ==> members == {me};
  }

  lemma HeirCount(members: set<Name>, holders: set<Name>, me: Name)
    requires me in holders
    ensures |holders * (members - {me})| == |members| - |members - holders| - (if me in members then 1 else 0)
  {
    var others := members - {me};
    PairCard(members, holders);
    if me in members {
      DiffCard({me}, members * holders);
      assert holders * others == members * holders - {me};
    } else {
      assert holders * others == members * holders;
    }
  }

  /** A claim by a holder: whoever is elected under the new key still meets a holder. */
  lemma ClaimMeets(s: State, t: State, holders: set<Name>)
    requires Meets(s, holders) && t.leader in holders
    requires t.voters == Electorate(s) - {t.leader} && t.quorum == s.quorum
    ensures Meets(t, holders)
  {
    forall electors | Elects(t, electors)
      ensures electors * holders != {}
    {
      if t.leader in electors {
        assert t.leader in electors * holders;
      } else {
        assert Elects(s, electors);
      }
    }
  }

  /** Across a fail-over and the loop that follows it: whoever is elected later, under any key the new primary's loop goes
      through, holds what was acknowledged before the promotion, as far as the loop keeps the list set before it. */
  lemma HandoverSurvives(c: Config, contest: Contest, statuses: seq<MemberStatus>, rounds: seq<Round>, settings: Settings,
                         v: Config, later: Contest, answers: seq<MemberStatus>, holders: set<Name>, position: int)
    requires Consistent(c) && c.key.Some? && rounds != [] && settings.wanted >= 1
    requires Acked(c, holders) && forall r :: r in rounds ==> contest.me !in r.active
    requires v.key.Some? && Reads(later, View(v)) && Answers(later, answers) && WinsVotes(later, answers)
    requires Truthful(later, answers, holders + {contest.me}, position)
    ensures var d := Prepromote(c, contest.me, true, 0, true).value;
            Starts(Resolve(d, rounds[0], settings)) && AllKeep(d, d, rounds, settings) && v in Visits(d, rounds, settings)
            ==> later.wal >= position
  {
    hide Meets, Answers, WinsVotes, Truthful, Starts, AllKeep, Visits, Consistent, Safe, Resolve, StillHeld, AllSafe, Acked;
    var d := Prepromote(c, contest.me, true, 0, true).value;
    ConsistentMeets(c, holders, contest.me);
    HeirAcked(c, contest.me, holders + {contest.me});
    PrepromoteConsistent(c, contest.me, true, 0, true);
    if Starts(Resolve(d, rounds[0], settings)) && AllKeep(d, d, rounds, settings) && v in Visits(d, rounds, settings) {
      StartHeld(d, rounds[0], settings);
      EarlierCommitsSurvive(d, d, rounds, settings);
      SafeAt(d, Visits(d, rounds, settings), v);
      MixedAcked(d, v, holders + {contest.me});
      SafeFor(Mixed(d, v), later, answers, holders + {contest.me}, position);
    }
  }

  lemma SafeAt(b: Config, ds: seq<Config>, d: Config)
    requires AllSafe(b, ds) && d in ds
    ensures d.key.Some? && Safe(Mixed(b, d))
  {
    hide Safe;
  }

  lemma MixedAcked(b: Config, d: Config, holders: set<Name>)
    requires Acked(b, holders) && d.key.Some?
    ensures Acknowledges(Mixed(b, d), holders)
    ensures forall contest :: Reads(contest, View(d)) ==> Reads(contest, Mixed(b, d))
  {}

  lemma SafeFor(s: State, c: Contest, statuses: seq<MemberStatus>, holders: set<Name>, position: int)
    requires Safe(s) && Reads(c, s) && Answers(c, statuses) && WinsVotes(c, statuses)
    requires Acknowledges(s, holders) && Truthful(c, statuses, holders, position)
    ensures c.wal >= position
  {
    hide Reads, Answers, WinsVotes, Acknowledges, Truthful;
  }

  // ---------------------------------------------------------------- one primary after another

  /** A race that was won, and whether the winner got as far as claiming the key. */
  datatype Race = Race(contest: Contest, statuses: seq<MemberStatus>, claims: bool)

  /** The key is the primary's own, with the same members and the same quorum. */
  function OwnKey(d: Config): Config
    requires d.key.Some?
  {
    var key := d.key.value;
    d.(key := Some(Key(d.primary, key.quorum, key.voters + {key.leader} - {d.primary})))
  }

  function Succeeded(c: Config, race: Race): (d: Config)
    requires c.key.Some?
    ensures d.key.Some?
  {
    var d := Prepromote(c, race.contest.me, true, 0, true).value;
    if race.claims then OwnKey(d) else d
  }

  predicate Won(c: Config, race: Race)
    requires c.key.Some?
  {
    Reads(race.contest, View(c)) && Answers(race.contest, race.statuses) && WinsVotes(race.contest, race.statuses)
  }

  /** Each race is won under the key that the one before left, and no node reports less than it acknowledged. */
  predicate Succession(c: Config, races: seq<Race>, holders: set<Name>, position: int)
    requires c.key.Some?
    decreases |races|
  {
    races != [] ==>
      var race := races[0];
      && Won(c, race) && Truthful(race.contest, race.statuses, holders, position)
      && Succession(Succeeded(c, race), races[1..], holders + {race.contest.me}, position)
  }

  lemma MeetsMore(s: State, holders: set<Name>, me: Name)
    requires Meets(s, holders)
    ensures Meets(s, holders + {me})
  {
    forall electors | Elects(s, electors)
      ensures electors * (holders + {me}) != {}
    {
      assert electors * holders <= electors * (holders + {me});
    }
  }

  lemma SucceededMeets(c: Config, race: Race, holders: set<Name>)
    requires c.key.Some? && Meets(View(c), holders) && race.contest.me in holders
    ensures Meets(View(Succeeded(c, race)), holders)
  {
    hide Meets;
    var d := Prepromote(c, race.contest.me, true, 0, true).value;
    SameKey(d, c, Round(0, {}, 0), Settings(1, 0));
    if race.claims {
      ClaimMeets(View(d), View(OwnKey(d)), holders);
    }
  }

  lemma {:induction false} HeirsMeet(c: Config, races: seq<Race>, holders: set<Name>, position: int, i: nat)
    requires c.key.Some? && Meets(View(c), holders) && Succession(c, races, holders, position) && i < |races|
    ensures races[i].contest.wal >= position
    decreases |races|
  {
    hide Meets, Reads, Answers, WinsVotes, Truthful, View, Succeeded;
    var race := races[0];
    if i == 0 {
      WinnerAsksHolder(View(c), race.contest, race.statuses, holders, position);
    } else {
      var more := holders + {race.contest.me};
      MeetsMore(View(c), holders, race.contest.me);
      SucceededMeets(c, race, more);
      HeirsMeet(Succeeded(c, race), races[1..], more, position, i - 1);
    }
  }

  /** However many fail-overs follow each other, each with the key claimed or left to the next, every winner holds each
      position acknowledged before the first of them. */
  lemma HeirsHoldCommits(c: Config, races: seq<Race>, holders: set<Name>, position: int, i: nat)
    requires Consistent(c) && c.key.Some? && Acked(c, holders)
    requires Succession(c, races, holders, position) && i < |races|
    ensures races[i].contest.wal >= position
  {
    hide Meets, Acked, Consistent, Succession;
    ConsistentMeets(c, holders, c.primary);
    HeirsMeet(c, races, holders, position, i);
  }

  /** The winner leaves at least as many other members as the quorum. */
  lemma VotersLeft(c: Config, contest: Contest, statuses: seq<MemberStatus>)
    requires Consistent(c) && c.key.Some?
    requires Reads(contest, View(c)) && Answers(contest, statuses) && WinsVotes(contest, statuses)
    ensures c.key.value.quorum <= |c.key.value.voters + {c.key.value.leader} - {contest.me}|
  {
    var others := c.key.value.voters + {c.key.value.leader} - {contest.me};
    var supporters := Supporters(contest, statuses);
    assert supporters <= others;
    SubsetCard(supporters, others);
  }
}
