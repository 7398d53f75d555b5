/**
 * The two registers as the HA loop really writes them, over whole runs: passes of the quorum replication loop,
 * cut short anywhere, and changes of the primary.
 */
module HaLoop {
  import opened Names
  import opened QuorumState
  import opened Overlap
  import opened Replay
  import opened Election
  import Iteration
  import Resolver

  /** The `/sync` key of the DCS. */
  datatype Key = Key(leader: Name, quorum: int, voters: set<Name>)

  /** `synchronous_standby_names`: ANY num of the names, or of any standby at all. */
  datatype StandbyList = Listed(num: int, names: set<Name>) | Star(num: int)

  datatype Config = Config(key: Option<Key>, list: StandbyList, primary: Name)

  /** What one iteration of the loop observes, and how many transitions it carries out before the time is up
      or a conditional write of the key fails. */
  datatype Round = Round(confirmed: int, active: set<Name>, applied: nat)

  datatype Settings = Settings(wanted: int, minSync: int)

  datatype Event =
    | Pass(enabled: bool, rounds: seq<Round>, settings: Settings)
    | Promote(me: Name, quorumMode: bool, minSync: int, written: bool)

  function ListedNames(list: StandbyList): set<Name> {
    match list
    case Listed(_, names) => names
    case Star(_) => {}
  }

  /** The list that is written for a set of names: `*` stands in when nobody can be named but somebody must confirm. */
  function SetNames(names: set<Name>, num: int): StandbyList {
    if num >= 1 && names == {} then Star(num) else Listed(num, names)
  }

  /** The state handed to the resolver. */
  function Resolve(c: Config, r: Round, settings: Settings): State
    requires c.key.Some?
  {
    var key := c.key.value;
    Init(key.leader, key.quorum, key.voters, c.list.num, ListedNames(c.list), r.confirmed, r.active, settings.wanted, c.primary)
  }

  /** The registers alone. */
  function View(c: Config): State
    requires c.key.Some?
  {
    Resolve(c, Round(0, {}, 0), Settings(1, 0))
  }

  /** The transitions handed to the loop; none when the resolver raises. */
  function Planned(c: Config, r: Round, settings: Settings): seq<Transition>
    requires c.key.Some?
  {
    var o := GenerateTransitions(Resolve(c, r, settings));
    if o.Done? then Iteration.Merge(o.state.trace, 0) else []
  }

  /** Carry out one transition, with the number of standbys bumped up to the required minimum. */
  function Carry(c: Config, t: Transition, minSync: int): Config {
    match t.kind
    case Quorum => c.(key := Some(Key(t.leader, t.num, t.names)))
    case Sync => c.(list := SetNames(t.names, Max(t.num, minSync)))
    case Restart => c
  }

  function CarryAll(c: Config, ts: seq<Transition>, minSync: int): (d: Config)
    ensures c.key.Some? ==> d.key.Some?
  {
    if ts == [] then c else Carry(CarryAll(c, ts[..|ts| - 1], minSync), ts[|ts| - 1], minSync)
  }

  /** The configurations after each of the transitions. */
  function Steps(c: Config, ts: seq<Transition>, minSync: int): (cs: seq<Config>)
    ensures |cs| == |ts|
    ensures c.key.Some? ==> Final(c, cs).key.Some?
    ensures Final(c, cs) == CarryAll(c, ts, minSync)
  {
    if ts == [] then [] else Steps(c, ts[..|ts| - 1], minSync) + [CarryAll(c, ts, minSync)]
  }

  function Final(c: Config, cs: seq<Config>): Config {
    if cs == [] then c else cs[|cs| - 1]
  }

  function Applied(c: Config, r: Round, settings: Settings): seq<Transition>
    requires c.key.Some?
  {
    Planned(c, r, settings)[..Min(r.applied, |Planned(c, r, settings)|)]
  }

  /** Another iteration follows when everything was carried out and the last transition asked for it. */
  predicate Continues(c: Config, r: Round, settings: Settings)
    requires c.key.Some?
  {
    var ts := Planned(c, r, settings);
    ts != [] && |ts| <= r.applied && ts[|ts| - 1].kind == Restart
  }

  /** The configurations the loop goes through. */
  function Visits(c: Config, rounds: seq<Round>, settings: Settings): seq<Config>
    requires c.key.Some?
    decreases |rounds|
  {
    if rounds == [] then []
    else
      var steps := Steps(c, Applied(c, rounds[0], settings), settings.minSync);
      if Continues(c, rounds[0], settings) then steps + Visits(Final(c, steps), rounds[1..], settings) else steps
  }

  lemma VisitsStep(c: Config, rounds: seq<Round>, settings: Settings)
    requires c.key.Some? && rounds != []
    ensures var steps := Steps(c, Applied(c, rounds[0], settings), settings.minSync);
            var rest := if Continues(c, rounds[0], settings) then Visits(Final(c, steps), rounds[1..], settings) else [];
            && Visits(c, rounds, settings) == steps + rest
            && (rest == [] ==> Visits(c, rounds, settings) == steps)
            && Final(c, Visits(c, rounds, settings)) == Final(Final(c, steps), rest)
  {}

  lemma VisitsNothing(c: Config, rounds: seq<Round>, settings: Settings)
    requires c.key.Some? && rounds == []
    ensures Visits(c, rounds, settings) == [] && Final(c, []) == c
  {}

  /** An empty key is first claimed by the primary, without voters. */
  function Enabled(c: Config): (d: Config)
    ensures d.key.Some?
  {
    c.(key := Some(Key(c.primary, 0, {})))
  }

  /** What a node does to the registers before it is promoted: keep the key and wait for the other members, or
      start from nothing. */
  function Prepromote(c: Config, me: Name, quorumMode: bool, minSync: int, written: bool): Option<Config> {
    if quorumMode && c.key.Some? then
      var key := c.key.value;
      var members := key.voters + {key.leader};
      var num := |members| - key.quorum - (if me in members then 1 else 0);
      Some(Config(c.key, SetNames(members - {me}, num), me))
    else if quorumMode then Some(Config(c.key, SetNames({}, minSync), me))
    else if !written then None
    else Some(Config(Some(Key(me, 0, {})), SetNames({}, minSync), me))
  }

  function Happens(c: Config, e: Event): seq<Config> {
    match e
    case Pass(enabled, rounds, settings) =>
      if c.key.Some? then Visits(c, rounds, settings)
      else if enabled then [Enabled(c)] + Visits(Enabled(c), rounds, settings)
      else []
    case Promote(me, quorumMode, minSync, written) =>
      var d := Prepromote(c, me, quorumMode, minSync, written);
      if d.Some? then [d.value] else []
  }

  /** All configurations of a run. */
  function Run(c: Config, events: seq<Event>): seq<Config>
    decreases |events|
  {
    if events == [] then []
    else
      var first := Happens(c, events[0]);
      first + Run(Final(c, first), events[1..])
  }

  /** A primary does not see itself among its standbys. */
  predicate Possible(c: Config, e: Event) {
    e.Pass? ==> forall r :: r in e.rounds ==> c.primary !in r.active
  }

  predicate AllPossible(c: Config, events: seq<Event>)
    decreases |events|
  {
    events != [] ==> Possible(c, events[0]) && AllPossible(Final(c, Happens(c, events[0])), events[1..])
  }

  predicate Consistent(c: Config) {
    && c.primary !in ListedNames(c.list)
    && (c.key.Some? ==> Guarded(View(c)))
  }

  /** Enough for a pass: counts in range, and nobody is its own standby. The invariant may be broken. */
  predicate Sane(c: Config) {
    && c.key.Some? && c.key.value.quorum >= 0 && c.key.value.leader !in c.key.value.voters
    && c.primary !in ListedNames(c.list)
  }

  // ---------------------------------------------------------------- one pass

  /** The real registers agree with the planned ones, except that the list may wait for more standbys. */
  predicate Tracks(c: Config, s: State) {
    && c.key == Some(Key(s.leader, s.quorum, s.voters)) && c.primary == s.leaderWanted
    && ListedNames(c.list) == s.sync && s.numsync <= View(c).numsync
  }

  lemma TracksGuarded(c: Config, s: State)
    requires Tracks(c, s) && Guarded(s)
    ensures Consistent(c)
  {
    assert Electorate(View(c)) == Electorate(s) && Holders(View(c)) == Holders(s);
  }

  lemma CarryTracks(c: Config, s: State, t: Transition, minSync: int)
    requires Tracks(c, s) && Write(s, t).numsync <= |Write(s, t).sync|
    ensures Tracks(Carry(c, t, minSync), Write(s, t))
  {}

  lemma ResolveStarts(c: Config, r: Round, settings: Settings)
    requires Sane(c) && c.primary !in r.active
    ensures Startable(Resolve(c, r, settings)) && Tracks(c, Resolve(c, r, settings))
  {}

  lemma {:induction false} RoundTracks(c: Config, r: Round, settings: Settings, n: nat)
    requires Sane(c) && c.primary !in r.active
    ensures n <= |Planned(c, r, settings)| ==>
              var ts := Planned(c, r, settings)[..n];
              && Tracks(CarryAll(c, ts, settings.minSync), WriteAll(Resolve(c, r, settings), ts))
              && (n > 0 ==> Consistent(CarryAll(c, ts, settings.minSync)))
  {
    hide Guarded, GenerateTransitions, Tracks, Iteration.Merge, Carry, Write, Resolve, View, Startable;
    var s := Resolve(c, r, settings);
    var ts := Planned(c, r, settings);
    ResolveStarts(c, r, settings);
    if 0 < n <= |ts| {
      RoundTracks(c, r, settings, n - 1);
      Iteration.MergedPassGuarded(s, n - 1);
      assert ts[..n][..n - 1] == ts[..n - 1];
      GuardedFits(WriteAll(s, ts[..n]));
      CarryTracks(CarryAll(c, ts[..n - 1], settings.minSync), WriteAll(s, ts[..n - 1]), ts[n - 1], settings.minSync);
      TracksGuarded(CarryAll(c, ts[..n], settings.minSync), WriteAll(s, ts[..n]));
    }
  }

  lemma GuardedFits(s: State)
    requires Guarded(s)
    ensures s.numsync <= |s.sync|
  {}

  lemma {:induction false} StepAt(c: Config, ts: seq<Transition>, minSync: int, k: nat)
    requires k < |ts|
    ensures Steps(c, ts, minSync)[k] == CarryAll(c, ts[..k + 1], minSync)
    decreases |ts|
  {
    if k == |ts| - 1 {
      assert ts[..k + 1] == ts;
    } else {
      StepAt(c, ts[..|ts| - 1], minSync, k);
      assert ts[..|ts| - 1][..k + 1] == ts[..k + 1];
    }
  }

  lemma {:induction false} CarryPrimary(c: Config, ts: seq<Transition>, minSync: int)
    ensures CarryAll(c, ts, minSync).primary == c.primary
  {
    if ts != [] {
      CarryPrimary(c, ts[..|ts| - 1], minSync);
    }
  }

  /** One iteration, cut short anywhere, from any sane configuration: whatever it started from, it is consistent
      after the first write and after every other. */
  lemma RoundRepairs(c: Config, r: Round, settings: Settings)
    requires Sane(c) && c.primary !in r.active
    ensures var steps := Steps(c, Applied(c, r, settings), settings.minSync);
            && (forall d :: d in steps ==> Consistent(d))
            && Final(c, steps).primary == c.primary
  {
    hide Consistent, Planned, Steps, CarryAll;
    var ts := Applied(c, r, settings);
    var steps := Steps(c, ts, settings.minSync);
    CarryPrimary(c, ts, settings.minSync);
    forall k | 0 <= k < |steps|
      ensures Consistent(steps[k])
    {
      StepAt(c, ts, settings.minSync, k);
      assert ts[..k + 1] == Planned(c, r, settings)[..k + 1];
      RoundTracks(c, r, settings, k + 1);
    }
  }

  lemma RoundConsistent(c: Config, r: Round, settings: Settings)
    requires Consistent(c) && c.key.Some? && c.primary !in r.active
    ensures var steps := Steps(c, Applied(c, r, settings), settings.minSync);
            && (forall d :: d in steps ==> Consistent(d))
            && Consistent(Final(c, steps)) && Final(c, steps).primary == c.primary
  {
    hide Planned, Steps, Applied;
    RoundRepairs(c, r, settings);
  }

  lemma {:induction false} VisitsConsistent(c: Config, rounds: seq<Round>, settings: Settings)
    requires Consistent(c) && c.key.Some?
    requires forall r :: r in rounds ==> c.primary !in r.active
    ensures forall d :: d in Visits(c, rounds, settings) ==> Consistent(d)
    ensures Consistent(Final(c, Visits(c, rounds, settings)))
    decreases |rounds|
  {
    hide Consistent, Applied, Steps;
    if rounds != [] {
      var steps := Steps(c, Applied(c, rounds[0], settings), settings.minSync);
      RoundConsistent(c, rounds[0], settings);
      if Continues(c, rounds[0], settings) {
        VisitsConsistent(Final(c, steps), rounds[1..], settings);
      }
    }
  }

  predicate HasList(ts: seq<Transition>) {
    exists t :: t in ts && t.kind == Sync
  }

  lemma HasListLast(ts: seq<Transition>, t: Transition)
    ensures HasList(ts + [t]) <==> HasList(ts) || t.kind == Sync
  {
    assert t in ts + [t];
    assert forall u :: u in ts ==> u in ts + [t];
  }

  /** The list that is written is the planned one: the same names, and the planned number of them, or the required minimum
      if that is more. Nothing else raises the number. */
  lemma {:induction false} CarriedList(c: Config, s: State, ts: seq<Transition>, minSync: int)
    ensures var d, w := CarryAll(c, ts, minSync), WriteAll(s, ts);
            if HasList(ts)
            then ListedNames(d.list) == w.sync && d.list.num == Max(w.numsync, minSync)
                 && (d.list.Star? <==> w.sync == {} && d.list.num >= 1)
            else d.list == c.list && w.sync == s.sync && w.numsync == s.numsync
    decreases |ts|
  {
    if ts != [] {
      var front, t := ts[..|ts| - 1], ts[|ts| - 1];
      CarriedList(c, s, front, minSync);
      assert ts == front + [t];
      HasListLast(front, t);
    }
  }

  /** After any number of the planned transitions the list waits for the planned number, raised at most to the minimum. */
  lemma PlannedNumber(c: Config, r: Round, settings: Settings, n: nat)
    requires c.key.Some?
    ensures n <= |Planned(c, r, settings)| ==>
              var ts := Planned(c, r, settings)[..n];
              var d := CarryAll(c, ts, settings.minSync);
              d.list == c.list || d.list.num == Max(WriteAll(Resolve(c, r, settings), ts).numsync, settings.minSync)
  {
    hide Planned, CarryAll, WriteAll, Resolve;
    if n <= |Planned(c, r, settings)| {
      CarriedList(c, Resolve(c, r, settings), Planned(c, r, settings)[..n], settings.minSync);
    }
  }

  // ---------------------------------------------------------------- changes of the primary

  /** The registers before a promotion: under quorum commit the key stays and all its other members are listed, the quorum and
      the number to wait for making up their number; without a key nobody is listed; and without quorum commit the key is
      the new primary's own, if it can be written. Where nobody is listed, `*` stands for the required minimum. */
  lemma PrepromoteExact(c: Config, me: Name, quorumMode: bool, minSync: int, written: bool)
    ensures var o := Prepromote(c, me, quorumMode, minSync, written);
            && (o.None? <==> !quorumMode && !written)
            && (o.Some? ==> o.value.primary == me)
            && (o.Some? ==> o.value.key == if quorumMode then c.key else Some(Key(me, 0, {})))
            && (quorumMode && c.key.Some? ==>
                  var others := (c.key.value.voters + {c.key.value.leader}) - {me};
                  ListedNames(o.value.list) == others && o.value.list.num + c.key.value.quorum == |others|
                  && (others != {} ==> o.value.list.Listed?))
            && (o.Some? && !(quorumMode && c.key.Some?) ==>
                  o.value.list == if minSync >= 1 then Star(minSync) else Listed(minSync, {}))
  {
    if quorumMode && c.key.Some? {
      KeptMembers(c.key.value.voters + {c.key.value.leader}, me);
    }
  }

  lemma KeptMembers(members: set<Name>, me: Name)
    ensures members + {me} == (members - {me}) + {me}
    ensures |members + {me}| == |members - {me}| + 1
    ensures |members| == |members - {me}| + (if me in members then 1 else 0)
  {
    DisjointCard(members - {me}, {me});
    if me in members {
      DiffCard({me}, members);
    } else {
      assert members - {me} == members;
    }
  }

  /** The list of all other members fits the key. */
  lemma MembersFit(s: State)
    requires s.quorum >= 0 && s.leader !in s.voters && s.leaderWanted !in s.sync
    requires s.sync == Electorate(s) - {s.leaderWanted} && s.numsync == Min(|s.sync| - s.quorum, |s.sync|)
    ensures Guarded(s)
  {
    KeptMembers(Electorate(s), s.leaderWanted);
    assert Electorate(s) + Holders(s) == Electorate(s) + {s.leaderWanted} == Holders(s);
  }

  /** Hand-over keeps the overlap across leaders: the list written before the promotion fits the unchanged key
      of the old leader, whether the new one was a voter or not. */
  lemma PrepromoteConsistent(c: Config, me: Name, quorumMode: bool, minSync: int, written: bool)
    requires Consistent(c)
    requires Prepromote(c, me, quorumMode, minSync, written).Some?
    ensures Consistent(Prepromote(c, me, quorumMode, minSync, written).value)
  {
    hide Invariant, FewEnough;
    var d := Prepromote(c, me, quorumMode, minSync, written).value;
    if quorumMode && c.key.Some? {
      KeptMembers(Electorate(View(c)), me);
      MembersFit(View(d));
    } else if !quorumMode {
      ResetFits(View(d));
    }
  }

  /** So does any list where the key names the primary alone. */
  lemma ResetFits(s: State)
    requires s.quorum == 0 && s.voters == {} && s.leader == s.leaderWanted && s.sync == {} && s.numsync <= 0
    ensures Guarded(s)
  {}

  /** A node that won on votes leaves room for a list PostgreSQL accepts: it waits for no negative number. */
  lemma WinnerWaits(c: Config, contest: Contest, statuses: seq<MemberStatus>)
    requires Consistent(c) && c.key.Some?
    requires Reads(contest, View(c)) && Answers(contest, statuses) && WinsVotes(contest, statuses)
    ensures var list := Prepromote(c, contest.me, true, 0, true).value.list;
            0 <= list.num <= |ListedNames(list)|
  {
    var members := Electorate(View(c));
    var supporters := Supporters(contest, statuses);
    assert supporters <= members - {contest.me};
    SubsetCard(supporters, members - {contest.me});
  }

  // ---------------------------------------------------------------- whole runs

  lemma EventConsistent(c: Config, e: Event)
    requires Consistent(c) && Possible(c, e)
    ensures forall d :: d in Happens(c, e) ==> Consistent(d)
    ensures Consistent(Final(c, Happens(c, e)))
  {
    hide Visits, Prepromote;
    match e
    case Pass(enabled, rounds, settings) =>
      if c.key.Some? {
        VisitsConsistent(c, rounds, settings);
      } else if enabled {
        VisitsConsistent(Enabled(c), rounds, settings);
      }
    case Promote(me, quorumMode, minSync, written) =>
      if Prepromote(c, me, quorumMode, minSync, written).Some? {
        PrepromoteConsistent(c, me, quorumMode, minSync, written);
      }
  }

  lemma {:induction false} RunConsistent(c: Config, events: seq<Event>)
    requires Consistent(c) && AllPossible(c, events)
    ensures forall d :: d in Run(c, events) ==> Consistent(d)
    decreases |events|
  {
    hide Consistent, Happens;
    if events != [] {
      EventConsistent(c, events[0]);
      RunConsistent(Final(c, Happens(c, events[0])), events[1..]);
    }
  }

  /** The nodes known to hold a position that PostgreSQL acknowledged under this configuration. */
  predicate Acked(c: Config, holders: set<Name>) {
    && c.primary in holders
    && match c.list
       case Listed(num, names) => |holders * names| >= num
       case Star(num) => |holders - {c.primary}| >= num
  }

  /** Whatever the resolver asks for, a list that was written waits for the required minimum of standbys: nothing is
      acknowledged with fewer. */
  lemma MinimumKept(c: Config, t: Transition, minSync: int, holders: set<Name>)
    requires t.kind == Sync && c.primary !in t.names
    requires Acked(Carry(c, t, minSync), holders)
    ensures |holders - {c.primary}| >= minSync
  {
    SubsetCard(holders * t.names, holders - {c.primary});
  }

  /** In every configuration of every run, with any number of interrupted passes and changes of the primary, a
      node that wins the race on votes holds each position acknowledged under that configuration. */
  lemma NoCommitLost(c: Config, events: seq<Event>, d: Config, contest: Contest, statuses: seq<MemberStatus>,
                     holders: set<Name>, position: int)
    requires Consistent(c) && AllPossible(c, events)
    ensures (&& d in Run(c, events) && d.key.Some?
             && Reads(contest, View(d)) && Answers(contest, statuses) && WinsVotes(contest, statuses)
             && Acked(d, holders) && Truthful(contest, statuses, holders, position))
            ==> contest.wal >= position
  {
    hide Run, AllPossible, Answers, WinsVotes, Truthful;
    RunConsistent(c, events);
    if && d in Run(c, events) && d.key.Some?
       && Reads(contest, View(d)) && Answers(contest, statuses) && WinsVotes(contest, statuses)
       && Acked(d, holders) && Truthful(contest, statuses, holders, position) {
      AckedAcknowledges(d, holders);
      VotesHoldCommits(View(d), contest, statuses, holders, position);
    }
  }

  /** What PostgreSQL acknowledges under a consistent configuration, the registers count as acknowledged. */
  lemma AckedAcknowledges(d: Config, holders: set<Name>)
    requires Consistent(d) && d.key.Some? && Acked(d, holders)
    ensures Guarded(View(d)) && Acknowledges(View(d), holders)
  {}

  // ---------------------------------------------------------------- the loop itself

  class Ha {
    var key: Option<Key>
    var list: StandbyList
    var primary: Name
    ghost var history: seq<Config>

    ghost function Current(): Config
      reads this
    {
      Config(key, list, primary)
    }

    constructor (key: Option<Key>, list: StandbyList, primary: Name)
      ensures Current() == Config(key, list, primary) && history == []
    {
      this.key, this.list, this.primary, this.history := key, list, primary, [];
    }

    method CarryOut(t: Transition, minSync: int)
      modifies this
      ensures Current() == Carry(old(Current()), t, minSync)
      ensures history == old(history) + [Current()]
    {
      if t.kind == Quorum {
        key := Some(Key(t.leader, t.num, t.names));
      } else if t.kind == Sync {
        var num := t.num;
        if num < minSync {
          num := minSync;
        }
        list := SetNames(t.names, num);
      }
      history := history + [Current()];
    }

    method ResolveHere(r: Round, settings: Settings) returns (ts: seq<Transition>)
      requires key.Some?
      ensures ts == Planned(Current(), r, settings)
    {
      hide GenerateTransitions, Iteration.Merge;
      var names := if list.Star? then {} else list.names;
      var resolver := new Resolver.QuorumStateResolver(
        key.value.leader, key.value.quorum, key.value.voters, list.num, names,
        r.confirmed, r.active, settings.wanted, primary);
      var status := resolver.Generate();
      ts := [];
      if status.Success? {
        ts := Iteration.Iterate(resolver.trace);
      }
    }

    /** One iteration; `again` tells whether the last transition carried out was a hint to restart. */
    method CarryOutAll(r: Round, settings: Settings) returns (again: bool)
      requires key.Some?
      modifies this
      ensures key.Some?
      ensures again == old(Continues(Current(), r, settings))
      ensures var steps := old(Steps(Current(), Applied(Current(), r, settings), settings.minSync));
              history == old(history) + steps && Current() == Final(old(Current()), steps)
    {
      hide Planned;
      var ts := ResolveHere(r, settings);
      again := false;
      ghost var c, before := Current(), history;
      var i := 0;
      while i < |ts|
        invariant i <= |ts| && i <= r.applied
        invariant again == (i > 0 && ts[i - 1].kind == Restart)
        invariant Current() == CarryAll(c, ts[..i], settings.minSync)
        invariant history == before + Steps(c, ts[..i], settings.minSync)
      {
        if i == r.applied {
          return false;
        }
        CarryOut(ts[i], settings.minSync);
        again := ts[i].kind == Restart;
        i := i + 1;
        assert ts[..i][..i - 1] == ts[..i - 1];
      }
      assert ts[..i] == ts;
    }

    /** The loop refines `Visits`: each write is one configuration of the history. */
    method Loop(rounds: seq<Round>, settings: Settings)
      requires key.Some?
      modifies this
      ensures history == old(history) + old(Visits(Current(), rounds, settings))
      ensures Current() == Final(old(Current()), old(Visits(Current(), rounds, settings)))
    {
      hide Visits, Applied, Continues, Steps, Final;
      ghost var c, before := Current(), history;
      var i := 0;
      while i < |rounds|
        invariant i <= |rounds| && key.Some?
        invariant history + Visits(Current(), rounds[i..], settings) == before + Visits(c, rounds, settings)
        invariant Final(Current(), Visits(Current(), rounds[i..], settings)) == Final(c, Visits(c, rounds, settings))
      {
        ghost var last, written := Current(), history;
        VisitsStep(last, rounds[i..], settings);
        assert rounds[i..][1..] == rounds[i + 1..];
        var again := CarryOutAll(rounds[i], settings);
        if !again {
          return;
        }
        i := i + 1;
      }
      VisitsNothing(Current(), rounds[i..], settings);
    }

    method ProcessQuorumReplication(enabled: bool, rounds: seq<Round>, settings: Settings)
      modifies this
      ensures history == old(history) + old(Happens(Current(), Pass(enabled, rounds, settings)))
      ensures Current() == Final(old(Current()), old(Happens(Current(), Pass(enabled, rounds, settings))))
    {
      hide Visits;
      if key == None {
        if !enabled {
          return;
        }
        key := Some(Key(primary, 0, {}));
        history := history + [Current()];
      }
      Loop(rounds, settings);
    }

    method ProcessPrepromote(me: Name, quorumMode: bool, minSync: int, written: bool) returns (ok: bool)
      modifies this
      ensures var d := old(Prepromote(Current(), me, quorumMode, minSync, written));
              ok == d.Some? && Current() == (if ok then d.value else old(Current()))
    {
      var sync: set<Name> := {};
      var num := minSync;
      if quorumMode && key.Some? {
        sync := key.value.voters + {key.value.leader};
        num := |sync| - key.value.quorum - 1;
        if me !in sync {
          num := num + 1;
        } else {
          sync := sync - {me};
        }
        assert me !in old(key.value.voters + {key.value.leader}) ==> sync - {me} == sync;
      }
      if !quorumMode {
        if !written {
          return false;
        }
        key := Some(Key(me, 0, {}));
      }
      list := SetNames(sync, num);
      primary := me;
      ok := true;
    }
  }
}
