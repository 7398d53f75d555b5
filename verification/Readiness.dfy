/**
 * When a standby counts as synchronous: after the list changed, only once it has caught up with where the primary was.
 * With that, the nodes of the key hold everything that was acknowledged before, under whatever list.
 */
module Readiness {
  import opened Names
  import opened HaLoop
  import opened MultiSync

  /** One row of `pg_stat_replication`. */
  datatype Replica = Replica(name: Name, synced: bool, lsn: int)

  /** What is remembered between two looks: the list, the primary's position when the list was noticed, and the nodes
      that have been seen to reach it. */
  datatype Memory = Memory(list: StandbyList, marker: int, ready: set<Name>)

  /** What one pass sees: the candidates, the rows at its first look, the primary's position after the list was set, and
      the rows at its second look. */
  datatype Look = Look(
    active: set<Name>, before: seq<Replica>, flushed: int, after: seq<Replica>, strict: bool,
    enable: bool, claim: bool, align: bool, shrink: bool, grow: bool)

  function Noticed(m: Memory, list: StandbyList, position: int): Memory {
    if list == m.list then m else Memory(list, position, m.ready * ListedNames(list))
  }

  predicate CaughtUp(m: Memory, voters: set<Name>, r: Replica) {
    r.name in ListedNames(m.list) && (r.name in voters || (r.synced && r.lsn >= m.marker))
  }

  /** Listed nodes are ready once the key names them or they have reached the position. */
  function Readied(m: Memory, voters: set<Name>, rows: seq<Replica>): Memory {
    m.(ready := m.ready + set r | r in rows && CaughtUp(m, voters, r) :: r.name)
  }

  function Confirmed(m: Memory, active: set<Name>, rows: seq<Replica>): set<Name> {
    set r | r in rows && r.synced && r.name in active && r.name in m.ready :: r.name
  }

  /** The list a pass sets. */
  function Wanted(l: Look): StandbyList {
    if l.strict && l.active == {} then Star(1) else Listed(|l.active|, l.active)
  }

  function FirstLook(c: Config, m: Memory, l: Look): Memory {
    Readied(m, Voters(c), l.before)
  }

  function AfterSetting(c: Config, m: Memory, l: Look): Memory {
    Noticed(FirstLook(c, m, l), Wanted(l), l.flushed)
  }

  /** The second look still goes by the key that was read when the pass began. */
  function SecondLook(c: Config, m: Memory, l: Look): Memory {
    Readied(AfterSetting(c, m, l), Voters(c), l.after)
  }

  /** The sets the pass works with. */
  function Observe(c: Config, m: Memory, l: Look): Observed {
    Observed(l.active, Confirmed(FirstLook(c, m, l), l.active, l.before),
             Confirmed(SecondLook(c, m, l), l.active, l.after), l.strict, l.enable, l.claim, l.align, l.shrink, l.grow)
  }

  /** The pass up to the setting of the list. */
  function KeySettled(c: Config, o: Observed): Progress {
    Shrink(Rest(Align(Claim(Enable(Progress(c, [], true), o), o), o), o), o)
  }

  /** What is remembered after the pass. */
  function Remembered(c: Config, m: Memory, l: Look): Memory {
    var o := Observe(c, m, l);
    if !KeySettled(c, o).going then FirstLook(c, m, l)
    else if o.active != {} && o.confirmed != o.active then SecondLook(c, m, l)
    else AfterSetting(c, m, l)
  }

  predicate InStep(c: Config, m: Memory) {
    Ordered(c) && WaitsForAll(c) && m.list == c.list && m.ready <= ListedNames(c.list)
  }

  /** Nobody is confirmed that is not listed: the observations are plausible. */
  lemma ObservePlausible(c: Config, m: Memory, l: Look)
    requires InStep(c, m)
    ensures Plausible(c, Observe(c, m, l))
  {}

  // ---------------------------------------------------------------- who is confirmed

  /** A row of this node that is reported synchronous. */
  predicate Synced(rows: seq<Replica>, name: Name) {
    exists r :: r in rows && r.name == name && r.synced
  }

  /** One of them beyond a position. */
  predicate SyncedBeyond(rows: seq<Replica>, name: Name, position: int) {
    exists r :: r in rows && r.name == name && r.synced && r.lsn >= position
  }

  /** At the first look exactly those candidates are confirmed that are listed, synchronous now, and in the key, known to be
      ready, or beyond the position remembered with the list. */
  lemma FirstConfirmed(c: Config, m: Memory, l: Look, name: Name)
    requires InStep(c, m)
    ensures name in Observe(c, m, l).confirmed <==>
              && name in l.active && name in ListedNames(c.list) && Synced(l.before, name)
              && (name in Voters(c) || name in m.ready || SyncedBeyond(l.before, name, m.marker))
  {
    var f := FirstLook(c, m, l);
    ReadyExact(m, Voters(c), l.before, name);
    if Synced(l.before, name) {
      var r :| r in l.before && r.name == name && r.synced;
    }
  }

  lemma ReadyExact(m: Memory, voters: set<Name>, rows: seq<Replica>, name: Name)
    ensures name in Readied(m, voters, rows).ready <==>
              name in m.ready || (name in ListedNames(m.list) && (exists r :: r in rows && r.name == name)
                                  && (name in voters || SyncedBeyond(rows, name, m.marker)))
  {
    if name in ListedNames(m.list) {
      if r :| r in rows && r.name == name && name in voters {
        assert CaughtUp(m, voters, r);
      } else if r :| r in rows && r.name == name && r.synced && r.lsn >= m.marker {
        assert CaughtUp(m, voters, r);
      }
    }
  }

  /** At the second look the position is that of the new list, if the list has changed. */
  lemma SecondConfirmed(c: Config, m: Memory, l: Look, name: Name)
    requires InStep(c, m)
    ensures name in Observe(c, m, l).confirmedLater <==>
              && name in l.active && Synced(l.after, name)
              && (name in Voters(c) || name in FirstLook(c, m, l).ready
                  || SyncedBeyond(l.after, name, if Wanted(l) == c.list then m.marker else l.flushed))
  {
    var s := AfterSetting(c, m, l);
    WantedNames(l);
    ReadyExact(s, Voters(c), l.after, name);
    ReadyExact(m, Voters(c), l.before, name);
    if Synced(l.after, name) {
      var r :| r in l.after && r.name == name && r.synced;
    }
  }

  lemma WantedNames(l: Look)
    ensures ListedNames(Wanted(l)) == l.active
  {}

  /** A ready node that stays a candidate stays ready. */
  lemma StaysReady(c: Config, m: Memory, l: Look, name: Name)
    requires InStep(c, m) && name in m.ready && name in l.active
    ensures name in Remembered(c, m, l).ready
  {
    hide KeySettled, Observe;
    WantedNames(l);
  }

  /** A standby of the primary's own key that stays a candidate and is synchronous at both looks is in every key the pass
      writes, wherever the pass ends, however far it is behind a new position. */
  lemma StaysInKey(c: Config, m: Memory, l: Look, name: Name)
    requires InStep(c, m) && c.key.Some? && c.key.value.leader == c.primary && name in Voters(c)
    requires name in l.active && Synced(l.before, name) && Synced(l.after, name)
    ensures forall d :: d in Process(c, Observe(c, m, l)).written ==> name in Voters(d)
    ensures name in Voters(Process(c, Observe(c, m, l)).at)
  {
    hide Observe;
    FirstConfirmed(c, m, l, name);
    SecondConfirmed(c, m, l, name);
    assert Observe(c, m, l).active == l.active by {
      ObservedActive(c, m, l);
    }
    KeepsInKey(c, Observe(c, m, l), name);
  }

  lemma ObservedActive(c: Config, m: Memory, l: Look)
    ensures Observe(c, m, l).active == l.active
  {}

  lemma KeepsInKey(c: Config, o: Observed, name: Name)
    requires c.key.Some? && c.key.value.leader == c.primary && name in Voters(c)
    requires name in o.confirmed && name in o.confirmedLater
    ensures forall d :: d in Process(c, o).written ==> name in Voters(d)
    ensures name in Voters(Process(c, o).at)
  {
    hide ListedNames, KeyHas, WriteKey, Allowed;
    var start := Progress(c, [], true);
    StartHas(c, name);
    var aligned := Align(start, o);
    WriteHas(start, name, o.confirmed, o.align);
    var rested := Rest(aligned, o);
    RestHas(aligned, o, name);
    WriteHas(rested, name, Voters(rested.at) * o.confirmed, o.shrink);
    var relisted := Relist(Shrink(rested, o), o);
    ListHas(Shrink(rested, o), o, name);
    assert name in Allowed(o) by {
      AllowedHas(o, name);
    }
    WriteHas(relisted, name, Allowed(o), o.grow);
    ProcessOwn(c, o);
    HasForms(Process(c, o), name);
  }

  predicate KeyHas(p: Progress, name: Name) {
    name in Voters(p.at) && forall d :: d in p.written ==> name in Voters(d)
  }

  lemma StartHas(c: Config, name: Name)
    requires name in Voters(c)
    ensures KeyHas(Progress(c, [], true), name)
  {}

  lemma WriteHas(p: Progress, name: Name, voters: set<Name>, succeeds: bool)
    requires KeyHas(p, name)
    ensures name in voters ==> KeyHas(WriteKey(p, voters, succeeds), name)
    ensures name in Voters(p.at)
  {}

  lemma RestHas(p: Progress, o: Observed, name: Name)
    requires KeyHas(p, name)
    ensures KeyHas(Rest(p, o), name)
  {}

  lemma ListHas(p: Progress, o: Observed, name: Name)
    requires KeyHas(p, name)
    ensures KeyHas(Relist(p, o), name)
  {}

  lemma AllowedHas(o: Observed, name: Name)
    requires name in o.confirmed && name in o.confirmedLater
    ensures name in Allowed(o)
  {}

  lemma HasForms(p: Progress, name: Name)
    requires KeyHas(p, name)
    ensures name in Voters(p.at) && forall d :: d in p.written ==> name in Voters(d)
  {}

  lemma ProcessOwn(c: Config, o: Observed)
    requires c.key.Some? && c.key.value.leader == c.primary
    ensures Process(c, o) == Grow(Relist(Shrink(Rest(Align(Progress(c, [], true), o), o), o), o), o)
  {
    hide Align, Rest, Shrink, Relist, Grow;
  }

  /** The other way in: a candidate that the second look sees synchronous and beyond the position is in the key when a pass
      without failed writes has ended. */
  lemma JoinsKey(c: Config, m: Memory, l: Look, name: Name)
    requires InStep(c, m) && l.enable && l.claim && l.align && l.shrink && l.grow
    requires name in l.active && SyncedBeyond(l.after, name, if Wanted(l) == c.list then m.marker else l.flushed)
    ensures name in Voters(Process(c, Observe(c, m, l)).at)
  {
    hide Observe, Process;
    SecondConfirmed(c, m, l, name);
    ObservedWrites(c, m, l);
    ProcessEnds(c, Observe(c, m, l));
  }

  lemma ObservedWrites(c: Config, m: Memory, l: Look)
    ensures var o := Observe(c, m, l);
            && o.active == l.active && o.enable == l.enable && o.claim == l.claim && o.align == l.align
            && o.shrink == l.shrink && o.grow == l.grow
  {}

  // ---------------------------------------------------------------- positions over time

  /** Where each node is at the end of each moment; a moment lasts from one write to the next. */
  type Timeline = (nat, Name) -> int

  ghost predicate Growing(at: Timeline) {
    forall t: nat, n :: at(t, n) <= at(t + 1, n)
  }

  /** A position is acknowledged under this configuration by the end of the moment. */
  ghost predicate AckedAt(c: Config, at: Timeline, t: nat, position: int) {
    && at(t, c.primary) >= position
    && (c.list.Listed? ==> |set n | n in c.list.names && at(t, n) >= position| >= c.list.num)
  }

  ghost predicate Holds(nodes: set<Name>, at: Timeline, t: nat, position: int) {
    forall n :: n in nodes ==> at(t, n) >= position
  }

  /** A moment: the configuration in force, the marker, and the nodes that may be in the key or join it. */
  datatype Moment = Moment(config: Config, marker: int, trusted: set<Name>)

  predicate Sorted(m: Moment) {
    Voters(m.config) <= m.trusted <= ListedNames(m.config.list) && WaitsForAll(m.config)
  }

  /** From one moment to the next: a new list is marked with a position the primary had not passed before, and only listed
      nodes that have reached the marker become trusted. */
  ghost predicate Linked(m: Moment, n: Moment, at: Timeline, t: nat) {
    && n.config.primary == m.config.primary
    && (if n.config.list == m.config.list then n.marker == m.marker else n.marker >= at(t, m.config.primary))
    && forall x :: x in n.trusted ==> x in m.trusted || (x in ListedNames(m.config.list) && at(t, x) >= m.marker)
  }

  ghost predicate Chained(ms: seq<Moment>, at: Timeline, t: nat) {
    && (forall k :: 0 <= k < |ms| ==> Sorted(ms[k]))
    && (forall k :: 0 <= k < |ms| - 1 ==> Linked(ms[k], ms[k + 1], at, t + k))
  }

  /** Every trusted node holds the position, and so does every listed one, unless the marker is beyond it. */
  ghost predicate Outlives(m: Moment, at: Timeline, t: nat, position: int) {
    && at(t, m.config.primary) >= position
    && Holds(m.trusted, at, t, position)
    && (m.marker >= position || Holds(ListedNames(m.config.list), at, t, position))
  }

  lemma AckedOutlives(m: Moment, at: Timeline, t: nat, position: int)
    requires Sorted(m) && AckedAt(m.config, at, t, position)
    ensures Outlives(m, at, t, position)
  {
    if m.config.list.Listed? {
      var names := m.config.list.names;
      var held := set n | n in names && at(t, n) >= position;
      SubsetCard(held, names);
    }
  }

  lemma OutlivesNext(m: Moment, n: Moment, at: Timeline, t: nat, position: int)
    requires Growing(at) && Sorted(m) && Sorted(n) && Linked(m, n, at, t) && Outlives(m, at, t, position)
    ensures Outlives(n, at, t + 1, position)
  {
    forall x
      ensures at(t, x) <= at(t + 1, x)
    {}
  }

  /** What was acknowledged at one moment is held by the trusted nodes at every later one. */
  lemma {:induction false} ChainHolds(ms: seq<Moment>, at: Timeline, t: nat, i: nat, j: nat, position: int)
    requires Growing(at) && Chained(ms, at, t) && i <= j < |ms|
    requires AckedAt(ms[i].config, at, t + i, position)
    ensures Outlives(ms[j], at, t + j, position)
    decreases j - i
  {
    hide Growing, Sorted, Linked, AckedAt, Outlives;
    if i == j {
      AckedOutlives(ms[i], at, t + i, position);
    } else {
      ChainHolds(ms, at, t, i, j - 1, position);
      assert Linked(ms[j - 1], ms[j - 1 + 1], at, t + (j - 1));
      OutlivesNext(ms[j - 1], ms[j], at, t + j - 1, position);
    }
  }

  lemma ChainJoin(m: Moment, xs: seq<Moment>, ys: seq<Moment>, at: Timeline, t: nat)
    requires Chained([m] + xs, at, t)
    requires Chained([([m] + xs)[|xs|]] + ys, at, t + |xs|)
    ensures Chained([m] + (xs + ys), at, t)
  {
    hide Sorted, Linked;
    var ms, last := [m] + (xs + ys), [([m] + xs)[|xs|]] + ys;
    assert forall k :: 0 <= k <= |xs| ==> ms[k] == ([m] + xs)[k];
    assert forall k :: 0 <= k <= |ys| ==> ms[|xs| + k] == last[k];
    forall k | 0 <= k < |ms|
      ensures Sorted(ms[k])
      ensures k < |ms| - 1 ==> Linked(ms[k], ms[k + 1], at, t + k)
    {
      if k < |xs| {
        assert ms[k + 1] == ([m] + xs)[k + 1];
      } else {
        assert ms[k] == last[k - |xs|];
        assert k < |ms| - 1 ==> Linked(last[k - |xs|], last[k - |xs| + 1], at, t + |xs| + (k - |xs|));
      }
    }
  }

  // ---------------------------------------------------------------- the moments of a pass

  function Same(ds: seq<Config>, marker: int, trusted: set<Name>): (ms: seq<Moment>)
    ensures |ms| == |ds| && forall k :: 0 <= k < |ms| ==> ms[k] == Moment(ds[k], marker, trusted)
  {
    if ds == [] then [] else Same(ds[..|ds| - 1], marker, trusted) + [Moment(ds[|ds| - 1], marker, trusted)]
  }

  function TrustedFirst(c: Config, m: Memory, l: Look): set<Name> {
    Voters(c) + FirstLook(c, m, l).ready
  }

  function TrustedSet(c: Config, m: Memory, l: Look): set<Name> {
    TrustedFirst(c, m, l) * ListedNames(Wanted(l))
  }

  /** The moments that begin once the list has been set. */
  function SetMoments(c: Config, m: Memory, l: Look): seq<Moment> {
    var o := Observe(c, m, l);
    var q := Relist(KeySettled(c, o), o);
    [SetMoment(c, m, l)] + (if Grow(q, o).written == q.written then [] else [GrownMoment(c, m, l)])
  }

  function Moments(c: Config, m: Memory, l: Look): seq<Moment> {
    var p := KeySettled(c, Observe(c, m, l));
    Same(p.written, m.marker, TrustedFirst(c, m, l)) + (if p.going then SetMoments(c, m, l) else [])
  }

  /** The rows of each look show positions the nodes have reached by then, and the marker is no less than what the primary
      had reached under the list before. */
  ghost predicate Timely(c: Config, m: Memory, l: Look, at: Timeline, t: nat) {
    var now := t + |KeySettled(c, Observe(c, m, l)).written|;
    && (forall r :: r in l.before ==> r.lsn <= at(t, r.name))
    && l.flushed >= at(now, c.primary)
    && (forall r :: r in l.after ==> r.lsn <= at(now + 1, r.name))
  }

  /** The memory goes with the moment: a ready node is trusted, or has reached the marker. */
  ghost predicate Fits(p: Moment, m: Memory, at: Timeline, t: nat) {
    && Sorted(p) && p.marker == m.marker && p.config.list == m.list && m.ready <= ListedNames(m.list)
    && forall x :: x in m.ready ==> x in p.trusted || at(t, x) >= m.marker
  }

  lemma FirstLookForms(c: Config, m: Memory, l: Look)
    requires InStep(c, m)
    ensures var f := FirstLook(c, m, l);
            && f.list == c.list && f.marker == m.marker && f.ready <= ListedNames(c.list)
            && Confirmed(f, l.active, l.before) <= f.ready * l.active
  {}

  /** A part of the pass that leaves the list alone and names trusted nodes only. */
  predicate Untouched(p: Progress, c: Config, trusted: set<Name>) {
    && p.at.list == c.list && p.at.primary == c.primary && Voters(p.at) <= trusted
    && (forall d :: d in p.written ==> d.list == c.list && d.primary == c.primary && Voters(d) <= trusted)
    && (if p.written == [] then p.at == c else p.at == p.written[|p.written| - 1])
  }

  lemma KeyUntouched(p: Progress, c: Config, trusted: set<Name>, voters: set<Name>, succeeds: bool)
    requires Untouched(p, c, trusted) && voters <= trusted
    ensures Untouched(WriteKey(p, voters, succeeds), c, trusted)
  {}

  /** Until the list is set, the key names trusted nodes only. */
  lemma KeyTrusted(c: Config, o: Observed, trusted: set<Name>)
    requires Ordered(c) && WaitsForAll(c) && Plausible(c, o) && Voters(c) <= trusted && o.confirmed <= trusted
    ensures Untouched(KeySettled(c, o), c, trusted)
    ensures var p := KeySettled(c, o); p.going ==> Voters(p.at) <= o.active
  {
    hide Untouched, ListedNames, WriteKey;
    BeforeListing(c, o);
    var start := Progress(c, [], true);
    assert Untouched(start, c, trusted) by {
      StartUntouched(c, trusted);
    }
    KeyUntouched(start, c, trusted, {}, o.enable);
    var enabled := Enable(start, o);
    KeyUntouched(enabled, c, trusted, {}, o.claim);
    var claimed := Claim(enabled, o);
    KeyUntouched(claimed, c, trusted, o.confirmed, o.align);
    var rested := Rest(Align(claimed, o), o);
    RestUntouched(Align(claimed, o), o, c, trusted);
    KeyUntouched(rested, c, trusted, Voters(rested.at) * o.confirmed, o.shrink);
  }

  lemma StartUntouched(c: Config, trusted: set<Name>)
    requires Voters(c) <= trusted
    ensures Untouched(Progress(c, [], true), c, trusted)
  {}

  lemma RestUntouched(p: Progress, o: Observed, c: Config, trusted: set<Name>)
    requires Untouched(p, c, trusted)
    ensures Untouched(Rest(p, o), c, trusted)
  {}

  /** The first look adds nodes that the key names or that have reached the marker. */
  lemma FirstTrusted(p: Moment, c: Config, m: Memory, l: Look, at: Timeline, t: nat)
    requires InStep(c, m) && p.config == c && Fits(p, m, at, t) && Timely(c, m, l, at, t)
    ensures forall x :: x in TrustedFirst(c, m, l) ==> x in p.trusted || (x in ListedNames(c.list) && at(t, x) >= m.marker)
    ensures TrustedFirst(c, m, l) <= ListedNames(c.list)
  {
    forall x | x in TrustedFirst(c, m, l)
      ensures x in p.trusted || (x in ListedNames(c.list) && at(t, x) >= m.marker)
    {
      if x !in Voters(c) && x !in m.ready {
        var r :| r in l.before && CaughtUp(m, Voters(c), r) && r.name == x;
      }
    }
  }

  /** The moments before the list is set. */
  lemma KeyChained(p: Moment, c: Config, m: Memory, l: Look, at: Timeline, t: nat)
    requires InStep(c, m) && p.config == c && Fits(p, m, at, t) && Timely(c, m, l, at, t)
    ensures Chained([p] + Same(KeySettled(c, Observe(c, m, l)).written, m.marker, TrustedFirst(c, m, l)), at, t)
  {
    hide KeySettled, Observe, FirstLook, TrustedFirst, Timely;
    var o := Observe(c, m, l);
    var trusted := TrustedFirst(c, m, l);
    ObservePlausible(c, m, l);
    ConfirmedTrusted(c, m, l);
    FirstNames(c, m, l);
    KeyTrusted(c, o, trusted);
    FirstTrusted(p, c, m, l, at, t);
    SameChained(p, KeySettled(c, o).written, trusted, at, t);
  }

  lemma FirstNames(c: Config, m: Memory, l: Look)
    ensures Voters(c) <= TrustedFirst(c, m, l)
  {}

  /** Writes of the key alone. */
  lemma SameChained(p: Moment, ds: seq<Config>, trusted: set<Name>, at: Timeline, t: nat)
    requires Sorted(p) && trusted <= ListedNames(p.config.list)
    requires forall d :: d in ds ==> d.list == p.config.list && d.primary == p.config.primary && Voters(d) <= trusted
    requires forall x :: x in trusted ==> x in p.trusted || (x in ListedNames(p.config.list) && at(t, x) >= p.marker)
    ensures Chained([p] + Same(ds, p.marker, trusted), at, t)
  {
    hide ListedNames, Voters;
    var ms := [p] + Same(ds, p.marker, trusted);
    forall k | 0 <= k < |ms|
      ensures Sorted(ms[k])
      ensures k < |ms| - 1 ==> Linked(ms[k], ms[k + 1], at, t + k)
    {
      if k > 0 {
        assert ms[k] == Moment(ds[k - 1], p.marker, trusted) && ds[k - 1] in ds;
      }
      if k < |ms| - 1 {
        assert ms[k + 1] == Moment(ds[k], p.marker, trusted) && ds[k] in ds;
      }
    }
  }

  lemma ConfirmedTrusted(c: Config, m: Memory, l: Look)
    requires InStep(c, m)
    ensures Observe(c, m, l).confirmed <= TrustedFirst(c, m, l) * l.active
    ensures Observe(c, m, l).active == l.active && Observe(c, m, l).strict == l.strict
    ensures Observe(c, m, l).confirmedLater <= SecondLook(c, m, l).ready * l.active
  {
    FirstLookForms(c, m, l);
  }

  // ---------------------------------------------------------------- the list is set

  lemma SettingForms(c: Config, m: Memory, l: Look)
    requires InStep(c, m)
    ensures var f, s := FirstLook(c, m, l), AfterSetting(c, m, l);
            && s.list == Wanted(l) && s.ready <= f.ready && s.ready <= ListedNames(Wanted(l))
            && (Wanted(l) == c.list ==> s.marker == m.marker) && (Wanted(l) != c.list ==> s.marker == l.flushed)
  {
    FirstLookForms(c, m, l);
  }

  lemma SecondLookForms(c: Config, m: Memory, l: Look, at: Timeline, t: nat)
    requires InStep(c, m) && Timely(c, m, l, at, t)
    ensures var s, n := AfterSetting(c, m, l), SecondLook(c, m, l);
            var now := t + |KeySettled(c, Observe(c, m, l)).written| + 1;
            && n.list == s.list && n.marker == s.marker && s.ready <= n.ready <= ListedNames(Wanted(l))
            && forall x :: x in n.ready ==> x in TrustedSet(c, m, l) || at(now, x) >= s.marker
  {
    hide KeySettled, Observe, FirstLook, AfterSetting;
    SettingForms(c, m, l);
    var s, n := AfterSetting(c, m, l), SecondLook(c, m, l);
    var now := t + |KeySettled(c, Observe(c, m, l)).written| + 1;
    forall x | x in n.ready
      ensures x in ListedNames(Wanted(l))
      ensures x in TrustedSet(c, m, l) || at(now, x) >= s.marker
    {
      if x !in s.ready {
        var r :| r in l.after && CaughtUp(s, Voters(c), r) && r.name == x;
      }
    }
  }

  /** The key as the list is set. */
  lemma SetSorted(c: Config, m: Memory, l: Look)
    requires InStep(c, m)
    ensures var o := Observe(c, m, l);
            var p := KeySettled(c, o);
            p.going ==> Voters(p.at) <= TrustedSet(c, m, l) && p.at.primary == c.primary && p.at.list == c.list
  {
    hide KeySettled, Observe, FirstLook;
    ObservePlausible(c, m, l);
    ConfirmedTrusted(c, m, l);
    KeyTrusted(c, Observe(c, m, l), TrustedFirst(c, m, l));
    WantedNames(l);
  }

  lemma RelistForms(p: Progress, o: Observed, l: Look)
    requires p.going && o.active == l.active && o.strict == l.strict
    ensures Relist(p, o) == Put(p, p.at.(list := Wanted(l)))
  {}

  /** The last write of the key grants it to nodes that were looked at again, or that were confirmed at once. */
  lemma GrowForms(p: Progress, o: Observed)
    ensures var q := Grow(p, o);
            q.written == p.written || (q.written == p.written + [q.at] && q.at.list == p.at.list
                                       && q.at.primary == p.at.primary && Voters(q.at) == Allowed(o))
    ensures Grow(p, o).written == p.written ==> Grow(p, o).at == p.at
    ensures o.confirmed != o.active && o.active != {} ==> Allowed(o) == o.confirmedLater
  {
    if Grow(p, o).written == p.written {
      assert p.written + [Grow(p, o).at] != p.written;
    }
  }

  /** The moment that begins when the list is set. */
  function SetMoment(c: Config, m: Memory, l: Look): Moment {
    var o := Observe(c, m, l);
    Moment(Relist(KeySettled(c, o), o).at, AfterSetting(c, m, l).marker, TrustedSet(c, m, l))
  }

  function GrownMoment(c: Config, m: Memory, l: Look): Moment {
    var o := Observe(c, m, l);
    Moment(Grow(Relist(KeySettled(c, o), o), o).at, AfterSetting(c, m, l).marker, TrustedSet(c, m, l) + SecondLook(c, m, l).ready)
  }

  lemma SetLinked(p: Moment, c: Config, m: Memory, l: Look, at: Timeline, t: nat)
    requires InStep(c, m) && Timely(c, m, l, at, t)
    requires var q := KeySettled(c, Observe(c, m, l)); q.going && p.config == q.at && p.marker == m.marker
    requires forall x :: x in TrustedFirst(c, m, l) ==>
               x in p.trusted || (x in ListedNames(c.list) && at(t + |KeySettled(c, Observe(c, m, l)).written|, x) >= m.marker)
    ensures Sorted(SetMoment(c, m, l))
    ensures Linked(p, SetMoment(c, m, l), at, t + |KeySettled(c, Observe(c, m, l)).written|)
  {
    hide KeySettled, Observe, FirstLook, AfterSetting, Relist, TrustedFirst, Wanted;
    var o := Observe(c, m, l);
    var q := KeySettled(c, o);
    SettingForms(c, m, l);
    SetSorted(c, m, l);
    ConfirmedTrusted(c, m, l);
    RelistForms(q, o, l);
    WantedNames(l);
    WantedWaits(l);
  }

  lemma WantedWaits(l: Look)
    ensures Wanted(l).num >= |ListedNames(Wanted(l))|
  {}

  lemma GrownLinked(c: Config, m: Memory, l: Look, at: Timeline, t: nat)
    requires InStep(c, m) && Timely(c, m, l, at, t)
    requires var o := Observe(c, m, l);
             var q := KeySettled(c, o);
             q.going && Grow(Relist(q, o), o).written != Relist(q, o).written
    ensures Sorted(GrownMoment(c, m, l))
    ensures Linked(SetMoment(c, m, l), GrownMoment(c, m, l), at, t + |KeySettled(c, Observe(c, m, l)).written| + 1)
  {
    hide KeySettled, Observe, FirstLook, AfterSetting, SecondLook, Relist, Grow, Wanted, Allowed, TrustedFirst;
    var o := Observe(c, m, l);
    var q := KeySettled(c, o);
    SettingForms(c, m, l);
    SecondLookForms(c, m, l, at, t);
    SetSorted(c, m, l);
    ConfirmedTrusted(c, m, l);
    RelistForms(q, o, l);
    GrowForms(Relist(q, o), o);
    WantedNames(l);
    WantedWaits(l);
    AllowedTrusted(c, m, l);
  }

  lemma ChainTwo(p: Moment, a: Moment, at: Timeline, t: nat)
    requires Sorted(p) && Sorted(a) && Linked(p, a, at, t)
    ensures Chained([p] + [a], at, t)
  {}

  lemma ChainThree(p: Moment, a: Moment, b: Moment, at: Timeline, t: nat)
    requires Sorted(p) && Sorted(a) && Sorted(b) && Linked(p, a, at, t) && Linked(a, b, at, t + 1)
    ensures Chained([p] + ([a] + [b]), at, t)
  {
    hide Sorted, Linked;
    var ms := [p] + ([a] + [b]);
    assert ms == [p, a, b];
  }

  lemma SetChained(p: Moment, c: Config, m: Memory, l: Look, at: Timeline, t: nat)
    requires InStep(c, m) && Timely(c, m, l, at, t)
    requires var q := KeySettled(c, Observe(c, m, l));
             q.going && p.config == q.at && Sorted(p) && p.marker == m.marker
    requires forall x :: x in TrustedFirst(c, m, l) ==>
               x in p.trusted || (x in ListedNames(c.list) && at(t + |KeySettled(c, Observe(c, m, l)).written|, x) >= m.marker)
    ensures Chained([p] + SetMoments(c, m, l), at, t + |KeySettled(c, Observe(c, m, l)).written|)
  {
    hide KeySettled, Observe, TrustedFirst, SetMoment, GrownMoment, Sorted, Linked, Chained, Timely, Relist, Grow;
    var o := Observe(c, m, l);
    var q := KeySettled(c, o);
    var now := t + |q.written|;
    SetLinked(p, c, m, l, at, t);
    SetForms(c, m, l);
    if Grow(Relist(q, o), o).written == Relist(q, o).written {
      ChainTwo(p, SetMoment(c, m, l), at, now);
    } else {
      GrownLinked(c, m, l, at, t);
      ChainThree(p, SetMoment(c, m, l), GrownMoment(c, m, l), at, now);
    }
  }

  lemma SetForms(c: Config, m: Memory, l: Look)
    ensures var o := Observe(c, m, l);
            var q := Relist(KeySettled(c, o), o);
            SetMoments(c, m, l) == if Grow(q, o).written == q.written then [SetMoment(c, m, l)]
                                   else [SetMoment(c, m, l)] + [GrownMoment(c, m, l)]
  {
    hide KeySettled, Observe, AfterSetting, SecondLook, Relist, Grow;
    assert [SetMoment(c, m, l)] + [] == [SetMoment(c, m, l)];
  }

  lemma AllowedTrusted(c: Config, m: Memory, l: Look)
    requires InStep(c, m)
    ensures Allowed(Observe(c, m, l)) <= TrustedSet(c, m, l) + SecondLook(c, m, l).ready
  {
    hide FirstLook, SecondLook;
    ConfirmedTrusted(c, m, l);
    WantedNames(l);
  }

  // ---------------------------------------------------------------- a whole pass

  /** The moments are those of the writes, in order. */
  lemma MomentConfigs(c: Config, m: Memory, l: Look)
    ensures var o := Observe(c, m, l);
            && |Moments(c, m, l)| == |Process(c, o).written|
            && forall k :: 0 <= k < |Moments(c, m, l)| ==> Moments(c, m, l)[k].config == Process(c, o).written[k]
  {
    hide KeySettled, Observe, TrustedFirst, SetMoment, GrownMoment, Relist, Grow, Process;
    var o := Observe(c, m, l);
    var p := KeySettled(c, o);
    ProcessSettled(c, o);
    if p.going {
      SetWritten(c, m, l);
      SetForms(c, m, l);
    }
  }

  lemma SetWritten(c: Config, m: Memory, l: Look)
    requires KeySettled(c, Observe(c, m, l)).going
    ensures var o := Observe(c, m, l);
            var p := KeySettled(c, o);
            var q := Relist(p, o);
            && q.written == p.written + [SetMoment(c, m, l).config]
            && (Grow(q, o).written == q.written || Grow(q, o).written == q.written + [GrownMoment(c, m, l).config])
  {
    hide KeySettled, Observe, TrustedFirst, AfterSetting, SecondLook, Wanted, Grow;
    GrowForms(Relist(KeySettled(c, Observe(c, m, l)), Observe(c, m, l)), Observe(c, m, l));
  }

  lemma ProcessSettled(c: Config, o: Observed)
    ensures Process(c, o) == Grow(Relist(KeySettled(c, o), o), o)
    ensures !KeySettled(c, o).going ==> Process(c, o) == KeySettled(c, o)
  {
    hide Shrink, Rest, Align, Claim, Enable;
  }

  /** The moment at which the list is about to be set, or the pass ends. */
  lemma KeyFits(p: Moment, c: Config, m: Memory, l: Look, at: Timeline, t: nat)
    requires Growing(at) && InStep(c, m) && p.config == c && Fits(p, m, at, t) && Timely(c, m, l, at, t)
    ensures var ds := KeySettled(c, Observe(c, m, l)).written;
            var q := ([p] + Same(ds, m.marker, TrustedFirst(c, m, l)))[|ds|];
            && q.config == KeySettled(c, Observe(c, m, l)).at && q.marker == m.marker && Sorted(q)
            && forall x :: x in TrustedFirst(c, m, l) ==>
                 x in q.trusted || (x in ListedNames(c.list) && at(t + |ds|, x) >= m.marker)
  {
    hide KeySettled, Observe, FirstLook, Timely;
    var ds := KeySettled(c, Observe(c, m, l)).written;
    KeyChained(p, c, m, l, at, t);
    FirstTrusted(p, c, m, l, at, t);
    ObservePlausible(c, m, l);
    ConfirmedTrusted(c, m, l);
    KeyTrusted(c, Observe(c, m, l), TrustedFirst(c, m, l));
  }

  lemma PassChained(p: Moment, c: Config, m: Memory, l: Look, at: Timeline, t: nat)
    requires Growing(at) && InStep(c, m) && p.config == c && Fits(p, m, at, t) && Timely(c, m, l, at, t)
    ensures Chained([p] + Moments(c, m, l), at, t)
  {
    hide KeySettled, Observe, TrustedFirst, SetMoments, Timely, InStep, Fits, Chained, Sorted, Growing;
    var q := KeySettled(c, Observe(c, m, l));
    var pre := Same(q.written, m.marker, TrustedFirst(c, m, l));
    KeyChained(p, c, m, l, at, t);
    KeyFits(p, c, m, l, at, t);
    if q.going {
      SetChained(([p] + pre)[|pre|], c, m, l, at, t);
      ChainJoin(p, pre, SetMoments(c, m, l), at, t);
    } else {
      assert pre + [] == pre;
    }
  }

  /** What is remembered goes with the configuration the pass ends with. */
  lemma PassInStep(c: Config, m: Memory, l: Look)
    requires InStep(c, m)
    ensures var d := Process(c, Observe(c, m, l)).at; InStep(d, Remembered(c, m, l)) && d.primary == c.primary
  {
    hide KeySettled, Observe, FirstLook, AfterSetting, Ordered, WaitsForAll, Wanted, Allowed;
    var o := Observe(c, m, l);
    var q := KeySettled(c, o);
    ObservePlausible(c, m, l);
    ProcessOrdered(c, o);
    ProcessSettled(c, o);
    SettingForms(c, m, l);
    FirstLookForms(c, m, l);
    ConfirmedTrusted(c, m, l);
    SetSorted(c, m, l);
    ReadiedListed(AfterSetting(c, m, l), Voters(c), l.after);
    if q.going {
      RelistForms(q, o, l);
      GrowForms(Relist(q, o), o);
    } else {
      KeyUnlisted(c, m, l);
    }
  }

  lemma ReadiedListed(m: Memory, voters: set<Name>, rows: seq<Replica>)
    requires m.ready <= ListedNames(m.list)
    ensures var n := Readied(m, voters, rows);
            n.list == m.list && n.marker == m.marker && m.ready <= n.ready <= ListedNames(m.list)
  {}

  lemma KeyUnlisted(c: Config, m: Memory, l: Look)
    requires InStep(c, m)
    ensures KeySettled(c, Observe(c, m, l)).at.list == c.list
  {
    hide KeySettled, Observe, FirstLook;
    ObservePlausible(c, m, l);
    ConfirmedTrusted(c, m, l);
    KeyTrusted(c, Observe(c, m, l), TrustedFirst(c, m, l));
  }

  /** And its ready nodes with the last moment of the pass. */
  lemma PassFits(p: Moment, c: Config, m: Memory, l: Look, at: Timeline, t: nat)
    requires Growing(at) && InStep(c, m) && p.config == c && Fits(p, m, at, t) && Timely(c, m, l, at, t)
    ensures var ms := Moments(c, m, l);
            var q := ([p] + ms)[|ms|];
            q.config == Process(c, Observe(c, m, l)).at && Fits(q, Remembered(c, m, l), at, t + |ms|)
  {
    hide KeySettled, Observe, FirstLook, Timely, Sorted, TrustedFirst, SetMoments, Growing, Process, Remembered, Moments;
    hide Ordered, WaitsForAll;
    var o := Observe(c, m, l);
    var s := KeySettled(c, o);
    var pre := Same(s.written, m.marker, TrustedFirst(c, m, l));
    PassInStep(c, m, l);
    PassChained(p, c, m, l, at, t);
    ProcessSettled(c, o);
    LastSorted(p, Moments(c, m, l), at, t);
    KeyFits(p, c, m, l, at, t);
    if s.going {
      SetFits(c, m, l, at, t);
      LastOfSet(p, pre, c, m, l);
    } else {
      KeyOnly(p, c, m, l);
      FirstReady(c, m, l);
    }
  }

  lemma LastSorted(p: Moment, ms: seq<Moment>, at: Timeline, t: nat)
    requires Chained([p] + ms, at, t)
    ensures Sorted(([p] + ms)[|ms|])
  {
    hide Sorted, Linked;
  }

  lemma KeyOnly(p: Moment, c: Config, m: Memory, l: Look)
    requires InStep(c, m) && !KeySettled(c, Observe(c, m, l)).going
    ensures Moments(c, m, l) == Same(KeySettled(c, Observe(c, m, l)).written, m.marker, TrustedFirst(c, m, l))
    ensures Remembered(c, m, l) == FirstLook(c, m, l)
  {
    hide KeySettled, Observe, FirstLook, TrustedFirst;
  }

  lemma FirstReady(c: Config, m: Memory, l: Look)
    requires InStep(c, m)
    ensures var f := FirstLook(c, m, l); f.ready <= TrustedFirst(c, m, l) && f.marker == m.marker && f.list == c.list
  {
    FirstLookForms(c, m, l);
  }

  lemma LastOfSet(p: Moment, pre: seq<Moment>, c: Config, m: Memory, l: Look)
    requires KeySettled(c, Observe(c, m, l)).going
    requires pre == Same(KeySettled(c, Observe(c, m, l)).written, m.marker, TrustedFirst(c, m, l))
    ensures var o := Observe(c, m, l);
            var q := Relist(KeySettled(c, o), o);
            var ms := Moments(c, m, l);
            && |ms| == |pre| + (if Grow(q, o).written == q.written then 1 else 2)
            && |pre| == |KeySettled(c, o).written|
            && ([p] + ms)[|ms|] == (if Grow(q, o).written == q.written then SetMoment(c, m, l) else GrownMoment(c, m, l))
  {
    hide KeySettled, Observe, TrustedFirst, SetMoment, GrownMoment, Relist, Grow;
  }

  /** After the list is set, by then or with the last write of the key. */
  lemma SetFits(c: Config, m: Memory, l: Look, at: Timeline, t: nat)
    requires Growing(at) && InStep(c, m) && Timely(c, m, l, at, t) && KeySettled(c, Observe(c, m, l)).going
    ensures var o := Observe(c, m, l);
            var q := Relist(KeySettled(c, o), o);
            var now := t + |KeySettled(c, o).written| + 1;
            var n := Remembered(c, m, l);
            && n.marker == SetMoment(c, m, l).marker == GrownMoment(c, m, l).marker
            && (forall x :: x in n.ready ==> x in SetMoment(c, m, l).trusted || at(now, x) >= n.marker)
            && (forall x :: x in n.ready ==> x in GrownMoment(c, m, l).trusted || at(now + 1, x) >= n.marker)
            && (Grow(q, o).written == q.written ==> SetMoment(c, m, l).config == Process(c, o).at)
            && GrownMoment(c, m, l).config == Process(c, o).at
  {
    hide KeySettled, Observe, FirstLook, AfterSetting, SecondLook, Wanted, TrustedFirst, Relist, Grow, Allowed;
    var o := Observe(c, m, l);
    SettingForms(c, m, l);
    SecondLookForms(c, m, l, at, t);
    ProcessSettled(c, o);
    GrowForms(Relist(KeySettled(c, o), o), o);
    FirstReady(c, m, l);
  }

  // ---------------------------------------------------------------- whole runs

  /** Every configuration a run writes, one pass after another. */
  function Written(c: Config, m: Memory, ls: seq<Look>): seq<Config>
    decreases |ls|
  {
    if ls == [] then []
    else
      var p := Process(c, Observe(c, m, ls[0]));
      p.written + Written(p.at, Remembered(c, m, ls[0]), ls[1..])
  }

  ghost predicate AllTimely(c: Config, m: Memory, ls: seq<Look>, at: Timeline, t: nat)
    decreases |ls|
  {
    ls != [] ==>
      var p := Process(c, Observe(c, m, ls[0]));
      Timely(c, m, ls[0], at, t) && AllTimely(p.at, Remembered(c, m, ls[0]), ls[1..], at, t + |p.written|)
  }

  lemma {:induction false} RunChained(p: Moment, c: Config, m: Memory, ls: seq<Look>, at: Timeline, t: nat)
    returns (ms: seq<Moment>)
    requires Growing(at) && InStep(c, m) && p.config == c && Fits(p, m, at, t) && AllTimely(c, m, ls, at, t)
    ensures Chained([p] + ms, at, t) && |ms| == |Written(c, m, ls)|
    ensures forall k :: 0 <= k < |ms| ==> ms[k].config == Written(c, m, ls)[k]
    decreases |ls|
  {
    hide Growing, InStep, Fits, Timely, Chained, Observe, Process, Remembered, Moments, Sorted;
    if ls == [] {
      ms := [];
      assert [p] + ms == [p];
      ChainOne(p, m, at, t);
    } else {
      var first := Moments(c, m, ls[0]);
      PassChained(p, c, m, ls[0], at, t);
      PassFits(p, c, m, ls[0], at, t);
      PassInStep(c, m, ls[0]);
      MomentConfigs(c, m, ls[0]);
      var d := Process(c, Observe(c, m, ls[0])).at;
      var rest := RunChained(([p] + first)[|first|], d, Remembered(c, m, ls[0]), ls[1..], at, t + |first|);
      ChainJoin(p, first, rest, at, t);
      ms := first + rest;
    }
  }

  lemma ChainOne(p: Moment, m: Memory, at: Timeline, t: nat)
    requires Fits(p, m, at, t)
    ensures Chained([p], at, t)
  {}

  /** In every state of every run, any standby that the key allows to be promoted holds every commit acknowledged at that
      moment or earlier in the run, under whatever list. */
  lemma EarlierCommitsHeld(c: Config, m: Memory, ls: seq<Look>, at: Timeline, i: nat, j: nat, position: int, standby: Name)
    requires InStep(c, m) && Growing(at) && AllTimely(c, m, ls, at, 0)
    requires i <= j <= |Written(c, m, ls)|
    requires AckedAt(([c] + Written(c, m, ls))[i], at, i, position) && standby in Voters(([c] + Written(c, m, ls))[j])
    ensures at(j, standby) >= position
  {
    hide Growing, AllTimely, AckedAt, Written, Linked;
    var p := Moment(c, m.marker, Voters(c) + m.ready);
    var rest := RunChained(p, c, m, ls, at, 0);
    var ms := [p] + rest;
    assert forall k :: 0 <= k < |ms| ==> ms[k].config == ([c] + Written(c, m, ls))[k];
    ChainHolds(ms, at, 0, i, j, position);
    assert Sorted(ms[j]);
  }

  // ---------------------------------------------------------------- the handler itself

  class SyncHandler {
    var list: StandbyList
    var marker: int
    var ready: set<Name>

    function View(): Memory
      reads this
    {
      Memory(list, marker, ready)
    }

    constructor (list: StandbyList, marker: int)
      ensures View() == Memory(list, marker, {})
    {
      this.list, this.marker, this.ready := list, marker, {};
    }

    method HandleSynchronousStandbyNamesChange(current: StandbyList, position: int)
      modifies this
      ensures View() == Noticed(old(View()), current, position)
    {
      if current == list {
        return;
      }
      list := current;
      ready := ready * ListedNames(current);
      marker := position;
    }

    method ProcessReplicaReadiness(voters: set<Name>, rows: seq<Replica>)
      modifies this
      ensures View() == Readied(old(View()), voters, rows)
    {
      ghost var m := View();
      assert rows[..0] == [];
      for i := 0 to |rows|
        invariant View() == Readied(m, voters, rows[..i])
      {
        var r := rows[i];
        ReadiedStep(m, voters, rows, i);
        if r.name !in ready && r.name in ListedNames(list) {
          if r.name in voters || (r.synced && r.lsn >= marker) {
            ready := ready + {r.name};
          }
        }
      }
      assert rows[..|rows|] == rows;
    }

    /** One look: the list in force is noticed, the rows are gone through, and the candidates that are ready are confirmed. */
    method CurrentState(current: StandbyList, position: int, voters: set<Name>, active: set<Name>, rows: seq<Replica>)
      returns (confirmed: set<Name>)
      modifies this
      ensures View() == Readied(Noticed(old(View()), current, position), voters, rows)
      ensures confirmed == Confirmed(View(), active, rows)
    {
      HandleSynchronousStandbyNamesChange(current, position);
      ProcessReplicaReadiness(voters, rows);
      confirmed := {};
      assert rows[..0] == [];
      for i := 0 to |rows|
        invariant View() == Readied(Noticed(old(View()), current, position), voters, rows)
        invariant confirmed == Confirmed(View(), active, rows[..i])
      {
        assert rows[..i + 1] == rows[..i] + [rows[i]];
        if rows[i].name in active && rows[i].synced && rows[i].name in ready {
          confirmed := confirmed + {rows[i].name};
        }
      }
      assert rows[..|rows|] == rows;
    }
  }

  lemma ReadiedStep(m: Memory, voters: set<Name>, rows: seq<Replica>, i: nat)
    requires i < |rows|
    ensures Readied(m, voters, rows[..i + 1]).ready ==
            Readied(m, voters, rows[..i]).ready + (if CaughtUp(m, voters, rows[i]) then {rows[i].name} else {})
  {
    assert rows[..i + 1] == rows[..i] + [rows[i]];
  }
}
