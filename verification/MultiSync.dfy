/** The older protocol with several synchronous standbys: the key never names a node that is not listed. */
module MultiSync {
  import opened Names
  import opened HaLoop

  /** What one pass sees, before and after it changes the list, and which of its conditional writes succeed. */
  datatype Observed = Observed(
    active: set<Name>, confirmed: set<Name>, confirmedLater: set<Name>, strict: bool,
    enable: bool, claim: bool, align: bool, shrink: bool, grow: bool)

  /** How far a pass has come: the registers, every state of them it wrote, and whether it goes on. */
  datatype Progress = Progress(at: Config, written: seq<Config>, going: bool)

  function Voters(c: Config): set<Name> {
    if c.key.Some? then c.key.value.voters else {}
  }

  function Put(p: Progress, c: Config): Progress {
    p.(at := c, written := p.written + [c])
  }

  /** A conditional write of the key; when it fails, the pass ends. */
  function WriteKey(p: Progress, voters: set<Name>, succeeds: bool): Progress {
    if succeeds then Put(p, p.at.(key := Some(Key(p.at.primary, 0, voters)))) else p.(going := false)
  }

  function Enable(p: Progress, o: Observed): Progress {
    if p.at.key.None? then WriteKey(p, {}, o.enable) else p
  }

  /** The key of another leader is taken over without voters. */
  function Claim(p: Progress, o: Observed): Progress {
    if p.going && p.at.key.Some? && p.at.key.value.leader != p.at.primary then WriteKey(p, {}, o.claim) else p
  }

  /** The right nodes are in the key, but not all of them are known to be synchronous. */
  function Align(p: Progress, o: Observed): Progress {
    if p.going && o.active == Voters(p.at) && Voters(p.at) != o.confirmed then WriteKey(p, o.confirmed, o.align) else p
  }

  predicate NothingToDo(c: Config, o: Observed) {
    o.active == Voters(c) && o.active == ListedNames(c.list) && c.list.num == |o.active|
  }

  function Rest(p: Progress, o: Observed): Progress {
    if NothingToDo(p.at, o) then p.(going := false) else p
  }

  /** The key keeps only the nodes that stay. */
  function Shrink(p: Progress, o: Observed): Progress {
    var common := Voters(p.at) * o.confirmed;
    if p.going && common != Voters(p.at) then WriteKey(p, common, o.shrink) else p
  }

  function Relist(p: Progress, o: Observed): Progress {
    if !p.going then p
    else Put(p, p.at.(list := if o.strict && o.active == {} then Star(1) else Listed(|o.active|, o.active)))
  }

  /** The nodes that are known to be synchronous once the list is changed. */
  function Allowed(o: Observed): set<Name> {
    if o.active != {} && o.confirmed != o.active then o.confirmedLater else o.confirmed
  }

  function Grow(p: Progress, o: Observed): Progress {
    if p.going && Allowed(o) != {} && Allowed(o) != Voters(p.at) then WriteKey(p, Allowed(o), o.grow) else p
  }

  function Process(c: Config, o: Observed): Progress {
    Grow(Relist(Shrink(Rest(Align(Claim(Enable(Progress(c, [], true), o), o), o), o), o), o), o)
  }

  /** Only listed nodes that stream can be confirmed. */
  predicate Plausible(c: Config, o: Observed) {
    && o.confirmed <= o.active * ListedNames(c.list)
    && o.confirmedLater <= o.active
  }

  /** Every node of the key is listed. */
  predicate Ordered(c: Config) {
    Voters(c) <= ListedNames(c.list)
  }

  /** PostgreSQL waits for all nodes that are listed. */
  predicate WaitsForAll(c: Config) {
    c.list.num >= |ListedNames(c.list)|
  }

  predicate AllOrdered(p: Progress) {
    Ordered(p.at) && forall c :: c in p.written ==> Ordered(c)
  }

  lemma BeforeListing(c: Config, o: Observed)
    requires Ordered(c) && Plausible(c, o)
    ensures var p := Shrink(Rest(Align(Claim(Enable(Progress(c, [], true), o), o), o), o), o);
            && AllOrdered(p) && p.at.list == c.list && p.at.primary == c.primary
            && (forall d :: d in p.written ==> d.list == c.list)
            && (p.going ==> Voters(p.at) <= o.active)
  {
    hide ListedNames;
    var enabled := Enable(Progress(c, [], true), o);
    var claimed := Claim(enabled, o);
    assert AllOrdered(claimed) && claimed.at.list == c.list && claimed.at.primary == c.primary;
    var aligned := Align(claimed, o);
    assert AllOrdered(aligned) && aligned.at.list == c.list && aligned.at.primary == c.primary;
  }

  /** Additions go to the list first and to the key second, removals the other way round: after every write of a
      pass, finished or ended by a failed conditional write, with `*` or without, the key stays within the list. */
  lemma ProcessOrdered(c: Config, o: Observed)
    requires Ordered(c) && Plausible(c, o)
    ensures AllOrdered(Process(c, o)) && Process(c, o).at.primary == c.primary
    ensures WaitsForAll(c) ==> WaitsForAll(Process(c, o).at) && forall d :: d in Process(c, o).written ==> WaitsForAll(d)
  {
    hide Shrink, Rest, Align, Claim, Enable;
    BeforeListing(c, o);
  }

  // ---------------------------------------------------------------- where a pass ends

  /** The voters a pass goes on with, once the key is the primary's own and in line with what is confirmed. */
  function OwnVoters(c: Config): set<Name> {
    if c.key.Some? && c.key.value.leader == c.primary then Voters(c) else {}
  }

  function AlignedVoters(c: Config, o: Observed): set<Name> {
    if o.active == OwnVoters(c) then o.confirmed else OwnVoters(c)
  }

  /** A missing key is created, and that of another leader taken over, without voters. */
  predicate Owns(c: Config, o: Observed) {
    (c.key.None? ==> o.enable) && (c.key.Some? && c.key.value.leader != c.primary ==> o.claim)
  }

  function WithVoters(c: Config, voters: set<Name>): Config {
    c.(key := Some(Key(c.primary, 0, voters)))
  }

  function OwnConfig(c: Config): Config {
    if c.key.Some? && c.key.value.leader == c.primary then c else WithVoters(c, {})
  }

  /** The key in line with what is confirmed, where it names just the candidates. */
  function AlignedConfig(c: Config, o: Observed): Config {
    if o.active == OwnVoters(c) != o.confirmed then WithVoters(c, o.confirmed) else OwnConfig(c)
  }

  /** Candidates, key and list agree, and the list waits for all of them. */
  predicate Idle(c: Config, o: Observed) {
    o.active == AlignedVoters(c, o) == ListedNames(c.list) && c.list.num == |o.active|
  }

  /** The pass comes to setting the list: no write before it fails, and something is to be done. */
  predicate Sets(c: Config, o: Observed) {
    && Owns(c, o) && (o.active == OwnVoters(c) != o.confirmed ==> o.align)
    && !Idle(c, o) && (AlignedVoters(c, o) <= o.confirmed || o.shrink)
  }

  /** The configuration once the list is set: the key names who was in it and is confirmed. */
  function SetConfig(c: Config, o: Observed): Config {
    var common := AlignedVoters(c, o) * o.confirmed;
    var kept := if common == AlignedVoters(c, o) then AlignedConfig(c, o) else WithVoters(c, common);
    kept.(list := if o.strict && o.active == {} then Star(1) else Listed(|o.active|, o.active))
  }

  lemma AlignedForms(c: Config, o: Observed)
    ensures var p := Align(Claim(Enable(Progress(c, [], true), o), o), o);
            && (p.going <==> Owns(c, o) && (o.active == OwnVoters(c) != o.confirmed ==> o.align))
            && (p.going ==> p.at == AlignedConfig(c, o) && Voters(p.at) == AlignedVoters(c, o))
            && p.at == (if !Owns(c, o) then c else if p.going then AlignedConfig(c, o) else OwnConfig(c))
            && p.at.list == c.list && p.at.primary == c.primary
  {}

  /** Whatever comes of the conditional writes: a failed one is the last thing a pass tries, the list is set only after all
      removals from the key, and nodes are granted the key only after the list was set. */
  lemma ProcessEndExact(c: Config, o: Observed)
    ensures Process(c, o).at ==
            if !Owns(c, o) then c
            else if o.active == OwnVoters(c) != o.confirmed && !o.align then OwnConfig(c)
            else if !Sets(c, o) then AlignedConfig(c, o)
            else if Allowed(o) != {} && Allowed(o) != AlignedVoters(c, o) * o.confirmed && o.grow
            then WithVoters(SetConfig(c, o), Allowed(o))
            else SetConfig(c, o)
  {
    hide Align, Claim, Enable, Allowed, ListedNames;
    AlignedForms(c, o);
    var p := Align(Claim(Enable(Progress(c, [], true), o), o), o);
    if p.going {
      assert Voters(p.at) * o.confirmed == Voters(p.at) <==> Voters(p.at) <= o.confirmed;
    }
  }

  /** A pass without failed writes ends with the primary's own key and with exactly the candidates listed, all waited for,
      or `*` where strict mode has none; and the key then names who is known to be synchronous, or, while nobody is,
      who was in it and is confirmed. */
  lemma ProcessEnds(c: Config, o: Observed)
    requires o.enable && o.claim && o.align && o.shrink && o.grow
    ensures var d := Process(c, o).at;
            && d.key.Some? && d.key.value.leader == d.primary == c.primary
            && ListedNames(d.list) == o.active
            && (d.list.num == |o.active| || (o.strict && o.active == {} && d.list == Star(1)))
            && (o.strict && o.active == {} && !Idle(c, o) ==> d.list == Star(1))
            && Voters(d) == if Idle(c, o) then o.active
                            else if Allowed(o) != {} then Allowed(o) else AlignedVoters(c, o) * o.confirmed
  {
    hide Process, Allowed;
    ProcessEndExact(c, o);
  }

  /** A pass writes nothing exactly when key, list and candidates are the same nodes, all of them confirmed and waited for,
      and the key is the primary's own. */
  lemma SilentIffSynchronous(c: Config, o: Observed)
    requires Plausible(c, o) && c.key.Some?
    requires o.claim && o.align && o.shrink && o.grow
    ensures Process(c, o).written == [] <==>
              && c.key.value.leader == c.primary && c.list.num == |o.active|
              && c.key.value.voters == o.active == o.confirmed == ListedNames(c.list)
  {
    hide ListedNames;
    var claimed := Claim(Enable(Progress(c, [], true), o), o);
    var aligned := Align(claimed, o);
    if c.key.value.leader != c.primary {
      assert claimed.written != [];
    } else if o.active == Voters(c) && Voters(c) != o.confirmed {
      assert aligned.written != [];
    } else if !NothingToDo(c, o) {
      assert Relist(Shrink(Rest(aligned, o), o), o).written != [];
    }
  }

  /** One pass after another, each with its own observations. */
  predicate AllPlausible(c: Config, os: seq<Observed>)
    decreases |os|
  {
    os != [] ==> Plausible(c, os[0]) && AllPlausible(Process(c, os[0]).at, os[1..])
  }

  function Runs(c: Config, os: seq<Observed>): seq<Config>
    decreases |os|
  {
    if os == [] then [] else Process(c, os[0]).written + Runs(Process(c, os[0]).at, os[1..])
  }

  lemma {:induction false} RunOrdered(c: Config, os: seq<Observed>)
    requires Ordered(c) && AllPlausible(c, os)
    ensures forall d :: d in Runs(c, os) ==> Ordered(d)
    ensures WaitsForAll(c) ==> forall d :: d in Runs(c, os) ==> WaitsForAll(d)
    decreases |os|
  {
    hide Ordered, WaitsForAll, Process;
    if os != [] {
      ProcessOrdered(c, os[0]);
      RunOrdered(Process(c, os[0]).at, os[1..]);
    }
  }

  /** What the order is for: in every state of every run, any standby that the key allows to be promoted holds
      every commit PostgreSQL acknowledged under that state. */
  lemma PromotableHoldsCommits(c: Config, os: seq<Observed>, d: Config, holders: set<Name>, standby: Name)
    requires Ordered(c) && WaitsForAll(c) && AllPlausible(c, os) && d in Runs(c, os)
    requires Acked(d, holders) && standby in Voters(d)
    ensures standby in holders
  {
    RunOrdered(c, os);
    assert d.list.Listed?;
    var names := d.list.names;
    SubsetCard(holders * names, names);
    assert standby in holders * names;
  }

  /** Any standby that the later key allows to be promoted holds what was acknowledged under the earlier list. */
  ghost predicate HoldsEarlier(c: Config, d: Config) {
    forall holders, standby :: Acked(c, holders) && standby in Voters(d) ==> standby in holders
  }

  /** Judged by the list alone, whatever else the nodes have received, that is exactly the case within the earlier list. */
  lemma HoldsEarlierExact(c: Config, d: Config)
    requires c.list.Listed? && c.list.num == |c.list.names| && c.primary !in Voters(d)
    ensures HoldsEarlier(c, d) <==> Voters(d) <= c.list.names
  {
    if Voters(d) <= c.list.names {
      forall holders | Acked(c, holders)
        ensures c.list.names <= holders
      {
        SubsetCard(holders * c.list.names, c.list.names);
        assert holders * c.list.names <= holders;
      }
    } else {
      var holders := c.list.names + {c.primary};
      assert c.list.names <= holders * c.list.names;
      SubsetCard(c.list.names, holders * c.list.names);
      assert Acked(c, holders);
    }
  }

  /** The pass comes to its last write, which grants the key to the nodes known to be synchronous. */
  predicate Grants(c: Config, o: Observed) {
    Sets(c, o) && Allowed(o) != {} && o.grow
  }

  /** For commits from before a pass, judged by the lists alone: every key the pass writes stays within the earlier list,
      unless it grants the key to nodes that were not on it. */
  lemma EarlierListExact(c: Config, o: Observed)
    requires Ordered(c) && Plausible(c, o)
    ensures (forall d :: d in Process(c, o).written ==> Voters(d) <= ListedNames(c.list)) <==>
              (Grants(c, o) ==> Allowed(o) <= ListedNames(c.list))
  {
    hide Shrink, Rest, Align, Claim, Enable, ListedNames;
    var p := Shrink(Rest(Align(Claim(Enable(Progress(c, [], true), o), o), o), o), o);
    BeforeListing(c, o);
    assert forall d :: d in p.written ==> Voters(d) <= ListedNames(c.list);
    var q := Relist(p, o);
    assert Voters(q.at) == Voters(p.at) <= ListedNames(c.list);
    assert forall d :: d in q.written ==> Voters(d) <= ListedNames(c.list);
    GrantsForms(c, o);
    if Process(c, o).going && Allowed(o) != {} && !(Allowed(o) <= ListedNames(c.list)) {
      assert Process(c, o).at in Process(c, o).written;
    }
  }

  lemma GrantsForms(c: Config, o: Observed)
    requires Ordered(c) && Plausible(c, o)
    ensures !(Allowed(o) <= ListedNames(c.list)) ==>
              (Grants(c, o) <==> Process(c, o).going && Allowed(o) != {})
  {
    hide Align, Claim, Enable, Allowed, ListedNames;
    AlignedForms(c, o);
    BeforeListing(c, o);
    var p := Align(Claim(Enable(Progress(c, [], true), o), o), o);
    if p.going {
      assert Voters(p.at) * o.confirmed == Voters(p.at) <==> Voters(p.at) <= o.confirmed;
    }
  }

  /** A pass, cut where its three parts meet. */
  lemma ProcessParts(c: Config, o: Observed)
    ensures var p := Align(Claim(Enable(Progress(c, [], true), o), o), o);
            var common := Voters(p.at) * o.confirmed;
            var shrinks := common != Voters(p.at);
            var d := if shrinks then p.at.(key := Some(Key(p.at.primary, 0, common))) else p.at;
            var q := Grow(Relist(Progress(d, [], true), o), o);
            && (!p.going || NothingToDo(p.at, o) || (shrinks && !o.shrink) ==>
                  Process(c, o).at == p.at && Process(c, o).written == p.written)
            && (p.going && !NothingToDo(p.at, o) && (shrinks ==> o.shrink) ==>
                  Process(c, o).at == q.at
                  && Process(c, o).written == p.written + (if shrinks then [d] else []) + q.written)
  {
    hide Align, Claim, Enable, NothingToDo;
  }

  class Ha {
    var key: Option<Key>
    var list: StandbyList
    const primary: Name
    ghost var written: seq<Config>

    ghost function Current(): Config
      reads this
    {
      Config(key, list, primary)
    }

    constructor (key: Option<Key>, list: StandbyList, primary: Name)
      ensures Current() == Config(key, list, primary) && written == []
    {
      this.key, this.list, this.primary, this.written := key, list, primary, [];
    }

    method WriteSyncState(voters: set<Name>, succeeds: bool)
      modifies this
      ensures key == (if succeeds then Some(Key(primary, 0, voters)) else old(key)) && list == old(list)
      ensures written == old(written) + (if succeeds then [Current()] else [])
    {
      if succeeds {
        key := Some(Key(primary, 0, voters));
        written := written + [Current()];
      }
    }

    method SetSynchronousStandbyNames(l: StandbyList)
      modifies this
      ensures list == l && key == old(key) && written == old(written) + [Current()]
    {
      list := l;
      written := written + [Current()];
    }

    /** A missing key is created, and that of another leader taken over. */
    method OwnKey(o: Observed) returns (going: bool)
      modifies this
      ensures var p := old(Claim(Enable(Progress(Current(), [], true), o), o));
              && going == p.going && (going ==> key.Some?)
              && Current() == p.at && written == old(written) + p.written
    {
      if key == None {
        WriteSyncState({}, o.enable);
        if !o.enable {
          return false;
        }
      }
      if primary != key.value.leader {
        WriteSyncState({}, o.claim);
        if !o.claim {
          return false;
        }
      }
      going := true;
    }

    /** The first part, up to the comparison of what is wanted with what is. */
    method SettleKey(o: Observed) returns (going: bool)
      modifies this
      ensures var p := old(Align(Claim(Enable(Progress(Current(), [], true), o), o), o));
              && going == p.going && (going ==> key.Some?)
              && Current() == p.at && written == old(written) + p.written
    {
      hide Claim, Enable;
      going := OwnKey(o);
      if !going {
        return;
      }
      var voters := key.value.voters;
      if o.active == voters && voters != o.confirmed {
        WriteSyncState(o.confirmed, o.align);
        if !o.align {
          return false;
        }
      }
      going := true;
    }

    /** The last part: the list, and then the nodes that may be added to the key. */
    method Assign(o: Observed, syncCommon: set<Name>)
      requires key.Some? && key.value.voters == syncCommon
      modifies this
      ensures var p := Grow(Relist(Progress(old(Current()), [], true), o), o);
              Current() == p.at && written == old(written) + p.written
    {
      var picked, allowPromote := o.active, o.confirmed;
      var star := o.strict && picked == {};
      SetSynchronousStandbyNames(if star then Star(1) else Listed(|picked|, picked));
      if picked != {} && !star && allowPromote != picked {
        allowPromote := o.confirmedLater;
      }
      if allowPromote != {} && allowPromote != syncCommon {
        WriteSyncState(allowPromote, o.grow);
      }
    }

    /** Each write of a pass, in order, is as `Process` describes. */
    method ProcessMultisyncReplication(o: Observed)
      modifies this
      ensures Current() == Process(old(Current()), o).at
      ensures written == old(written) + Process(old(Current()), o).written
    {
      hide Process, Relist, Grow, Align, Claim, Enable;
      ProcessParts(Current(), o);
      var going := SettleKey(o);
      if !going {
        return;
      }
      var picked, voters := o.active, key.value.voters;
      if picked == voters && voters == (if list.Star? then {} else list.names) && list.num == |picked| {
        return;
      }
      var syncCommon := voters * o.confirmed;
      if syncCommon != voters {
        WriteSyncState(syncCommon, o.shrink);
        if !o.shrink {
          return;
        }
      }
      Assign(o, syncCommon);
    }
  }
}
