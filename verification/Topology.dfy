/** The replication tree as it is listed: a preorder walk that ends even when `replicatefrom` tags form a cycle. */
module Topology {
  import opened Names

  // ---------------------------------------------------------------- trees given by parents

  /** For each member: the replica it streams from, or one of the two numbers below. */
  type Parents = seq<int>

  const ROOT := -1
  const NO_REPLICA := -2

  predicate Valid(up: Parents) {
    forall i :: 0 <= i < |up| ==> NO_REPLICA <= up[i] < |up| && (up[i] >= 0 ==> up[up[i]] != NO_REPLICA)
  }

  /** The chain of parents of `i` ends at the root after `d` steps. */
  predicate Chain(up: Parents, i: int, d: nat)
    requires Valid(up)
    decreases d
  {
    if d == 0 then i == ROOT
    else 0 <= i < |up| && up[i] != NO_REPLICA && Chain(up, up[i], d - 1)
  }

  predicate Increasing(cs: seq<nat>) {
    forall x, y :: 0 <= x < y < |cs| ==> cs[x] < cs[y]
  }

  /** The members from position `from` on that stream from `id`, in order. */
  function Children(up: Parents, id: int, from: nat): (r: seq<nat>)
    requires from <= |up|
    ensures forall c :: c in r <==> from <= c < |up| && up[c] == id
    ensures forall x :: 0 <= x < |r| ==> from <= r[x]
    ensures Increasing(r)
    decreases |up| - from
  {
    if from == |up| then []
    else if up[from] == id then [from] + Children(up, id, from + 1)
    else Children(up, id, from + 1)
  }

  lemma {:induction false} ChainUnique(up: Parents, i: int, d: nat, e: nat)
    requires Valid(up) && Chain(up, i, d) && Chain(up, i, e)
    ensures d == e
    decreases d
  {
    if d > 0 && e > 0 {
      ChainUnique(up, up[i], d - 1, e - 1);
    }
  }

  /** The members on the chain. */
  function OnChain(up: Parents, i: int, d: nat): set<int>
    requires Valid(up) && Chain(up, i, d)
    decreases d
  {
    if d == 0 then {} else {i} + OnChain(up, up[i], d - 1)
  }

  lemma {:induction false} ChainMembers(up: Parents, i: int, d: nat, x: int)
    requires Valid(up) && Chain(up, i, d) && x in OnChain(up, i, d)
    ensures 0 <= x < |up| && exists e :: 1 <= e <= d && Chain(up, x, e)
    decreases d
  {
    if x == i {
      assert 1 <= d && Chain(up, x, d);
    } else {
      ChainMembers(up, up[i], d - 1, x);
    }
  }

  lemma {:induction false} ChainSize(up: Parents, i: int, d: nat)
    requires Valid(up) && Chain(up, i, d)
    ensures |OnChain(up, i, d)| == d
    decreases d
  {
    if d > 0 {
      ChainSize(up, up[i], d - 1);
      if i in OnChain(up, up[i], d - 1) {
        ChainMembers(up, up[i], d - 1, i);
        var e :| 1 <= e <= d - 1 && Chain(up, i, e);
        ChainUnique(up, i, d, e);
      }
    }
  }

  lemma {:induction false} UpTo(n: nat) returns (s: set<int>)
    ensures |s| == n && forall x :: x in s <==> 0 <= x < n
  {
    s := {};
    if n > 0 {
      s := UpTo(n - 1);
      s := s + {n - 1};
    }
  }

  /** No chain is longer than there are members. */
  lemma ChainShort(up: Parents, i: int, d: nat)
    requires Valid(up) && Chain(up, i, d)
    ensures d <= |up|
  {
    ChainSize(up, i, d);
    var all := UpTo(|up|);
    forall x | x in OnChain(up, i, d)
      ensures x in all
    {
      ChainMembers(up, i, d, x);
    }
    SubsetCard(OnChain(up, i, d), all);
  }

  predicate AllChains(up: Parents, cs: seq<nat>, level: nat)
    requires Valid(up)
  {
    forall c :: c in cs ==> Chain(up, c, level)
  }

  /** What is listed below and including `id`, with depths. */
  function Walk(up: Parents, id: int, level: nat): seq<(nat, nat)>
    requires Valid(up) && Chain(up, id, level)
    decreases |up| - level, 1, 0
  {
    ChainShort(up, id, level);
    (if id == ROOT then [] else [(id, level)]) + WalkAll(up, Children(up, id, 0), level + 1)
  }

  function WalkAll(up: Parents, cs: seq<nat>, level: nat): seq<(nat, nat)>
    requires Valid(up) && level >= 1 && AllChains(up, cs, level)
    decreases |up| - level + 1, 0, |cs|
  {
    if cs == [] then []
    else
      ChainShort(up, cs[0], level);
      Walk(up, cs[0], level) + WalkAll(up, cs[1..], level)
  }

  // ---------------------------------------------------------------- what the walk lists

  /** The ancestor `k` steps up. */
  function Ancestor(up: Parents, i: int, k: nat): int
    requires Valid(up)
    decreases k
  {
    if k == 0 || !(0 <= i < |up|) then i else Ancestor(up, up[i], k - 1)
  }

  lemma {:induction false} AncestorStep(up: Parents, i: int, k: nat)
    requires Valid(up) && 0 <= Ancestor(up, i, k) < |up| && 0 <= i < |up|
    ensures Ancestor(up, i, k + 1) == up[Ancestor(up, i, k)]
    decreases k
  {
    if k > 0 && 0 <= up[i] < |up| {
      AncestorStep(up, up[i], k - 1);
    }
  }

  /** `p` is listed below `id`, which is itself listed at `level`. */
  predicate Below(up: Parents, p: (nat, nat), id: int, level: nat)
    requires Valid(up)
  {
    Chain(up, p.0, p.1) && p.1 >= level && Ancestor(up, p.0, p.1 - level) == id && p.1 >= 1
  }

  lemma {:induction false} WalkBelow(up: Parents, id: int, level: nat)
    requires Valid(up) && Chain(up, id, level)
    ensures forall p :: p in Walk(up, id, level) ==> Below(up, p, id, level)
    decreases |up| - level, 1, 0
  {
    ChainShort(up, id, level);
    var cs := Children(up, id, 0);
    WalkAllBelow(up, cs, level + 1);
    forall p | p in WalkAll(up, cs, level + 1)
      ensures Below(up, p, id, level)
    {
      var c :| c in cs && Below(up, p, c, level + 1);
      AncestorStep(up, p.0, p.1 - level - 1);
    }
  }

  lemma {:induction false} WalkAllBelow(up: Parents, cs: seq<nat>, level: nat)
    requires Valid(up) && level >= 1 && AllChains(up, cs, level)
    ensures forall p :: p in WalkAll(up, cs, level) ==> exists c :: c in cs && Below(up, p, c, level)
    decreases |up| - level + 1, 0, |cs|
  {
    if cs != [] {
      ChainShort(up, cs[0], level);
      WalkBelow(up, cs[0], level);
      WalkAllBelow(up, cs[1..], level);
    }
  }

  lemma {:induction false} AncestorChain(up: Parents, i: int, d: nat, k: nat)
    requires Valid(up) && Chain(up, i, d) && k <= d
    ensures Chain(up, Ancestor(up, i, k), d - k)
    decreases k
  {
    if k > 0 {
      AncestorChain(up, up[i], d - 1, k - 1);
    }
  }

  lemma {:induction false} InAll(up: Parents, cs: seq<nat>, level: nat, c: nat, p: (nat, nat))
    requires Valid(up) && level >= 1 && AllChains(up, cs, level) && c in cs && p in Walk(up, c, level)
    ensures p in WalkAll(up, cs, level)
    decreases |cs|
  {
    ChainShort(up, cs[0], level);
    if c != cs[0] {
      InAll(up, cs[1..], level, c, p);
    }
  }

  lemma {:induction false} WalkComplete(up: Parents, id: int, level: nat, p: (nat, nat))
    requires Valid(up) && Chain(up, id, level) && Below(up, p, id, level)
    ensures p in Walk(up, id, level)
    decreases p.1 - level
  {
    ChainShort(up, id, level);
    if p.1 > level {
      var k := p.1 - level - 1;
      var c := Ancestor(up, p.0, k);
      AncestorChain(up, p.0, p.1, k);
      AncestorStep(up, p.0, k);
      var cs := Children(up, id, 0);
      assert c in cs;
      WalkComplete(up, c, level + 1, p);
      InAll(up, cs, level + 1, c, p);
    }
  }

  /** The listing from the root contains exactly the replicas whose chain of parents ends there, each at a depth
      that is the length of its chain. */
  lemma WalkExact(up: Parents, i: nat, d: nat)
    requires Valid(up)
    ensures (i, d) in Walk(up, ROOT, 0) <==> d >= 1 && Chain(up, i, d)
  {
    WalkBelow(up, ROOT, 0);
    if d >= 1 && Chain(up, i, d) {
      AncestorChain(up, i, d, d);
      WalkComplete(up, ROOT, 0, (i, d));
    }
  }

  predicate Distinct(ps: seq<(nat, nat)>) {
    forall x, y :: 0 <= x < y < |ps| ==> ps[x].0 != ps[y].0
  }

  lemma {:induction false} WalkDistinct(up: Parents, id: int, level: nat)
    requires Valid(up) && Chain(up, id, level)
    ensures Distinct(Walk(up, id, level))
    decreases |up| - level, 1, 0
  {
    ChainShort(up, id, level);
    var cs := Children(up, id, 0);
    WalkAllDistinct(up, cs, level + 1);
    WalkAllBelow(up, cs, level + 1);
    forall p | p in WalkAll(up, cs, level + 1)
      ensures p.0 != id
    {
      var c :| c in cs && Below(up, p, c, level + 1);
      if p.0 == id {
        ChainUnique(up, id, level, p.1);
      }
    }
  }

  lemma {:induction false} WalkAllDistinct(up: Parents, cs: seq<nat>, level: nat)
    requires Valid(up) && level >= 1 && AllChains(up, cs, level)
    requires Increasing(cs)
    ensures Distinct(WalkAll(up, cs, level))
    decreases |up| - level + 1, 0, |cs|
  {
    if cs != [] {
      ChainShort(up, cs[0], level);
      WalkDistinct(up, cs[0], level);
      WalkAllDistinct(up, cs[1..], level);
      WalkBelow(up, cs[0], level);
      WalkAllBelow(up, cs[1..], level);
      forall p, q | p in Walk(up, cs[0], level) && q in WalkAll(up, cs[1..], level)
        ensures p.0 != q.0
      {
        var c :| c in cs[1..] && Below(up, q, c, level);
        if p.0 == q.0 {
          ChainUnique(up, p.0, p.1, q.1);
        }
      }
    }
  }

  /** Position `x` is preceded by the entry of its parent. */
  predicate ParentBefore(up: Parents, ps: seq<(nat, nat)>, x: nat)
    requires x < |ps|
  {
    ps[x].0 < |up| && exists y :: 0 <= y < x && IsParent(up, ps[y], ps[x])
  }

  predicate IsParent(up: Parents, p: (nat, nat), c: (nat, nat)) {
    c.0 < |up| && p.0 == up[c.0] && p.1 + 1 == c.1
  }

  /** Every entry is preceded by its parent, except those that start the list. */
  predicate Ordered(up: Parents, ps: seq<(nat, nat)>, start: set<int>, level: nat) {
    forall x :: 0 <= x < |ps| ==> (ps[x].0 in start && ps[x].1 == level) || ParentBefore(up, ps, x)
  }

  lemma OrderedJoin(up: Parents, ps: seq<(nat, nat)>, qs: seq<(nat, nat)>, s: set<int>, t: set<int>, level: nat)
    requires Ordered(up, ps, s, level) && Ordered(up, qs, t, level)
    ensures Ordered(up, ps + qs, s + t, level)
  {
    forall x | 0 <= x < |ps + qs|
      ensures ((ps + qs)[x].0 in s + t && (ps + qs)[x].1 == level) || ParentBefore(up, ps + qs, x)
    {
      if x < |ps| {
        if ParentBefore(up, ps, x) {
          var y :| 0 <= y < x && IsParent(up, ps[y], ps[x]);
          assert IsParent(up, (ps + qs)[y], (ps + qs)[x]);
        }
      } else if ParentBefore(up, qs, x - |ps|) {
        var y :| 0 <= y < x - |ps| && IsParent(up, qs[y], qs[x - |ps|]);
        assert IsParent(up, (ps + qs)[|ps| + y], (ps + qs)[x]);
      }
    }
  }

  lemma OrderedUnder(up: Parents, id: nat, level: nat, qs: seq<(nat, nat)>, s: set<int>)
    requires forall c :: c in s ==> 0 <= c < |up| && up[c] == id
    requires Ordered(up, qs, s, level + 1)
    ensures Ordered(up, [(id, level)] + qs, {id}, level)
  {
    hide ParentBefore, IsParent;
    var ps := [(id, level)] + qs;
    forall x | 0 < x < |ps|
      ensures ParentBefore(up, ps, x)
    {
      assert ps[x] == qs[x - 1];
      if ParentBefore(up, qs, x - 1) {
        BeforeShifted(up, (id, level), qs, x - 1);
      } else {
        FirstIsParent(up, (id, level), qs, x - 1);
      }
    }
  }

  lemma BeforeShifted(up: Parents, p: (nat, nat), qs: seq<(nat, nat)>, x: nat)
    requires x < |qs| && ParentBefore(up, qs, x)
    ensures ParentBefore(up, [p] + qs, x + 1)
  {
    var y :| 0 <= y < x && IsParent(up, qs[y], qs[x]);
    assert ([p] + qs)[y + 1] == qs[y] && ([p] + qs)[x + 1] == qs[x];
    assert IsParent(up, ([p] + qs)[y + 1], ([p] + qs)[x + 1]);
  }

  lemma FirstIsParent(up: Parents, p: (nat, nat), qs: seq<(nat, nat)>, x: nat)
    requires x < |qs| && qs[x].0 < |up| && up[qs[x].0] == p.0 && qs[x].1 == p.1 + 1
    ensures ParentBefore(up, [p] + qs, x + 1)
  {
    assert ([p] + qs)[0] == p && ([p] + qs)[x + 1] == qs[x];
    assert IsParent(up, ([p] + qs)[0], ([p] + qs)[x + 1]);
  }

  function ToSet(cs: seq<nat>): set<int> {
    set c | c in cs
  }

  lemma {:induction false} WalkOrdered(up: Parents, id: int, level: nat)
    requires Valid(up) && Chain(up, id, level)
    ensures if id == ROOT then Ordered(up, Walk(up, id, level), ToSet(Children(up, id, 0)), level + 1)
            else Ordered(up, Walk(up, id, level), {id}, level)
    decreases |up| - level, 1, 0
  {
    hide Ordered;
    ChainShort(up, id, level);
    var cs := Children(up, id, 0);
    WalkAllOrdered(up, cs, level + 1);
    var rest := WalkAll(up, cs, level + 1);
    if id == ROOT {
      assert [] + rest == rest;
    } else {
      OrderedUnder(up, id, level, rest, ToSet(cs));
    }
  }

  lemma {:induction false} WalkAllOrdered(up: Parents, cs: seq<nat>, level: nat)
    requires Valid(up) && level >= 1 && AllChains(up, cs, level)
    ensures Ordered(up, WalkAll(up, cs, level), ToSet(cs), level)
    decreases |up| - level + 1, 0, |cs|
  {
    if cs != [] {
      hide Ordered;
      ChainShort(up, cs[0], level);
      WalkOrdered(up, cs[0], level);
      WalkAllOrdered(up, cs[1..], level);
      OrderedJoin(up, Walk(up, cs[0], level), WalkAll(up, cs[1..], level), {cs[0]}, ToSet(cs[1..]), level);
      assert {cs[0] as int} + ToSet(cs[1..]) == ToSet(cs);
    }
  }

  // ---------------------------------------------------------------- members and their names

  datatype Member = Member(name: string, leader: bool, replicateFrom: Option<string>)

  predicate UniqueNames(ms: seq<Member>) {
    forall i, j :: 0 <= i < j < |ms| ==> ms[i].name != ms[j].name
  }

  function FirstLeader(ms: seq<Member>, from: nat): (r: Option<nat>)
    requires from <= |ms|
    ensures r.Some? ==> r.value < |ms| && ms[r.value].leader
    decreases |ms| - from
  {
    if from == |ms| then None else if ms[from].leader then Some(from) else FirstLeader(ms, from + 1)
  }

  /** Without a leader, replicas hang below a node that has no name. */
  function LeaderName(ms: seq<Member>): Option<string> {
    var l := FirstLeader(ms, 0);
    if l.Some? then Some(ms[l.value].name) else None
  }

  function ReplicaNames(ms: seq<Member>): set<string> {
    set m | m in ms && !m.leader :: m.name
  }

  /** The replica streams from another replica that its tag names. */
  predicate Cascades(ms: seq<Member>, m: Member) {
    m.replicateFrom.Some? && m.replicateFrom.value != "" && m.replicateFrom.value != m.name
    && m.replicateFrom.value in ReplicaNames(ms)
  }

  function ParentKey(ms: seq<Member>, m: Member): Option<string> {
    if Cascades(ms, m) then m.replicateFrom else LeaderName(ms)
  }

  function IndexOf(ms: seq<Member>, name: string, from: nat): (r: int)
    requires from <= |ms|
    ensures r == ROOT || (from <= r < |ms| && ms[r].name == name && !ms[r].leader)
    ensures r == ROOT ==> forall i :: from <= i < |ms| && !ms[i].leader ==> ms[i].name != name
    decreases |ms| - from
  {
    if from == |ms| then ROOT
    else if ms[from].name == name && !ms[from].leader then from
    else IndexOf(ms, name, from + 1)
  }

  function UpOf(ms: seq<Member>, m: Member): int {
    if m.leader then NO_REPLICA else if Cascades(ms, m) then IndexOf(ms, m.replicateFrom.value, 0) else ROOT
  }

  function Up(ms: seq<Member>): (up: Parents)
    ensures |up| == |ms|
  {
    seq(|ms|, i requires 0 <= i < |ms| => UpOf(ms, ms[i]))
  }

  lemma UpValid(ms: seq<Member>)
    ensures Valid(Up(ms))
  {}

  /** Where a member hangs, from its tag and the names and roles of the members: a replica below the other replica that its
      tag names, or else below the root; a leader nowhere. */
  lemma UpExact(ms: seq<Member>, i: nat, j: nat)
    requires UniqueNames(ms) && i < |ms| && j < |ms|
    ensures Up(ms)[i] == j <==>
              && !ms[i].leader && !ms[j].leader && i != j
              && ms[i].replicateFrom == Some(ms[j].name) && ms[j].name != ""
    ensures ms[i].leader ==> Up(ms)[i] == NO_REPLICA
    ensures !ms[i].leader ==>
              (Up(ms)[i] == ROOT <==>
                 forall k :: 0 <= k < |ms| && k != i && !ms[k].leader && ms[k].name != "" ==>
                   ms[i].replicateFrom != Some(ms[k].name))
  {
    if !ms[i].leader && Cascades(ms, ms[i]) {
      var m :| m in ms && !m.leader && m.name == ms[i].replicateFrom.value;
      var k :| 0 <= k < |ms| && ms[k] == m;
      assert k != i;
    }
    forall k | 0 <= k < |ms| && !ms[k].leader
      ensures ms[k].name in ReplicaNames(ms)
    {
      assert ms[k] in ms;
    }
  }

  /** The members, from a position on, that a key of the dictionary maps to. */
  function Keyed(ms: seq<Member>, key: Option<string>, from: nat): seq<nat>
    requires from <= |ms|
    decreases |ms| - from
  {
    if from == |ms| then []
    else if !ms[from].leader && ParentKey(ms, ms[from]) == key then [from] + Keyed(ms, key, from + 1)
    else Keyed(ms, key, from + 1)
  }

  function KeyOf(ms: seq<Member>, id: int): Option<string> {
    if 0 <= id < |ms| then Some(ms[id].name) else LeaderName(ms)
  }

  lemma KeyMatches(ms: seq<Member>, id: int, i: nat)
    requires UniqueNames(ms) && i < |ms| && !ms[i].leader
    requires id == ROOT || (0 <= id < |ms| && !ms[id].leader)
    ensures ParentKey(ms, ms[i]) == KeyOf(ms, id) <==> Up(ms)[i] == id
  {
    hide IndexOf, FirstLeader;
    if Cascades(ms, ms[i]) {
      var p := IndexOf(ms, ms[i].replicateFrom.value, 0);
      var m :| m in ms && !m.leader && m.name == ms[i].replicateFrom.value;
      var j :| 0 <= j < |ms| && ms[j] == m;
      assert p != ROOT;
    }
  }

  lemma {:induction false} KeyedChildren(ms: seq<Member>, id: int, from: nat)
    requires UniqueNames(ms) && from <= |ms|
    requires id == ROOT || (0 <= id < |ms| && !ms[id].leader)
    ensures Keyed(ms, KeyOf(ms, id), from) == Children(Up(ms), id, from)
    decreases |ms| - from
  {
    if from < |ms| {
      if !ms[from].leader {
        KeyMatches(ms, id, from);
      }
      KeyedChildren(ms, id, from + 1);
    }
  }

  function Spaces(n: nat): string {
    seq(n, _ => ' ')
  }

  /** A name as it is listed at a level below the leader. */
  function Label(level: nat, name: string): string {
    if level == 0 then name else Spaces((level - 1) * 2) + "+ " + name
  }

  /** One blank pair for each level below the first, then a plus sign and a blank, then the name; the root keeps its name. */
  lemma LabelExact(level: nat, name: string)
    ensures level == 0 ==> Label(level, name) == name
    ensures level > 0 ==>
              && |Label(level, name)| == 2 * level + |name|
              && (forall i :: 0 <= i < 2 * level - 2 ==> Label(level, name)[i] == ' ')
              && Label(level, name)[2 * level - 2..] == "+ " + name
  {}

  /** The names once the entries are listed, one after the other. */
  function Relabel(names: seq<string>, ps: seq<(nat, nat)>): (r: seq<string>)
    ensures |r| == |names|
    decreases |ps|
  {
    if ps == [] then names
    else
      var (i, level) := ps[0];
      Relabel(if i < |names| then names[i := Label(level, names[i])] else names, ps[1..])
  }

  lemma {:induction false} RelabelAppend(names: seq<string>, ps: seq<(nat, nat)>, qs: seq<(nat, nat)>)
    ensures Relabel(names, ps + qs) == Relabel(Relabel(names, ps), qs)
    decreases |ps|
  {
    if ps == [] {
      assert ps + qs == qs;
    } else {
      var (i, level) := ps[0];
      assert (ps + qs)[1..] == ps[1..] + qs && (ps + qs)[0] == ps[0];
      RelabelAppend(if i < |names| then names[i := Label(level, names[i])] else names, ps[1..], qs);
    }
  }

  lemma {:induction false} RelabelOthers(names: seq<string>, ps: seq<(nat, nat)>, i: nat)
    requires i < |names| && forall p :: p in ps ==> p.0 != i
    ensures Relabel(names, ps)[i] == names[i]
    decreases |ps|
  {
    if ps != [] {
      var (j, level) := ps[0];
      assert ps[0] in ps;
      RelabelOthers(if j < |names| then names[j := Label(level, names[j])] else names, ps[1..], i);
    }
  }

  /** Each listed member is labelled once, with its depth; the others keep their names. */
  lemma {:induction false} RelabelAt(names: seq<string>, ps: seq<(nat, nat)>, i: nat, d: nat)
    requires Distinct(ps) && i < |names| && (i, d) in ps
    ensures Relabel(names, ps)[i] == Label(d, names[i])
    decreases |ps|
  {
    var (j, level) := ps[0];
    var next := if j < |names| then names[j := Label(level, names[j])] else names;
    if j == i {
      var x :| 0 <= x < |ps| && ps[x] == (i, d);
      RelabelOthers(next, ps[1..], i);
    } else {
      RelabelAt(next, ps[1..], i, d);
    }
  }

  function Indices(ps: seq<(nat, nat)>): seq<nat> {
    seq(|ps|, x requires 0 <= x < |ps| => ps[x].0)
  }

  type Tree = map<Option<string>, seq<nat>>

  function Lookup(topology: Tree, key: Option<string>): seq<nat> {
    if key in topology then topology[key] else []
  }

  /** The dictionary holds what each key maps to. */
  ghost predicate Holds(topology: Tree, ms: seq<Member>) {
    forall key :: Lookup(topology, key) == Keyed(ms, key, 0)
  }

  /** The members still to be listed carry their own names. */
  predicate Original(ms: seq<Member>, names: seq<string>, ps: seq<(nat, nat)>) {
    |names| == |ms| && forall p :: p in ps ==> p.0 < |ms| && names[p.0] == ms[p.0].name
  }

  lemma Apart(ps: seq<(nat, nat)>, qs: seq<(nat, nat)>, q: (nat, nat))
    requires Distinct(ps + qs) && q in qs
    ensures forall p :: p in ps ==> p.0 != q.0
  {
    var y :| 0 <= y < |qs| && qs[y] == q;
    assert (ps + qs)[|ps| + y] == q;
    forall p | p in ps
      ensures p.0 != q.0
    {
      var x :| 0 <= x < |ps| && ps[x] == p;
      assert (ps + qs)[x] == p;
    }
  }

  /** Listing in two parts: the first does not touch what the second lists. */
  lemma ListedInParts(ms: seq<Member>, names: seq<string>, first: seq<(nat, nat)>, rest: seq<(nat, nat)>)
    requires Distinct(first + rest) && Original(ms, names, first + rest)
    ensures Original(ms, names, first) && Original(ms, Relabel(names, first), rest)
    ensures Relabel(names, first + rest) == Relabel(Relabel(names, first), rest)
    ensures Indices(first + rest) == Indices(first) + Indices(rest)
  {
    hide Relabel, Distinct;
    RelabelAppend(names, first, rest);
    forall p | p in rest
      ensures p in first + rest && Relabel(names, first)[p.0] == names[p.0]
    {
      Apart(first, rest, p);
      RelabelOthers(names, first, p.0);
    }
    forall p | p in first
      ensures p in first + rest
    {
    }
  }

  /** A list of subtrees is the first of them and the others. */
  lemma NextSubtree(ms: seq<Member>, names: seq<string>, cs: seq<nat>, level: nat)
    requires Valid(Up(ms)) && level >= 1 && AllChains(Up(ms), cs, level) && cs != []
    requires Increasing(cs)
    requires Original(ms, names, WalkAll(Up(ms), cs, level))
    ensures Chain(Up(ms), cs[0], level) && AllChains(Up(ms), cs[1..], level) && Increasing(cs[1..])
    ensures var first, rest := Walk(Up(ms), cs[0], level), WalkAll(Up(ms), cs[1..], level);
            && Original(ms, names, first) && Original(ms, Relabel(names, first), rest)
            && Relabel(names, WalkAll(Up(ms), cs, level)) == Relabel(Relabel(names, first), rest)
            && Indices(WalkAll(Up(ms), cs, level)) == Indices(first) + Indices(rest)
  {
    hide Distinct, Relabel, Below, Original, Indices;
    var up := Up(ms);
    WalkAllDistinct(up, cs, level);
    assert cs[0] in cs;
    ListedInParts(ms, names, Walk(up, cs[0], level), WalkAll(up, cs[1..], level));
  }

  lemma WalkForm(up: Parents, i: nat, level: nat)
    requires Valid(up) && level >= 1 && Chain(up, i, level)
    ensures i < |up| && up[i] != NO_REPLICA && AllChains(up, Children(up, i, 0), level + 1)
    ensures Walk(up, i, level) == [(i, level)] + WalkAll(up, Children(up, i, 0), level + 1)
  {
    ChainShort(up, i, level);
  }

  /** A subtree is its first entry and the subtrees below it. */
  lemma WalkStarts(ms: seq<Member>, names: seq<string>, i: nat, level: nat)
    requires Valid(Up(ms)) && level >= 1 && Chain(Up(ms), i, level)
    requires Original(ms, names, Walk(Up(ms), i, level))
    ensures i < |names| == |ms| && names[i] == ms[i].name && !ms[i].leader
    ensures AllChains(Up(ms), Children(Up(ms), i, 0), level + 1)
    ensures var up := Up(ms);
            var ps, rest := Walk(up, i, level), WalkAll(up, Children(up, i, 0), level + 1);
            var relabelled := names[i := Label(level, names[i])];
            && Original(ms, relabelled, rest)
            && Relabel(names, ps) == Relabel(relabelled, rest)
            && Indices(ps) == [i] + Indices(rest)
  {
    hide Distinct, Below, Walk, WalkAll, Indices, AllChains, Chain;
    var up := Up(ms);
    WalkForm(up, i, level);
    var ps, rest := Walk(up, i, level), WalkAll(up, Children(up, i, 0), level + 1);
    var first := [(i, level)];
    assert (i, level) in ps;
    assert Indices(first) == [i] by {
      OneIndex(i, level);
    }
    WalkDistinct(up, i, level);
    ListedInParts(ms, names, first, rest);
    assert first[1..] == [];
    assert Relabel(names, first) == Relabel(names[i := Label(level, names[i])], []);
  }

  lemma OneIndex(i: nat, level: nat)
    ensures Indices([(i, level)]) == [i]
  {}

  lemma LookupChildren(topology: Tree, ms: seq<Member>, id: int)
    requires UniqueNames(ms) && Holds(topology, ms)
    requires id == ROOT || (0 <= id < |ms| && !ms[id].leader)
    ensures Lookup(topology, KeyOf(ms, id)) == Children(Up(ms), id, 0)
  {
    KeyedChildren(ms, id, 0);
  }

  lemma NothingLeft(up: Parents, level: nat, names: seq<string>)
    requires Valid(up) && level >= 1
    ensures Indices(WalkAll(up, [], level)) == [] && Relabel(names, WalkAll(up, [], level)) == names
  {}

  /** The recursion: list the member under its new name, then the members attached to it. */
  method GenerateTopology(level: nat, member: nat, topology: Tree, names: array<string>, ghost ms: seq<Member>)
    returns (out: seq<nat>)
    requires UniqueNames(ms) && Holds(topology, ms) && Valid(Up(ms))
    requires level >= 1 && Chain(Up(ms), member, level)
    requires names.Length == |ms| && Original(ms, names[..], Walk(Up(ms), member, level))
    modifies names
    ensures out == Indices(Walk(Up(ms), member, level))
    ensures names[..] == Relabel(old(names[..]), Walk(Up(ms), member, level))
    decreases |ms| + 1 - level, 0
  {
    hide Holds, Keyed, Original, Relabel, Indices, UniqueNames, Walk, WalkAll;
    hide Valid, Up, Label, Chain, AllChains, Increasing, Lookup;
    ghost var start := names[..];
    ChainShort(Up(ms), member, level);
    WalkStarts(ms, names[..], member, level);
    LookupChildren(topology, ms, member);
    var members := Lookup(topology, Some(names[member]));
    names[member] := Label(level, names[member]);
    assert names[..] == start[member := Label(level, start[member])];
    var below := ListAttached(level + 1, members, topology, names, ms);
    out := [member] + below;
  }

  method ListAttached(level: nat, members: seq<nat>, topology: Tree, names: array<string>, ghost ms: seq<Member>)
    returns (out: seq<nat>)
    requires UniqueNames(ms) && Holds(topology, ms) && Valid(Up(ms))
    requires level >= 1 && AllChains(Up(ms), members, level) && Increasing(members)
    requires names.Length == |ms| && Original(ms, names[..], WalkAll(Up(ms), members, level))
    modifies names
    ensures out == Indices(WalkAll(Up(ms), members, level))
    ensures names[..] == Relabel(old(names[..]), WalkAll(Up(ms), members, level))
    decreases |ms| + 1 - level, 1
  {
    hide Holds, Keyed, Original, Relabel, Indices, UniqueNames, Walk, WalkAll, Valid, Up, Chain, AllChains, Increasing;
    ghost var up, start := Up(ms), names[..];
    assert members[0..] == members;
    out := [];
    var i := 0;
    while i < |members|
      invariant i <= |members|
      invariant AllChains(up, members[i..], level) && Increasing(members[i..])
      invariant Original(ms, names[..], WalkAll(up, members[i..], level))
      invariant out + Indices(WalkAll(up, members[i..], level)) == Indices(WalkAll(up, members, level))
      invariant Relabel(names[..], WalkAll(up, members[i..], level)) == Relabel(start, WalkAll(up, members, level))
    {
      NextSubtree(ms, names[..], members[i..], level);
      assert members[i..][1..] == members[i + 1..];
      ChainShort(up, members[i], level);
      var listed := GenerateTopology(level, members[i], topology, names, ms);
      out := out + listed;
      i := i + 1;
    }
    assert members[i..] == [];
    NothingLeft(up, level, names[..]);
  }

  /** The dictionary holds the members before position `n`. */
  ghost predicate Filed(topology: Tree, ms: seq<Member>, n: nat)
    requires n <= |ms|
  {
    forall key :: Lookup(topology, key) + Keyed(ms, key, n) == Keyed(ms, key, 0)
  }

  lemma KeyedStep(ms: seq<Member>, key: Option<string>, n: nat)
    requires n < |ms|
    ensures Keyed(ms, key, n) ==
            if !ms[n].leader && ParentKey(ms, ms[n]) == key then [n] + Keyed(ms, key, n + 1) else Keyed(ms, key, n + 1)
  {}

  lemma LookupUpdated(topology: Tree, parent: Option<string>, list: seq<nat>, key: Option<string>)
    ensures Lookup(topology[parent := list], key) == if key == parent then list else Lookup(topology, key)
  {}

  lemma Regrouped(a: seq<nat>, n: nat, b: seq<nat>)
    ensures (a + [n]) + b == a + ([n] + b)
  {}

  /** One key of the dictionary, when the next replica is filed. */
  lemma FileKey(topology: Tree, ms: seq<Member>, n: nat, key: Option<string>)
    requires n < |ms| && Lookup(topology, key) + Keyed(ms, key, n) == Keyed(ms, key, 0)
    ensures ms[n].leader || key != ParentKey(ms, ms[n]) ==> Lookup(topology, key) + Keyed(ms, key, n + 1) == Keyed(ms, key, 0)
    ensures !ms[n].leader && key == ParentKey(ms, ms[n]) ==>
              (Lookup(topology, key) + [n]) + Keyed(ms, key, n + 1) == Keyed(ms, key, 0)
  {
    hide ParentKey, Keyed, Lookup;
    KeyedStep(ms, key, n);
    Regrouped(Lookup(topology, key), n, Keyed(ms, key, n + 1));
  }

  lemma FileNext(topology: Tree, ms: seq<Member>, n: nat)
    requires n < |ms| && Filed(topology, ms, n)
    ensures ms[n].leader ==> Filed(topology, ms, n + 1)
    ensures var parent := ParentKey(ms, ms[n]);
            !ms[n].leader ==> Filed(topology[parent := Lookup(topology, parent) + [n]], ms, n + 1)
  {
    hide ParentKey, Keyed, Lookup;
    var parent := ParentKey(ms, ms[n]);
    var list := Lookup(topology, parent) + [n];
    if ms[n].leader {
      forall key
        ensures Lookup(topology, key) + Keyed(ms, key, n + 1) == Keyed(ms, key, 0)
      {
        FileKey(topology, ms, n, key);
      }
    } else {
      forall key
        ensures Lookup(topology[parent := list], key) + Keyed(ms, key, n + 1) == Keyed(ms, key, 0)
      {
        FileKey(topology, ms, n, key);
        LookupUpdated(topology, parent, list, key);
      }
    }
  }

  lemma FileAll(topology: Tree, ms: seq<Member>)
    ensures Filed(map[], ms, 0)
    ensures Filed(topology, ms, |ms|) ==> Holds(topology, ms)
  {
    forall key
      ensures Lookup(map[], key) + Keyed(ms, key, 0) == Keyed(ms, key, 0)
    {
      assert [] + Keyed(ms, key, 0) == Keyed(ms, key, 0);
    }
    if Filed(topology, ms, |ms|) {
      forall key
        ensures Lookup(topology, key) == Keyed(ms, key, 0)
      {
        assert Lookup(topology, key) + [] == Lookup(topology, key);
      }
    }
  }

  /** Each replica is filed under the name of the node it streams from, in the order of the members. */
  method BuildTree(ms: seq<Member>, leaderName: Option<string>) returns (topology: Tree)
    requires leaderName == LeaderName(ms)
    ensures Holds(topology, ms)
  {
    hide Filed, Holds, LeaderName;
    topology := map[];
    var replicas := set m | m in ms && !m.leader :: m.name;
    SameNames(ms);
    FileAll(map[], ms);
    for i := 0 to |ms|
      invariant Filed(topology, ms, i)
    {
      FileNext(topology, ms, i);
      if !ms[i].leader {
        var tag := ms[i].replicateFrom;
        var parent := if tag.Some? && tag.value != "" && tag.value != ms[i].name && tag.value in replicas then tag else leaderName;
        topology := topology[parent := Lookup(topology, parent) + [i]];
      }
    }
    FileAll(topology, ms);
  }

  lemma SameNames(ms: seq<Member>)
    ensures (set m | m in ms && !m.leader :: m.name) == ReplicaNames(ms)
  {}

  /** The leader opens the list, if it has a name. */
  function Opening(ms: seq<Member>): seq<nat> {
    var l := FirstLeader(ms, 0);
    if l.Some? && ms[l.value].name != "" then [l.value] else []
  }

  /** That is the first member with the role of a leader. */
  lemma {:induction false} OpeningExact(ms: seq<Member>, i: nat)
    requires i < |ms| && ms[i].leader && forall k :: 0 <= k < i ==> !ms[k].leader
    ensures LeaderName(ms) == Some(ms[i].name) && Opening(ms) == if ms[i].name == "" then [] else [i]
  {
    FirstFound(ms, i, 0);
  }

  lemma {:induction false} FirstFound(ms: seq<Member>, i: nat, from: nat)
    requires from <= i < |ms| && ms[i].leader && forall k :: from <= k < i ==> !ms[k].leader
    ensures FirstLeader(ms, from) == Some(i)
    decreases i - from
  {
    if from < i {
      FirstFound(ms, i, from + 1);
    }
  }

  /** The members by number, and in place their new names: the walk from the root, after the leader. */
  method TopologySort(ms: seq<Member>, names: array<string>) returns (out: seq<nat>)
    requires UniqueNames(ms)
    requires names.Length == |ms| && forall i :: 0 <= i < |ms| ==> names[i] == ms[i].name
    modifies names
    ensures Valid(Up(ms))
    ensures out == Opening(ms) + Indices(Walk(Up(ms), ROOT, 0))
    ensures names[..] == Relabel(old(names[..]), Walk(Up(ms), ROOT, 0))
  {
    hide Holds, Keyed, Relabel, Indices, UniqueNames, Up, AllChains, Increasing, Lookup;
    var leader: Option<nat> := None;
    for i := 0 to |ms|
      invariant leader == None && FirstLeader(ms, 0) == FirstLeader(ms, i)
    {
      if ms[i].leader {
        leader := Some(i);
        break;
      }
    }
    var leaderName := if leader.Some? then Some(ms[leader.value].name) else None;
    var topology := BuildTree(ms, leaderName);
    UpValid(ms);
    RootChildren(ms, names[..]);
    LookupChildren(topology, ms, ROOT);
    out := if leader.Some? && ms[leader.value].name != "" then [leader.value] else [];
    var below := ListAttached(1, Lookup(topology, leaderName), topology, names, ms);
    out := out + below;
  }

  lemma RootChildren(ms: seq<Member>, names: seq<string>)
    requires |names| == |ms| && forall i :: 0 <= i < |ms| ==> names[i] == ms[i].name
    ensures Valid(Up(ms))
    ensures var up := Up(ms);
            var cs := Children(up, ROOT, 0);
            && AllChains(up, cs, 1) && Increasing(cs)
            && Walk(up, ROOT, 0) == WalkAll(up, cs, 1)
            && Original(ms, names, WalkAll(up, cs, 1))
  {
    UpValid(ms);
    var up := Up(ms);
    WalkBelow(up, ROOT, 0);
    assert [] + WalkAll(up, Children(up, ROOT, 0), 1) == WalkAll(up, Children(up, ROOT, 0), 1);
  }

  /** What the listing is, for any tags: exactly the replicas whose parents lead to the root, each once, after its
      parent and under a name that shows the length of its chain; replicas on a cycle keep their names and are
      not listed. */
  lemma ListingExact(ms: seq<Member>, names: seq<string>, i: nat)
    requires |names| == |ms| && i < |ms|
    ensures Valid(Up(ms))
    ensures var up := Up(ms);
            var ps := Walk(up, ROOT, 0);
            && Distinct(ps) && Ordered(up, ps, ToSet(Children(up, ROOT, 0)), 1)
            && (forall d :: (i, d) in ps <==> d >= 1 && Chain(up, i, d))
            && (forall d :: d >= 1 && Chain(up, i, d) ==> Relabel(names, ps)[i] == Label(d, names[i]))
            && ((forall d :: d >= 1 ==> !Chain(up, i, d)) ==> Relabel(names, ps)[i] == names[i])
  {
    hide Relabel, Label, Distinct, Ordered;
    UpValid(ms);
    var up := Up(ms);
    var ps := Walk(up, ROOT, 0);
    WalkDistinct(up, ROOT, 0);
    WalkOrdered(up, ROOT, 0);
    forall d: nat
      ensures (i, d) in ps <==> d >= 1 && Chain(up, i, d)
    {
      WalkExact(up, i, d);
    }
    forall d | d >= 1 && Chain(up, i, d)
      ensures Relabel(names, ps)[i] == Label(d, names[i])
    {
      RelabelAt(names, ps, i, d);
    }
    if forall d :: d >= 1 ==> !Chain(up, i, d) {
      RelabelOthers(names, ps, i);
    }
  }
}
