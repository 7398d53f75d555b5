/** The set of names that compares without regard to case and remembers how each was last written. */
module CaseInsensitiveSet {
  import opened Names

  function LowerChar(c: char): char {
    if 'A' <= c <= 'Z' then (c as int - 'A' as int + 'a' as int) as char else c
  }

  /** Lower case, for ASCII names. */
  function Lower(s: string): string {
    seq(|s|, i requires 0 <= i < |s| => LowerChar(s[i]))
  }

  /** The same letter in either case, or the same character. */
  predicate SameLetter(a: char, b: char) {
    || a == b
    || ('A' <= a <= 'Z' && b as int == a as int + 32)
    || ('A' <= b <= 'Z' && a as int == b as int + 32)
  }

  predicate SameSpelling(s: string, t: string) {
    |s| == |t| && forall i :: 0 <= i < |s| ==> SameLetter(s[i], t[i])
  }

  /** Two spellings are one name exactly if they differ in the case of letters at most. */
  lemma SameName(s: string, t: string)
    ensures Lower(s) == Lower(t) <==> SameSpelling(s, t)
  {
    if |s| == |t| {
      forall i | 0 <= i < |s|
        ensures Lower(s)[i] == Lower(t)[i] <==> SameLetter(s[i], t[i])
      {}
    }
  }

  /** The stored form has no capital letter, and is its own stored form. */
  lemma LowerIsLower(s: string)
    ensures Lower(Lower(s)) == Lower(s) && forall c :: c in Lower(s) ==> !('A' <= c <= 'Z')
    ensures SameSpelling(s, Lower(s))
  {}

  /** Each name is stored under its lower-cased form. */
  predicate WellKeyed(values: map<string, string>) {
    forall k :: k in values ==> Lower(values[k]) == k
  }

  lemma KeyedUnder(values: map<string, string>, k: string)
    requires WellKeyed(values) && k in values
    ensures Lower(values[k]) == k
  {}

  /** The set of lower-cased names. */
  function Folded(names: seq<string>): set<string> {
    set n | n in names :: Lower(n)
  }

  /** The names outside `rest` are added to those of the start. */
  predicate PartlyAdded(values: map<string, string>, start: map<string, string>, names: map<string, string>, rest: set<string>) {
    && values.Keys == start.Keys + (names.Keys - rest)
    && forall k :: k in values ==> values[k] == if k in names && k !in rest then names[k] else start[k]
  }

  lemma NoneAdded(start: map<string, string>, names: map<string, string>)
    ensures PartlyAdded(start, start, names, names.Keys)
  {}

  lemma OneAdded(values: map<string, string>, start: map<string, string>, names: map<string, string>, rest: set<string>, k: string)
    requires k in rest && rest <= names.Keys && PartlyAdded(values, start, names, rest)
    ensures PartlyAdded(values[k := names[k]], start, names, rest - {k})
  {}

  lemma AllAdded(values: map<string, string>, start: map<string, string>, names: map<string, string>)
    requires PartlyAdded(values, start, names, {})
    ensures values == start + names
  {
    assert names.Keys - {} == names.Keys;
  }

  /** Of two sets one within the other, the sizes tell whether they are the same. */
  lemma SizesDecide(a: map<string, string>, b: map<string, string>)
    ensures a.Keys <= b.Keys ==> |a| <= |b| && (a.Keys == b.Keys <==> |a| == |b|) && (a.Keys < b.Keys <==> |a| < |b|)
    ensures a.Keys == b.Keys ==> |a| == |b|
  {
    assert |a| == |a.Keys| && |b| == |b.Keys|;
    if a.Keys <= b.Keys {
      SubsetCard(a.Keys, b.Keys);
    }
  }

  class NameSet {
    var values: map<string, string>

    ghost predicate Valid()
      reads this
    {
      WellKeyed(values)
    }

    ghost function Members(): set<string>
      reads this
    {
      values.Keys
    }

    constructor (names: seq<string>)
      ensures Valid() && Members() == Folded(names)
    {
      values := map[];
      new;
      for i := 0 to |names|
        invariant Valid() && Members() == Folded(names[..i])
      {
        assert names[..i + 1] == names[..i] + [names[i]];
        Add(names[i]);
      }
      assert names[..|names|] == names;
    }

    method Contains(name: string) returns (r: bool)
      ensures r == (Lower(name) in Members())
    {
      r := Lower(name) in values;
    }

    method Len() returns (n: nat)
      ensures n == |Members()|
    {
      n := |values|;
    }

    method Add(name: string)
      requires Valid()
      modifies this
      ensures Valid() && Members() == old(Members()) + {Lower(name)}
      ensures values == old(values)[Lower(name) := name]
    {
      values := values[Lower(name) := name];
    }

    method Discard(name: string)
      requires Valid()
      modifies this
      ensures Valid() && Members() == old(Members()) - {Lower(name)}
      ensures values == old(values) - {Lower(name)}
    {
      values := values - {Lower(name)};
    }

    /** `|`: first the names of this set, then those of the other, which decides how they are written. */
    method Union(other: NameSet) returns (r: NameSet)
      requires Valid() && other.Valid()
      ensures fresh(r) && r.Valid() && r.Members() == Members() + other.Members()
      ensures r.values == values + other.values
    {
      r := new NameSet([]);
      r.AddAll(values);
      r.AddAll(other.values);
    }

    method AddAll(names: map<string, string>)
      requires Valid() && WellKeyed(names)
      modifies this
      ensures Valid() && values == old(values) + names
    {
      hide Lower, WellKeyed, PartlyAdded;
      var rest := names.Keys;
      ghost var start := values;
      NoneAdded(start, names);
      while rest != {}
        invariant rest <= names.Keys && Valid() && PartlyAdded(values, start, names, rest)
        decreases |rest|
      {
        var k :| k in rest;
        KeyedUnder(names, k);
        OneAdded(values, start, names, rest, k);
        Add(names[k]);
        rest := rest - {k};
      }
      AllAdded(values, start, names);
    }

    /** `&`: the names of the other set that are in this one, as the other writes them. */
    method Intersection(other: NameSet) returns (r: NameSet)
      requires Valid() && other.Valid()
      ensures fresh(r) && r.Valid() && r.Members() == Members() * other.Members()
      ensures forall k :: k in r.values ==> r.values[k] == other.values[k]
    {
      hide Lower;
      r := new NameSet([]);
      var rest := other.values.Keys;
      while rest != {}
        invariant rest <= other.values.Keys && fresh(r) && r.Valid()
        invariant forall k :: k in r.values <==> k in values && k in other.values && k !in rest
        invariant forall k :: k in r.values ==> r.values[k] == other.values[k]
        decreases |rest|
      {
        var k :| k in rest;
        var name := other.values[k];
        var found := Contains(name);
        if found {
          r.Add(name);
        }
        rest := rest - {k};
      }
    }

    /** `-`: the names of this set that are not in the other. */
    method Difference(other: NameSet) returns (r: NameSet)
      requires Valid() && other.Valid()
      ensures fresh(r) && r.Valid() && r.Members() == Members() - other.Members()
      ensures forall k :: k in r.values ==> r.values[k] == values[k]
    {
      hide Lower;
      r := new NameSet([]);
      var rest := values.Keys;
      while rest != {}
        invariant rest <= values.Keys && fresh(r) && r.Valid()
        invariant forall k :: k in r.values <==> k in values && k !in rest && k !in other.values
        invariant forall k :: k in r.values ==> r.values[k] == values[k]
        decreases |rest|
      {
        var k :| k in rest;
        var name := values[k];
        var found := other.Contains(name);
        if !found {
          r.Add(name);
        }
        rest := rest - {k};
      }
    }

    /** `<=`, and so `issubset`: compare the sizes, then look for each name. */
    method IsSubset(other: NameSet) returns (r: bool)
      requires Valid() && other.Valid()
      ensures r == (Members() <= other.Members())
    {
      SizesDecide(values, other.values);
      if |values| > |other.values| {
        return false;
      }
      var rest := values.Keys;
      while rest != {}
        invariant rest <= values.Keys && Members() - rest <= other.Members()
        decreases |rest|
      {
        var k :| k in rest;
        var found := other.Contains(values[k]);
        if !found {
          assert k in Members() && k !in other.Members();
          return false;
        }
        rest := rest - {k};
      }
      r := true;
    }

    /** `<` */
    method IsProperSubset(other: NameSet) returns (r: bool)
      requires Valid() && other.Valid()
      ensures r == (Members() < other.Members())
    {
      r := IsSubset(other);
      SizesDecide(values, other.values);
      r := |values| < |other.values| && r;
    }

    /** `==` */
    method Equals(other: NameSet) returns (r: bool)
      requires Valid() && other.Valid()
      ensures r == (Members() == other.Members())
    {
      r := IsSubset(other);
      SizesDecide(values, other.values);
      r := |values| == |other.values| && r;
    }
  }

  // ---------------------------------------------------------------- any run of additions and removals

  datatype Change = Adding(name: string) | Discarding(name: string)

  function Changed(values: map<string, string>, cs: seq<Change>): map<string, string> {
    if cs == [] then values
    else
      var before := Changed(values, cs[..|cs| - 1]);
      match cs[|cs| - 1]
      case Adding(name) => before[Lower(name) := name]
      case Discarding(name) => before - {Lower(name)}
  }

  /** The last change of a name, ignoring case. */
  function LastChange(cs: seq<Change>, key: string): Option<Change> {
    if cs == [] then None
    else if Lower(cs[|cs| - 1].name) == key then Some(cs[|cs| - 1])
    else LastChange(cs[..|cs| - 1], key)
  }

  /** From nothing, exactly the names whose last change added them are present, as they were last written. */
  lemma {:induction false} ChangedExact(cs: seq<Change>, key: string)
    ensures WellKeyed(Changed(map[], cs))
    ensures key in Changed(map[], cs) <==> LastChange(cs, key).Some? && LastChange(cs, key).value.Adding?
    ensures key in Changed(map[], cs) ==> Changed(map[], cs)[key] == LastChange(cs, key).value.name
  {
    if cs != [] {
      ChangedExact(cs[..|cs| - 1], key);
    }
  }
}
