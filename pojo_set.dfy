/**
 * PojoSet: an immutable set of property keys stored as a plain record whose
 * present keys all hold `true`.
 *
 * A record is modelled by its own keys in insertion order. Every
 * operation returns a new value and leaves its arguments as they were.
 *
 * `Has` looks up own keys only, and `Put` treats "__proto__" as an ordinary
 * key. The code as written also sees the names of Object.prototype; module
 * PrototypeLookup models that and relates the two.
 */
module PojoSets {
  import opened JsKeys

  predicate NoDuplicates(s: seq<string>) {
    forall i, j | 0 <= i < j < |s| :: s[i] != s[j]
  }

  /** The keys of a `PojoSet<T>` record, in insertion order; each maps to `true`. */
  type PojoSet = s: seq<string> | NoDuplicates(s) witness []

  /** Jest's `toEqual` on two such records: the same keys, in any order. */
  ghost predicate SameContent(a: PojoSet, b: PojoSet) {
    forall x :: x in a <==> x in b
  }

  /** The names the record stores `items` under, one per item. */
  function Names(items: seq<PropertyKey>): seq<string> {
    seq(|items|, i requires 0 <= i < |items| => PropertyName(items[i]))
  }

  /** Strings passed where `PropertyKey`s are expected. */
  function StrKeys(names: seq<string>): (keys: seq<PropertyKey>)
    ensures Names(keys) == names
  {
    var keys := seq(|names|, i requires 0 <= i < |names| => Str(names[i]));
    assert Names(keys) == names;
    keys
  }

  /**
   * `acc[key] = true` on a record: a key not yet present is added after the
   * others, a present key keeps its place.
   */
  function Put(acc: PojoSet, key: string): (r: PojoSet)
    ensures forall x :: x in r <==> x == key || x in acc
    ensures |acc| <= |r| && r[..|acc|] == acc
    ensures key in acc ==> r == acc
    ensures key !in acc ==> |r| == |acc| + 1
  {
    if key in acc then acc else acc + [key]
  }

  /** Writing each of `names` into the record `acc`, left to right. */
  function PutAll(acc: PojoSet, names: seq<string>): (r: PojoSet)
    ensures forall x :: x in r <==> x in acc || x in names
    ensures |acc| <= |r| <= |acc| + |names| && r[..|acc|] == acc
    decreases |names|
  {
    if names == [] then acc else PutAll(Put(acc, names[0]), names[1..])
  }

  /** Writing `names[i..]` is writing `names[i]`, then `names[i + 1..]`. */
  lemma PutAllStep(acc: PojoSet, names: seq<string>, i: nat)
    requires i < |names|
    ensures PutAll(acc, names[i..]) == PutAll(Put(acc, names[i]), names[i + 1..])
  {
  }

  /**
   * The value `from(items)` returns: `items.reduce` writing each item into
   * an initially empty record.
   */
  function FromItems(items: seq<PropertyKey>): (r: PojoSet)
    ensures forall x :: x in r <==> x in Names(items)
    ensures |r| <= |items|
  {
    PutAll([], Names(items))
  }

  /** `from(items)`: the reduce loop, writing `acc[next] = true` for each item. */
  method From(items: seq<PropertyKey>) returns (acc: PojoSet)
    ensures acc == FromItems(items)
  {
    ghost var names := Names(items);
    acc := [];
    for i := 0 to |items|
      invariant PutAll(acc, names[i..]) == PutAll([], names)
    {
      var next := PropertyName(items[i]);
      PutAllStep(acc, names, i);
      if next !in acc {
        acc := acc + [next];
      }
    }
    assert names[|items|..] == [];
  }

  /** `toArray(set)`: `Object.keys`, each stored key once, in insertion order. */
  function ToArray(s: PojoSet): (r: seq<string>)
    ensures NoDuplicates(r) && |r| == |s|
    ensures forall x :: x in r <==> x in s
  {
    s
  }

  /**
   * `has(set, item)` as intended: whether `Object.keys` lists the item's
   * name. The code's `!!set[item]` is also true for the names of
   * Object.prototype (`PrototypeLookup.HasAsWritten`).
   */
  function Has(s: PojoSet, item: PropertyKey): (r: bool)
    ensures r <==> PropertyName(item) in ToArray(s)
  {
    PropertyName(item) in s
  }

  /** `empty()`: the record `{}`. */
  function Empty(): (r: PojoSet)
    ensures forall item :: !Has(r, item)
    ensures ToArray(r) == []
  {
    []
  }

  /**
   * `add(set, item)`: `{...set, [item]: true}`. The spread copies the keys
   * of `set` in order, then the item's key is written.
   */
  function Add(s: PojoSet, item: PropertyKey): (r: PojoSet)
    ensures forall x :: x in r <==> x == PropertyName(item) || x in s
    ensures |s| <= |r| && r[..|s|] == s
    ensures Has(s, item) ==> r == s
  {
    Put(s, PropertyName(item))
  }

  /** The rest of a destructuring `{[name]: _, ...rest}`: every key but `name`, in order. */
  function Omit(s: PojoSet, name: string): (r: PojoSet)
    ensures forall x :: x in r <==> x in s && x != name
    ensures name !in s ==> r == s
    decreases |s|
  {
    if s == [] then []
    else
      var rest := Omit(s[1..], name);
      if s[0] == name then rest
      else
        assert s[0] !in s[1..];
        [s[0]] + rest
  }

  /** Omitting the key at index `i` closes the gap and keeps the others in order. */
  lemma {:induction false} OmitAt(s: PojoSet, i: nat)
    requires i < |s|
    ensures Omit(s, s[i]) == s[..i] + s[i + 1..]
    decreases i
  {
    if i == 0 {
      assert s[i] !in s[1..];
    } else {
      var tail: PojoSet := s[1..];
      OmitAt(tail, i - 1);
      assert tail[i - 1] == s[i];
      assert tail[..i - 1] + tail[i..] == s[1..i] + s[i + 1..];
      assert s[..i] == [s[0]] + s[1..i];
    }
  }

  /**
   * `remove(set, item)`: `const {[item]: removed, ...remaining} = set`,
   * returning `remaining`.
   */
  function Remove(s: PojoSet, item: PropertyKey): (r: PojoSet)
    ensures forall x :: x in r <==> x in s && x != PropertyName(item)
    ensures !Has(s, item) ==> r == s
    ensures forall i | 0 <= i < |s| && s[i] == PropertyName(item) :: r == s[..i] + s[i + 1..]
  {
    var name := PropertyName(item);
    assert forall i | 0 <= i < |s| && s[i] == name :: Omit(s, name) == s[..i] + s[i + 1..] by {
      forall i | 0 <= i < |s| && s[i] == name ensures Omit(s, name) == s[..i] + s[i + 1..] {
        OmitAt(s, i);
      }
    }
    Omit(s, name)
  }

  /** `union(a, b)`: `{...a, ...b}`, the keys of `b` written onto a copy of `a`. */
  function Union(a: PojoSet, b: PojoSet): (r: PojoSet)
    ensures forall x :: x in r <==> x in a || x in b
    ensures |a| <= |r| && r[..|a|] == a
  {
    PutAll(a, b)
  }

  /** `PojoSet.plus` is the same function object as `union`. */
  function Plus(a: PojoSet, b: PojoSet): PojoSet {
    Union(a, b)
  }

  /** `xs.filter(i => has(b, i) == keep)`. */
  function Select(xs: seq<string>, b: PojoSet, keep: bool): (r: seq<string>)
    ensures forall x :: x in r <==> x in xs && (x in b) == keep
    decreases |xs|
  {
    if xs == [] then []
    else
      var rest := Select(xs[1..], b, keep);
      if Has(b, Str(xs[0])) == keep then [xs[0]] + rest else rest
  }

  /** `difference(a, b)`: `from(toArray(a).filter(i => !has(b, i)))`. */
  function Difference(a: PojoSet, b: PojoSet): (r: PojoSet)
    ensures forall x :: x in r <==> x in a && x !in b
  {
    FromItems(StrKeys(Select(ToArray(a), b, false)))
  }

  /** `PojoSet.subtract` is the same function object as `difference`. */
  function Subtract(a: PojoSet, b: PojoSet): PojoSet {
    Difference(a, b)
  }

  /** `intersection(a, b)`: `from(toArray(a).filter(i => has(b, i)))`. */
  function Intersection(a: PojoSet, b: PojoSet): (r: PojoSet)
    ensures forall x :: x in r <==> x in a && x in b
  {
    FromItems(StrKeys(Select(ToArray(a), b, true)))
  }

  /** The values of the entries whose key `isNaN(parseInt(k, 10))`, in entry order. */
  function ForwardValues(entries: seq<(string, PropertyKey)>): (r: seq<PropertyKey>)
    ensures |r| <= |entries|
    ensures forall v | v in r :: exists i | 0 <= i < |entries| :: entries[i].1 == v
    decreases |entries|
  {
    if entries == [] then []
    else
      var tail := entries[1..];
      var rest := ForwardValues(tail);
      assert forall i | 0 <= i < |tail| :: tail[i] == entries[i + 1];
      if ParseInt10(entries[0].0).None? then [entries[0].1] + rest else rest
  }

  /** Forward entries are those whose key does not parse as an integer. */
  ghost predicate IsForwardEntry(e: (string, PropertyKey)) {
    ParseInt10(e.0).None?
  }

  /** A value is among the forward values exactly when some forward entry holds it. */
  lemma {:induction false} ForwardValuesHold(entries: seq<(string, PropertyKey)>, v: PropertyKey)
    ensures v in ForwardValues(entries) <==>
      exists i | 0 <= i < |entries| :: IsForwardEntry(entries[i]) && entries[i].1 == v
    decreases |entries|
  {
    if entries != [] {
      var tail := entries[1..];
      ForwardValuesHold(tail, v);
      assert forall i | 0 <= i < |tail| :: tail[i] == entries[i + 1];
      if exists i | 0 <= i < |entries| :: IsForwardEntry(entries[i]) && entries[i].1 == v {
        var i :| 0 <= i < |entries| && IsForwardEntry(entries[i]) && entries[i].1 == v;
        if i > 0 {
          assert IsForwardEntry(tail[i - 1]) && tail[i - 1].1 == v;
        }
      }
    }
  }

  /** The names stored by `from(values)` are the names of the values. */
  lemma NamesHold(values: seq<PropertyKey>, x: string)
    ensures x in Names(values) <==> exists v | v in values :: PropertyName(v) == x
  {
    if x in Names(values) {
      var j :| 0 <= j < |values| && Names(values)[j] == x;
      assert values[j] in values;
    }
    if exists v | v in values :: PropertyName(v) == x {
      var v :| v in values && PropertyName(v) == x;
      var j :| 0 <= j < |values| && values[j] == v;
      assert Names(values)[j] == x;
    }
  }

  /**
   * `fromEnum(enumObj)`: the set of the values of the entries whose key does
   * not parse as an integer. `entries` are the object's `[key, value]` pairs
   * in `Object.keys` order.
   */
  function FromEnum(entries: seq<(string, PropertyKey)>): (r: PojoSet)
    ensures forall x :: x in r <==>
      exists i | 0 <= i < |entries| :: IsForwardEntry(entries[i]) && PropertyName(entries[i].1) == x
  {
    var values := ForwardValues(entries);
    var r := FromItems(values);
    assert forall x :: x in r <==>
      exists i | 0 <= i < |entries| :: IsForwardEntry(entries[i]) && PropertyName(entries[i].1) == x
    by {
      forall x ensures x in r <==>
        exists i | 0 <= i < |entries| :: IsForwardEntry(entries[i]) && PropertyName(entries[i].1) == x
      {
        NamesHold(values, x);
        if x in r {
          var v :| v in values && PropertyName(v) == x;
          ForwardValuesHold(entries, v);
        }
        if exists i | 0 <= i < |entries| :: IsForwardEntry(entries[i]) && PropertyName(entries[i].1) == x {
          var i :| 0 <= i < |entries| && IsForwardEntry(entries[i]) && PropertyName(entries[i].1) == x;
          ForwardValuesHold(entries, entries[i].1);
        }
      }
    }
    r
  }
}
