/**
 * What `has`, `from`, `difference` and `intersection` do as written, where
 * the record's own keys meet the names it inherits from Object.prototype.
 *
 * `!!set[item]` looks the name up along the prototype chain, so it is true
 * for `toString`, `constructor` and the other members of Object.prototype
 * even when the set does not hold them. `acc[next] = true` with `next` equal
 * to "__proto__" calls Object.prototype's setter, which ignores `true`, so
 * no key is added. The object literals of `add` and `union` and the rest
 * pattern of `remove` define own properties and are not affected.
 *
 * The rest of the model uses the intended own-key lookup (`PojoSets.Has`).
 * This module states where the two differ and proves that they agree on
 * every set whose keys avoid Object.prototype's names.
 */
module PrototypeLookup {
  import opened JsKeys
  import opened PojoSets
  import opened PojoSetLaws

  /**
   * The names Object.prototype defines (sections 20.1.3 and B.2.2 of
   * ECMA-262); each holds a function or, for "__proto__", the prototype
   * object, so each is truthy.
   */
  const ObjectPrototypeNames: set<string> := {
    "constructor", "hasOwnProperty", "isPrototypeOf", "propertyIsEnumerable",
    "toLocaleString", "toString", "valueOf", "__proto__",
    "__defineGetter__", "__defineSetter__", "__lookupGetter__", "__lookupSetter__"
  }

  /** The accessor whose setter `acc[next] = true` runs instead of adding a key. */
  const ProtoName: string := "__proto__"

  /** No name in `xs` is one Object.prototype defines. */
  predicate OffPrototype(xs: seq<string>) {
    forall i | 0 <= i < |xs| :: xs[i] !in ObjectPrototypeNames
  }

  /** `has(set, item)` as written: `!!set[item]` finds own keys and inherited members. */
  function HasAsWritten(s: PojoSet, item: PropertyKey): (r: bool)
    ensures Has(s, item) ==> r
    ensures PropertyName(item) !in ObjectPrototypeNames ==> (r <==> Has(s, item))
    ensures PropertyName(item) in ObjectPrototypeNames ==> r
  {
    PropertyName(item) in s || PropertyName(item) in ObjectPrototypeNames
  }

  /** `acc[key] = true` as written: writing "__proto__" leaves the record as it was. */
  function PutAsWritten(acc: PojoSet, key: string): (r: PojoSet)
    ensures forall x :: x in r <==> x in acc || (x == key && key != ProtoName)
    ensures key != ProtoName ==> r == Put(acc, key)
    ensures key == ProtoName ==> r == acc
  {
    if key == ProtoName then acc else Put(acc, key)
  }

  /** The reduce of `from` as written, writing each of `names` into `acc`. */
  function PutAllAsWritten(acc: PojoSet, names: seq<string>): (r: PojoSet)
    ensures forall x :: x in r <==> x in acc || (x in names && x != ProtoName)
    decreases |names|
  {
    if names == [] then acc else PutAllAsWritten(PutAsWritten(acc, names[0]), names[1..])
  }

  /** `from(items)` as written. */
  function FromItemsAsWritten(items: seq<PropertyKey>): (r: PojoSet)
    ensures forall x :: x in r <==> x in Names(items) && x != ProtoName
  {
    PutAllAsWritten([], Names(items))
  }

  /** Without "__proto__" among the names, the reduce as written is the intended one. */
  lemma {:induction false} PutAllAsWrittenAgrees(acc: PojoSet, names: seq<string>)
    requires ProtoName !in names
    ensures PutAllAsWritten(acc, names) == PutAll(acc, names)
    decreases |names|
  {
    if names != [] {
      assert names[0] != ProtoName && ProtoName !in names[1..];
      PutAllAsWrittenAgrees(Put(acc, names[0]), names[1..]);
    }
  }

  /** `from(['__proto__'])` is `{}` as written; the intended set holds "__proto__". */
  lemma FromAsWrittenDropsProto(items: seq<PropertyKey>)
    requires items == [Str("__proto__")]
    ensures FromItemsAsWritten(items) == []
    ensures FromItems(items) == ["__proto__"]
  {
    assert Names(items) == [ProtoName];
    assert PutAllAsWritten([], [ProtoName]) == PutAllAsWritten([], []);
    FromDistinct(items);
  }

  /** `has(empty(), 'toString')` is true as written and false as intended. */
  lemma HasAsWrittenOfEmpty(item: PropertyKey)
    requires item == Str("toString")
    ensures HasAsWritten(Empty(), item)
    ensures !Has(Empty(), item)
  {
  }

  /** `xs.filter(i => has(b, i) == keep)` with the `has` as written. */
  function SelectAsWritten(xs: seq<string>, b: PojoSet, keep: bool): (r: seq<string>)
    ensures forall x :: x in r <==> x in xs && ((x in b || x in ObjectPrototypeNames) == keep)
    decreases |xs|
  {
    if xs == [] then []
    else
      var rest := SelectAsWritten(xs[1..], b, keep);
      if HasAsWritten(b, Str(xs[0])) == keep then [xs[0]] + rest else rest
  }

  /** On names off Object.prototype the filter as written is the intended filter. */
  lemma {:induction false} SelectAsWrittenAgrees(xs: seq<string>, b: PojoSet, keep: bool)
    requires OffPrototype(xs)
    ensures SelectAsWritten(xs, b, keep) == Select(xs, b, keep)
    decreases |xs|
  {
    if xs != [] {
      assert xs[0] !in ObjectPrototypeNames;
      assert OffPrototype(xs[1..]) by {
        forall i | 0 <= i < |xs[1..]| ensures xs[1..][i] !in ObjectPrototypeNames {
          assert xs[1..][i] == xs[i + 1];
        }
      }
      SelectAsWrittenAgrees(xs[1..], b, keep);
    }
  }

  /** `difference(a, b)` as written: it also drops every key named like a member of Object.prototype. */
  function DifferenceAsWritten(a: PojoSet, b: PojoSet): (r: PojoSet)
    ensures forall x :: x in r <==> x in a && x !in b && x !in ObjectPrototypeNames
  {
    FromItemsAsWritten(StrKeys(SelectAsWritten(ToArray(a), b, false)))
  }

  /** `intersection(a, b)` as written: it also keeps every such key of `a` but "__proto__". */
  function IntersectionAsWritten(a: PojoSet, b: PojoSet): (r: PojoSet)
    ensures forall x :: x in r <==> x in a && (x in b || x in ObjectPrototypeNames) && x != ProtoName
  {
    FromItemsAsWritten(StrKeys(SelectAsWritten(ToArray(a), b, true)))
  }

  /** A filter never brings in a name its input lacks. */
  lemma SelectOffPrototype(xs: seq<string>, b: PojoSet, keep: bool)
    requires OffPrototype(xs)
    ensures ProtoName !in Select(xs, b, keep)
  {
  }

  /**
   * When the keys of `a` avoid Object.prototype's names, `difference` and
   * `intersection` as written give exactly the intended sets, keys and order.
   */
  lemma AsWrittenAgrees(a: PojoSet, b: PojoSet)
    requires OffPrototype(a)
    ensures DifferenceAsWritten(a, b) == Difference(a, b)
    ensures IntersectionAsWritten(a, b) == Intersection(a, b)
  {
    SelectAsWrittenAgrees(a, b, false);
    SelectAsWrittenAgrees(a, b, true);
    SelectOffPrototype(a, b, false);
    SelectOffPrototype(a, b, true);
    PutAllAsWrittenAgrees([], Names(StrKeys(Select(a, b, false))));
    PutAllAsWrittenAgrees([], Names(StrKeys(Select(a, b, true))));
  }

  /** The filter as written keeps a lone key named like a member of Object.prototype. */
  lemma IntersectionAsWrittenOfInherited(a: PojoSet, b: PojoSet, x: string)
    requires a == [x] && x in ObjectPrototypeNames && x != ProtoName
    ensures IntersectionAsWritten(a, b) == a
  {
    assert SelectAsWritten(a, b, true) == a;
    assert PutAllAsWritten([], a) == PutAllAsWritten(a, []);
  }

  /** `difference(from(['toString']), empty())` is `{}` as written; the intended set keeps the key. */
  lemma DifferenceAsWrittenDropsInherited(a: PojoSet, b: PojoSet)
    requires a == ["toString"] && b == []
    ensures DifferenceAsWritten(a, b) == []
    ensures Difference(a, b) == a
  {
    DifferenceLayout(a, b);
    SelectAll(a, b, false);
  }

  /** `intersection(from(['constructor']), empty())` keeps the key as written; the intended set is empty. */
  lemma IntersectionAsWrittenKeepsInherited(a: PojoSet, b: PojoSet)
    requires a == ["constructor"] && b == []
    ensures IntersectionAsWritten(a, b) == a
    ensures Intersection(a, b) == []
  {
    IntersectionAsWrittenOfInherited(a, b, "constructor");
  }

  /**
   * As written, the cross-check of the test suite fails for a set holding
   * "toString": the intersection of the set with itself keeps the key, while
   * the cross-check drops it.
   */
  lemma CrossCheckAsWrittenFails(a: PojoSet)
    requires a == ["toString"]
    ensures IntersectionAsWritten(a, a) == a
    ensures DifferenceAsWritten(a, Union(DifferenceAsWritten(a, a), DifferenceAsWritten(a, a))) == []
  {
    IntersectionAsWrittenOfInherited(a, a, "toString");
  }

  /** When neither set has a key named like a member of Object.prototype, the cross-check holds as written. */
  lemma CrossCheckAsWrittenHolds(a: PojoSet, b: PojoSet)
    requires OffPrototype(a) && OffPrototype(b)
    ensures IntersectionAsWritten(a, b) ==
      DifferenceAsWritten(a, Union(DifferenceAsWritten(a, b), DifferenceAsWritten(b, a)))
  {
    AsWrittenAgrees(a, b);
    AsWrittenAgrees(b, a);
    AsWrittenAgrees(a, Union(Difference(a, b), Difference(b, a)));
    IntersectionCrossCheck(a, b);
  }
}
