/**
 * Laws of the PojoSet operations: the order `from` and `union` leave the
 * keys in, the set-algebra identities, round trips, and what `fromEnum`
 * makes of the object TypeScript emits for an enum.
 */
module PojoSetLaws {
  import opened JsKeys
  import opened PojoSets

  /** The index of the first occurrence of `x` in `s`. */
  function FirstIndex(s: seq<string>, x: string): (i: nat)
    requires x in s
    ensures i < |s| && s[i] == x && x !in s[..i]
  {
    if s[0] == x then 0
    else
      var i := 1 + FirstIndex(s[1..], x);
      assert s[..i] == [s[0]] + s[1..][..i - 1];
      i
  }

  /** A key past a prefix of a set is not in that prefix. */
  lemma BeyondPrefix(r: PojoSet, p: seq<string>, i: nat)
    requires |p| <= i < |r| && r[..|p|] == p
    ensures r[i] !in p
  {
  }

  /**
   * Of two keys that writing `names` adds to `acc`, the earlier one first
   * occurs earlier in `names`.
   */
  lemma {:induction false} PutAllOrdersPair(acc: PojoSet, names: seq<string>, i: nat, j: nat)
    requires |acc| <= i < j < |PutAll(acc, names)|
    ensures var r := PutAll(acc, names);
      r[i] in names && r[j] in names && FirstIndex(names, r[i]) < FirstIndex(names, r[j])
    decreases |names|
  {
    var r := PutAll(acc, names);
    var y, t := names[0], names[1..];
    var next := Put(acc, y);
    assert r == PutAll(next, t);
    BeyondPrefix(r, acc, i);
    BeyondPrefix(r, acc, j);
    if y in acc {
      PutAllOrdersPair(next, t, i, j);
    } else if i == |acc| {
      assert r[..|next|][i] == y;
      BeyondPrefix(r, next, j);
    } else {
      PutAllOrdersPair(next, t, i, j);
      BeyondPrefix(r, next, i);
      BeyondPrefix(r, next, j);
    }
  }

  /**
   * The keys that writing `names` adds to `acc` come in the order of their
   * first occurrence in `names`.
   */
  lemma PutAllFirstOccurrence(acc: PojoSet, names: seq<string>)
    ensures var r := PutAll(acc, names);
      forall i, j | |acc| <= i < j < |r| ::
        r[i] in names && r[j] in names && FirstIndex(names, r[i]) < FirstIndex(names, r[j])
  {
    var r := PutAll(acc, names);
    forall i, j | |acc| <= i < j < |r|
      ensures r[i] in names && r[j] in names && FirstIndex(names, r[i]) < FirstIndex(names, r[j])
    {
      PutAllOrdersPair(acc, names, i, j);
    }
  }

  /**
   * `toArray(from(items))` lists each distinct name once, in the order of
   * its first occurrence among the items.
   */
  lemma FromListsFirstOccurrences(items: seq<PropertyKey>)
    ensures var r, names := ToArray(FromItems(items)), Names(items);
      && NoDuplicates(r)
      && (forall x :: x in r <==> x in names)
      && forall i, j | 0 <= i < j < |r| ::
        r[i] in names && r[j] in names && FirstIndex(names, r[i]) < FirstIndex(names, r[j])
  {
    PutAllFirstOccurrence([], Names(items));
    assert ToArray(FromItems(items)) == PutAll([], Names(items));
  }

  /** Filtering a list without duplicates gives a list without duplicates. */
  lemma {:induction false} SelectKeepsDistinct(xs: seq<string>, b: PojoSet, keep: bool)
    requires NoDuplicates(xs)
    ensures NoDuplicates(Select(xs, b, keep))
    decreases |xs|
  {
    if xs != [] {
      SelectKeepsDistinct(xs[1..], b, keep);
      assert xs[0] !in xs[1..];
    }
  }

  /** Filtering by two membership tests that agree on `xs` gives the same list. */
  lemma {:induction false} SelectAgrees(xs: seq<string>, b1: PojoSet, k1: bool, b2: PojoSet, k2: bool)
    requires forall x | x in xs :: ((x in b1) == k1) == ((x in b2) == k2)
    ensures Select(xs, b1, k1) == Select(xs, b2, k2)
    decreases |xs|
  {
    if xs != [] {
      assert xs[0] in xs;
      SelectAgrees(xs[1..], b1, k1, b2, k2);
    }
  }

  /** Concatenation is associative. */
  lemma AppendAssociates(a: seq<string>, b: seq<string>, c: seq<string>)
    ensures (a + b) + c == a + (b + c)
  {
  }

  /**
   * Writing distinct `names` onto `acc` appends, in their order, the names
   * `acc` lacks.
   */
  lemma {:induction false} PutAllAppendsNew(acc: PojoSet, names: seq<string>)
    requires NoDuplicates(names)
    ensures PutAll(acc, names) == acc + Select(names, acc, false)
    decreases |names|
  {
    if names != [] {
      var y, t := names[0], names[1..];
      var next := Put(acc, y);
      assert PutAll(acc, names) == PutAll(next, t);
      assert NoDuplicates(t) && y !in t;
      PutAllAppendsNew(next, t);
      SelectAgrees(t, next, false, acc, false);
      var rest := Select(t, acc, false);
      if y in acc {
        assert Select(names, acc, false) == rest;
      } else {
        assert Select(names, acc, false) == [y] + rest;
        assert next == acc + [y];
        AppendAssociates(acc, [y], rest);
      }
    }
  }

  /** Writing `xs + ys` is writing `xs`, then `ys`. */
  lemma {:induction false} PutAllSplit(acc: PojoSet, xs: seq<string>, ys: seq<string>)
    ensures PutAll(acc, xs + ys) == PutAll(PutAll(acc, xs), ys)
    decreases |xs|
  {
    if xs == [] {
      assert xs + ys == ys;
    } else {
      assert (xs + ys)[0] == xs[0];
      assert (xs + ys)[1..] == xs[1..] + ys;
      PutAllSplit(Put(acc, xs[0]), xs[1..], ys);
    }
  }

  /** `from` of items with distinct names keeps them all, in their order. */
  lemma FromDistinct(items: seq<PropertyKey>)
    requires NoDuplicates(Names(items))
    ensures FromItems(items) == Names(items)
  {
    PutAllAppendsNew([], Names(items));
    SelectAll(Names(items), [], false);
  }

  /** An item whose key is already among the items' names changes nothing in `from`. */
  lemma FromRepeat(items: seq<PropertyKey>, item: PropertyKey)
    requires PropertyName(item) in Names(items)
    ensures FromItems(items + [item]) == FromItems(items)
  {
    var name := PropertyName(item);
    assert Names(items + [item]) == Names(items) + [name];
    PutAllSplit([], Names(items), [name]);
    assert PutAll(FromItems(items), [name]) == PutAll(Put(FromItems(items), name), []);
  }

  /** Round trip: `from(toArray(s))` is `s` itself, keys and order. */
  lemma FromToArray(s: PojoSet)
    ensures FromItems(StrKeys(ToArray(s))) == s
  {
    FromDistinct(StrKeys(s));
  }

  /**
   * `union(a, b)` lists the keys of `a` in their order, then the keys of `b`
   * that `a` lacks, in the order of `b`.
   */
  lemma UnionLayout(a: PojoSet, b: PojoSet)
    ensures Union(a, b) == a + Select(b, a, false)
  {
    PutAllAppendsNew(a, b);
  }

  /** `difference(a, b)` lists the keys of `a` not in `b`, in the order of `a`. */
  lemma DifferenceLayout(a: PojoSet, b: PojoSet)
    ensures Difference(a, b) == Select(a, b, false)
  {
    SelectKeepsDistinct(a, b, false);
    FromDistinct(StrKeys(Select(a, b, false)));
  }

  /** `intersection(a, b)` lists the keys of `a` also in `b`, in the order of `a`. */
  lemma IntersectionLayout(a: PojoSet, b: PojoSet)
    ensures Intersection(a, b) == Select(a, b, true)
  {
    SelectKeepsDistinct(a, b, true);
    FromDistinct(StrKeys(Select(a, b, true)));
  }

  /** Filtering a concatenation filters each part. */
  lemma {:induction false} SelectSplit(xs: seq<string>, ys: seq<string>, b: PojoSet, keep: bool)
    ensures Select(xs + ys, b, keep) == Select(xs, b, keep) + Select(ys, b, keep)
    decreases |xs|
  {
    if xs == [] {
      assert xs + ys == ys;
    } else {
      assert (xs + ys)[0] == xs[0];
      assert (xs + ys)[1..] == xs[1..] + ys;
      SelectSplit(xs[1..], ys, b, keep);
    }
  }

  /** A filter that every element passes keeps the list. */
  lemma {:induction false} SelectAll(xs: seq<string>, b: PojoSet, keep: bool)
    requires forall x | x in xs :: (x in b) == keep
    ensures Select(xs, b, keep) == xs
    decreases |xs|
  {
    if xs != [] {
      assert xs[0] in xs;
      SelectAll(xs[1..], b, keep);
      assert xs == [xs[0]] + xs[1..];
    }
  }

  /** A filter that no element passes gives the empty list. */
  lemma SelectNone(xs: seq<string>, b: PojoSet, keep: bool)
    requires forall x | x in xs :: (x in b) != keep
    ensures Select(xs, b, keep) == []
  {
  }

  /**
   * A list made of a passing block, a failing block and a passing block
   * filters to the two passing blocks, in order.
   */
  lemma SelectBlocks(p: seq<string>, q: seq<string>, r: seq<string>, b: PojoSet, keep: bool)
    requires forall x | x in p :: (x in b) == keep
    requires forall x | x in q :: (x in b) != keep
    requires forall x | x in r :: (x in b) == keep
    ensures Select(p + q + r, b, keep) == p + r
  {
    SelectSplit(p, q, b, keep);
    SelectAll(p, b, keep);
    SelectNone(q, b, keep);
    assert Select(p + q, b, keep) == p;
    SelectSplit(p + q, r, b, keep);
    SelectAll(r, b, keep);
  }

  /**
   * When `b` is a block of keys `a` lacks, a block it has and another block
   * it lacks, `union(a, b)` is `a` followed by the two new blocks.
   */
  lemma UnionOfBlocks(a: PojoSet, b: PojoSet, p: seq<string>, q: seq<string>, r: seq<string>)
    requires b == p + q + r
    requires forall x | x in p :: x !in a
    requires forall x | x in q :: x in a
    requires forall x | x in r :: x !in a
    ensures Union(a, b) == a + p + r
  {
    UnionLayout(a, b);
    SelectBlocks(p, q, r, a, false);
  }

  /**
   * When `a` is a block of keys `b` lacks, a block it has and another block
   * it lacks, `difference(a, b)` is the two blocks `b` lacks.
   */
  lemma DifferenceOfBlocks(a: PojoSet, b: PojoSet, p: seq<string>, q: seq<string>, r: seq<string>)
    requires a == p + q + r
    requires forall x | x in p :: x !in b
    requires forall x | x in q :: x in b
    requires forall x | x in r :: x !in b
    ensures Difference(a, b) == p + r
  {
    DifferenceLayout(a, b);
    SelectBlocks(p, q, r, b, false);
  }

  /**
   * When `a` is a block of keys `b` has, a block it lacks and another block
   * it has, `intersection(a, b)` is the two blocks `b` has.
   */
  lemma IntersectionOfBlocks(a: PojoSet, b: PojoSet, p: seq<string>, q: seq<string>, r: seq<string>)
    requires a == p + q + r
    requires forall x | x in p :: x in b
    requires forall x | x in q :: x !in b
    requires forall x | x in r :: x in b
    ensures Intersection(a, b) == p + r
  {
    IntersectionLayout(a, b);
    SelectBlocks(p, q, r, b, true);
  }

  /**
   * Membership through `has`: an item is in the result of each operation
   * exactly when the operation's definition says so.
   */
  lemma HasOfOperations(s: PojoSet, a: PojoSet, b: PojoSet, item: PropertyKey, x: PropertyKey)
    ensures !Has(Empty(), x)
    ensures Has(Add(s, item), x) <==> PropertyName(x) == PropertyName(item) || Has(s, x)
    ensures Has(Remove(s, item), x) <==> PropertyName(x) != PropertyName(item) && Has(s, x)
    ensures Has(Union(a, b), x) <==> Has(a, x) || Has(b, x)
    ensures Has(Difference(a, b), x) <==> Has(a, x) && !Has(b, x)
    ensures Has(Intersection(a, b), x) <==> Has(a, x) && Has(b, x)
  {
  }

  /** Union is commutative up to key order. */
  lemma UnionCommutes(a: PojoSet, b: PojoSet)
    ensures SameContent(Union(a, b), Union(b, a))
  {
  }

  /** Union is associative up to key order. */
  lemma UnionAssociates(a: PojoSet, b: PojoSet, c: PojoSet)
    ensures SameContent(Union(Union(a, b), c), Union(a, Union(b, c)))
  {
  }

  /** Intersection is commutative up to key order. */
  lemma IntersectionCommutes(a: PojoSet, b: PojoSet)
    ensures SameContent(Intersection(a, b), Intersection(b, a))
  {
  }

  /**
   * The cross-check: removing from `a` the symmetric difference of `a` and
   * `b` gives exactly `intersection(a, b)`, the same keys in the same order.
   */
  lemma IntersectionCrossCheck(a: PojoSet, b: PojoSet)
    ensures Intersection(a, b) == Difference(a, Union(Difference(a, b), Difference(b, a)))
  {
    var symmetric := Union(Difference(a, b), Difference(b, a));
    IntersectionLayout(a, b);
    DifferenceLayout(a, symmetric);
    SelectAgrees(a, b, true, symmetric, false);
  }

  /** Adding an absent key and removing it again gives back the same set. */
  lemma RemoveUndoesAdd(s: PojoSet, item: PropertyKey)
    requires !Has(s, item)
    ensures Remove(Add(s, item), item) == s
  {
  }

  /** A member of a TypeScript enum declaration: its name and its initial value. */
  datatype EnumMember = EnumMember(name: string, value: PropertyKey)

  /**
   * The entries TypeScript emits for one member: `E[name] = value`, and for
   * a numeric value also the reverse entry `E[value] = name`.
   */
  function MemberEntries(m: EnumMember): (r: seq<(string, PropertyKey)>)
    ensures r != [] && r[0] == (m.name, m.value)
    ensures |r| == 2 <==> m.value.Num?
    ensures forall i | 1 <= i < |r| :: m.value.Num? && ParseInt10(r[i].0) == Some(m.value.n) && r[i].1 == Str(m.name)
  {
    match m.value
    case Num(n) =>
      ParseIntOfNumberToString(n);
      [(m.name, m.value), (NumberToString(n), Str(m.name))]
    case Str(_) => [(m.name, m.value)]
  }

  /** The `[key, value]` entries of the object emitted for an enum declaration. */
  function EnumObject(members: seq<EnumMember>): (r: seq<(string, PropertyKey)>)
    ensures |members| <= |r| <= 2 * |members|
    decreases |members|
  {
    if members == [] then [] else MemberEntries(members[0]) + EnumObject(members[1..])
  }

  /** The emitted object holds exactly the entries of its members, forward and reverse. */
  lemma {:induction false} EnumObjectEntries(members: seq<EnumMember>, e: (string, PropertyKey))
    ensures e in EnumObject(members) <==> exists i | 0 <= i < |members| :: e in MemberEntries(members[i])
    decreases |members|
  {
    if members != [] {
      var tail := members[1..];
      EnumObjectEntries(tail, e);
      assert forall i | 0 <= i < |tail| :: tail[i] == members[i + 1];
      if exists i | 0 <= i < |members| :: e in MemberEntries(members[i]) {
        var i :| 0 <= i < |members| && e in MemberEntries(members[i]);
        if i > 0 {
          assert e in MemberEntries(tail[i - 1]);
        }
      }
    }
  }

  /** The declared values of an enum, in declaration order. */
  function DeclaredValues(members: seq<EnumMember>): seq<PropertyKey> {
    seq(|members|, i requires 0 <= i < |members| => members[i].value)
  }

  /** The declared values are the first member's value, then the others'. */
  lemma DeclaredValuesCons(members: seq<EnumMember>)
    requires members != []
    ensures DeclaredValues(members) == [members[0].value] + DeclaredValues(members[1..])
  {
  }

  /** The forward values of one entry followed by others. */
  lemma ForwardValuesCons(e: (string, PropertyKey), rest: seq<(string, PropertyKey)>)
    ensures ForwardValues([e] + rest) == (if IsForwardEntry(e) then [e.1] else []) + ForwardValues(rest)
  {
  }

  /**
   * The forward entries of one member's emitted entries are its declared
   * value alone: the reverse entry's key is the numeral of an integer.
   */
  lemma ForwardValuesOfMember(m: EnumMember, rest: seq<(string, PropertyKey)>)
    requires ParseInt10(m.name).None?
    ensures ForwardValues(MemberEntries(m) + rest) == [m.value] + ForwardValues(rest)
  {
    var forward := (m.name, m.value);
    match m.value {
      case Num(n) =>
        var reverse := (NumberToString(n), Str(m.name));
        ParseIntOfNumberToString(n);
        ForwardValuesCons(reverse, rest);
        ForwardValuesCons(forward, [reverse] + rest);
        assert MemberEntries(m) + rest == [forward] + ([reverse] + rest);
      case Str(_) =>
        ForwardValuesCons(forward, rest);
        assert MemberEntries(m) + rest == [forward] + rest;
    }
  }

  /**
   * When no member name parses as an integer, the forward entries of the
   * emitted object are exactly the declared members: every reverse entry
   * is dropped.
   */
  lemma {:induction false} ForwardValuesOfEnumObject(members: seq<EnumMember>)
    requires forall i | 0 <= i < |members| :: ParseInt10(members[i].name).None?
    ensures ForwardValues(EnumObject(members)) == DeclaredValues(members)
    decreases |members|
  {
    if members != [] {
      var tail := members[1..];
      assert forall i | 0 <= i < |tail| :: ParseInt10(tail[i].name).None? by {
        forall i | 0 <= i < |tail| ensures ParseInt10(tail[i].name).None? {
          assert tail[i] == members[i + 1];
        }
      }
      ForwardValuesOfEnumObject(tail);
      ForwardValuesOfMember(members[0], EnumObject(tail));
      DeclaredValuesCons(members);
    }
  }

  /**
   * `fromEnum` of an enum whose member names do not parse as integers is
   * `from` of its declared values: numeric, string and hybrid enums alike.
   */
  lemma FromEnumOfEnum(members: seq<EnumMember>)
    requires forall i | 0 <= i < |members| :: ParseInt10(members[i].name).None?
    ensures FromEnum(EnumObject(members)) == FromItems(DeclaredValues(members))
  {
    ForwardValuesOfEnumObject(members);
  }
}
