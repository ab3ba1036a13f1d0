/**
 * The concrete behaviours the PojoSet test suite describes, stated on the
 * model: duplicate collapse, numeric keys, enums of each kind, edits that
 * leave their argument alone, and the set algebra on small sets.
 *
 * Each scenario takes the values a test starts from as parameters and pins
 * them with its precondition. This is for the verifier's sake: with the
 * literals written into the goal, it unfolds `PutAll` and `Select` on them
 * eagerly and the proofs grow far more costly. The lemmas say the same as
 * closed ones would, since each precondition admits exactly one input.
 */
module PojoSetScenarios {
  import opened JsKeys
  import opened PojoSets
  import opened PojoSetLaws
  import opened EnumFixtures

  /** `from(['a', 'b', 'c'])` is {a, b, c}, and `toArray` lists the keys in that order. */
  lemma FromThreeKeys(items: seq<PropertyKey>)
    requires items == [Str("a"), Str("b"), Str("c")]
    ensures FromItems(items) == ["a", "b", "c"]
    ensures ToArray(FromItems(items)) == ["a", "b", "c"]
  {
    assert Names(items) == ["a", "b", "c"];
    FromDistinct(items);
  }

  /** `from(['a', 'b', 'c', 'b'])` collapses the repeated key and keeps first-occurrence order. */
  lemma FromDropsDuplicates(items: seq<PropertyKey>)
    requires items == [Str("a"), Str("b"), Str("c"), Str("b")]
    ensures FromItems(items) == ["a", "b", "c"]
  {
    var abc := items[..3];
    assert items == abc + [items[3]];
    assert Names(abc) == ["a", "b", "c"];
    FromDistinct(abc);
    FromRepeat(abc, items[3]);
  }

  /** A numeric key is stored under its numeral: `from([1, -2, 10])` has the keys "1", "-2", "10". */
  lemma FromNumbersStoresNumerals(items: seq<PropertyKey>)
    requires items == [Num(1), Num(-2), Num(10)]
    ensures FromItems(items) == ["1", "-2", "10"]
  {
    assert NumberToString(1) == "1";
    assert NumberToString(-2) == "-2";
    assert NumberToString(10) == "10";
    assert Names(items) == ["1", "-2", "10"];
    FromDistinct(items);
  }

  /** `has` sees a number and its numeral as the same key. */
  lemma NumberAndNumeralAreOneKey(s: PojoSet)
    requires s == ["1"]
    ensures Has(s, Num(1)) && Has(s, Str("1"))
  {
  }

  /** `fromEnum(MyStringEnum)` is {a, b, c}. */
  lemma FromStringEnum()
    ensures FromEnum(EnumObject(StringEnum())) == ["a", "b", "c"]
  {
    StringEnumValues();
    FixturesAreIdentifierNamed();
    FromIdentifierEnum(StringEnum(), ["a", "b", "c"]);
  }

  /** `fromEnum(MyNumericEnum)` is {1, 2, 3}: the reverse entries are dropped. */
  lemma FromNumericEnum()
    ensures FromEnum(EnumObject(NumericEnum())) == ["1", "2", "3"]
  {
    NumericEnumValues();
    FixturesAreIdentifierNamed();
    FromIdentifierEnum(NumericEnum(), ["1", "2", "3"]);
  }

  /** `fromEnum(MyHybridEnum)` is {1, 2, 3, a, b, c}: the reverse entries are dropped. */
  lemma FromHybridEnum()
    ensures FromEnum(EnumObject(HybridEnum())) == ["1", "2", "3", "a", "b", "c"]
  {
    HybridEnumValues();
    FixturesAreIdentifierNamed();
    FromIdentifierEnum(HybridEnum(), ["1", "2", "3", "a", "b", "c"]);
  }

  /**
   * The integer filter also drops a forward member whose quoted name starts
   * with a digit: `enum E { '1st' = 'first' }` gives the empty set.
   */
  lemma FromEnumDropsDigitLedName(members: seq<EnumMember>)
    requires members == [EnumMember("1st", Str("first"))]
    ensures FromEnum(EnumObject(members)) == []
  {
    var name := members[0].name;
    assert AllWhiteSpace(name[..0]) && IsDigit(name[0]);
    StartsWithIntegerParses(name);
    var entries := EnumObject(members);
    assert entries == [(name, members[0].value)] + [];
    ForwardValuesCons(entries[0], []);
  }

  /** `add(s, 'd')` on {a, b, c} is {a, b, c, d}; `s` itself is a value and stays {a, b, c}. */
  lemma AddExample(s: PojoSet)
    requires s == ["a", "b", "c"]
    ensures Add(s, Str("d")) == ["a", "b", "c", "d"]
  {
  }

  /** `remove(s, 'c')` on {a, b, c} is {a, b}; removing a key `s` lacks gives `s` back. */
  lemma RemoveExample(s: PojoSet)
    requires s == ["a", "b", "c"]
    ensures Remove(s, Str("c")) == ["a", "b"]
    ensures Remove(s, Str("z")) == s
  {
  }

  /** `union({a, b, c}, {b, c, d, e})` has the keys of both, those of the first set first. */
  lemma UnionExample(a: PojoSet, b: PojoSet)
    requires a == ["a", "b", "c"] && b == ["b", "c", "d", "e"]
    ensures Union(a, b) == ["a", "b", "c", "d", "e"]
  {
    UnionOfBlocks(a, b, [], ["b", "c"], ["d", "e"]);
  }

  /** `plus` is `union`: the other way round the keys are the same, in another order. */
  lemma PlusExample(a: PojoSet, b: PojoSet)
    requires a == ["a", "b", "c"] && b == ["b", "c", "d", "e"]
    ensures Plus(b, a) == ["b", "c", "d", "e", "a"]
  {
    UnionOfBlocks(b, a, ["a"], ["b", "c"], []);
  }

  /** `difference({a, b, c}, {b, c, d, e})` is {a}. */
  lemma DifferenceExample(a: PojoSet, b: PojoSet)
    requires a == ["a", "b", "c"] && b == ["b", "c", "d", "e"]
    ensures Difference(a, b) == ["a"]
  {
    DifferenceOfBlocks(a, b, ["a"], ["b", "c"], []);
  }

  /** `subtract` is `difference`, and it is not commutative: {b, c, d, e} less {a, b, c} is {d, e}. */
  lemma SubtractExample(a: PojoSet, b: PojoSet)
    requires a == ["a", "b", "c"] && b == ["b", "c", "d", "e"]
    ensures Subtract(b, a) == ["d", "e"]
  {
    DifferenceOfBlocks(b, a, [], ["b", "c"], ["d", "e"]);
  }

  /** The union of the string and the numeric enum's sets has the hybrid enum's keys. */
  lemma UnionOfEnumsExample(strings: PojoSet, numbers: PojoSet)
    requires strings == ["a", "b", "c"] && numbers == ["1", "2", "3"]
    ensures Union(strings, numbers) == ["a", "b", "c", "1", "2", "3"]
  {
    UnionOfBlocks(strings, numbers, numbers, [], []);
  }

  /** `plus` of the numeric and the string enum's sets is the hybrid enum's set, order included. */
  lemma PlusOfEnumsExample(strings: PojoSet, numbers: PojoSet)
    requires strings == ["a", "b", "c"] && numbers == ["1", "2", "3"]
    ensures Plus(numbers, strings) == ["1", "2", "3", "a", "b", "c"]
  {
    UnionOfBlocks(numbers, strings, strings, [], []);
  }

  /** The string and the numeric enum's sets share no key: the first less the second is itself. */
  lemma DifferenceOfEnumsExample(strings: PojoSet, numbers: PojoSet)
    requires strings == ["a", "b", "c"] && numbers == ["1", "2", "3"]
    ensures Difference(strings, numbers) == strings
  {
    DifferenceOfBlocks(strings, numbers, strings, [], []);
  }

  /** The other way round, the numeric enum's set less the string enum's is itself. */
  lemma SubtractOfEnumsExample(strings: PojoSet, numbers: PojoSet)
    requires strings == ["a", "b", "c"] && numbers == ["1", "2", "3"]
    ensures Subtract(numbers, strings) == numbers
  {
    DifferenceOfBlocks(numbers, strings, numbers, [], []);
  }

  /** The hybrid enum's set less the string enum's is the numeric enum's set. */
  lemma DifferenceOfHybridExample(hybrid: PojoSet, strings: PojoSet)
    requires hybrid == ["1", "2", "3", "a", "b", "c"] && strings == ["a", "b", "c"]
    ensures Difference(hybrid, strings) == ["1", "2", "3"]
  {
    DifferenceOfBlocks(hybrid, strings, ["1", "2", "3"], strings, []);
  }

  /** The string enum's set less the hybrid enum's is empty. */
  lemma SubtractHybridExample(hybrid: PojoSet, strings: PojoSet)
    requires hybrid == ["1", "2", "3", "a", "b", "c"] && strings == ["a", "b", "c"]
    ensures Subtract(strings, hybrid) == []
  {
  }

  /** The intersection test's first input: `from([1, 2, 3, 4, 5])` stores the numerals. */
  lemma IntersectionFirstInput(xs: seq<PropertyKey>)
    requires xs == [Num(1), Num(2), Num(3), Num(4), Num(5)]
    ensures FromItems(xs) == ["1", "2", "3", "4", "5"]
  {
    assert Names(xs) == ["1", "2", "3", "4", "5"];
    FromDistinct(xs);
  }

  /** The intersection test's second input: `from([9, 8, 7, 6, 5, 4])` stores the numerals. */
  lemma IntersectionSecondInput(ys: seq<PropertyKey>)
    requires ys == [Num(9), Num(8), Num(7), Num(6), Num(5), Num(4)]
    ensures FromItems(ys) == ["9", "8", "7", "6", "5", "4"]
  {
    assert Names(ys) == ["9", "8", "7", "6", "5", "4"];
    FromDistinct(ys);
  }

  /** The intersection of {1, ..., 5} and {9, ..., 4} is {4, 5}, in the order of the first set. */
  lemma IntersectionExample(a: PojoSet, b: PojoSet)
    requires a == ["1", "2", "3", "4", "5"] && b == ["9", "8", "7", "6", "5", "4"]
    ensures Intersection(a, b) == ["4", "5"]
  {
    IntersectionOfBlocks(a, b, [], ["1", "2", "3"], ["4", "5"]);
  }

  /** The other way round the intersection has the same keys, in the order of the other set. */
  lemma IntersectionReversedExample(a: PojoSet, b: PojoSet)
    requires a == ["1", "2", "3", "4", "5"] && b == ["9", "8", "7", "6", "5", "4"]
    ensures Intersection(b, a) == ["5", "4"]
  {
    IntersectionOfBlocks(b, a, [], ["9", "8", "7", "6"], ["5", "4"]);
  }

  /** The cross-check through difference and union gives the same {4, 5}. */
  lemma IntersectionCrossCheckExample(a: PojoSet, b: PojoSet)
    requires a == ["1", "2", "3", "4", "5"] && b == ["9", "8", "7", "6", "5", "4"]
    ensures Difference(a, Union(Difference(a, b), Difference(b, a))) == ["4", "5"]
  {
    IntersectionExample(a, b);
    IntersectionCrossCheck(a, b);
  }
}
