/**
 * The enums of the PojoSet test suite, as TypeScript declares them, and the
 * facts about them that the scenarios build on.
 */
module EnumFixtures {
  import opened JsKeys
  import opened PojoSets
  import opened PojoSetLaws

  /** `enum MyStringEnum { one = 'a', two = 'b', three = 'c' }` */
  function StringEnum(): seq<EnumMember> {
    [EnumMember("one", Str("a")), EnumMember("two", Str("b")), EnumMember("three", Str("c"))]
  }

  /** `enum MyNumericEnum { one = 1, two = 2, three = 3 }` */
  function NumericEnum(): seq<EnumMember> {
    [EnumMember("one", Num(1)), EnumMember("two", Num(2)), EnumMember("three", Num(3))]
  }

  /** `enum MyHybridEnum { one = 1, two = 2, three = 3, aye = 'a', bee = 'b', see = 'c' }` */
  function HybridEnum(): seq<EnumMember> {
    [ EnumMember("one", Num(1)), EnumMember("two", Num(2)), EnumMember("three", Num(3)),
      EnumMember("aye", Str("a")), EnumMember("bee", Str("b")), EnumMember("see", Str("c")) ]
  }

  /** The set `from(names)` for a list of distinct string keys. */
  lemma FromStrings(names: seq<string>)
    requires NoDuplicates(names)
    ensures FromItems(StrKeys(names)) == names
  {
    FromDistinct(StrKeys(names));
  }

  /** A name that starts like an identifier, with a letter. */
  predicate StartsWithLetter(name: string) {
    name != [] && ('a' <= name[0] <= 'z' || 'A' <= name[0] <= 'Z')
  }

  /** Every member of the enum is named like an identifier. */
  predicate IdentifierNamed(members: seq<EnumMember>) {
    forall i | 0 <= i < |members| :: StartsWithLetter(members[i].name)
  }

  lemma FixturesAreIdentifierNamed()
    ensures IdentifierNamed(StringEnum())
    ensures IdentifierNamed(NumericEnum())
    ensures IdentifierNamed(HybridEnum())
  {
  }

  /** Enum members named like identifiers are all kept by the integer filter. */
  lemma IdentifierNamesAreForward(members: seq<EnumMember>)
    requires IdentifierNamed(members)
    ensures forall i | 0 <= i < |members| :: ParseInt10(members[i].name).None?
  {
    forall i | 0 <= i < |members| ensures ParseInt10(members[i].name).None? {
      var c := members[i].name[0];
      assert 0x41 <= c as int <= 0x7A;
      assert !IsStrWhiteSpaceChar(c) && !IsSign(c) && !IsDigit(c);
    }
  }

  /**
   * `fromEnum` of an enum whose members are named like identifiers is what
   * `from` makes of its declared values.
   */
  lemma FromIdentifierEnum(members: seq<EnumMember>, expected: PojoSet)
    requires IdentifierNamed(members)
    requires FromItems(DeclaredValues(members)) == expected
    ensures FromEnum(EnumObject(members)) == expected
  {
    IdentifierNamesAreForward(members);
    FromEnumOfEnum(members);
  }

  lemma StringEnumValues()
    ensures FromItems(DeclaredValues(StringEnum())) == ["a", "b", "c"]
  {
    assert DeclaredValues(StringEnum()) == StrKeys(["a", "b", "c"]);
    FromStrings(["a", "b", "c"]);
  }

  lemma NumericEnumValues()
    ensures FromItems(DeclaredValues(NumericEnum())) == ["1", "2", "3"]
  {
    var values := DeclaredValues(NumericEnum());
    assert values == [Num(1), Num(2), Num(3)];
    assert Names(values) == ["1", "2", "3"];
    FromDistinct(values);
  }

  lemma HybridEnumValues()
    ensures FromItems(DeclaredValues(HybridEnum())) == ["1", "2", "3", "a", "b", "c"]
  {
    var values := DeclaredValues(HybridEnum());
    assert values == [Num(1), Num(2), Num(3), Str("a"), Str("b"), Str("c")];
    assert Names(values) == ["1", "2", "3", "a", "b", "c"];
    FromDistinct(values);
  }
}
