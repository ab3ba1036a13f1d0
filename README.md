# PojoSet in Dafny

This project models `PojoSet`, the immutable "plain old JavaScript object"
set of the pojo-maps library. A `PojoSet<T>` is a record whose present keys
all map to `true`. Every operation builds a new record and leaves its
arguments as they were.

The model has four parts:

- `JsKeys` (`js_keys.dfy`): the slice of the JavaScript object model the
  library relies on.
  - A property key is a string or an integral number.
  - A number is stored under its numeral. `Number::toString` is modelled for
    integers.
  - `parseInt(k, 10)` follows section 19.2.5 of ECMA-262 (2022 edition), with
    NaN as `None`:
    - skip leading white space (StrWhiteSpaceChar);
    - take one optional sign;
    - read the longest run of decimal digits.
- `PojoSets` (`pojo_set.dfy`): the operations of `src/PojoSet.ts`.
  - A record is modelled by its own keys in insertion order, as a
    `seq<string>` without duplicates; every value is `true`.
  - `has` looks up the record's own keys, as intended. The code's
    `!!set[item]` also finds the members of Object.prototype; see
    "## Findings".
  - `from` is a method with a loop writing `acc[next] = true`. It is proved
    equal to the left fold `FromItems`.
  - The other operations are functions, built from the same pieces as the
    source:
    - `add` and `union` are spreads.
    - `remove` is a rest-destructuring.
    - `difference` and `intersection` are `from(toArray(a).filter(...))`.
    - `fromEnum` filters the entries with the `parseInt` model.
- `PojoSetLaws` (`pojo_set_laws.dfy`): properties of the operations.
  - Order: `from` keeps first occurrences; `union` appends the new keys.
  - Round trips: `from(toArray(s)) == s`; removing an added key.
  - Set algebra: commutativity, associativity, and the intersection
    cross-check.
  - Enums: what `fromEnum` makes of the object TypeScript emits for an enum
    declaration.
- `PrototypeLookup` (`prototype_lookup.dfy`): `has`, `from`, `difference`
  and `intersection` as written, where own keys meet the names inherited
  from Object.prototype. It proves where they differ from the intended
  operations and that they agree on keys that avoid those names.
- `EnumFixtures` and `PojoSetScenarios` (`enum_fixtures.dfy`,
  `pojo_set_scenarios.dfy`): the enums and the concrete cases of the test
  suite `src/__tests__/PojoSet.test.ts`, stated as lemmas.

The test suite compares records with Jest's `toEqual`, which ignores key
order. `SameContent` models that comparison. Most lemmas here state the
stronger exact equality: the same keys in the same order.

## Model

| member | source | states |
|---|---|---|
| JsKeys.NatToDecimal | src/PojoSet.ts:16 | the numeral of a natural number is a non-empty digit string without a leading zero whose value is the number |
| JsKeys.NumberToString | src/PojoSet.ts:16 | a number's property name is its decimal numeral, with `-` before the numeral of the magnitude for a negative number |
| JsKeys.PropertyName | src/PojoSet.ts:16 | the name an object stores a key under: a string is its own name; a number's name is a numeral that `parseInt` reads as a number |
| JsKeys.ParseInt10 | src/PojoSet.ts:30 | `parseInt(k, 10)` gives a number only when k starts, after white space, with an integer; a key whose first character is neither blank, nor a sign, nor a digit (an identifier) gives NaN, so the filter keeps it |
| JsKeys.TrimStart | src/PojoSet.ts:30 | `parseInt` first drops the longest all-white-space prefix; what is left is a suffix that is empty or does not start with white space |
| JsKeys.DigitRun | src/PojoSet.ts:30 | `parseInt` reads the longest prefix of decimal digits: it is all digits and is followed by a non-digit or the end |
| JsKeys.TrimStartAt | src/PojoSet.ts:30 | if the first non-blank character is at index i, trimming removes exactly the first i characters |
| JsKeys.ParseIntIsNumberIff | src/PojoSet.ts:30 | `isNaN(parseInt(k, 10))` is false exactly when k starts, after white space, with a digit or with a sign followed by a digit (both directions) |
| JsKeys.StartsWithIntegerParses | src/PojoSet.ts:30 | a key that starts with an integer is not NaN under `parseInt` |
| JsKeys.ParseIntOfNumberToString | src/PojoSet.ts:30 | every numeral of an integer parses back to that integer, so the filter drops every reverse entry of an enum |
| PojoSets.StrKeys | src/PojoSet.ts:14 | passing string items stores each one under its own name |
| PojoSets.Put | src/PojoSet.ts:16 | `acc[next] = true` adds `next` to the keys; a new key goes after the others and a present key keeps its place |
| PojoSets.PutAll | src/PojoSet.ts:15-18 | writing a list of names keeps the record's keys as a prefix; the keys are those of the record plus the names, and their number grows by at most the number of names |
| PojoSets.PutAllStep | src/PojoSet.ts:15-18 | one step of the reduce: writing names from index i is writing names[i], then the rest |
| PojoSets.FromItems | src/PojoSet.ts:14-19 | `from(items)` holds exactly the names of the items, with at most one key per item |
| PojoSets.From | src/PojoSet.ts:14-19 | the reduce loop over `items`, writing `acc[next] = true` into an initially empty record, returns exactly `FromItems(items)` |
| PojoSets.ToArray | src/PojoSet.ts:21-23 | `Object.keys(set)` lists every key of the set exactly once |
| PojoSets.Has | src/PojoSet.ts:35-37 | corrected `has`: true exactly when the item's name is among the keys `toArray` lists (see "## Findings") |
| PojoSets.Empty | src/PojoSet.ts:52-54 | `{}` has no member, and `toArray` of it is empty |
| PojoSets.Add | src/PojoSet.ts:39-44 | `{...set, [item]: true}` holds the item and the keys of `set`, and nothing else; the keys of `set` stay first, in order; adding a present item gives `set` back |
| PojoSets.Omit | src/PojoSet.ts:48 | the rest of `{[name]: _, ...rest}` holds every key but `name`; without `name` present, it is the record itself |
| PojoSets.OmitAt | src/PojoSet.ts:48 | omitting the key at index i closes the gap and keeps the other keys in order |
| PojoSets.Remove | src/PojoSet.ts:46-50 | `remove(set, item)` holds the keys of `set` other than the item's; an absent item gives `set` back; a present one is cut out at its index, with the other keys in order |
| PojoSets.Union | src/PojoSet.ts:56-61 | `{...a, ...b}` holds exactly the keys in a or in b, with the keys of a first, in order |
| PojoSets.Select | src/PojoSet.ts:66 | `filter(i => has(b, i) == keep)` keeps exactly the elements whose membership in b is `keep` |
| PojoSets.Difference | src/PojoSet.ts:63-68 | with the corrected `has`, `difference(a, b)` holds exactly the keys of a that are not in b |
| PojoSets.Intersection | src/PojoSet.ts:70-75 | with the corrected `has`, `intersection(a, b)` holds exactly the keys in both a and b |
| PojoSets.ForwardValues | src/PojoSet.ts:27-31 | `Object.keys(obj).filter(...).map(k => obj[k])` yields at most one value per entry, each the value of some entry |
| PojoSets.ForwardValuesHold | src/PojoSet.ts:27-31 | a value survives the key filter exactly when some entry whose key is NaN under `parseInt` holds it |
| PojoSets.NamesHold | src/PojoSet.ts:26 | a name is stored by `from(values)` exactly when some value has that name |
| PojoSets.FromEnum | src/PojoSet.ts:25-33 | `fromEnum(obj)` holds exactly the names of the values of the entries whose key is NaN under `parseInt(k, 10)` |
| PojoSetLaws.PutAllOrdersPair | src/PojoSet.ts:15-18 | of two keys the reduce adds, the earlier one occurs first earlier in the input |
| PojoSetLaws.PutAllFirstOccurrence | src/PojoSet.ts:15-18 | the keys the reduce adds come in the order of their first occurrence in the input |
| PojoSetLaws.FromListsFirstOccurrences | src/PojoSet.ts:14-23 | `toArray(from(items))` has no duplicate, holds exactly the items' names, and lists them in first-occurrence order |
| PojoSetLaws.SelectKeepsDistinct | src/PojoSet.ts:66 | filtering a list without duplicates leaves none |
| PojoSetLaws.SelectAgrees | src/PojoSet.ts:66 | two filters that agree on every element of a list give the same list |
| PojoSetLaws.PutAllAppendsNew | src/PojoSet.ts:15-18 | writing distinct names onto a record appends the ones it lacks, in their order |
| PojoSetLaws.PutAllSplit | src/PojoSet.ts:15-18 | writing `xs + ys` is writing `xs` and then `ys` |
| PojoSetLaws.FromDistinct | src/PojoSet.ts:14-19 | `from` of items with distinct names is the list of their names, keys and order |
| PojoSetLaws.FromRepeat | src/PojoSet.ts:15-18 | appending an item whose key the items already name leaves `from` unchanged |
| PojoSetLaws.FromToArray | src/PojoSet.ts:14-23 | round trip: `from(toArray(s))` is `s` itself, keys and order |
| PojoSetLaws.UnionLayout | src/PojoSet.ts:56-61 | `union(a, b)` is the keys of a, then the keys of b that a lacks, in the order of b |
| PojoSetLaws.DifferenceLayout | src/PojoSet.ts:63-68 | `difference(a, b)` is the keys of a not in b, in the order of a |
| PojoSetLaws.IntersectionLayout | src/PojoSet.ts:70-75 | `intersection(a, b)` is the keys of a that are in b, in the order of a |
| PojoSetLaws.SelectSplit | src/PojoSet.ts:66 | filtering a concatenation filters each part |
| PojoSetLaws.SelectAll | src/PojoSet.ts:66 | a filter that every element passes keeps the whole list |
| PojoSetLaws.SelectNone | src/PojoSet.ts:66 | a filter that no element passes gives the empty list |
| PojoSetLaws.SelectBlocks | src/PojoSet.ts:66 | a passing block, a failing block and a passing block filter to the two passing blocks |
| PojoSetLaws.UnionOfBlocks | src/PojoSet.ts:56-61 | union with a set made of new, known and new blocks appends the two new blocks |
| PojoSetLaws.DifferenceOfBlocks | src/PojoSet.ts:63-68 | difference of a set made of kept, dropped and kept blocks is the two kept blocks |
| PojoSetLaws.IntersectionOfBlocks | src/PojoSet.ts:70-75 | intersection of a set made of shared, unshared and shared blocks is the two shared blocks |
| PojoSetLaws.HasOfOperations | src/PojoSet.ts:35-75 | the corrected `has` on the result of `empty`, `add`, `remove`, `union`, `difference` and `intersection`, each as an if-and-only-if on `has` of the arguments |
| PojoSetLaws.UnionCommutes | src/__tests__/PojoSet.test.ts:209-227 | `union(a, b)` and `union(b, a)` have the same keys |
| PojoSetLaws.UnionAssociates | src/PojoSet.ts:56-61 | union is associative up to key order |
| PojoSetLaws.IntersectionCommutes | src/__tests__/PojoSet.test.ts:313-327 | `intersection(a, b)` and `intersection(b, a)` have the same keys |
| PojoSetLaws.IntersectionCrossCheck | src/__tests__/PojoSet.test.ts:313-327 | `intersection(a, b)` is exactly `difference(a, union(difference(a, b), difference(b, a)))`, keys and order |
| PojoSetLaws.RemoveUndoesAdd | src/PojoSet.ts:39-50 | adding an absent item and removing it again gives back the same set |
| PojoSetLaws.MemberEntries | src/PojoSet.ts:28-29 | TypeScript emits for a member its forward entry `name -> value` first; a numeric member also gets one reverse entry, whose key parses as the member's value and whose value is the member's name |
| PojoSetLaws.EnumObject | src/PojoSet.ts:28-29 | the object emitted for an enum has between one and two entries per member |
| PojoSetLaws.EnumObjectEntries | src/PojoSet.ts:28-29 | an entry is in the emitted object exactly when it is one of some member's entries |
| PojoSetLaws.ForwardValuesCons | src/PojoSet.ts:27-31 | the key filter keeps an entry's value exactly when its key is NaN under `parseInt` |
| PojoSetLaws.ForwardValuesOfMember | src/PojoSet.ts:27-31 | of the entries emitted for one enum member, only the forward entry survives the filter |
| PojoSetLaws.ForwardValuesOfEnumObject | src/PojoSet.ts:27-31 | for an enum whose member names are not numeric, the filter keeps exactly the declared values, in order |
| PojoSetLaws.FromEnumOfEnum | src/PojoSet.ts:25-33 | `fromEnum` of such an enum is `from` of its declared values |
| PrototypeLookup.HasAsWritten | src/PojoSet.ts:35-37 | `!!set[item]` is true for every own key and for every name Object.prototype defines, and otherwise agrees with the corrected `has` |
| PrototypeLookup.PutAsWritten | src/PojoSet.ts:16 | `acc[next] = true` adds `next` like `Put`, except that writing "__proto__" runs the inherited setter and leaves the record as it was |
| PrototypeLookup.PutAllAsWritten | src/PojoSet.ts:15-18 | the reduce as written holds the record's keys and every written name but "__proto__" |
| PrototypeLookup.FromItemsAsWritten | src/PojoSet.ts:14-19 | `from(items)` as written holds exactly the items' names other than "__proto__" |
| PrototypeLookup.PutAllAsWrittenAgrees | src/PojoSet.ts:15-18 | without "__proto__" among the names, the reduce as written is exactly the corrected one |
| PrototypeLookup.FromAsWrittenDropsProto | src/PojoSet.ts:16 | `from(['__proto__'])` is `{}` as written, where the corrected `from` holds "__proto__" |
| PrototypeLookup.HasAsWrittenOfEmpty | src/PojoSet.ts:35-37 | `has(empty(), 'toString')` is true as written and false when corrected |
| PrototypeLookup.SelectAsWritten | src/PojoSet.ts:66 | the filter with `has` as written keeps exactly the elements whose membership in b or in Object.prototype's names is `keep` |
| PrototypeLookup.SelectAsWrittenAgrees | src/PojoSet.ts:66 | on names Object.prototype does not define, the filter as written is the corrected filter |
| PrototypeLookup.DifferenceAsWritten | src/PojoSet.ts:63-68 | `difference(a, b)` as written holds the keys of a not in b and not named like a member of Object.prototype |
| PrototypeLookup.IntersectionAsWritten | src/PojoSet.ts:70-75 | `intersection(a, b)` as written holds the keys of a that are in b or named like a member of Object.prototype, "__proto__" excepted |
| PrototypeLookup.SelectOffPrototype | src/PojoSet.ts:66 | filtering names that avoid Object.prototype's never yields "__proto__" |
| PrototypeLookup.AsWrittenAgrees | src/PojoSet.ts:63-75 | when the keys of a avoid Object.prototype's names, `difference` and `intersection` as written equal the corrected ones, keys and order |
| PrototypeLookup.IntersectionAsWrittenOfInherited | src/PojoSet.ts:70-75 | as written, the intersection of a lone inherited-named key with any set keeps that key |
| PrototypeLookup.DifferenceAsWrittenDropsInherited | src/PojoSet.ts:63-68 | `difference(from(['toString']), empty())` is `{}` as written, where the corrected result keeps "toString" |
| PrototypeLookup.IntersectionAsWrittenKeepsInherited | src/PojoSet.ts:70-75 | `intersection(from(['constructor']), empty())` keeps "constructor" as written, where the corrected result is empty |
| PrototypeLookup.CrossCheckAsWrittenFails | src/__tests__/PojoSet.test.ts:313-327 | as written, the test's cross-check fails on {toString}: the intersection with itself keeps the key, the cross-check drops it |
| PrototypeLookup.CrossCheckAsWrittenHolds | src/__tests__/PojoSet.test.ts:313-327 | when neither set has a key named like a member of Object.prototype, the cross-check holds as written, keys and order |
| EnumFixtures.FromStrings | src/PojoSet.ts:14-19 | `from` of distinct strings is those strings in order |
| EnumFixtures.FixturesAreIdentifierNamed | src/__tests__/PojoSet.test.ts:13-33 | the member names of the three test enums all start with a letter |
| EnumFixtures.IdentifierNamesAreForward | src/PojoSet.ts:30 | the filter keeps every member of an enum whose names start with a letter |
| EnumFixtures.FromIdentifierEnum | src/PojoSet.ts:25-33 | `fromEnum` of such an enum is what `from` makes of its declared values |
| EnumFixtures.StringEnumValues | src/__tests__/PojoSet.test.ts:13-17 | `from` of the string enum's values is {a, b, c} |
| EnumFixtures.NumericEnumValues | src/__tests__/PojoSet.test.ts:19-23 | `from` of the numeric enum's values is {1, 2, 3} |
| EnumFixtures.HybridEnumValues | src/__tests__/PojoSet.test.ts:25-32 | `from` of the hybrid enum's values is {1, 2, 3, a, b, c} |
| PojoSetScenarios.FromThreeKeys | src/__tests__/PojoSet.test.ts:35-73 | `from(['a', 'b', 'c'])` is {a, b, c}, and `toArray` of it is `['a', 'b', 'c']` |
| PojoSetScenarios.FromDropsDuplicates | src/__tests__/PojoSet.test.ts:63-69 | `from(['a', 'b', 'c', 'b'])` is {a, b, c} |
| PojoSetScenarios.FromNumbersStoresNumerals | src/PojoSet.ts:15-18 | `from([1, -2, 10])` stores the keys "1", "-2" and "10" |
| PojoSetScenarios.NumberAndNumeralAreOneKey | src/PojoSet.ts:35-37 | `has` finds the key "1" both for the number 1 and for the string "1" |
| PojoSetScenarios.FromStringEnum | src/__tests__/PojoSet.test.ts:87-100 | `fromEnum(MyStringEnum)` is {a, b, c} |
| PojoSetScenarios.FromNumericEnum | src/__tests__/PojoSet.test.ts:102-111 | `fromEnum(MyNumericEnum)` is {1, 2, 3} |
| PojoSetScenarios.FromHybridEnum | src/__tests__/PojoSet.test.ts:113-125 | `fromEnum(MyHybridEnum)` is {1, 2, 3, a, b, c} |
| PojoSetScenarios.FromEnumDropsDigitLedName | src/PojoSet.ts:27-31 | the filter also drops a forward member whose quoted name starts with a digit: `enum E { '1st' = 'first' }` gives the empty set |
| PojoSetScenarios.AddExample | src/__tests__/PojoSet.test.ts:127-141 | `add({a, b, c}, 'd')` is {a, b, c, d} |
| PojoSetScenarios.RemoveExample | src/__tests__/PojoSet.test.ts:159-171 | `remove({a, b, c}, 'c')` is {a, b}; removing an absent key gives the set back |
| PojoSetScenarios.UnionExample | src/__tests__/PojoSet.test.ts:209-227 | `union({a, b, c}, {b, c, d, e})` is {a, b, c, d, e} |
| PojoSetScenarios.PlusExample | src/__tests__/PojoSet.test.ts:209-227 | `plus({b, c, d, e}, {a, b, c})` has the same keys, in the order b, c, d, e, a |
| PojoSetScenarios.DifferenceExample | src/__tests__/PojoSet.test.ts:252-270 | `difference({a, b, c}, {b, c, d, e})` is {a} |
| PojoSetScenarios.SubtractExample | src/__tests__/PojoSet.test.ts:252-270 | `subtract({b, c, d, e}, {a, b, c})` is {d, e} |
| PojoSetScenarios.UnionOfEnumsExample | src/__tests__/PojoSet.test.ts:229-250 | the union of the string and the numeric enum's sets is {a, b, c, 1, 2, 3} |
| PojoSetScenarios.PlusOfEnumsExample | src/__tests__/PojoSet.test.ts:229-250 | `plus` the other way round is {1, 2, 3, a, b, c} |
| PojoSetScenarios.DifferenceOfEnumsExample | src/__tests__/PojoSet.test.ts:272-287 | the string enum's set less the numeric enum's is itself |
| PojoSetScenarios.SubtractOfEnumsExample | src/__tests__/PojoSet.test.ts:272-287 | the numeric enum's set less the string enum's is itself |
| PojoSetScenarios.DifferenceOfHybridExample | src/__tests__/PojoSet.test.ts:289-311 | the hybrid enum's set less the string enum's is {1, 2, 3} |
| PojoSetScenarios.SubtractHybridExample | src/__tests__/PojoSet.test.ts:289-311 | the string enum's set less the hybrid enum's is empty |
| PojoSetScenarios.IntersectionFirstInput | src/__tests__/PojoSet.test.ts:314 | `from([1, 2, 3, 4, 5])` is {1, 2, 3, 4, 5} |
| PojoSetScenarios.IntersectionSecondInput | src/__tests__/PojoSet.test.ts:315 | `from([9, 8, 7, 6, 5, 4])` is {9, 8, 7, 6, 5, 4} |
| PojoSetScenarios.IntersectionExample | src/__tests__/PojoSet.test.ts:313-327 | the intersection of those two sets is {4, 5} |
| PojoSetScenarios.IntersectionReversedExample | src/__tests__/PojoSet.test.ts:313-327 | the other way round it is {5, 4}: the same keys, in the other set's order |
| PojoSetScenarios.IntersectionCrossCheckExample | src/__tests__/PojoSet.test.ts:313-327 | the cross-check through difference and union also gives {4, 5} |

## Findings

| source | as written | input that shows it | evidently intended | confidence | as-written member | corrected member |
|---|---|---|---|---|---|---|
| src/PojoSet.ts:35-37 | `!!set[item]` looks the name up along the prototype chain, so it is true for every member of Object.prototype | `has(empty(), 'toString')` is true | true exactly for the keys the set holds | not executed | PrototypeLookup.HasAsWritten, PrototypeLookup.HasAsWrittenOfEmpty | PojoSets.Has |
| src/PojoSet.ts:16 | `acc[next] = true` with `next` equal to "__proto__" runs Object.prototype's setter and adds no key | `from(['__proto__'])` is `{}`, while `add(empty(), '__proto__')` holds the key | every item becomes a key | not executed | PrototypeLookup.FromItemsAsWritten, PrototypeLookup.FromAsWrittenDropsProto | PojoSets.FromItems |
| src/PojoSet.ts:63-68 | the filter calls the prototype-aware `has`, so keys named like members of Object.prototype are always dropped | `difference(from(['toString']), empty())` is `{}` | the keys of a not in b | not executed | PrototypeLookup.DifferenceAsWritten, PrototypeLookup.DifferenceAsWrittenDropsInherited | PojoSets.Difference |
| src/PojoSet.ts:70-75 | the filter calls the prototype-aware `has`, so keys named like members of Object.prototype are always kept | `intersection(from(['constructor']), empty())` is `{constructor: true}` | the keys in both a and b | not executed | PrototypeLookup.IntersectionAsWritten, PrototypeLookup.IntersectionAsWrittenKeepsInherited | PojoSets.Intersection |

The rest of the model uses the corrected members. `PrototypeLookup.AsWrittenAgrees`
proves that the code and the corrected model give the same `difference` and
`intersection` whenever the keys of the first set avoid Object.prototype's names.

## Left out

- Plus: `plus` is the same function object as `union` (src/PojoSet.ts:85). It is modelled as a function that calls `Union` and has no contract of its own. PlusExample and PlusOfEnumsExample state its behaviour.
- Subtract: `subtract` is the same function object as `difference` (src/PojoSet.ts:87). It is modelled the same way. SubtractExample and the other `Subtract` scenarios state its behaviour.
- Has: states the intended own-key lookup. The code's `!!set[item]` is also true for names inherited from Object.prototype (`toString`, `constructor`, `valueOf`, `hasOwnProperty`, `__proto__`, …). PrototypeLookup.HasAsWritten models that; see "## Findings".
- Put: treats "__proto__" as an ordinary key. The code's `acc[next] = true` adds no key for it. PrototypeLookup.PutAsWritten models that. `add`, `union` and `remove` build their results from object literals and rest patterns, which define own keys, so they do store "__proto__".
- Difference: built on the corrected `has`. For keys named like members of Object.prototype, the code's result differs; PrototypeLookup.DifferenceAsWritten models it.
- Intersection: built on the corrected `has`. For keys named like members of Object.prototype, the code's result differs; PrototypeLookup.IntersectionAsWritten models it.
- HasOfOperations: states the laws of the corrected `has`. With the code's lookup, `has(empty(), 'toString')` is true, and the `difference` and `intersection` laws fail on inherited names.
- IntersectionCrossCheck: holds for the corrected operations. As written it fails on inherited names (PrototypeLookup.CrossCheckAsWrittenFails). PrototypeLookup.CrossCheckAsWrittenHolds proves that it holds as written whenever neither set has such a key.
- Symbol keys are not modelled.
  - `Object.keys` skips them, so `toArray`, `difference`, `intersection` and `fromEnum` would drop them.
  - The spreads in `add` and `union` would copy them.
- Property keys are strings and mathematical integers.
  - Non-integral numbers, `-0`, and numbers whose `toString` switches to exponent notation (at 1e21 and above) are not modelled.
  - The rounding of `parseInt` to a double is not modelled. It cannot change whether the result is NaN, which is all `fromEnum` uses.
- JavaScript's own-key order is not modelled. JavaScript lists integer-like keys first, in ascending order. The model keeps every key in insertion order, so the exact-order lemmas state the insertion order. Lemmas stated with `SameContent`, and all membership contracts, hold under either order.
- The enum object is given to `FromEnum` as its list of `[key, value]` entries. `EnumObject` builds that list the way TypeScript emits an enum: a forward entry per member, then a reverse entry for a numeric value. Enums with computed members or with const initialisers that refer to other members are not modelled.
- ToArray: the test at src/__tests__/PojoSet.test.ts:75-85 expects `toArray` to skip a key set to `false` by hand. The code at src/PojoSet.ts:21-23 is a bare `Object.keys` and does not filter. A `PojoSet` here only ever holds keys mapped to `true`, as its type says (src/PojoSet.ts:6-8), so the model follows the code and that test has no counterpart.
- `toggle` is exercised by the tests but is not defined in src/PojoSet.ts or in its export object, so it is not modelled.
- src/PojoMap.ts is not part of this model. It defines only an `empty` that returns `{}`.
- Type-level checks (the Leibniz equalities, `Exclude` narrowing, `$ExpectError` cases) have no runtime behaviour and are not modelled.
- Reference identity is not modelled. That includes whether each call returns a fresh object, and whether the argument object is left unmodified. Sets here are values, so no operation can change its argument.
