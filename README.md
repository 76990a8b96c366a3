# php-checker in Dafny

A model of the core of ixnode/php-checker, a PHP library that narrows a
loosely typed value (`mixed`) to a precise type at run time. Each checker
holds one value. Each `check…` operation either returns that value unchanged,
or a view of it, or throws one of three exceptions:

- `TypeInvalidException`: the value has the wrong runtime type.
- `ClassInvalidException`: the value is an object of the wrong class.
- `ArrayKeyNotFoundException`: a requested array key is missing.

The model covers four checkers:

- the facade `Checker`, with its exact-type guards and its forwarding to the other checkers;
- `CheckerArray`, with its shape checks, element-wise checks, indexed accessors and row projection;
- `CheckerClass`, the nominal class checks;
- `CheckerJson`, the JSON string check.

Modules:

- `PhpValue`: PHP values, array entries, the three exceptions as `Error`, and `Result`. Also `gettype()` (`GetType`), `instanceof` and `is_iterable`.
- `PhpKey`: how PHP stores a string array key. A canonical decimal string in 64-bit range becomes an int key; every other string stays a string key. The module proves the round trip between an int and its decimal string, and that distinct key strings name distinct slots.
- `PhpArray`: ordered PHP arrays. It covers lookup, keyed assignment (`$a[$k] = $x`), appending, `array_keys`, and PHP's `range`, which counts down when `lo > hi`.
- `ScalarChecker`: the exact-type guards of `Checker` (checkBoolean, checkFloat, checkIterable, checkInteger, checkObject, checkString, checkStringOrNull).
- `ClassChecker`: `CheckerClass` (checkGiven, checkStdClass).
- `JsonChecker`: `CheckerJson`, a class whose `value` field `checkJson` writes back. It also has `isJson`.
- `ArrayChecker`: `CheckerArray`. Its loops are methods proved against recursive specification functions.
- `Checker`: the forwarding operations of `Checker`, plus the two findings below.
- `Scenarios`: concrete cases from the library's unit tests, stated as lemmas.

Every check on an array first runs the guard `getValue()`. A non-array fails
with `TypeInvalid('array', gettype(v))`. The checks on sequential and
associative arrays compare `array_keys($v)` with `range(0, count($v) - 1)`.
For the empty array that range is `[0, -1]`, not `[]`. So the empty array
fails `checkSequential` and passes `checkAssoziative`, and the model keeps
that behaviour. Other error payloads the model takes from the code:

- The class label of `checkStdClass`'s error is `'stdClass'`.
- An invalid JSON string raises the one-argument `TypeInvalidException('json')`.
- A non-array row in `checkArray` raises the one-argument `TypeInvalidException('array')`.

## Model

| member | source | states |
|---|---|---|
| PhpValue.GetType | src/Checker.php:51 | gettype() names exactly one of seven types; "array", "object" and "string" name exactly arrays, objects and strings |
| PhpKey.CanonicalKey | src/CheckerArray.php:209 | a key string that stays a string key keeps its text; an int key is within PHP_INT_MIN..PHP_INT_MAX |
| PhpKey.CanonicalKeyOfIntString | src/CheckerArray.php:209-213 | every in-range int's decimal string is stored as that int key, so `$a['0']` addresses `$a[0]` |
| PhpKey.CanonicalKeyIntInverse | src/CheckerArray.php:209-213 | a string stored as an int key is exactly that int's decimal form |
| PhpKey.CanonicalKeyInjective | src/CheckerArray.php:66-71 | distinct key strings never address the same slot |
| PhpKey.NatToStringIsDecimal | src/CheckerArray.php:209 | the decimal form of n is a canonical decimal string denoting n |
| PhpKey.DecimalRoundTrip | src/CheckerArray.php:209 | a canonical decimal string is the decimal form of the number it denotes |
| PhpArray.Lookup | src/CheckerArray.php:209-213 | `$a[$k]` is defined exactly when array_key_exists($k, $a) |
| PhpArray.LookupAt | src/CheckerArray.php:213 | in an array with unique keys, the key of entry j finds entry j's value |
| PhpArray.ArraySetLookup | src/CheckerArray.php:71 | after `$a[$k] = $x`, k holds x and every other key holds what it held |
| PhpArray.ArraySetKeys | src/CheckerArray.php:71 | `$a[$k] = $x` keeps the key order when k exists and appends the entry at the end otherwise |
| PhpArray.RangeUp | src/CheckerArray.php:90 | range(lo, hi) with lo <= hi is lo, lo+1, ..., hi |
| PhpArray.RangeDown | src/CheckerArray.php:149 | range(lo, hi) with hi <= lo counts down from lo to hi, so range(0, -1) has two elements |
| ScalarChecker.CheckBoolean | src/Checker.php:48-55 | succeeds exactly on booleans, returns the value unchanged, else TypeInvalid('boolean', gettype) |
| ScalarChecker.CheckFloat | src/Checker.php:77-84 | succeeds exactly on floats, returns the value unchanged, else TypeInvalid('float', gettype) |
| ScalarChecker.CheckIterable | src/Checker.php:92-99 | succeeds exactly on arrays and Traversable objects, else TypeInvalid('iterable', gettype) |
| ScalarChecker.CheckInteger | src/Checker.php:107-114 | succeeds exactly on ints, returns the value unchanged, else TypeInvalid('int', gettype) |
| ScalarChecker.CheckObject | src/Checker.php:133-140 | succeeds exactly on objects of any class, else TypeInvalid('object', gettype) |
| ScalarChecker.CheckString | src/Checker.php:159-166 | succeeds exactly on strings, returns the value unchanged, else TypeInvalid('string', gettype) |
| ScalarChecker.CheckStringOrNull | src/Checker.php:174-181 | succeeds exactly on strings and null, else TypeInvalid('string', gettype) |
| ScalarChecker.GuardsAgreeWithGetType | src/Checker.php:48-181 | each guard accepts exactly the values whose gettype() names its type, so nothing is coerced |
| ScalarChecker.ScalarGuardsExclusive | src/Checker.php:48-166 | no value passes two of the boolean, int, float and string guards |
| ClassChecker.CheckGiven | src/CheckerClass.php:38-49 | non-objects fail with TypeInvalid(className, gettype); objects not instanceof className fail with ClassInvalid(className, own class); success exactly for instances, subclasses and implementors included, returning the value |
| ClassChecker.CheckStdClass | src/CheckerClass.php:57-64 | succeeds exactly on stdClass instances; everything else, objects of other classes included, fails with TypeInvalid('stdClass', gettype) |
| ClassChecker.TypeGuardPrecedesClassGuard | src/CheckerClass.php:40-46 | ClassInvalid only ever arises for objects, and a failing object always gets ClassInvalid |
| JsonChecker.JsonResult | src/CheckerJson.php:33-44 | non-strings fail with TypeInvalid('string', gettype); strings json_decode rejects fail with TypeInvalid('json'); success exactly for decodable strings, returning the string |
| JsonChecker.CheckJsonAgreesWithIsJson | src/CheckerJson.php:33-60 | checkJson succeeds exactly when isJson is true |
| JsonChecker.CheckerJson.CheckJson | src/CheckerJson.php:33-44 | the value field is written back unchanged; the result is JsonResult of the held value; success exactly when isJson held |
| JsonChecker.CheckerJson.IsJson | src/CheckerJson.php:51-60 | false for every non-string; json_decode's verdict for a string |
| ArrayChecker.GetValue | src/CheckerArray.php:369-376 | arrays pass with their entries; anything else fails with TypeInvalid('array', gettype) |
| ArrayChecker.Check | src/CheckerArray.php:37-40 | succeeds exactly on arrays and returns them unchanged |
| ArrayChecker.CheckAssoziative | src/CheckerArray.php:86-96 | non-arrays fail with the array guard; an array passes exactly when its keys are not range(0, n-1), else TypeInvalid('array-associative', 'array-sequential') |
| ArrayChecker.CheckSequential | src/CheckerArray.php:145-155 | non-arrays fail with the array guard; an array passes exactly when its keys are range(0, n-1), else TypeInvalid('array-sequential', 'array-associative') |
| ArrayChecker.KeysAreRangeIff | src/CheckerArray.php:90 | the key test holds exactly for non-empty arrays keyed 0..n-1 in order |
| ArrayChecker.SequentialIffNonEmptyList | src/CheckerArray.php:86-155 | checkSequential passes exactly the non-empty lists; checkAssoziative passes every other array |
| ArrayChecker.SequentialXorAssociative | src/CheckerArray.php:86-155 | every array passes exactly one of the two checks |
| ArrayChecker.EmptyArrayIsAssociative | src/CheckerArray.php:90-91 | the empty array fails checkSequential and passes checkAssoziative |
| ArrayChecker.ScanFindsFirstOffender | src/CheckerArray.php:127-133 | the element scan finds nothing exactly when every element passes, and otherwise reports the first element that fails |
| ArrayChecker.ScanElements | src/CheckerArray.php:167-172 | the foreach loop returns the first failing element's error, as the scan specification does |
| ArrayChecker.ElementsMeaning | src/CheckerArray.php:123-137 | an element-wise check succeeds exactly when no element fails, returns the array unchanged, and otherwise throws the first failing element's error |
| ArrayChecker.CheckElements | src/CheckerArray.php:163-175 | the guard-then-loop method computes the element-wise check specification |
| ArrayChecker.CheckFlat | src/CheckerArray.php:123-137 | succeeds exactly when every element is bool, float, int, string or null; else TypeInvalid('flat', gettype) of the first other element |
| ArrayChecker.CheckString | src/CheckerArray.php:163-175 | succeeds exactly when every element is a string; else TypeInvalid('string', gettype) of the first other element |
| ArrayChecker.CheckStringOrNull | src/CheckerArray.php:183-195 | succeeds exactly when every element is a string or null; else TypeInvalid('string', gettype) of the first other element |
| ArrayChecker.CheckClass | src/CheckerArray.php:106-115 | corrected delegation (each element through checkGiven): succeeds exactly when every element is an instance of the class, returning the array unchanged; else the class check's error for the first other element |
| ArrayChecker.CheckClassAsWritten | src/CheckerArray.php:106-115 | as written: a non-array fails the guard, the empty array is returned unchanged, and any non-empty array ends in the undefined-method Error of the facade's checkClass |
| ArrayChecker.CheckClassAsWrittenWithoutElements | src/CheckerArray.php:108-114 | where the loop body never runs (non-array or empty array), the code as written and the corrected check give the same result |
| ArrayChecker.CheckClassAsWrittenRejectsInstances | src/CheckerArray.php:110-112 | a one-element list holding an instance of the class fails as written but passes the corrected check |
| ArrayChecker.CheckIndex | src/CheckerArray.php:205-214 | non-arrays fail with the array guard; an array succeeds exactly when it holds the key, returning its element, else KeyNotFound(index) |
| ArrayChecker.CheckIndexFindsIntKey | src/CheckerArray.php:205-214 | the decimal string of an int key finds that key's element |
| ArrayChecker.CheckIndexFindsStrKey | src/CheckerArray.php:205-214 | a string key is found under its own text |
| ArrayChecker.CheckIndexArray | src/CheckerArray.php:224-227 | missing key gives KeyNotFound; a found element is checked as an array |
| ArrayChecker.CheckIndexArrayAssoziative | src/CheckerArray.php:237-240 | missing key gives KeyNotFound; a found element goes through checkAssoziative |
| ArrayChecker.CheckIndexArrayClass | src/CheckerArray.php:253-256 | over the corrected delegation: missing key gives KeyNotFound; a found element goes through the element-wise class check |
| ArrayChecker.CheckIndexArrayFlat | src/CheckerArray.php:266-269 | missing key gives KeyNotFound; a found element goes through checkFlat |
| ArrayChecker.CheckIndexArraySequential | src/CheckerArray.php:279-282 | missing key gives KeyNotFound; a found element goes through checkSequential |
| ArrayChecker.CheckIndexArrayString | src/CheckerArray.php:292-295 | missing key gives KeyNotFound; a found element goes through checkString |
| ArrayChecker.CheckIndexArrayStringOrNull | src/CheckerArray.php:305-308 | missing key gives KeyNotFound; a found element goes through checkStringOrNull |
| ArrayChecker.CheckIndexArrayArray | src/CheckerArray.php:319-322 | missing key gives KeyNotFound; a found element goes through checkArray with the filter keys |
| ArrayChecker.CheckIndexInteger | src/CheckerArray.php:332-335 | missing key gives KeyNotFound; a found element goes through the int guard |
| ArrayChecker.CheckIndexString | src/CheckerArray.php:345-348 | missing key gives KeyNotFound; a found element goes through the string guard |
| ArrayChecker.CheckIndexStringOrNull | src/CheckerArray.php:358-361 | missing key gives KeyNotFound; a found element goes through the string-or-null guard |
| ArrayChecker.CanonKeys | src/CheckerArray.php:66-71 | filter key j addresses the canonical key of its string |
| ArrayChecker.CheckArray | src/CheckerArray.php:50-78 | the nested foreach loops compute the row specification ArrayRows; non-arrays fail with the array guard |
| ArrayChecker.ProjectRowFails | src/CheckerArray.php:66-69 | a row's projection succeeds exactly when the row holds every filter key, else KeyNotFound of the first missing key |
| ArrayChecker.ProjectRowLookup | src/CheckerArray.php:66-72 | after a successful projection a filter key finds the row's value and any other key finds what it found before |
| ArrayChecker.ProjectRowAppend | src/CheckerArray.php:66-72 | one inner iteration on a key not yet written appends that key's entry at the end |
| ArrayChecker.ProjectRowStep | src/CheckerArray.php:66-72 | one inner iteration finds the first filter key and writes it |
| ArrayChecker.ProjectRowKeys | src/CheckerArray.php:66-72 | distinct fresh filter keys are appended in filter order |
| ArrayChecker.ProjectionIsExact | src/CheckerArray.php:64-74 | a projected row holds exactly the filter keys with the row's values, in filter order when the filter keys are distinct |
| ArrayChecker.CollectRowsOkIff | src/CheckerArray.php:54-75 | the outer loop succeeds exactly when every row does |
| ArrayChecker.CollectRowsPrefix | src/CheckerArray.php:54-75 | a successful outer loop keeps what was already collected and adds exactly one result per row |
| ArrayChecker.CollectRowsAt | src/CheckerArray.php:54-75 | row i's result sits at position i after what was already collected |
| ArrayChecker.CollectRowsValue | src/CheckerArray.php:54-75 | a successful outer loop yields one result per row, in row order |
| ArrayChecker.CollectRowsError | src/CheckerArray.php:54-75 | a failing outer loop throws the first failing row's error |
| ArrayChecker.CheckArrayWithoutFilter | src/CheckerArray.php:59-62 | without filter keys, checkArray returns the rows unchanged and re-keyed 0..n-1, and fails with TypeInvalid('array') exactly when some row is not an array |
| ArrayChecker.CheckArrayRowAt | src/CheckerArray.php:64-74 | output row i is keyed i and is input row i, an array, projected on the filter keys |
| ArrayChecker.CheckArrayWithFilter | src/CheckerArray.php:50-78 | with filter keys, the result is a list with one projected row per input row, in order |
| ArrayChecker.CheckArrayFailsAtFirstBadRow | src/CheckerArray.php:55-69 | a failure comes from the first bad row: TypeInvalid('array') for a non-array, KeyNotFound of its first missing filter key otherwise |
| Checker.CheckArray | src/Checker.php:37-40 | forwards to the array checker's check: arrays pass unchanged, anything else fails with TypeInvalid('array', gettype) |
| Checker.CheckClass | src/Checker.php:66-69 | corrected delegation to checkGiven: success exactly for instances of the class |
| Checker.CheckStdClass | src/Checker.php:148-151 | forwards to checkStdClass: success exactly for stdClass instances |
| Checker.CheckJson | src/Checker.php:122-125 | corrected delegation: a fresh JSON checker's checkJson, success exactly when isJson holds, returning the string |
| Checker.CheckClassAsWritten | src/Checker.php:68 | as written, the call names a method CheckerClass does not declare and always ends in an undefined-method Error |
| Checker.CheckJsonAsWritten | src/Checker.php:124 | as written, the call names a method CheckerJson does not declare and always ends in an undefined-method Error |
| Checker.CheckClassAsWrittenRejectsInstance | src/Checker.php:68 | an instance of the requested class fails as written but passes the corrected delegation |
| Checker.CheckJsonAsWrittenRejectsValidJson | src/Checker.php:124 | a valid JSON string fails as written but passes the corrected delegation |
| Scenarios.CheckIndexOnList | tests/Unit/CheckerArrayTest.php:130-131 | index '0' of [1, 2, 3] is 1; index '10' is a missing key |
| Scenarios.CheckIndexIntegerOnStrings | tests/Unit/CheckerArrayTest.php:223-224 | index '0' of ['1', '2', '3'] is not an int; index '3' is a missing key |
| Scenarios.SequentialAndAssociativeCases | tests/Unit/CheckerArrayTest.php:97-115 | [1, 2, 3] is sequential and not associative; a string-keyed array is the reverse |
| Scenarios.ElementChecksReportFirstOffender | tests/Unit/CheckerArrayTest.php:112-120 | checkFlat rejects nested arrays with 'flat'/'array'; checkString rejects the int 3 with 'string'/'integer' |
| Scenarios.TitleAndTextAreStringKeys | tests/Unit/CheckerArrayTest.php:179 | non-numeric filter keys address string keys |
| Scenarios.ProjectNewsRow | tests/Unit/CheckerArrayTest.php:179-182 | projecting a title/text/description row on title and text keeps those two, in order |
| Scenarios.CheckArrayProjection | tests/Unit/CheckerArrayTest.php:174-182 | checkArray(['title', 'text']) keeps exactly those keys of each row |
| Scenarios.CheckArrayRejectsScalarRows | tests/Unit/CheckerArrayTest.php:203-218 | checkArray(['test']) on rows 1 and 2 fails with TypeInvalid('array') |
| Scenarios.ScalarCases | tests/Unit/CheckerTest.php:94-124 | '0' is not an int, '.0' not a float, null not a string, null is string-or-null, 0.0 is not string-or-null, '0' is not iterable but [] is |
| Scenarios.ClassAndJsonCases | tests/Unit/CheckerJsonTest.php:129-131 | isJson is false for [], false and null; checkStdClass(null) fails with TypeInvalid('stdClass', 'NULL') |

## Left out

- json_decode is PHP's own JSON parser. Whether it accepts a string is the parameter `decodes` of the JSON checks; the JSON grammar is not modelled.
- Exceptions are `Error` values carrying the arguments the source passes. Exception messages and the exception class hierarchy are not modelled.
- Floats are opaque tags. No floating-point value or arithmetic is modelled.
- `instanceof` is modelled by the class name and the set of ancestor classes and interfaces an object carries. Class-name case-insensitivity, leading backslashes, autoloading and reflection are not modelled.
- `is_iterable` on objects is modelled as "implements Traversable". Generators and other iteration protocols are not modelled separately.
- Resources have no `Value` constructor, so gettype()'s 'resource' label is not modelled; closures and enums are objects (`Obj`).
- The constructor of CheckerAbstract and its getValue() accessor are folded into each operation's value parameter. Only `CheckerJson` writes its field, so only it is a class.
- Filter keys of `checkArray` are modelled as strings. PHP also accepts int filter keys.
- Objects are compared by handle, class name and supertypes; object identity beyond that is not modelled.
- PHPDoc generic annotations and the PHPUnit test suite are not part of this model; a few of its cases are restated in module Scenarios.

## Findings

| source | as written | input that shows it | evidently intended | confidence | as-written member | corrected member |
|---|---|---|---|---|---|---|
| src/Checker.php:68 | `checkClass` calls `checkClass($className)` on a CheckerClass, which declares no such method, so every call ends in PHP's undefined-method Error | any object of the requested class, e.g. an instance of stdClass with className 'stdClass' | delegate to CheckerClass::checkGiven($className) | high, not executed | Checker.CheckClassAsWritten | Checker.CheckClass |
| src/CheckerArray.php:111 | the loop hands each element to the facade's `checkClass`, which fails as above, so every non-empty array ends in PHP's undefined-method Error | a one-element list holding an instance of the requested class | check each element with CheckerClass::checkGiven($className) | high, not executed | ArrayChecker.CheckClassAsWritten | ArrayChecker.CheckClass |
| src/Checker.php:124 | `checkJson` calls `check()` on a CheckerJson, which declares no such method, so every call ends in PHP's undefined-method Error | the JSON string '{}' | delegate to CheckerJson::checkJson() | high, not executed | Checker.CheckJsonAsWritten | Checker.CheckJson |
