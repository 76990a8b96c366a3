/** The array checks (src/CheckerArray.php). Every operation first runs
    the array guard getValue(), so a held value that is not an array fails
    with TypeInvalid('array', gettype(v)) before anything else happens. */
module ArrayChecker {
  import opened PhpValue
  import opened PhpKey
  import opened PhpArray
  import ScalarChecker
  import ClassChecker

  /** getValue(): the array guard. */
  function GetValue(v: Value): (r: Result<seq<Entry>>)
    ensures v.Arr? ==> r == Ok(v.entries)
    ensures !v.Arr? ==> r == Err(NotArray(v))
  {
    if !v.Arr? then Err(NotArray(v)) else Ok(v.entries)
  }

  /** check(): the array itself, unchanged. */
  function Check(v: Value): (r: Result<Value>)
    ensures r.Ok? <==> v.Arr?
    ensures r.Ok? ==> r.value == v
    ensures r.Err? ==> r.error == NotArray(v)
  {
    match GetValue(v)
    case Err(e) => Err(e)
    case Ok(_) => Ok(v)
  }

  // ---------------------------------------------------------------------
  // Sequential and associative arrays

  /** `array_keys($value) === range(0, count($value) - 1)` */
  predicate KeysAreRange(es: seq<Entry>) {
    KeySeq(es) == IntKeys(Range(0, |es| - 1))
  }

  /** The keys are 0, 1, ..., n-1 in this order. */
  predicate IsList(es: seq<Entry>) {
    forall i :: 0 <= i < |es| ==> es[i].key == IntKey(i)
  }

  function CheckAssoziative(v: Value): (r: Result<Value>)
    ensures !v.Arr? ==> r == Err(NotArray(v))
    ensures v.Arr? ==> (r.Ok? <==> !KeysAreRange(v.entries))
    ensures r.Ok? ==> r.value == v
    ensures v.Arr? && r.Err? ==> r.error == TypeInvalid("array-associative", Some("array-sequential"))
  {
    match GetValue(v)
    case Err(e) => Err(e)
    case Ok(es) =>
      if KeysAreRange(es) then Err(TypeInvalid("array-associative", Some("array-sequential"))) else Ok(v)
  }

  function CheckSequential(v: Value): (r: Result<Value>)
    ensures !v.Arr? ==> r == Err(NotArray(v))
    ensures v.Arr? ==> (r.Ok? <==> KeysAreRange(v.entries))
    ensures r.Ok? ==> r.value == v
    ensures v.Arr? && r.Err? ==> r.error == TypeInvalid("array-sequential", Some("array-associative"))
  {
    match GetValue(v)
    case Err(e) => Err(e)
    case Ok(es) =>
      if !KeysAreRange(es) then Err(TypeInvalid("array-sequential", Some("array-associative"))) else Ok(v)
  }

  /** The key test is "a non-empty list": range(0, -1) is [0, -1], so the
      empty array never matches. */
  lemma KeysAreRangeIff(es: seq<Entry>)
    ensures KeysAreRange(es) <==> |es| > 0 && IsList(es)
  {
    if |es| == 0 {
      RangeDown(0, -1);
      assert |IntKeys(Range(0, -1))| == 2;
    } else {
      RangeUp(0, |es| - 1);
      if IsList(es) {
        assert KeySeq(es) == IntKeys(Range(0, |es| - 1));
      }
      if KeysAreRange(es) {
        forall i | 0 <= i < |es|
          ensures es[i].key == IntKey(i)
        {
          assert KeySeq(es)[i] == IntKeys(Range(0, |es| - 1))[i];
        }
      }
    }
  }

  /** checkSequential accepts exactly the non-empty lists, checkAssoziative
      exactly the other arrays. */
  lemma SequentialIffNonEmptyList(v: Value)
    ensures CheckSequential(v).Ok? <==> v.Arr? && |v.entries| > 0 && IsList(v.entries)
    ensures CheckAssoziative(v).Ok? <==> v.Arr? && !(|v.entries| > 0 && IsList(v.entries))
  {
    if v.Arr? {
      KeysAreRangeIff(v.entries);
    }
  }

  /** On every array exactly one of the two checks succeeds. */
  lemma SequentialXorAssociative(v: Value)
    requires v.Arr?
    ensures CheckSequential(v).Ok? != CheckAssoziative(v).Ok?
  {
  }

  /** The empty array is classified as associative, not sequential. */
  lemma EmptyArrayIsAssociative()
    ensures CheckSequential(Arr([])) == Err(TypeInvalid("array-sequential", Some("array-associative")))
    ensures CheckAssoziative(Arr([])) == Ok(Arr([]))
  {
    SequentialIffNonEmptyList(Arr([]));
  }

  // ---------------------------------------------------------------------
  // Element-wise checks: fail fast on the first offending element

  /** The per-element test of checkFlat, checkString, checkStringOrNull and
      checkClass. */
  datatype ElementRule = Flat | Strings | StringsOrNull | InstancesOf(className: string)

  /** The exception one element raises under a rule, if any. An element of
      checkClass goes through the nominal class check, so it may raise
      TypeInvalid (not an object) or ClassInvalid. */
  function RuleError(rule: ElementRule, e: Value): Option<Error> {
    match rule
    case Flat =>
      if IsScalarOrNull(e) then None else Some(TypeInvalid("flat", Some(GetType(e))))
    case Strings =>
      if e.Str? then None else Some(TypeInvalid("string", Some(GetType(e))))
    case StringsOrNull =>
      if e.Str? || e.Null? then None else Some(TypeInvalid("string", Some(GetType(e))))
    case InstancesOf(c) =>
      match ClassChecker.CheckGiven(e, c)
      case Ok(_) => None
      case Err(err) => Some(err)
  }

  /** The exception of the first offending element in iteration order. */
  function Scan(es: seq<Entry>, rule: ElementRule): Option<Error>
    decreases |es|
  {
    if |es| == 0 then None
    else if RuleError(rule, es[0].val).Some? then RuleError(rule, es[0].val)
    else Scan(es[1..], rule)
  }

  /** Entry i is the first one the rule rejects. */
  predicate FirstOffender(es: seq<Entry>, rule: ElementRule, i: int) {
    && 0 <= i < |es|
    && RuleError(rule, es[i].val).Some?
    && forall j :: 0 <= j < i ==> RuleError(rule, es[j].val).None?
  }

  lemma {:induction false} ScanFindsFirstOffender(es: seq<Entry>, rule: ElementRule)
    ensures Scan(es, rule).None? <==> forall i :: 0 <= i < |es| ==> RuleError(rule, es[i].val).None?
    ensures Scan(es, rule).Some? ==>
              exists i :: FirstOffender(es, rule, i) && Scan(es, rule) == RuleError(rule, es[i].val)
    decreases |es|
  {
    if |es| > 0 {
      if RuleError(rule, es[0].val).Some? {
        assert FirstOffender(es, rule, 0);
      } else {
        ScanFindsFirstOffender(es[1..], rule);
        assert forall i :: 1 <= i < |es| ==> es[i] == es[1..][i - 1];
        if Scan(es[1..], rule).Some? {
          var i :| FirstOffender(es[1..], rule, i) && Scan(es[1..], rule) == RuleError(rule, es[1..][i].val);
          assert FirstOffender(es, rule, i + 1);
        }
      }
    }
  }

  /** The foreach loop shared by the element-wise checks. */
  method ScanElements(es: seq<Entry>, rule: ElementRule) returns (err: Option<Error>)
    ensures err == Scan(es, rule)
  {
    var i := 0;
    while i < |es|
      invariant 0 <= i <= |es|
      invariant Scan(es, rule) == Scan(es[i..], rule)
    {
      assert es[i..][1..] == es[i + 1..];
      var e := RuleError(rule, es[i].val);
      if e.Some? {
        return e;
      }
      i := i + 1;
    }
    return None;
  }

  /** The result of an element-wise check on the held value `v`. */
  function Elements(v: Value, rule: ElementRule): Result<Value> {
    match GetValue(v)
    case Err(e) => Err(e)
    case Ok(es) =>
      match Scan(es, rule)
      case None => Ok(v)
      case Some(e) => Err(e)
  }

  /** What every element-wise check promises: success exactly when no element
      is rejected, the input returned unchanged, and otherwise the exception
      of the first rejected element. */
  lemma ElementsMeaning(v: Value, rule: ElementRule)
    ensures !v.Arr? ==> Elements(v, rule) == Err(NotArray(v))
    ensures v.Arr? ==>
              (Elements(v, rule).Ok? <==>
               forall i :: 0 <= i < |v.entries| ==> RuleError(rule, v.entries[i].val).None?)
    ensures Elements(v, rule).Ok? ==> Elements(v, rule).value == v
    ensures v.Arr? && Elements(v, rule).Err? ==>
              exists i :: FirstOffender(v.entries, rule, i) && Some(Elements(v, rule).error) == RuleError(rule, v.entries[i].val)
  {
    if v.Arr? {
      ScanFindsFirstOffender(v.entries, rule);
    }
  }

  method CheckElements(v: Value, rule: ElementRule) returns (r: Result<Value>)
    ensures r == Elements(v, rule)
  {
    if !v.Arr? {
      return Err(NotArray(v));
    }
    var err := ScanElements(v.entries, rule);
    if err.Some? {
      return Err(err.value);
    }
    return Ok(v);
  }

  /** checkFlat(): every element is bool, float, int, string or null. */
  method CheckFlat(v: Value) returns (r: Result<Value>)
    ensures r == Elements(v, Flat)
    ensures !v.Arr? ==> r == Err(NotArray(v))
    ensures r.Ok? <==> v.Arr? && forall i :: 0 <= i < |v.entries| ==> IsScalarOrNull(v.entries[i].val)
    ensures r.Ok? ==> r.value == v
    ensures v.Arr? && r.Err? ==>
              exists i :: FirstOffender(v.entries, Flat, i) && r.error == TypeInvalid("flat", Some(GetType(v.entries[i].val)))
  {
    r := CheckElements(v, Flat);
    ElementsMeaning(v, Flat);
  }

  /** checkString(): every element is a string. */
  method CheckString(v: Value) returns (r: Result<Value>)
    ensures r == Elements(v, Strings)
    ensures !v.Arr? ==> r == Err(NotArray(v))
    ensures r.Ok? <==> v.Arr? && forall i :: 0 <= i < |v.entries| ==> v.entries[i].val.Str?
    ensures r.Ok? ==> r.value == v
    ensures v.Arr? && r.Err? ==>
              exists i :: FirstOffender(v.entries, Strings, i) && r.error == TypeInvalid("string", Some(GetType(v.entries[i].val)))
  {
    r := CheckElements(v, Strings);
    ElementsMeaning(v, Strings);
  }

  /** checkStringOrNull(): every element is a string or null. */
  method CheckStringOrNull(v: Value) returns (r: Result<Value>)
    ensures r == Elements(v, StringsOrNull)
    ensures !v.Arr? ==> r == Err(NotArray(v))
    ensures r.Ok? <==> v.Arr? && forall i :: 0 <= i < |v.entries| ==> v.entries[i].val.Str? || v.entries[i].val.Null?
    ensures r.Ok? ==> r.value == v
    ensures v.Arr? && r.Err? ==>
              exists i :: FirstOffender(v.entries, StringsOrNull, i) && r.error == TypeInvalid("string", Some(GetType(v.entries[i].val)))
  {
    r := CheckElements(v, StringsOrNull);
    ElementsMeaning(v, StringsOrNull);
  }

  /** checkClass($className), corrected: every element is an instance of
      the class, checked by checkGiven. The source as written fails on every
      element instead; that is CheckClassAsWritten below. */
  method CheckClass(v: Value, className: string) returns (r: Result<Value>)
    ensures r == Elements(v, InstancesOf(className))
    ensures !v.Arr? ==> r == Err(NotArray(v))
    ensures r.Ok? <==> v.Arr? && forall i :: 0 <= i < |v.entries| ==> InstanceOf(v.entries[i].val, className)
    ensures r.Ok? ==> r.value == v
    ensures v.Arr? && r.Err? ==>
              exists i :: FirstOffender(v.entries, InstancesOf(className), i)
                          && ClassChecker.CheckGiven(v.entries[i].val, className) == Err(r.error)
  {
    r := CheckElements(v, InstancesOf(className));
    ElementsMeaning(v, InstancesOf(className));
  }

  /** checkClass($className) as written: the foreach hands each element to
      the facade's checkClass, which calls a method CheckerClass does not
      declare. The guard still runs first and an empty array skips the
      loop; any element at all ends in PHP's undefined-method Error. */
  function CheckClassAsWritten(v: Value, className: string): (o: Outcome)
    ensures !v.Arr? ==> o == Returned(Err(NotArray(v)))
    ensures v.Arr? && |v.entries| == 0 ==> o == Returned(Ok(v))
    ensures v.Arr? && |v.entries| > 0 ==> o == UndefinedMethod("CheckerClass", "checkClass")
  {
    match GetValue(v)
    case Err(e) => Returned(Err(e))
    case Ok(es) => if |es| == 0 then Returned(Ok(v)) else UndefinedMethod("CheckerClass", "checkClass")
  }

  /** Where the loop body never runs, the call as written and the corrected
      element-wise check agree. */
  lemma CheckClassAsWrittenWithoutElements(v: Value, className: string)
    requires !v.Arr? || |v.entries| == 0
    ensures CheckClassAsWritten(v, className) == Returned(Elements(v, InstancesOf(className)))
  {
  }

  /** A one-element list holding an instance of the class shows the
      difference: as written the call fails, the corrected check returns the
      list. */
  lemma CheckClassAsWrittenRejectsInstances(className: string)
    ensures var v := Arr([Entry(IntKey(0), Obj(0, className, {}))]);
            && CheckClassAsWritten(v, className) == UndefinedMethod("CheckerClass", "checkClass")
            && Elements(v, InstancesOf(className)) == Ok(v)
  {
    var v := Arr([Entry(IntKey(0), Obj(0, className, {}))]);
    assert InstanceOf(v.entries[0].val, className);
    assert RuleError(InstancesOf(className), v.entries[0].val) == None;
    assert v.entries[1..] == [];
    assert Scan(v.entries, InstancesOf(className)) == Scan([], InstancesOf(className));
  }

  // ---------------------------------------------------------------------
  // Indexed access

  /** The element `checkIndex($index)` finds: the entry at the canonical key
      of `index`, when `v` is an array holding it. */
  function Found(v: Value, index: string): Option<Value> {
    if v.Arr? then Lookup(v.entries, CanonicalKey(index)) else None
  }

  function CheckIndex(v: Value, index: string): (r: Result<Value>)
    ensures !v.Arr? ==> r == Err(NotArray(v))
    ensures v.Arr? ==> (r.Ok? <==> HasKey(v.entries, CanonicalKey(index)))
    ensures v.Arr? && r.Err? ==> r.error == KeyNotFound(index)
    ensures r.Ok? ==> Found(v, index) == Some(r.value)
  {
    match GetValue(v)
    case Err(e) => Err(e)
    case Ok(es) =>
      match Lookup(es, CanonicalKey(index))
      case None => Err(KeyNotFound(index))
      case Some(x) => Ok(x)
  }

  /** In a well-formed array, the decimal string of an int key finds the
      element stored under that int ('0' finds the first element of a
      list). */
  lemma CheckIndexFindsIntKey(v: Value, j: nat)
    requires v.Arr? && j < |v.entries| && UniqueKeys(v.entries)
    requires v.entries[j].key.IntKey? && PHP_INT_MIN <= v.entries[j].key.n <= PHP_INT_MAX
    ensures CheckIndex(v, IntToString(v.entries[j].key.n)) == Ok(v.entries[j].val)
  {
    CanonicalKeyOfIntString(v.entries[j].key.n);
    LookupAt(v.entries, j);
  }

  /** A string key is found under exactly the string the caller gave. */
  lemma CheckIndexFindsStrKey(v: Value, j: nat)
    requires v.Arr? && j < |v.entries| && UniqueKeys(v.entries)
    requires v.entries[j].key.StrKey? && CanonicalKey(v.entries[j].key.s) == v.entries[j].key
    ensures CheckIndex(v, v.entries[j].key.s) == Ok(v.entries[j].val)
  {
    LookupAt(v.entries, j);
  }

  function CheckIndexArray(v: Value, index: string): (r: Result<Value>)
    ensures !v.Arr? ==> r == Err(NotArray(v))
    ensures v.Arr? && Found(v, index).None? ==> r == Err(KeyNotFound(index))
    ensures Found(v, index).Some? ==> r == Check(Found(v, index).value)
  {
    match CheckIndex(v, index)
    case Err(e) => Err(e)
    case Ok(x) => Check(x)
  }

  function CheckIndexArrayAssoziative(v: Value, index: string): (r: Result<Value>)
    ensures !v.Arr? ==> r == Err(NotArray(v))
    ensures v.Arr? && Found(v, index).None? ==> r == Err(KeyNotFound(index))
    ensures Found(v, index).Some? ==> r == CheckAssoziative(Found(v, index).value)
  {
    match CheckIndex(v, index)
    case Err(e) => Err(e)
    case Ok(x) => CheckAssoziative(x)
  }

  function CheckIndexArraySequential(v: Value, index: string): (r: Result<Value>)
    ensures !v.Arr? ==> r == Err(NotArray(v))
    ensures v.Arr? && Found(v, index).None? ==> r == Err(KeyNotFound(index))
    ensures Found(v, index).Some? ==> r == CheckSequential(Found(v, index).value)
  {
    match CheckIndex(v, index)
    case Err(e) => Err(e)
    case Ok(x) => CheckSequential(x)
  }

  function CheckIndexInteger(v: Value, index: string): (r: Result<Value>)
    ensures !v.Arr? ==> r == Err(NotArray(v))
    ensures v.Arr? && Found(v, index).None? ==> r == Err(KeyNotFound(index))
    ensures Found(v, index).Some? ==> r == ScalarChecker.CheckInteger(Found(v, index).value)
  {
    match CheckIndex(v, index)
    case Err(e) => Err(e)
    case Ok(x) => ScalarChecker.CheckInteger(x)
  }

  function CheckIndexString(v: Value, index: string): (r: Result<Value>)
    ensures !v.Arr? ==> r == Err(NotArray(v))
    ensures v.Arr? && Found(v, index).None? ==> r == Err(KeyNotFound(index))
    ensures Found(v, index).Some? ==> r == ScalarChecker.CheckString(Found(v, index).value)
  {
    match CheckIndex(v, index)
    case Err(e) => Err(e)
    case Ok(x) => ScalarChecker.CheckString(x)
  }

  function CheckIndexStringOrNull(v: Value, index: string): (r: Result<Value>)
    ensures !v.Arr? ==> r == Err(NotArray(v))
    ensures v.Arr? && Found(v, index).None? ==> r == Err(KeyNotFound(index))
    ensures Found(v, index).Some? ==> r == ScalarChecker.CheckStringOrNull(Found(v, index).value)
  {
    match CheckIndex(v, index)
    case Err(e) => Err(e)
    case Ok(x) => ScalarChecker.CheckStringOrNull(x)
  }

  method CheckIndexArrayFlat(v: Value, index: string) returns (r: Result<Value>)
    ensures !v.Arr? ==> r == Err(NotArray(v))
    ensures v.Arr? && Found(v, index).None? ==> r == Err(KeyNotFound(index))
    ensures Found(v, index).Some? ==> r == Elements(Found(v, index).value, Flat)
  {
    var x :- CheckIndex(v, index);
    r := CheckFlat(x);
  }

  method CheckIndexArrayString(v: Value, index: string) returns (r: Result<Value>)
    ensures !v.Arr? ==> r == Err(NotArray(v))
    ensures v.Arr? && Found(v, index).None? ==> r == Err(KeyNotFound(index))
    ensures Found(v, index).Some? ==> r == Elements(Found(v, index).value, Strings)
  {
    var x :- CheckIndex(v, index);
    r := CheckString(x);
  }

  method CheckIndexArrayStringOrNull(v: Value, index: string) returns (r: Result<Value>)
    ensures !v.Arr? ==> r == Err(NotArray(v))
    ensures v.Arr? && Found(v, index).None? ==> r == Err(KeyNotFound(index))
    ensures Found(v, index).Some? ==> r == Elements(Found(v, index).value, StringsOrNull)
  {
    var x :- CheckIndex(v, index);
    r := CheckStringOrNull(x);
  }

  /** checkIndexArrayClass, over the corrected element-wise class check. */
  method CheckIndexArrayClass(v: Value, index: string, className: string) returns (r: Result<Value>)
    ensures !v.Arr? ==> r == Err(NotArray(v))
    ensures v.Arr? && Found(v, index).None? ==> r == Err(KeyNotFound(index))
    ensures Found(v, index).Some? ==> r == Elements(Found(v, index).value, InstancesOf(className))
  {
    var x :- CheckIndex(v, index);
    r := CheckClass(x, className);
  }

  method CheckIndexArrayArray(v: Value, index: string, filterKeys: seq<string>) returns (r: Result<Value>)
    ensures !v.Arr? ==> r == Err(NotArray(v))
    ensures v.Arr? && Found(v, index).None? ==> r == Err(KeyNotFound(index))
    ensures Found(v, index).Some? ==> r == ArrayRows(Found(v, index).value, filterKeys)
  {
    var x :- CheckIndex(v, index);
    r := CheckArray(x, filterKeys);
  }

  // ---------------------------------------------------------------------
  // checkArray($filterKeys): an array of rows, each projected onto the keys

  /** The canonical keys the filter keys name, in filter order. */
  function CanonKeys(filterKeys: seq<string>): (ks: seq<Key>)
    ensures |ks| == |filterKeys|
    ensures forall j :: 0 <= j < |filterKeys| ==> ks[j] == CanonicalKey(filterKeys[j])
    decreases |filterKeys|
  {
    if |filterKeys| == 0 then []
    else
      var rest := CanonKeys(filterKeys[1..]);
      assert forall j :: 1 <= j < |filterKeys| ==> filterKeys[j] == filterKeys[1..][j - 1];
      [CanonicalKey(filterKeys[0])] + rest
  }

  /** The inner foreach: `$newValue[$filterKey] = $array[$filterKey]` for the
      remaining filter keys, starting from the `acc` built so far. */
  function ProjectRow(row: seq<Entry>, filterKeys: seq<string>, acc: seq<Entry>): Result<seq<Entry>>
    decreases |filterKeys|
  {
    if |filterKeys| == 0 then Ok(acc)
    else
      var k := CanonicalKey(filterKeys[0]);
      match Lookup(row, k)
      case None => Err(KeyNotFound(filterKeys[0]))
      case Some(x) => ProjectRow(row, filterKeys[1..], ArraySet(acc, k, x))
  }

  /** One iteration of the outer foreach: the row itself when there are no
      filter keys, its projection otherwise. */
  function RowResult(row: Value, filterKeys: seq<string>): Result<Value> {
    if !row.Arr? then Err(TypeInvalid("array", None))
    else if |filterKeys| == 0 then Ok(row)
    else
      match ProjectRow(row.entries, filterKeys, [])
      case Err(e) => Err(e)
      case Ok(p) => Ok(Arr(p))
  }

  /** The outer foreach over the remaining rows, appending to `acc`. */
  function CollectRows(rows: seq<Entry>, filterKeys: seq<string>, acc: seq<Value>): Result<seq<Value>>
    decreases |rows|
  {
    if |rows| == 0 then Ok(acc)
    else
      match RowResult(rows[0].val, filterKeys)
      case Err(e) => Err(e)
      case Ok(x) => CollectRows(rows[1..], filterKeys, acc + [x])
  }

  /** What checkArray($filterKeys) returns or throws: the rows as a list. */
  function ArrayRows(v: Value, filterKeys: seq<string>): Result<Value> {
    match GetValue(v)
    case Err(e) => Err(e)
    case Ok(rows) =>
      match CollectRows(rows, filterKeys, [])
      case Err(e) => Err(e)
      case Ok(out) => Ok(Arr(ListOf(out)))
  }

  method CheckArray(v: Value, filterKeys: seq<string>) returns (r: Result<Value>)
    ensures !v.Arr? ==> r == Err(NotArray(v))
    ensures r == ArrayRows(v, filterKeys)
  {
    if !v.Arr? {
      return Err(NotArray(v));
    }
    var rows := v.entries;
    var ret: seq<Value> := [];
    var i := 0;
    while i < |rows|
      invariant 0 <= i <= |rows|
      invariant CollectRows(rows, filterKeys, []) == CollectRows(rows[i..], filterKeys, ret)
    {
      assert rows[i..][1..] == rows[i + 1..];
      var row := rows[i].val;
      if !row.Arr? {
        return Err(TypeInvalid("array", None));
      }
      if |filterKeys| == 0 {
        ret := ret + [row];
        i := i + 1;
        continue;
      }
      var newValue: seq<Entry> := [];
      var j := 0;
      while j < |filterKeys|
        invariant 0 <= j <= |filterKeys|
        invariant ProjectRow(row.entries, filterKeys, []) == ProjectRow(row.entries, filterKeys[j..], newValue)
      {
        assert filterKeys[j..][1..] == filterKeys[j + 1..];
        var k := CanonicalKey(filterKeys[j]);
        var found := Lookup(row.entries, k);
        if found.None? {
          return Err(KeyNotFound(filterKeys[j]));
        }
        newValue := ArraySet(newValue, k, found.value);
        j := j + 1;
      }
      ret := ret + [Arr(newValue)];
      i := i + 1;
    }
    return Ok(Arr(ListOf(ret)));
  }

  /** Filter key j is the first one the row lacks. */
  predicate FirstMissing(row: seq<Entry>, filterKeys: seq<string>, j: int) {
    && 0 <= j < |filterKeys|
    && !HasKey(row, CanonicalKey(filterKeys[j]))
    && forall i :: 0 <= i < j ==> HasKey(row, CanonicalKey(filterKeys[i]))
  }

  /** The projection succeeds exactly when the row holds every filter key,
      and otherwise reports the first filter key it lacks. */
  lemma {:induction false} ProjectRowFails(row: seq<Entry>, filterKeys: seq<string>, acc: seq<Entry>)
    ensures ProjectRow(row, filterKeys, acc).Ok? <==>
              forall j :: 0 <= j < |filterKeys| ==> HasKey(row, CanonicalKey(filterKeys[j]))
    ensures ProjectRow(row, filterKeys, acc).Err? ==>
              exists j :: FirstMissing(row, filterKeys, j) && ProjectRow(row, filterKeys, acc).error == KeyNotFound(filterKeys[j])
    decreases |filterKeys|
  {
    if |filterKeys| > 0 {
      var k := CanonicalKey(filterKeys[0]);
      var rest := filterKeys[1..];
      assert forall j :: 1 <= j < |filterKeys| ==> filterKeys[j] == rest[j - 1];
      if Lookup(row, k).None? {
        assert FirstMissing(row, filterKeys, 0);
      } else {
        var acc' := ArraySet(acc, k, Lookup(row, k).value);
        ProjectRowFails(row, rest, acc');
        if ProjectRow(row, rest, acc').Err? {
          var j :| FirstMissing(row, rest, j) && ProjectRow(row, rest, acc').error == KeyNotFound(rest[j]);
          assert FirstMissing(row, filterKeys, j + 1);
        }
      }
    }
  }

  /** A successful projection finds the row's value under a filter key and
      leaves every other key as it was in `acc`. */
  lemma {:induction false} ProjectRowLookup(row: seq<Entry>, filterKeys: seq<string>, acc: seq<Entry>, k: Key)
    requires ProjectRow(row, filterKeys, acc).Ok?
    ensures Lookup(ProjectRow(row, filterKeys, acc).value, k)
            == if k in CanonKeys(filterKeys) then Lookup(row, k) else Lookup(acc, k)
    decreases |filterKeys|
  {
    if |filterKeys| > 0 {
      var c := CanonicalKey(filterKeys[0]);
      var rest := filterKeys[1..];
      ProjectRowStep(row, filterKeys, acc);
      var acc' := ArraySet(acc, c, Lookup(row, c).value);
      ProjectRowLookup(row, rest, acc', k);
      ArraySetLookup(acc, c, Lookup(row, c).value, k);
      assert CanonKeys(filterKeys) == [c] + CanonKeys(rest);
    }
  }

  /** One step of the inner loop: the first filter key is present and
      written into `acc`. */
  lemma ProjectRowStep(row: seq<Entry>, filterKeys: seq<string>, acc: seq<Entry>)
    requires |filterKeys| > 0 && ProjectRow(row, filterKeys, acc).Ok?
    ensures Lookup(row, CanonicalKey(filterKeys[0])).Some?
    ensures ProjectRow(row, filterKeys, acc)
            == ProjectRow(row, filterKeys[1..], ArraySet(acc, CanonicalKey(filterKeys[0]), Lookup(row, CanonicalKey(filterKeys[0])).value))
  {
  }

  lemma AbsentKey(es: seq<Entry>, k: Key)
    requires k !in KeySeq(es)
    ensures !HasKey(es, k)
  {
  }

  lemma AppendKeySeq(acc: seq<Entry>, e: Entry)
    ensures KeySeq(acc + [e]) == KeySeq(acc) + [e.key]
  {
  }

  /** The keys after the first stay distinct and fresh once the first one
      is appended to `ks`. */
  lemma FreshTail(cs: seq<Key>, ks: seq<Key>)
    requires |cs| > 0 && Distinct(cs)
    requires forall k :: k in cs ==> k !in ks
    ensures cs[0] !in ks
    ensures Distinct(cs[1..])
    ensures forall k :: k in cs[1..] ==> k !in ks + [cs[0]]
    ensures ks + cs == (ks + [cs[0]]) + cs[1..]
  {
    forall k | k in cs[1..]
      ensures k != cs[0]
    {
      var j :| 0 <= j < |cs[1..]| && cs[1..][j] == k;
      assert cs[j + 1] == k;
    }
  }

  /** One step of the inner loop on a key `acc` does not hold yet appends
      that key's entry. */
  lemma ProjectRowAppend(row: seq<Entry>, filterKeys: seq<string>, acc: seq<Entry>)
    requires |filterKeys| > 0 && ProjectRow(row, filterKeys, acc).Ok?
    requires CanonicalKey(filterKeys[0]) !in KeySeq(acc)
    ensures Lookup(row, CanonicalKey(filterKeys[0])).Some?
    ensures var e := Entry(CanonicalKey(filterKeys[0]), Lookup(row, CanonicalKey(filterKeys[0])).value);
            && ProjectRow(row, filterKeys, acc) == ProjectRow(row, filterKeys[1..], acc + [e])
            && KeySeq(acc + [e]) == KeySeq(acc) + [e.key]
  {
    var c := CanonicalKey(filterKeys[0]);
    ProjectRowStep(row, filterKeys, acc);
    AbsentKey(acc, c);
    ArraySetKeys(acc, c, Lookup(row, c).value);
    AppendKeySeq(acc, Entry(c, Lookup(row, c).value));
  }

  /** With pairwise distinct filter keys, absent from `acc`, the projection
      appends them in filter order. */
  lemma {:induction false} ProjectRowKeys(row: seq<Entry>, filterKeys: seq<string>, acc: seq<Entry>)
    requires ProjectRow(row, filterKeys, acc).Ok?
    requires Distinct(CanonKeys(filterKeys))
    requires forall k :: k in CanonKeys(filterKeys) ==> k !in KeySeq(acc)
    ensures KeySeq(ProjectRow(row, filterKeys, acc).value) == KeySeq(acc) + CanonKeys(filterKeys)
    decreases |filterKeys|
  {
    if |filterKeys| > 0 {
      var cs := CanonKeys(filterKeys);
      FreshTail(cs, KeySeq(acc));
      ProjectRowAppend(row, filterKeys, acc);
      var e := Entry(cs[0], Lookup(row, cs[0]).value);
      ProjectRowKeys(row, filterKeys[1..], acc + [e]);
    }
  }

  /** checkArray's projection of one row holds exactly the filter keys, with
      the row's values, and, when the filter keys are pairwise distinct, in
      filter order. */
  lemma ProjectionIsExact(row: seq<Entry>, filterKeys: seq<string>)
    requires ProjectRow(row, filterKeys, []).Ok?
    ensures forall j :: 0 <= j < |filterKeys| ==>
              HasKey(row, CanonicalKey(filterKeys[j]))
              && Lookup(ProjectRow(row, filterKeys, []).value, CanonicalKey(filterKeys[j])) == Lookup(row, CanonicalKey(filterKeys[j]))
    ensures forall k :: HasKey(ProjectRow(row, filterKeys, []).value, k) ==> k in CanonKeys(filterKeys)
    ensures Distinct(filterKeys) ==> KeySeq(ProjectRow(row, filterKeys, []).value) == CanonKeys(filterKeys)
  {
    ProjectRowFails(row, filterKeys, []);
    var p := ProjectRow(row, filterKeys, []).value;
    forall j | 0 <= j < |filterKeys|
      ensures Lookup(p, CanonicalKey(filterKeys[j])) == Lookup(row, CanonicalKey(filterKeys[j]))
    {
      ProjectRowLookup(row, filterKeys, [], CanonicalKey(filterKeys[j]));
      assert CanonKeys(filterKeys)[j] == CanonicalKey(filterKeys[j]);
    }
    forall k | HasKey(p, k)
      ensures k in CanonKeys(filterKeys)
    {
      ProjectRowLookup(row, filterKeys, [], k);
    }
    if Distinct(filterKeys) {
      forall i, j | 0 <= i < j < |filterKeys|
        ensures CanonKeys(filterKeys)[i] != CanonKeys(filterKeys)[j]
      {
        if CanonicalKey(filterKeys[i]) == CanonicalKey(filterKeys[j]) {
          CanonicalKeyInjective(filterKeys[i], filterKeys[j]);
        }
      }
      assert KeySeq([]) == [];
      ProjectRowKeys(row, filterKeys, []);
    }
  }

  /** Row i is the first one checkArray rejects. */
  predicate FirstFailingRow(rows: seq<Entry>, filterKeys: seq<string>, i: int) {
    && 0 <= i < |rows|
    && RowResult(rows[i].val, filterKeys).Err?
    && forall j :: 0 <= j < i ==> RowResult(rows[j].val, filterKeys).Ok?
  }

  /** The outer loop succeeds exactly when every row does. */
  lemma {:induction false} CollectRowsOkIff(rows: seq<Entry>, filterKeys: seq<string>, acc: seq<Value>)
    ensures CollectRows(rows, filterKeys, acc).Ok? <==>
              forall i :: 0 <= i < |rows| ==> RowResult(rows[i].val, filterKeys).Ok?
    decreases |rows|
  {
    if |rows| > 0 {
      var rest := rows[1..];
      assert forall i :: 1 <= i < |rows| ==> rows[i] == rest[i - 1];
      var head := RowResult(rows[0].val, filterKeys);
      if head.Ok? {
        CollectRowsOkIff(rest, filterKeys, acc + [head.value]);
      }
    }
  }

  /** A successful outer loop appends one result per row after `acc`. */
  lemma {:induction false} CollectRowsPrefix(rows: seq<Entry>, filterKeys: seq<string>, acc: seq<Value>)
    requires CollectRows(rows, filterKeys, acc).Ok?
    ensures |CollectRows(rows, filterKeys, acc).value| == |acc| + |rows|
    ensures CollectRows(rows, filterKeys, acc).value[..|acc|] == acc
    decreases |rows|
  {
    if |rows| > 0 {
      var acc' := acc + [RowResult(rows[0].val, filterKeys).value];
      CollectRowsPrefix(rows[1..], filterKeys, acc');
      var out := CollectRows(rows[1..], filterKeys, acc').value;
      assert out[..|acc|] == out[..|acc'|][..|acc|];
    }
  }

  /** Row i's result sits at position |acc| + i of the output. */
  lemma {:induction false} CollectRowsAt(rows: seq<Entry>, filterKeys: seq<string>, acc: seq<Value>, i: nat)
    requires CollectRows(rows, filterKeys, acc).Ok? && i < |rows|
    ensures |acc| + i < |CollectRows(rows, filterKeys, acc).value|
    ensures RowResult(rows[i].val, filterKeys) == Ok(CollectRows(rows, filterKeys, acc).value[|acc| + i])
    decreases |rows|
  {
    CollectRowsPrefix(rows, filterKeys, acc);
    var head := RowResult(rows[0].val, filterKeys);
    var acc' := acc + [head.value];
    CollectRowsPrefix(rows[1..], filterKeys, acc');
    var out := CollectRows(rows[1..], filterKeys, acc').value;
    if i == 0 {
      assert out[|acc|] == out[..|acc'|][|acc|];
    } else {
      CollectRowsAt(rows[1..], filterKeys, acc', i - 1);
      assert rows[1..][i - 1] == rows[i];
    }
  }

  /** A successful outer loop appends one result per row, in row order. */
  lemma CollectRowsValue(rows: seq<Entry>, filterKeys: seq<string>, acc: seq<Value>)
    requires CollectRows(rows, filterKeys, acc).Ok?
    ensures |CollectRows(rows, filterKeys, acc).value| == |acc| + |rows|
    ensures CollectRows(rows, filterKeys, acc).value[..|acc|] == acc
    ensures forall i :: 0 <= i < |rows| ==>
              RowResult(rows[i].val, filterKeys) == Ok(CollectRows(rows, filterKeys, acc).value[|acc| + i])
  {
    CollectRowsPrefix(rows, filterKeys, acc);
    forall i | 0 <= i < |rows|
      ensures RowResult(rows[i].val, filterKeys) == Ok(CollectRows(rows, filterKeys, acc).value[|acc| + i])
    {
      CollectRowsAt(rows, filterKeys, acc, i);
    }
  }

  /** A failing outer loop fails with the exception of the first failing row. */
  lemma {:induction false} CollectRowsError(rows: seq<Entry>, filterKeys: seq<string>, acc: seq<Value>)
    requires CollectRows(rows, filterKeys, acc).Err?
    ensures exists i :: FirstFailingRow(rows, filterKeys, i)
                        && RowResult(rows[i].val, filterKeys) == Err(CollectRows(rows, filterKeys, acc).error)
    decreases |rows|
  {
    var rest := rows[1..];
    assert forall i :: 1 <= i < |rows| ==> rows[i] == rest[i - 1];
    var head := RowResult(rows[0].val, filterKeys);
    if head.Err? {
      assert FirstFailingRow(rows, filterKeys, 0);
    } else {
      var acc' := acc + [head.value];
      CollectRowsError(rest, filterKeys, acc');
      var i :| FirstFailingRow(rest, filterKeys, i)
               && RowResult(rest[i].val, filterKeys) == Err(CollectRows(rest, filterKeys, acc').error);
      assert FirstFailingRow(rows, filterKeys, i + 1);
    }
  }

  /** checkArray([]): the rows, unchanged but keyed 0..n-1, as long as every
      row is an array; otherwise TypeInvalid('array') with no actual type. */
  lemma CheckArrayWithoutFilter(v: Value)
    requires v.Arr?
    ensures ArrayRows(v, []).Ok? <==> forall i :: 0 <= i < |v.entries| ==> v.entries[i].val.Arr?
    ensures ArrayRows(v, []).Ok? ==> ArrayRows(v, []) == Ok(Arr(ListOf(Values(v.entries))))
    ensures ArrayRows(v, []).Err? ==> ArrayRows(v, []).error == TypeInvalid("array", None)
  {
    CollectRowsOkIff(v.entries, [], []);
    if CollectRows(v.entries, [], []).Ok? {
      CollectRowsValue(v.entries, [], []);
      var out := CollectRows(v.entries, [], []).value;
      assert out == Values(v.entries);
    } else {
      CollectRowsError(v.entries, [], []);
    }
  }

  /** Output row i of checkArray($filterKeys) is input row i projected. */
  lemma CheckArrayRowAt(v: Value, filterKeys: seq<string>, i: nat)
    requires v.Arr? && |filterKeys| > 0 && ArrayRows(v, filterKeys).Ok? && i < |v.entries|
    ensures var out := ArrayRows(v, filterKeys).value;
            && out.Arr? && i < |out.entries|
            && out.entries[i].key == IntKey(i)
            && v.entries[i].val.Arr?
            && out.entries[i].val.Arr?
            && ProjectRow(v.entries[i].val.entries, filterKeys, []) == Ok(out.entries[i].val.entries)
  {
    CollectRowsAt(v.entries, filterKeys, [], i);
  }

  /** checkArray($filterKeys) with filter keys: one projected row per input
      row, in order and keyed 0..n-1. */
  lemma CheckArrayWithFilter(v: Value, filterKeys: seq<string>)
    requires v.Arr? && |filterKeys| > 0
    ensures ArrayRows(v, filterKeys).Ok? ==>
              var out := ArrayRows(v, filterKeys).value;
              && out.Arr?
              && |out.entries| == |v.entries|
              && forall i :: 0 <= i < |v.entries| ==>
                   && out.entries[i].key == IntKey(i)
                   && v.entries[i].val.Arr?
                   && out.entries[i].val.Arr?
                   && ProjectRow(v.entries[i].val.entries, filterKeys, []) == Ok(out.entries[i].val.entries)
  {
    if ArrayRows(v, filterKeys).Ok? {
      CollectRowsPrefix(v.entries, filterKeys, []);
      forall i | 0 <= i < |v.entries|
        ensures var out := ArrayRows(v, filterKeys).value;
                && out.entries[i].key == IntKey(i)
                && v.entries[i].val.Arr?
                && out.entries[i].val.Arr?
                && ProjectRow(v.entries[i].val.entries, filterKeys, []) == Ok(out.entries[i].val.entries)
      {
        CheckArrayRowAt(v, filterKeys, i);
      }
    }
  }

  /** checkArray fails on the first row that is not an array or lacks a
      filter key, with TypeInvalid('array') or KeyNotFound of the first
      missing key. */
  lemma CheckArrayFailsAtFirstBadRow(v: Value, filterKeys: seq<string>)
    requires v.Arr? && ArrayRows(v, filterKeys).Err?
    ensures exists i :: FirstFailingRow(v.entries, filterKeys, i)
                       && (!v.entries[i].val.Arr? ==> ArrayRows(v, filterKeys).error == TypeInvalid("array", None))
                       && (v.entries[i].val.Arr? ==>
                             exists j :: FirstMissing(v.entries[i].val.entries, filterKeys, j)
                                         && ArrayRows(v, filterKeys).error == KeyNotFound(filterKeys[j]))
  {
    CollectRowsError(v.entries, filterKeys, []);
    var i :| FirstFailingRow(v.entries, filterKeys, i)
             && RowResult(v.entries[i].val, filterKeys) == Err(ArrayRows(v, filterKeys).error);
    if v.entries[i].val.Arr? {
      ProjectRowFails(v.entries[i].val.entries, filterKeys, []);
    }
  }
}
