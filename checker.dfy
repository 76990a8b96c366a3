/** The facade checker (src/Checker.php): the operations that forward the
    held value to the array, class and JSON checkers. Its exact-type guards
    live in module ScalarChecker, because the array and JSON checkers call
    them and are in turn called from here. */
module Checker {
  import opened PhpValue
  import ClassChecker
  import JsonChecker
  import ArrayChecker

  /** checkArray(): forwards to CheckerArray::check, so it returns every
      array unchanged and rejects null and all other non-arrays. */
  function CheckArray(v: Value): (r: Result<Value>)
    ensures r == ArrayChecker.Check(v)
    ensures r.Ok? <==> v.Arr?
    ensures r.Ok? ==> r.value == v
    ensures r.Err? ==> r.error == TypeInvalid("array", Some(GetType(v)))
  {
    ArrayChecker.Check(v)
  }

  /** checkClass($className): forwards to CheckerClass::checkGiven. The
      source names a method `checkClass` that CheckerClass does not declare;
      that call as written is CheckClassAsWritten below. */
  function CheckClass(v: Value, className: string): (r: Result<Value>)
    ensures r == ClassChecker.CheckGiven(v, className)
    ensures r.Ok? <==> InstanceOf(v, className)
    ensures r.Ok? ==> r.value == v
  {
    ClassChecker.CheckGiven(v, className)
  }

  /** checkStdClass(): forwards to CheckerClass::checkStdClass. */
  function CheckStdClass(v: Value): (r: Result<Value>)
    ensures r == ClassChecker.CheckStdClass(v)
    ensures r.Ok? <==> InstanceOf(v, "stdClass")
    ensures r.Ok? ==> r.value == v
  {
    ClassChecker.CheckStdClass(v)
  }

  /** checkJson(): wraps the value in a fresh JSON checker and runs its
      checkJson. The source calls `check()`, which CheckerJson does not
      declare; that call as written is CheckJsonAsWritten below. */
  method CheckJson(v: Value, decodes: JsonChecker.JsonDecoder) returns (r: Result<Value>)
    ensures r == JsonChecker.JsonResult(v, decodes)
    ensures r.Ok? <==> JsonChecker.IsJsonValue(v, decodes)
    ensures r.Ok? ==> r.value == v
  {
    var checker := new JsonChecker.CheckerJson(v, decodes);
    r := checker.CheckJson();
  }

  // ---------------------------------------------------------------------
  // The two delegations as written

  /** `(new CheckerClass($value))->checkClass($className)`: CheckerClass has
      no method of that name, so every call ends in PHP's Error. The same
      call is reached from CheckerArray::checkClass for each element. */
  function CheckClassAsWritten(v: Value, className: string): (o: Outcome)
    ensures o.UndefinedMethod? && o.methodName == "checkClass"
  {
    UndefinedMethod("CheckerClass", "checkClass")
  }

  /** `(new CheckerJson($value))->check()`: CheckerJson has no method of that
      name either. */
  function CheckJsonAsWritten(v: Value): (o: Outcome)
    ensures o.UndefinedMethod? && o.methodName == "check"
  {
    UndefinedMethod("CheckerJson", "check")
  }

  /** An instance of the requested class shows the difference: as written
      the call fails, the intended delegation returns the object. */
  lemma CheckClassAsWrittenRejectsInstance(className: string)
    ensures CheckClassAsWritten(Obj(0, className, {}), className) != Returned(Ok(Obj(0, className, {})))
    ensures CheckClass(Obj(0, className, {}), className) == Ok(Obj(0, className, {}))
  {
  }

  /** A valid JSON string shows the difference: as written the call fails,
      the intended delegation returns the string. */
  lemma CheckJsonAsWrittenRejectsValidJson(decodes: JsonChecker.JsonDecoder)
    requires decodes("{}")
    ensures CheckJsonAsWritten(Str("{}")) != Returned(Ok(Str("{}")))
    ensures JsonChecker.JsonResult(Str("{}"), decodes) == Ok(Str("{}"))
  {
  }
}
