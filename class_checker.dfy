/** The nominal object checks (src/CheckerClass.php). */
module ClassChecker {
  import opened PhpValue

  /** `checkGiven($className)`: the type guard runs before the class guard,
      and instances of subclasses and implementors are accepted. */
  function CheckGiven(v: Value, className: string): (r: Result<Value>)
    ensures !v.Obj? ==> r == Err(TypeInvalid(className, Some(GetType(v))))
    ensures v.Obj? && !InstanceOf(v, className) ==> r == Err(ClassInvalid(className, v.className))
    ensures r.Ok? <==> InstanceOf(v, className)
    ensures r.Ok? ==> r.value == v
  {
    if !v.Obj? then Err(TypeInvalid(className, Some(GetType(v))))
    else if !InstanceOf(v, className) then Err(ClassInvalid(className, v.className))
    else Ok(v)
  }

  /** `checkStdClass()`: instanceof stdClass, and a TypeInvalid error (never
      ClassInvalid) for everything else, objects of other classes included. */
  function CheckStdClass(v: Value): (r: Result<Value>)
    ensures r.Ok? <==> InstanceOf(v, "stdClass")
    ensures r.Ok? ==> r.value == v
    ensures r.Err? ==> r.error == TypeInvalid("stdClass", Some(GetType(v)))
  {
    if !InstanceOf(v, "stdClass") then Err(TypeInvalid("stdClass", Some(GetType(v)))) else Ok(v)
  }

  /** A value that is not an object never produces ClassInvalid, and an
      object never produces TypeInvalid. */
  lemma TypeGuardPrecedesClassGuard(v: Value, className: string)
    ensures CheckGiven(v, className).Err? && CheckGiven(v, className).error.ClassInvalid? ==> v.Obj?
    ensures v.Obj? && CheckGiven(v, className).Err? ==> CheckGiven(v, className).error.ClassInvalid?
  {
  }
}
