/** The exact-type guards of the facade checker (src/Checker.php): each
    returns the held value unchanged when its runtime type is exactly the
    requested one, and never coerces ('0' is not an int). */
module ScalarChecker {
  import opened PhpValue

  function CheckBoolean(v: Value): (r: Result<Value>)
    ensures r.Ok? <==> v.Bool?
    ensures r.Ok? ==> r.value == v
    ensures r.Err? ==> r.error == TypeInvalid("boolean", Some(GetType(v)))
  {
    if !v.Bool? then Err(TypeInvalid("boolean", Some(GetType(v)))) else Ok(v)
  }

  function CheckFloat(v: Value): (r: Result<Value>)
    ensures r.Ok? <==> v.Float?
    ensures r.Ok? ==> r.value == v
    ensures r.Err? ==> r.error == TypeInvalid("float", Some(GetType(v)))
  {
    if !v.Float? then Err(TypeInvalid("float", Some(GetType(v)))) else Ok(v)
  }

  /** is_iterable: arrays and Traversable objects pass, strings do not. */
  function CheckIterable(v: Value): (r: Result<Value>)
    ensures r.Ok? <==> v.Arr? || InstanceOf(v, "Traversable")
    ensures r.Ok? ==> r.value == v
    ensures r.Err? ==> r.error == TypeInvalid("iterable", Some(GetType(v)))
  {
    if !IsIterable(v) then Err(TypeInvalid("iterable", Some(GetType(v)))) else Ok(v)
  }

  function CheckInteger(v: Value): (r: Result<Value>)
    ensures r.Ok? <==> v.Int?
    ensures r.Ok? ==> r.value == v
    ensures r.Err? ==> r.error == TypeInvalid("int", Some(GetType(v)))
  {
    if !v.Int? then Err(TypeInvalid("int", Some(GetType(v)))) else Ok(v)
  }

  /** Every object passes, whatever its class (stdClass included). */
  function CheckObject(v: Value): (r: Result<Value>)
    ensures r.Ok? <==> v.Obj?
    ensures r.Ok? ==> r.value == v
    ensures r.Err? ==> r.error == TypeInvalid("object", Some(GetType(v)))
  {
    if !v.Obj? then Err(TypeInvalid("object", Some(GetType(v)))) else Ok(v)
  }

  function CheckString(v: Value): (r: Result<Value>)
    ensures r.Ok? <==> v.Str?
    ensures r.Ok? ==> r.value == v
    ensures r.Err? ==> r.error == TypeInvalid("string", Some(GetType(v)))
  {
    if !v.Str? then Err(TypeInvalid("string", Some(GetType(v)))) else Ok(v)
  }

  /** Strings and null pass; anything else fails with the label 'string'. */
  function CheckStringOrNull(v: Value): (r: Result<Value>)
    ensures r.Ok? <==> v.Str? || v.Null?
    ensures r.Ok? ==> r.value == v
    ensures r.Err? ==> r.error == TypeInvalid("string", Some(GetType(v)))
  {
    if !v.Str? && !v.Null? then Err(TypeInvalid("string", Some(GetType(v)))) else Ok(v)
  }

  /** The guards agree with gettype(): each accepts exactly the values whose
      gettype() names its type, so no value of another type is coerced. */
  lemma GuardsAgreeWithGetType(v: Value)
    ensures CheckBoolean(v).Ok? <==> GetType(v) == "boolean"
    ensures CheckInteger(v).Ok? <==> GetType(v) == "integer"
    ensures CheckFloat(v).Ok? <==> GetType(v) == "double"
    ensures CheckString(v).Ok? <==> GetType(v) == "string"
    ensures CheckObject(v).Ok? <==> GetType(v) == "object"
    ensures CheckStringOrNull(v).Ok? <==> GetType(v) in {"string", "NULL"}
  {
  }

  /** At most one of the exact scalar guards accepts any value. */
  lemma ScalarGuardsExclusive(v: Value)
    ensures CheckBoolean(v).Ok? ==> CheckInteger(v).Err? && CheckFloat(v).Err? && CheckString(v).Err?
    ensures CheckInteger(v).Ok? ==> CheckFloat(v).Err? && CheckString(v).Err?
    ensures CheckFloat(v).Ok? ==> CheckString(v).Err?
  {
  }
}
