/** The loosely typed values a checker holds, the failures it reports and
    the PHP runtime facts (gettype, instanceof, is_iterable) the checks use. */
module PhpValue {

  /** An array key. PHP stores a decimal-integer string key as an int key
      (see module PhpKey), so the two kinds never denote the same slot. */
  datatype Key = IntKey(n: int) | StrKey(s: string)

  /** A PHP value. A float is only an opaque tag (no arithmetic is done on
      it). An array is an ordered list of key/value entries. An object is
      identified by a handle and carries its class name together with every
      ancestor class and interface it implements. */
  datatype Value =
    | Null
    | Bool(b: bool)
    | Int(n: int)
    | Float(image: string)
    | Str(s: string)
    | Arr(entries: seq<Entry>)
    | Obj(handle: nat, className: string, supertypes: set<string>)

  datatype Entry = Entry(key: Key, val: Value)

  datatype Option<+T> = None | Some(value: T)

  /** The three exception kinds of the library, with the payload the
      source passes. `actual` is None where the source throws the
      one-argument form. */
  datatype Error =
    | TypeInvalid(expected: string, actual: Option<string>)
    | ClassInvalid(expected: string, actualClass: string)
    | KeyNotFound(key: string)

  /** The value a check narrows to, or the exception it throws. */
  datatype Result<+T> = Ok(value: T) | Err(error: Error) {
    predicate IsFailure() { Err? }

    function PropagateFailure<U>(): Result<U>
      requires Err?
    {
      Err(error)
    }

    function Extract(): T
      requires Ok?
    {
      value
    }
  }

  /** How a call ends in PHP when the callee may not exist: the checker's
      result, or the Error PHP throws for a method the class does not
      declare. */
  datatype Outcome = Returned(result: Result<Value>) | UndefinedMethod(className: string, methodName: string)

  /** PHP's gettype(): the "actual" label of a TypeInvalid error. */
  function GetType(v: Value): (t: string)
    ensures t in {"NULL", "boolean", "integer", "double", "string", "array", "object"}
    ensures t == "array" <==> v.Arr?
    ensures t == "object" <==> v.Obj?
    ensures t == "string" <==> v.Str?
  {
    match v
    case Null => "NULL"
    case Bool(_) => "boolean"
    case Int(_) => "integer"
    case Float(_) => "double"
    case Str(_) => "string"
    case Arr(_) => "array"
    case Obj(_, _, _) => "object"
  }

  /** is_bool || is_float || is_int || is_string || is_null */
  predicate IsScalarOrNull(v: Value) {
    v.Bool? || v.Float? || v.Int? || v.Str? || v.Null?
  }

  /** `$v instanceof $className`: the object's own class or any of its
      ancestors and interfaces. */
  predicate InstanceOf(v: Value, className: string) {
    v.Obj? && (className == v.className || className in v.supertypes)
  }

  /** is_iterable: arrays and Traversable objects. */
  predicate IsIterable(v: Value) {
    v.Arr? || InstanceOf(v, "Traversable")
  }

  /** The error every array operation throws when the held value is not an
      array. */
  function NotArray(v: Value): Error {
    TypeInvalid("array", Some(GetType(v)))
  }
}
