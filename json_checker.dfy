/** The JSON string check (src/CheckerJson.php). Whether PHP's json_decode
    accepts a string (json_last_error() === JSON_ERROR_NONE afterwards) is
    PHP's own parser, so it is a parameter here: `decodes`. */
module JsonChecker {
  import opened PhpValue
  import ScalarChecker

  /** json_decode($s) followed by json_last_error() === JSON_ERROR_NONE. */
  type JsonDecoder = string -> bool

  /** What `checkJson()` returns or throws for the held value `v`. */
  function JsonResult(v: Value, decodes: JsonDecoder): (r: Result<Value>)
    ensures !v.Str? ==> r == Err(TypeInvalid("string", Some(GetType(v))))
    ensures v.Str? && !decodes(v.s) ==> r == Err(TypeInvalid("json", None))
    ensures r.Ok? <==> v.Str? && decodes(v.s)
    ensures r.Ok? ==> r.value == v
  {
    match ScalarChecker.CheckString(v)
    case Err(e) => Err(e)
    case Ok(s) => if decodes(s.s) then Ok(s) else Err(TypeInvalid("json", None))
  }

  /** The answer of `isJson()` for the held value `v`: total, never throws. */
  predicate IsJsonValue(v: Value, decodes: JsonDecoder)
  {
    v.Str? && decodes(v.s)
  }

  /** The throwing and the predicate form agree on every value. */
  lemma CheckJsonAgreesWithIsJson(v: Value, decodes: JsonDecoder)
    ensures JsonResult(v, decodes).Ok? <==> IsJsonValue(v, decodes)
    ensures JsonResult(v, decodes).Ok? ==> JsonResult(v, decodes).value == v
  {
  }

  /** A checker holding one value; `checkJson` writes the field back after
      narrowing it to a string. */
  class CheckerJson {
    var value: Value
    const decodes: JsonDecoder

    constructor (value: Value, decodes: JsonDecoder)
      ensures this.value == value && this.decodes == decodes
    {
      this.value := value;
      this.decodes := decodes;
    }

    /** Narrows the held value to a string (the field keeps the same value,
        because the string check returns it unchanged), then rejects a
        string json_decode does not accept. */
    method CheckJson() returns (r: Result<Value>)
      modifies this
      ensures value == old(value)
      ensures r == JsonResult(old(value), decodes)
      ensures r.Ok? <==> old(IsJson())
    {
      var s := ScalarChecker.CheckString(value);
      if s.Err? {
        return Err(s.error);
      }
      value := s.value;
      if !decodes(value.s) {
        return Err(TypeInvalid("json", None));
      }
      return Ok(value);
    }

    /** `isJson()`: false for every non-string, json_decode's verdict for a
        string. */
    predicate IsJson()
      reads this
      ensures !value.Str? ==> !IsJson()
      ensures value.Str? ==> (IsJson() <==> decodes(value.s))
    {
      IsJsonValue(value, decodes)
    }
  }
}
