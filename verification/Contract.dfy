/**
 The output contract of an agent session: which JSON outputs conform, and which
 free-text turns can be salvaged into a result.
 */
module Contract {
  import opened Options

  datatype Json =
    | Null
    | Bool(b: bool)
    | Integer(n: int)
    | Fraction(numeral: string)
    | Str(s: string)
    | Array(items: seq<Json>)
    | Object(fields: map<string, Json>)

  datatype Status = Success | Failed

  datatype Answer = Answer(status: Status, output: Json)

  /** The session's side of the contract: required keys, and declared types of keys. */
  datatype Shape = Shape(keys: seq<string>, types: map<string, string>)

  predicate TypeMatches(v: Json, ty: string) {
    match ty
    case "string" => v.Str?
    case "object" => v.Object?
    case "array" => v.Array?
    case "boolean" => v.Bool?
    case "integer" => v.Integer?
    case "number" => v.Integer? || v.Fraction?
    case "null" => v.Null?
    case _ => true
  }

  /** The names of the kinds of JSON values. */
  const KINDS: set<string> := {"null", "boolean", "number", "string", "array", "object"}

  /** Every value is of exactly one kind, whatever it holds; integers are numbers; other names are not enforced. */
  lemma KindsApart(v: Json, ty: string, other: string)
    ensures TypeMatches(Null, "null") && TypeMatches(Str(""), "string")
    ensures TypeMatches(Bool(true), "boolean") && TypeMatches(Integer(0), "integer")
    ensures TypeMatches(Fraction("0.5"), "number")
    ensures TypeMatches(Array([]), "array") && TypeMatches(Object(map[]), "object")
    ensures exists k | k in KINDS :: TypeMatches(v, k)
    ensures ty in KINDS && other in KINDS && TypeMatches(v, ty) && TypeMatches(v, other) ==> ty == other
    ensures TypeMatches(v, "integer") ==> TypeMatches(v, "number")
    ensures ty !in KINDS && ty != "integer" ==> TypeMatches(v, ty)
  {
    match v
    case Null => assert TypeMatches(v, "null");
    case Bool(_) => assert TypeMatches(v, "boolean");
    case Integer(_) => assert TypeMatches(v, "number");
    case Fraction(_) => assert TypeMatches(v, "number");
    case Str(_) => assert TypeMatches(v, "string");
    case Array(_) => assert TypeMatches(v, "array");
    case Object(_) => assert TypeMatches(v, "object");
  }

  ghost predicate Conforming(output: Json, shape: Shape) {
    && output.Object?
    && (forall k | k in shape.keys :: k in output.fields)
    && (forall k | k in shape.types && k in output.fields :: TypeMatches(output.fields[k], shape.types[k]))
  }

  method Conforms(output: Json, shape: Shape) returns (ok: bool)
    ensures ok <==> Conforming(output, shape)
  {
    if !output.Object? {
      return false;
    }
    var obj := output.fields;
    for i := 0 to |shape.keys|
      invariant forall j | 0 <= j < i :: shape.keys[j] in obj
    {
      if shape.keys[i] !in obj {
        return false;
      }
    }
    var left := shape.types.Keys;
    while left != {}
      invariant left <= shape.types.Keys
      invariant forall k | k in shape.types && k !in left && k in obj :: TypeMatches(obj[k], shape.types[k])
    {
      var k :| k in left;
      if k in obj && !TypeMatches(obj[k], shape.types[k]) {
        return false;
      }
      left := left - {k};
    }
    return true;
  }

  /** A full result read from an object that has a status and an output. */
  function Wrapped(value: Json, envelope: Json -> Option<Answer>): Option<Answer> {
    if value.Object? && "status" in value.fields && "output" in value.fields then envelope(value) else None
  }

  /** The result to be had from what was found in a text: a wrapped conforming output first, then the object itself. */
  ghost function Salvaged(found: Option<Json>, shape: Shape, envelope: Json -> Option<Answer>): Option<Answer> {
    if found.None? then None
    else if Wrapped(found.value, envelope).Some? && Conforming(Wrapped(found.value, envelope).value.output, shape) then
      Wrapped(found.value, envelope)
    else if Conforming(found.value, shape) then Some(Answer(Success, found.value))
    else None
  }

  /** A text is salvaged exactly when an object in it conforms or wraps a conforming output, and the result conforms. */
  lemma SalvagedConforms(found: Option<Json>, shape: Shape, envelope: Json -> Option<Answer>)
    ensures Salvaged(found, shape, envelope).Some? ==> Conforming(Salvaged(found, shape, envelope).value.output, shape)
    ensures Salvaged(found, shape, envelope).Some? <==>
      && found.Some?
      && (|| Conforming(found.value, shape)
          || (Wrapped(found.value, envelope).Some? && Conforming(Wrapped(found.value, envelope).value.output, shape)))
  {
  }

  /**
   Recover a result from the text of a turn. `extract` finds a JSON object in the
   text and `envelope` reads an object as a full result; both are outside the model.
   */
  method Salvage(text: string, shape: Shape, extract: string -> Option<Json>, envelope: Json -> Option<Answer>)
    returns (r: Option<Answer>)
    ensures r == Salvaged(extract(text), shape, envelope)
    ensures r.Some? ==> Conforming(r.value.output, shape)
    ensures extract(text).None? || !extract(text).value.Object? ==> r.None?
    ensures extract(text).Some? && extract(text).value.Object? ==>
      var value := extract(text).value;
      if "status" in value.fields && "output" in value.fields && envelope(value).Some?
         && Conforming(envelope(value).value.output, shape) then r == envelope(value)
      else r == if Conforming(value, shape) then Some(Answer(Success, value)) else None
  {
    var found := extract(text);
    if found.None? {
      return None;
    }
    var value := found.value;
    var whole := Wrapped(value, envelope);
    if whole.Some? {
      var ok := Conforms(whole.value.output, shape);
      if ok {
        return whole;
      }
    }
    var ok := Conforms(value, shape);
    return if ok then Some(Answer(Success, value)) else None;
  }
}
