/** A parsed JSON document (System.Text.Json's `JsonElement`) and the typed
    reads the plugin performs on it. A read of the wrong kind throws in .NET;
    here it gives `None`. */
module JsonElement {
  import opened Wrappers
  import opened IyzipayOrderData

  /** Numbers written without fraction or exponent are `JInt`; the others `JFrac`. */
  datatype Json =
    | JNull
    | JBool(b: bool)
    | JInt(i: int)
    | JFrac(r: real)
    | JString(s: string)
    | JArray(elems: seq<Json>)
    | JObject(props: map<string, Json>)

  /** `GetString() ?? string.Empty`: a string, or "" for a JSON null; any other
      kind throws. */
  function GetStringOrEmpty(e: Json): (r: Option<string>)
    ensures r.Some? <==> e.JString? || e.JNull?
    ensures e.JString? ==> r == Some(e.s)
    ensures e.JNull? ==> r == Some("")
  {
    match e
    case JString(s) => Some(s)
    case JNull => Some("")
    case _ => None
  }

  /** `GetInt32()`: an integer number within the range of `int`. */
  function GetInt32(e: Json): (r: Option<Int32>)
    ensures r.Some? <==> e.JInt? && -0x8000_0000 <= e.i < 0x8000_0000
    ensures r.Some? ==> r.value == e.i
  {
    match e
    case JInt(i) => if -0x8000_0000 <= i < 0x8000_0000 then Some(i) else None
    case _ => None
  }

  /** `GetDecimal()`: a number within the range of `decimal`. */
  function GetDecimal(e: Json): (r: Option<real>)
    ensures r.Some? <==> ((e.JInt? && -DecimalMax <= e.i <= DecimalMax)
                      || (e.JFrac? && -DecimalMax as real <= e.r <= DecimalMax as real))
    ensures r.Some? && e.JInt? ==> r.value == e.i as real
    ensures r.Some? && e.JFrac? ==> r.value == e.r
  {
    match e
    case JInt(i) => if -DecimalMax <= i <= DecimalMax then Some(i as real) else None
    case JFrac(x) => if -DecimalMax as real <= x <= DecimalMax as real then Some(x) else None
    case _ => None
  }
}
