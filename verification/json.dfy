/**
 The values that cross the client's boundaries: decoded JSON, timestamps, and
 the errors the client raises. JSON text encoding and decoding are not modelled;
 a JSON object is a finite map from key to value.
 */
module Json {

  /** A decoded JSON value. `JNull` is Python's `None`. Numbers are integers. */
  datatype Json =
    | JNull
    | JBool(b: bool)
    | JNum(n: int)
    | JStr(s: string)
    | JArr(items: seq<Json>)
    | JObj(fields: map<string, Json>)

  /** A decoded JSON object, the shape of every response record. */
  type Object = map<string, Json>

  /** A point in time, identified by the text `isoformat()` gives for it.
      Parsing is modelled only on that canonical text, where it inverts
      `IsoFormat`; fuzzy parsing of other spellings is not modelled. */
  datatype Instant = Instant(iso: string)

  function IsoFormat(t: Instant): string {
    t.iso
  }

  function ParseTime(s: string): Instant {
    Instant(s)
  }

  /** Parsing the ISO text of an instant gives the instant back. */
  lemma ParseInvertsIsoFormat(t: Instant)
    ensures ParseTime(IsoFormat(t)) == t
  {
  }

  /** The `time` attribute of a response record. The records' constructors
      parse a string argument into an instant and keep any other value as it
      is; such a value has no `isoformat`. */
  datatype TimeField = At(instant: Instant) | Unparsed(raw: Json)

  /** What the records' constructors do with the `time` argument they get from
      a decoded JSON object. */
  function TimeOf(j: Json): (t: TimeField)
    ensures j.JStr? <==> t.At?
    ensures j.JStr? ==> IsoFormat(t.instant) == j.s
    ensures !j.JStr? ==> t == Unparsed(j)
  {
    if j.JStr? then At(ParseTime(j.s)) else Unparsed(j)
  }

  /** The exceptions the client raises. */
  datatype Error =
    | InvalidStep                            // ValueError from Query._build_params
    | InvalidMetric(missingField: string)    // InvalidMetricError
    | InvalidEvent(missingField: string)     // InvalidEventError
    | InvalidQuery(status: int, url: string) // InvalidQueryError
    | NoIsoFormat                            // AttributeError: time has no isoformat

  /** A value or the exception raised instead of producing it. */
  datatype Result<+T> = Ok(value: T) | Err(error: Error)
}
