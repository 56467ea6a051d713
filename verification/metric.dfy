/**
 A metric point returned by the service: a timestamp and an optional value,
 decoded from and encoded to a JSON object.
 */
module Metric {
  import opened Json

  const TIME_FIELD_NAME: string := "time"
  const VALUE_FIELD_NAME: string := "value"

  /** A metric point. `value` is `JNull` when the service sent none. */
  datatype Metric = Metric(time: TimeField, value: Json)

  /** `from_json`: the time is required; the value defaults to `None`; every
      other key is ignored. */
  function FromJson(obj: Object): (r: Result<Metric>)
    ensures TIME_FIELD_NAME !in obj <==> r == Err(InvalidMetric(TIME_FIELD_NAME))
    ensures r.Ok? ==> r.value.time == TimeOf(obj[TIME_FIELD_NAME])
    ensures r.Ok? && VALUE_FIELD_NAME in obj ==> r.value.value == obj[VALUE_FIELD_NAME]
    ensures r.Ok? && VALUE_FIELD_NAME !in obj ==> r.value.value == JNull
  {
    if TIME_FIELD_NAME !in obj then
      Err(InvalidMetric(TIME_FIELD_NAME))
    else
      var value := if VALUE_FIELD_NAME in obj then obj[VALUE_FIELD_NAME] else JNull;
      Ok(Metric(TimeOf(obj[TIME_FIELD_NAME]), value))
  }

  /** Only the keys `time` and `value` are read: two objects that agree on them
      decode alike. */
  lemma FromJsonIgnoresOtherKeys(a: Object, b: Object)
    requires (TIME_FIELD_NAME in a <==> TIME_FIELD_NAME in b)
    requires TIME_FIELD_NAME in a ==> a[TIME_FIELD_NAME] == b[TIME_FIELD_NAME]
    requires (VALUE_FIELD_NAME in a <==> VALUE_FIELD_NAME in b)
    requires VALUE_FIELD_NAME in a ==> a[VALUE_FIELD_NAME] == b[VALUE_FIELD_NAME]
    ensures FromJson(a) == FromJson(b)
  {
  }

  /** `to_json`: an object with exactly the keys `time` (the ISO text) and
      `value`. A time that was never parsed has no `isoformat`. */
  function ToJson(m: Metric): (r: Result<Object>)
    ensures r.Ok? <==> m.time.At?
    ensures r.Err? ==> r.error == NoIsoFormat
    ensures r.Ok? ==> r.value.Keys == {TIME_FIELD_NAME, VALUE_FIELD_NAME}
    ensures r.Ok? ==> r.value[TIME_FIELD_NAME] == JStr(IsoFormat(m.time.instant))
    ensures r.Ok? ==> r.value[VALUE_FIELD_NAME] == m.value
  {
    match m.time
    case Unparsed(_) => Err(NoIsoFormat)
    case At(t) => Ok(map[TIME_FIELD_NAME := JStr(IsoFormat(t)), VALUE_FIELD_NAME := m.value])
  }

  /** `__eq__`: same time and same value. */
  predicate Equal(a: Metric, b: Metric) {
    a.time == b.time && a.value == b.value
  }

  /** Equality compares exactly the two fields. */
  lemma EqualIsStructural(a: Metric, b: Metric)
    ensures Equal(a, b) <==> a == b
  {
  }

  /** Encoding then decoding gives back an equal metric. */
  lemma RoundTrip(m: Metric)
    requires m.time.At?
    ensures ToJson(m).Ok?
    ensures FromJson(ToJson(m).value).Ok?
    ensures Equal(FromJson(ToJson(m).value).value, m)
  {
    var obj := ToJson(m).value;
    ParseInvertsIsoFormat(m.time.instant);
    assert TimeOf(obj[TIME_FIELD_NAME]) == m.time;
  }

  /** Decoding then encoding keeps the `time` text and the value, and drops
      every other key. */
  lemma DecodeEncode(obj: Object, iso: string)
    requires TIME_FIELD_NAME in obj && obj[TIME_FIELD_NAME] == JStr(iso)
    ensures FromJson(obj).Ok? && ToJson(FromJson(obj).value).Ok?
    ensures ToJson(FromJson(obj).value).value
         == map[TIME_FIELD_NAME := JStr(iso),
                VALUE_FIELD_NAME := if VALUE_FIELD_NAME in obj then obj[VALUE_FIELD_NAME] else JNull]
  {
  }
}
