/**
 An event returned by the service (a type, a timestamp and a data payload),
 and the older event-expression builder that renders a query from an event
 type, a property argument and a ready-made list of filters.
 */
module Event {
  import opened Strings
  import opened Json
  import Filters
  import Expression

  const TYPE_FIELD_NAME: string := "type"
  const TIME_FIELD_NAME: string := "time"
  const DATA_FIELD_NAME: string := "data"

  /** An event record. `type` and `data` are `JNull` when the service sent
      none. */
  datatype Event = Event(eventType: Json, time: TimeField, data: Json)

  /** `from_json`: the time is required; the type and the data default to
      `None`; every other key is ignored. */
  function FromJson(obj: Object): (r: Result<Event>)
    ensures TIME_FIELD_NAME !in obj <==> r == Err(InvalidEvent(TIME_FIELD_NAME))
    ensures r.Ok? ==> r.value.time == TimeOf(obj[TIME_FIELD_NAME])
    ensures r.Ok? && TYPE_FIELD_NAME in obj ==> r.value.eventType == obj[TYPE_FIELD_NAME]
    ensures r.Ok? && TYPE_FIELD_NAME !in obj ==> r.value.eventType == JNull
    ensures r.Ok? && DATA_FIELD_NAME in obj ==> r.value.data == obj[DATA_FIELD_NAME]
    ensures r.Ok? && DATA_FIELD_NAME !in obj ==> r.value.data == JNull
  {
    var eventType := if TYPE_FIELD_NAME in obj then obj[TYPE_FIELD_NAME] else JNull;
    if TIME_FIELD_NAME !in obj then
      Err(InvalidEvent(TIME_FIELD_NAME))
    else
      var data := if DATA_FIELD_NAME in obj then obj[DATA_FIELD_NAME] else JNull;
      Ok(Event(eventType, TimeOf(obj[TIME_FIELD_NAME]), data))
  }

  /** `to_json`: an object with exactly the keys `type`, `time` (the ISO text)
      and `data`, before it is encoded as JSON text. */
  function ToJson(e: Event): (r: Result<Object>)
    ensures r.Ok? <==> e.time.At?
    ensures r.Err? ==> r.error == NoIsoFormat
    ensures r.Ok? ==> r.value.Keys == {TYPE_FIELD_NAME, TIME_FIELD_NAME, DATA_FIELD_NAME}
    ensures r.Ok? ==> r.value[TYPE_FIELD_NAME] == e.eventType
    ensures r.Ok? ==> r.value[TIME_FIELD_NAME] == JStr(IsoFormat(e.time.instant))
    ensures r.Ok? ==> r.value[DATA_FIELD_NAME] == e.data
  {
    match e.time
    case Unparsed(_) => Err(NoIsoFormat)
    case At(t) =>
      Ok(map[TYPE_FIELD_NAME := e.eventType, TIME_FIELD_NAME := JStr(IsoFormat(t)),
             DATA_FIELD_NAME := e.data])
  }

  /** The older `EventExpression`: its property is kept as given (a string, a
      list, or absent) and its filters are supplied by the caller; an absent
      filter list renders like an empty one. */
  datatype LegacyEventExpr = LegacyEventExpr(
    eventType: string, property: Expression.Properties, filters: seq<Filters.Filter>)

  /** `get_expression` of the older builder: the type, then the property in
      parentheses when it is truthy (a string verbatim, a list joined by `,`),
      then the filters in order. */
  function LegacyRender(e: LegacyEventExpr): string {
    var head :=
      match e.property
      case NoProperties => e.eventType
      case OneProperty(name) => if name != "" then e.eventType + "(" + name + ")" else e.eventType
      case PropertyList(names) =>
        if names != [] then e.eventType + "(" + Join(",", names) + ")" else e.eventType;
    head + Expression.RenderFilters(e.filters)
  }

  /** The type alone when there is no property and no filter. */
  lemma LegacyRenderBare(eventType: string, property: Expression.Properties)
    requires !Expression.Truthy(property)
    ensures LegacyRender(LegacyEventExpr(eventType, property, [])) == eventType
  {
  }

  /** The older builder renders exactly what the current one renders for the
      same type, property argument and filters. */
  lemma LegacyAgreesWithExpression(e: LegacyEventExpr)
    ensures LegacyRender(e)
         == Expression.Render(Expression.New(e.eventType, e.property).(filters := e.filters))
  {
  }
}
