/**
 A query against the service: the base URL, the service path, and the request
 parameters built from the optional start, stop, step and limit arguments.
 */
module Query {
  import opened Strings
  import opened Json

  /** The step sizes the service accepts, in milliseconds. */
  const STEP_10_SEC: int := 10000
  const STEP_1_MIN: int := 60000
  const STEP_5_MIN: int := 300000
  const STEP_1_HOUR: int := 3600000
  const STEP_1_DAY: int := 86400000

  const STEP_CHOICES: seq<int> := [STEP_10_SEC, STEP_1_MIN, STEP_5_MIN, STEP_1_HOUR, STEP_1_DAY]

  /** A keyword argument of the query: absent (`None`), a datetime, a string or
      an integer. */
  datatype Arg = Absent | Time(t: Instant) | Text(s: string) | Int(n: int)

  /** Python truthiness: `None`, `""` and `0` are false; a datetime is true. */
  predicate Truthy(a: Arg) {
    match a
    case Absent => false
    case Time(_) => true
    case Text(s) => s != ""
    case Int(n) => n != 0
  }

  /** Only an integer equal to one of the step choices is a valid step. */
  predicate ValidStep(step: Arg) {
    step.Int? && step.n in STEP_CHOICES
  }

  /** `_format_time`: a datetime becomes its ISO text; anything else is kept. */
  function FormatTime(a: Arg): (r: Arg)
    ensures a.Time? ==> r == Text(IsoFormat(a.t))
    ensures !a.Time? ==> r == a
  {
    match a
    case Time(t) => Text(IsoFormat(t))
    case _ => a
  }

  /** Formatting is idempotent and never leaves a datetime behind, so a
      formatted argument can be sent as it is. */
  lemma FormatTimeIdempotent(a: Arg)
    ensures !FormatTime(a).Time?
    ensures FormatTime(FormatTime(a)) == FormatTime(a)
    ensures Truthy(a) && !a.Time? ==> Truthy(FormatTime(a))
  {
  }

  type Params = map<string, Arg>

  /** `_build_params`: a key for each truthy argument; times formatted, a valid
      step stored as its decimal text, the limit stored as given. A truthy step
      that is not a valid one raises `ValueError`. */
  function BuildParams(start: Arg, stop: Arg, step: Arg, limit: Arg): (r: Result<Params>)
    ensures r.Err? <==> Truthy(step) && !ValidStep(step)
    ensures r.Err? ==> r.error == InvalidStep
    ensures r.Ok? ==> ("start" in r.value <==> Truthy(start))
    ensures r.Ok? ==> ("stop" in r.value <==> Truthy(stop))
    ensures r.Ok? ==> ("step" in r.value <==> Truthy(step))
    ensures r.Ok? ==> ("limit" in r.value <==> Truthy(limit))
    ensures r.Ok? ==> r.value.Keys <= {"start", "stop", "step", "limit"}
    ensures r.Ok? && Truthy(start) ==> r.value["start"] == FormatTime(start)
    ensures r.Ok? && Truthy(stop) ==> r.value["stop"] == FormatTime(stop)
    ensures r.Ok? && Truthy(step) ==> r.value["step"] == Text(IntToDecimal(step.n))
    ensures r.Ok? && Truthy(limit) ==> r.value["limit"] == limit
  {
    var withStart: Params := if Truthy(start) then map["start" := FormatTime(start)] else map[];
    var withStop := if Truthy(stop) then withStart["stop" := FormatTime(stop)] else withStart;
    if Truthy(step) && !ValidStep(step) then
      Err(InvalidStep)
    else
      var withStep := if Truthy(step) then withStop["step" := Text(IntToDecimal(step.n))] else withStop;
      var withLimit := if Truthy(limit) then withStep["limit" := limit] else withStep;
      Ok(withLimit)
  }

  function TruthyCount(args: seq<Arg>): nat
    decreases |args|
  {
    if |args| == 0 then 0 else (if Truthy(args[0]) then 1 else 0) + TruthyCount(args[1..])
  }

  /** The parameter map has as many keys as there are truthy arguments. */
  lemma ParamCount(start: Arg, stop: Arg, step: Arg, limit: Arg)
    requires BuildParams(start, stop, step, limit).Ok?
    ensures |BuildParams(start, stop, step, limit).value| == TruthyCount([start, stop, step, limit])
  {
    var p1: Params := if Truthy(start) then map["start" := FormatTime(start)] else map[];
    assert |p1| == (if Truthy(start) then 1 else 0);
    var p2 := if Truthy(stop) then p1["stop" := FormatTime(stop)] else p1;
    assert |p2| == |p1| + (if Truthy(stop) then 1 else 0);
    var p3 := if Truthy(step) then p2["step" := Text(IntToDecimal(step.n))] else p2;
    assert |p3| == |p2| + (if Truthy(step) then 1 else 0);
    var p4 := if Truthy(limit) then p3["limit" := limit] else p3;
    assert |p4| == |p3| + (if Truthy(limit) then 1 else 0);
    assert BuildParams(start, stop, step, limit).value == p4;
    TruthyCountFour(start, stop, step, limit);
  }

  lemma TruthyCountFour(a: Arg, b: Arg, c: Arg, d: Arg)
    ensures TruthyCount([a, b, c, d])
         == (if Truthy(a) then 1 else 0) + (if Truthy(b) then 1 else 0)
          + (if Truthy(c) then 1 else 0) + (if Truthy(d) then 1 else 0)
  {
    assert [d][1..] == [];
    assert TruthyCount([d]) == (if Truthy(d) then 1 else 0);
    assert [c, d][1..] == [d];
    assert TruthyCount([c, d]) == (if Truthy(c) then 1 else 0) + TruthyCount([d]);
    assert [b, c, d][1..] == [c, d];
    assert TruthyCount([b, c, d]) == (if Truthy(b) then 1 else 0) + TruthyCount([c, d]);
    assert [a, b, c, d][1..] == [b, c, d];
  }

  /** A stored step reads back as the number it was given. */
  lemma StepReadsBack(start: Arg, stop: Arg, step: Arg, limit: Arg)
    requires BuildParams(start, stop, step, limit).Ok? && Truthy(step)
    ensures var stored := BuildParams(start, stop, step, limit).value["step"];
      stored.Text? && AllDigits(stored.s) && DecimalValue(stored.s) == step.n
  {
    DecimalRoundTrip(step.n);
  }

  /** The one-minute step is stored as the text `60000`. */
  lemma OneMinuteStep(start: Arg, stop: Arg, limit: Arg)
    ensures BuildParams(start, stop, Int(STEP_1_MIN), limit).Ok?
    ensures BuildParams(start, stop, Int(STEP_1_MIN), limit).value["step"] == Text("60000")
  {
    assert NatToDecimal(60000) == "60000";
  }

  /** A query: where it is sent and the parameters it carries. */
  datatype Query = Query(baseUrl: string, path: string, params: Params)

  /** The constructor: keeps the base URL and the path as given and builds the
      parameters, raising what `_build_params` raises. */
  function New(baseUrl: string, path: string, start: Arg, stop: Arg, step: Arg, limit: Arg): (r: Result<Query>)
    ensures r.Err? <==> BuildParams(start, stop, step, limit).Err?
    ensures r.Err? ==> r.error == InvalidStep
    ensures r.Ok? ==> r.value.baseUrl == baseUrl && r.value.path == path
    ensures r.Ok? ==> r.value.params == BuildParams(start, stop, step, limit).value
  {
    var params := BuildParams(start, stop, step, limit);
    if params.Err? then Err(params.error) else Ok(Query(baseUrl, path, params.value))
  }

  /** The HTTP GET the query issues. */
  datatype Request = Request(url: string, params: Params)

  /** `get`: the URL is the base URL and the path joined by `/`; the
      parameters are a copy of the query's with `expression` added. */
  function Get(q: Query, expression: string): (r: Request)
    ensures r.url == q.baseUrl + "/" + q.path
    ensures r.params.Keys == q.params.Keys + {"expression"}
    ensures r.params["expression"] == Text(expression)
    ensures forall k :: k in q.params && k != "expression" ==> r.params[k] == q.params[k]
  {
    Request(q.baseUrl + "/" + q.path, q.params["expression" := Text(expression)])
  }

  /** A query's own parameters never contain `expression`, so a request keeps
      every one of them. */
  lemma GetKeepsParams(q: Query, baseUrl: string, path: string, start: Arg, stop: Arg, step: Arg, limit: Arg, expression: string)
    requires New(baseUrl, path, start, stop, step, limit) == Ok(q)
    ensures forall k :: k in q.params ==> k in Get(q, expression).params && Get(q, expression).params[k] == q.params[k]
    ensures |Get(q, expression).params| == |q.params| + 1
  {
    assert "expression" !in q.params;
  }
}
