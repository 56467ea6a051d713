/**
 The client facade: where the service lives, and what a metric query returns
 for each kind of HTTP response. The HTTP exchange itself is a parameter: a
 function from the request the client sends to the response it gets back.
 */
module Cube {
  import opened Strings
  import opened Json
  import Metrics
  import Query
  import Metric

  const DEFAULT_PORT: int := 1081
  const DEFAULT_API_VERSION: string := "1.0"

  datatype Cube = Cube(hostname: string, port: int, apiVersion: string)

  /** The constructor with its defaults: port 1081 and API version `1.0`. */
  function New(hostname: string): (c: Cube)
    ensures c.hostname == hostname
    ensures c.port == 1081 && c.apiVersion == "1.0"
  {
    Cube(hostname, DEFAULT_PORT, DEFAULT_API_VERSION)
  }

  /** `get_base_url`: `http://host:port/api_version`. */
  function BaseUrl(c: Cube): string {
    "http://" + c.hostname + ":" + IntToDecimal(c.port) + "/" + c.apiVersion
  }

  /** Where the parts sit in a base URL: the scheme, the host, a colon, the
      port's decimal text, a slash and the API version, in that order. */
  lemma BaseUrlLayout(c: Cube)
    ensures var u, h, p := BaseUrl(c), |c.hostname|, |IntToDecimal(c.port)|;
      && |u| == 7 + h + 1 + p + 1 + |c.apiVersion|
      && u[..7] == "http://"
      && u[7..7 + h] == c.hostname
      && u[7 + h] == ':'
      && u[8 + h..8 + h + p] == IntToDecimal(c.port)
      && u[8 + h + p] == '/'
      && u[9 + h + p..] == c.apiVersion
  {
  }

  /** The default base URL for a host, as the cube tests fix it. */
  lemma DefaultBaseUrl(hostname: string)
    ensures BaseUrl(New(hostname)) == "http://" + hostname + ":" + "1081" + "/" + "1.0"
  {
    assert NatToDecimal(1081) == "1081";
  }

  /** The response the HTTP exchange yields. `json` is the decoded array of
      records; an absent body and an empty array both appear as `[]`. */
  datatype Response = Response(ok: bool, status: int, url: string, json: seq<Object>, content: string)

  /** What `get` returns: decoded metric points, or the raw body. */
  datatype Outcome = Records(records: seq<Metric.Metric>) | Content(content: string)

  /** `response_type.from_json` on every element, in order; the first element
      that fails to decode fails the whole list with its error. */
  function DecodeAll(objs: seq<Object>): (r: Result<seq<Metric.Metric>>)
    ensures r.Ok? <==> forall i :: 0 <= i < |objs| ==> "time" in objs[i]
    ensures r.Ok? ==> |r.value| == |objs|
    ensures r.Ok? ==> forall i :: 0 <= i < |objs| ==> Metric.FromJson(objs[i]) == Ok(r.value[i])
    ensures r.Err? ==> exists i :: 0 <= i < |objs| && Metric.FromJson(objs[i]) == Err(r.error)
    decreases |objs|
  {
    if |objs| == 0 then Ok([])
    else
      var first := Metric.FromJson(objs[0]);
      if first.Err? then Err(first.error)
      else
        var rest := DecodeAll(objs[1..]);
        if rest.Err? then Err(rest.error) else Ok([first.value] + rest.value)
  }

  /** The request `get` sends: the query is built from the base URL, the
      expression's path and the caller's start, stop, step and limit; the
      expression's text is added as the `expression` parameter. */
  function RequestFor(c: Cube, m: Metrics.MetricExpr, start: Query.Arg, stop: Query.Arg, step: Query.Arg, limit: Query.Arg)
    : (r: Result<Query.Request>)
    ensures r.Err? <==> Query.BuildParams(start, stop, step, limit).Err?
    ensures r.Err? ==> r.error == InvalidStep
    ensures r.Ok? ==> r.value.url == BaseUrl(c) + "/" + m.path
    ensures r.Ok? ==> r.value.params.Keys == Query.BuildParams(start, stop, step, limit).value.Keys + {"expression"}
    ensures r.Ok? ==> r.value.params["expression"] == Query.Text(m.expression)
    ensures r.Ok? ==> forall k :: k in Query.BuildParams(start, stop, step, limit).value ==>
              r.value.params[k] == Query.BuildParams(start, stop, step, limit).value[k]
  {
    var q := Query.New(BaseUrl(c), m.path, start, stop, step, limit);
    if q.Err? then Err(q.error) else Ok(Query.Get(q.value, m.expression))
  }

  /** `get`: an invalid step fails before anything is sent; a response that is
      not ok raises `InvalidQueryError` with its status and URL; an ok
      response with records decodes each one; an ok response without records
      returns the raw body. */
  function Get(c: Cube, m: Metrics.MetricExpr, start: Query.Arg, stop: Query.Arg, step: Query.Arg, limit: Query.Arg,
               send: Query.Request -> Response): (r: Result<Outcome>)
    ensures RequestFor(c, m, start, stop, step, limit).Err? ==> r == Err(InvalidStep)
    ensures RequestFor(c, m, start, stop, step, limit).Ok? ==>
      var resp := send(RequestFor(c, m, start, stop, step, limit).value);
      && (!resp.ok ==> r == Err(InvalidQuery(resp.status, resp.url)))
      && (resp.ok && resp.json == [] ==> r == Ok(Content(resp.content)))
      && (resp.ok && resp.json != [] ==>
            && (r.Ok? <==> forall i :: 0 <= i < |resp.json| ==> "time" in resp.json[i])
            && (r.Err? ==> r.error == InvalidMetric(Metric.TIME_FIELD_NAME))
            && (r.Ok? ==> r.value.Records? && |r.value.records| == |resp.json|)
            && (r.Ok? ==> forall i :: 0 <= i < |resp.json| ==>
                  Metric.FromJson(resp.json[i]) == Ok(r.value.records[i])))
  {
    var request := RequestFor(c, m, start, stop, step, limit);
    if request.Err? then Err(request.error)
    else
      var resp := send(request.value);
      if resp.ok && resp.json != [] then
        var records := DecodeAll(resp.json);
        if records.Err? then Err(records.error) else Ok(Records(records.value))
      else if !resp.ok then
        Err(InvalidQuery(resp.status, resp.url))
      else
        Ok(Content(resp.content))
  }

  /** A metric query is sent to `metric/get` under the base URL. */
  lemma MetricQueryTarget(c: Cube, x: Metrics.Operand, start: Query.Arg, stop: Query.Arg, step: Query.Arg, limit: Query.Arg)
    requires RequestFor(c, Metrics.New(x), start, stop, step, limit).Ok?
    ensures RequestFor(c, Metrics.New(x), start, stop, step, limit).value.url == BaseUrl(c) + "/" + "metric/get"
  {
  }
}
