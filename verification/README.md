# pypercube query expressions in Dafny

This project models the query-expression layer of pypercube, a Python client
for the Cube time-series service. The model covers:

- **Event expressions.** An event type, the properties to fetch, and a chain of
  filters. They render to the service's query text `type(p1,p2).f1.f2`. Every
  filter method (`eq`, `ne`, `lt`, `le`, `gt`, `ge`, `re`, `in_array`,
  `startswith`, `endswith`, `contains`) returns a new expression with one more
  filter.
- **The older event expression** in `pypercube/event.py`. It renders with the
  same rule.
- **Metric expressions and metric operations.** `sum`, `min`, `max`, `median`
  and `distinct` apply to an event expression. Arithmetic builds the flat text
  `left op right`.
- **Query parameter building.** This covers start, stop, step and limit, and the
  five accepted step sizes.
- **The `Metric` and `Event` response records.** They are decoded from and
  encoded to JSON objects.
- **The `Cube` facade.** This covers base-URL formation and the three outcomes
  of `get`.

The model is built from immutable datatypes and pure functions. The Python
objects are mutable and can share lists with their callers; "## Left out" says
what that leaves unmodelled. The modules follow the source files:

- `Strings`: joining, quoting, decimal rendering, character counts.
- `Json`: JSON values, instants, errors, results.
- `Filters`: filter values and their rendering.
- `Expression`: `pypercube/expression.py`.
- `Event`: `pypercube/event.py`.
- `Metric`: `pypercube/metric.py`.
- `Metrics`: `pypercube/metrics.py`.
- `Query`: `pypercube/query.py`.
- `Cube`: `pypercube/cube.py`.

Python exceptions become the `Err` case of `Json.Result`:

- `ValueError` for a bad step.
- `InvalidMetricError` and `InvalidEventError` for a missing `time`.
- `InvalidQueryError` for a response that is not ok.
- The `AttributeError` raised when a time value has no `isoformat`.

The HTTP exchange is a parameter of `Cube.Get`: a function from the request
sent to the response received.

The model follows the code on two points where a fully parenthesised,
validated rendering might be expected:

- Arithmetic on metric expressions adds **no** parentheses
  (`pypercube/metrics.py:75-79`). `sum(e) + min(e) + max(e)` renders as
  `sum(..) + min(..) + max(..)`.
- Aggregations check no property count (`pypercube/metrics.py:139-166`).

The `CompoundMetricExpression` that renders fully parenthesised text appears
only in tests, and `pypercube/metrics.py` and `pypercube/expression.py` do not
define it. No file under `pypercube/` or `tests/` checks how many properties an
aggregation's event selects.

Some Python semantics are modelled explicitly:

- Truthiness: `None`, `""`, `0` and `[]` are false; a datetime is true.
- `str` of an integer: `Strings.IntToDecimal`.
- Splitting a bare string into characters for `in_array`: `Filters.InValue`.

An instant is identified by the text `isoformat()` gives for it. The model
relies on date parsing in both directions:

- Parsing an instant's ISO text gives the instant back (`Json.ParseInvertsIsoFormat`).
- Every time string parses, to the instant whose ISO text is that same string.

The second direction is an assumption the source does not make. `dateutil`
re-spells `"2012-07-06"` as `"2012-07-06T00:00:00"`, and it raises `ValueError`
on a string with no date in it. "## Left out" records both.

## Model

| member | source | states |
|---|---|---|
| Strings.QuoteLayout | tests/test_filters.py:53-68 | A string literal is the text between two double quotes, with nothing escaped, so the text can be read back from it |
| Strings.DecimalDigits | pypercube/query.py:38-39 | `str` of a non-negative number is a run of decimal digits with no leading zero |
| Strings.DecimalRoundTrip | pypercube/query.py:38-39 | Reading the decimal text of a number back gives the number, so no information is lost |
| Strings.DecimalInjective | pypercube/query.py:38-39 | Two numbers with the same decimal text are equal |
| Json.TimeOf | pypercube/metric.py:19-21 | A string time is parsed into an instant whose ISO text is that string; any other value is kept unparsed |
| Filters.OpNameInjective | tests/test_filters.py:17-51 | The eight filter operators have eight distinct wire names |
| Filters.RenderValueForms | tests/test_filters.py:53-68 | Strings render double-quoted. A non-negative number renders as bare digits that read back as the number; a negative one is a minus sign before its magnitude's literal. A list renders as its quoted items joined by `, ` between brackets |
| Filters.RenderLayout | pypercube/expression.py:108-109 | A filter renders as `.`, the operator name, `(`, the property, `, `, the value, `)` |
| Filters.RenderDeterminesOp | tests/test_filters.py:17-24 | Filters with different operators render differently |
| Filters.InValue | pypercube/expression.py:226-239 | An `in` value given as a bare string becomes the list of its one-character strings; a list is used as given |
| Filters.Chars | pypercube/expression.py:229-232 | Splitting a string yields one single-character string per character, in order |
| Filters.CharsRoundTrip | pypercube/expression.py:229-232 | Concatenating the characters that `in_array` split off gives the original string back |
| Filters.RenderListExample | tests/test_filters.py:66-68 | `["a", "b", "c"]` renders as `["a", "b", "c"]`, with a comma and a space between items |
| Expression.New | pypercube/expression.py:25-32 | One string property becomes a one-element list; an absent or empty argument becomes `[]`; filters start empty |
| Expression.EqualIsStructural | pypercube/expression.py:89-95 | `__eq__` holds exactly when type, property list and filter list (length and pairwise, in order) are all equal |
| Expression.Copy | pypercube/expression.py:50-52 | A copy is equal to the original |
| Expression.CopyIsIndependent | pypercube/expression.py:37-48 | Appending a filter to a copy makes it unequal to the original; the original's filters stay a prefix |
| Expression.FilterOrderMatters | pypercube/expression.py:89-95 | The same two filters added in different orders give unequal expressions |
| Expression.RenderFiltersConcat | pypercube/expression.py:256-257 | The text of a filter chain is the text of its first part followed by the text of the rest |
| Expression.RenderStartsWithType | pypercube/expression.py:246-254 | The text is the type alone when there are no properties and no filters, and always starts with the type |
| Expression.AppendRender | pypercube/expression.py:241-258 | Adding a filter to an expression appends exactly that filter's text to the expression's text |
| Expression.AddFilter | pypercube/expression.py:111-113 | Copy-on-write append: type and properties kept, exactly one filter added at the end, the result differs from the receiver, and the text grows by that filter's text |
| Expression.Eq | pypercube/expression.py:97-113 | The event type and properties are the receiver's; the filters are the receiver's plus one `eq` filter; the text is the receiver's text plus that filter's text |
| Expression.Ne | pypercube/expression.py:115-125 | The same for `ne` |
| Expression.Lt | pypercube/expression.py:127-137 | The same for `lt` |
| Expression.Le | pypercube/expression.py:139-149 | The same for `le` |
| Expression.Gt | pypercube/expression.py:151-161 | The same for `gt` |
| Expression.Ge | pypercube/expression.py:163-173 | The same for `ge` |
| Expression.Re | pypercube/expression.py:175-185 | The same for `re` |
| Expression.StartsWith | pypercube/expression.py:187-198 | Keeps the event type and properties and appends an `re` filter whose value is `^` followed by the given text |
| Expression.EndsWith | pypercube/expression.py:200-211 | Keeps the event type and properties and appends an `re` filter whose value is `.*`, the given text, then `$` |
| Expression.Contains | pypercube/expression.py:213-224 | Keeps the event type and properties and appends an `re` filter whose value is the given text between `.*` and `.*` |
| Expression.InArray | pypercube/expression.py:226-239 | Keeps the event type and properties and appends one `in` filter: over the characters of a bare string, or over a list as given |
| Expression.RenderChain | pypercube/expression.py:241-258 | Adding several filters appends their texts in order, with no separator |
| Expression.RequestTimeExample | pypercube/expression.py:15-23 | The constructor docstring's chain renders as `request(elapsed_ms).eq(path, "/").gt(elapsed_ms, 100).lt(elapsed_ms, 1000)` |
| Expression.InArrayStringExample | tests/test_filters.py:40-42 | `in_array` on `"test"` adds the filter `in` over `["t", "e", "s", "t"]` |
| Event.FromJson | pypercube/event.py:31-57 | A missing `time` raises `InvalidEventError`; otherwise `type` and `data` are copied verbatim or default to `None`, and other keys are ignored |
| Event.ToJson | pypercube/event.py:59-64 | The object has exactly the keys `type`, `time` (the ISO text) and `data`; a time with no `isoformat` fails |
| Event.LegacyRenderBare | pypercube/event.py:83-100 | With no truthy property and no filters, the older builder renders the type alone |
| Event.LegacyAgreesWithExpression | pypercube/event.py:83-100 | The older builder renders the same text as the current one for the same type, property argument and filters |
| Metric.FromJson | pypercube/metric.py:25-48 | A missing `time` raises `InvalidMetricError`; otherwise `value` is copied verbatim or defaults to `None` |
| Metric.FromJsonIgnoresOtherKeys | pypercube/metric.py:36-48 | Two objects that agree on `time` and `value` decode to the same result |
| Metric.ToJson | pypercube/metric.py:50-54 | The object has exactly the keys `time` (the ISO text) and `value`; a time with no `isoformat` fails |
| Metric.EqualIsStructural | pypercube/metric.py:62-64 | Equality compares exactly `time` and `value` |
| Metric.RoundTrip | pypercube/metric.py:24-54 | Decoding the encoding of a metric with a parsed time gives back an equal metric |
| Metric.DecodeEncode | pypercube/metric.py:36-54 | Decoding then encoding keeps the time text and the value, and drops every other key |
| Metrics.New | pypercube/metrics.py:64-67 | The stored text is the `str` of the argument; the path is `metric/get` |
| Metrics.WrapKeepsText | pypercube/metrics.py:64-73 | `get_expression` returns the stored text unchanged, and wrapping an expression again changes nothing |
| Metrics.Apply | pypercube/metrics.py:115-118 | `apply` yields a metric expression whose text is `kind(` + the event's text + `)` |
| Metrics.AsExpr | pypercube/metrics.py:102-113 | An operation's own expression is what `apply` produced, and its `get_expression` equals its `str` |
| Metrics.SymbolInjective | pypercube/metrics.py:81-94 | The four operators have distinct one-character symbols |
| Metrics.Combine | pypercube/metrics.py:75-79 | The result's text is the left text, the operator between single spaces, then the right operand's text; the path stays `metric/get` |
| Metrics.Add | pypercube/metrics.py:81-82 | `+` joins the texts with ` + ` |
| Metrics.Sub | pypercube/metrics.py:84-85 | `-` joins the texts with ` - ` |
| Metrics.Mul | pypercube/metrics.py:87-88 | `*` joins the texts with ` * ` |
| Metrics.Div | pypercube/metrics.py:90-91 | `/` joins the texts with ` / ` |
| Metrics.TrueDiv | pypercube/metrics.py:93-94 | True division gives the same result as classic division |
| Metrics.OperationCombine | pypercube/metrics.py:123-136 | Arithmetic on an operation is the same arithmetic on a metric expression holding the operation's text |
| Metrics.OperationAdd | pypercube/metrics.py:123-124 | `op + x` equals the sum of the operation's own expression and `x` |
| Metrics.OperationSub | pypercube/metrics.py:126-127 | The same for `-` |
| Metrics.OperationMul | pypercube/metrics.py:129-130 | The same for `*` |
| Metrics.OperationDiv | pypercube/metrics.py:132-133 | The same for `/` |
| Metrics.OperationTrueDiv | pypercube/metrics.py:135-136 | True division on an operation gives the same result as classic division |
| Metrics.CombineAddsNoParentheses | pypercube/metrics.py:75-79 | The result has exactly as many `(` and `)` as the two operands together |
| Metrics.ChainIsFlat | pypercube/metrics.py:75-79 | Two operations in a row render flat, left to right |
| Metrics.Sum | pypercube/metrics.py:139-142 | The aggregation is `sum` over the given event |
| Metrics.Min | pypercube/metrics.py:145-148 | The aggregation is `min` over the given event |
| Metrics.Max | pypercube/metrics.py:151-154 | The aggregation is `max` over the given event |
| Metrics.Median | pypercube/metrics.py:157-160 | The aggregation is `median` over the given event |
| Metrics.Distinct | pypercube/metrics.py:163-166 | The aggregation is `distinct` over the given event |
| Metrics.FactoryTexts | pypercube/metrics.py:115-121 | Each factory's operation renders as its name applied to the event's text |
| Metrics.SumMinMaxIsFlat | pypercube/metrics.py:123-125 | `sum(e) + min(e) + max(e)` is the three texts joined by ` + `, with no parentheses |
| Query.FormatTime | pypercube/query.py:25-28 | A datetime becomes its ISO text; any other value passes through unchanged |
| Query.FormatTimeIdempotent | pypercube/query.py:25-28 | Formatting never leaves a datetime behind, formatting twice changes nothing, and a truthy non-datetime stays truthy |
| Query.BuildParams | pypercube/query.py:31-47 | Each key is present exactly when its argument is truthy. Times are formatted, a valid step is stored as its decimal text, and the limit is stored as given. A truthy step outside the five choices raises `ValueError` |
| Query.ParamCount | pypercube/query.py:31-47 | The number of parameters equals the number of truthy arguments |
| Query.StepReadsBack | pypercube/query.py:37-39 | The stored step is decimal text that reads back as the given step |
| Query.OneMinuteStep | pypercube/query.py:5-16 | The one-minute step is valid and is stored as `60000` |
| Query.New | pypercube/query.py:18-22 | The base URL and path are kept verbatim; the parameters are what `_build_params` builds, and its error propagates |
| Query.Get | pypercube/query.py:49-55 | The URL is base URL `/` path; the parameters are the query's plus `expression` |
| Query.GetKeepsParams | pypercube/query.py:49-55 | A request keeps every parameter of the query and adds exactly one |
| Cube.New | pypercube/cube.py:5-8 | The default port is 1081 and the default API version is `1.0` |
| Cube.BaseUrlLayout | pypercube/cube.py:11-15 | The base URL is `http://`, the host, `:`, the port's decimal text, `/`, then the API version |
| Cube.DefaultBaseUrl | pypercube/cube.py:5-15 | With the defaults the base URL is `http://host:1081/1.0` |
| Cube.DecodeAll | pypercube/cube.py:23-25 | It succeeds exactly when every record has `time`, giving one metric point per element, in order, each what `Metric.from_json` makes of it. Otherwise it fails with the error of a failing element |
| Cube.RequestFor | pypercube/cube.py:17-21 | The request targets base URL `/` the expression's path, and carries the caller's parameters plus the expression text |
| Cube.Get | pypercube/cube.py:17-30 | A bad step fails before sending. A response that is not ok raises with its status and URL. An ok response with records yields one metric point per element, or `InvalidMetricError` when a record has no `time`. An ok response without records returns the raw body |
| Cube.MetricQueryTarget | pypercube/cube.py:18-19 | A metric query is sent to `metric/get` under the base URL |

## Left out

- The network call `requests.get` and `print(r.url)` are not modelled. The exchange is the `send` parameter of `Cube.Get`.
- JSON text is not modelled: no `json.loads` of a string argument to `from_json`, and no `json.dumps`. `Event.ToJson` and `Metric.ToJson` stop at the object before it is turned into text. `Metric.__str__` and `__repr__` are left out for the same reason.
- Mutation and aliasing are not modelled. The Python objects expose their lists as public, mutable attributes. `EventExpression` keeps a list of properties without copying it (`pypercube/expression.py:31`), and the older builder keeps its property and filters as given (`pypercube/event.py:80-81`). Appending to such a list after construction changes the receiver's rendering, but not that of an expression derived through `copy()`. The model's values are immutable, so that sharing cannot arise.
- Metric.EqualIsStructural: equality of `Json` values stands in for Python's `==`. Python's `==` also holds for `True == 1` and `False == 0`, including inside lists and dicts, and for aware datetimes naming the same instant with different UTC offsets. The model does not identify those pairs.
- Date parsing is not modelled. An instant is its ISO text, and fuzzy parsing of other spellings is not modelled.
- Json.TimeOf: every time string is assumed to parse, and to be `isoformat()`'s own spelling of the instant. Neither `dateutil`'s re-spelling (`"2012-07-06"` becomes `"2012-07-06T00:00:00"`) nor its `ValueError` on a string with no date is modelled, because the parser is foreign code.
- Metric.DecodeEncode: the time text survives decoding and encoding only under that assumption. For a string not already in `isoformat()`'s spelling, the source returns the re-spelt text instead.
- Floating-point numbers are not modelled. Filter values, steps and JSON numbers are integers, so a step of `60000.0`, which Python accepts and stores as `"60000.0"`, is out of scope.
- `pypercube/filters.py` is not part of this model. The filter datatype and its rendering follow the doctests and the filter tests.
- Boolean filter values (`eq('active', True)`) and lists of non-string items (`in_array('status', [200, 404])`) are left out. Their rendering is decided in `pypercube/filters.py`. A filter value is a string, an integer, or a list of strings.
- Filters.InValue: requires a string or list value, because the filter class that would handle a number is not part of this model.
- Expression.InArray: requires a string or list value, for the same reason.
- The `Metric` class in `pypercube/metrics.py` duplicates `pypercube/metric.py` and is left out. `MetricExpression.response_type` names it. The model has no `response_type` field: a metric expression's records are always decoded as `pypercube/metric.py` metric points.
- `Cube.get` is modelled for metric expressions only. The event expressions of `pypercube/expression.py` have no `path` or `response_type`, so passing one to `get` fails.
- The tests' `Cube.get_event`, `Cube.get_metric` and `CompoundMetricExpression`, and any single-property check, are left out. They do not exist in `pypercube/`.
- Event equality and event round trips are left out. `Event` defines no `__eq__`.
- `pypercube/time_utils.py` is left out because it reads the wall clock. Its step constants repeat those of `pypercube/query.py`.
- The text of the `ValueError` and `InvalidQueryError` messages is not modelled. Only the error kind and its status and URL are.
- A response body that decodes to a JSON object instead of an array is left out, and so are array elements that are not objects.
- An absent response body and an empty array are both written as `[]`, because both take the same branch.
