/**
 Event expressions: an event type, the properties to fetch, and a chain of
 filters, rendered as `type(p1,p2).f1.f2`. Every filter method returns a new
 expression with one more filter and leaves the receiver as it was.
 */
module Expression {
  import opened Strings
  import opened Filters

  datatype EventExpr = EventExpr(eventType: string, properties: seq<string>, filters: seq<Filter>)

  /** The `event_properties` argument: absent (`None`), one string, or a list
      of strings. */
  datatype Properties = NoProperties | OneProperty(name: string) | PropertyList(names: seq<string>)

  /** Python truthiness of the argument: `None`, `""` and `[]` are false. */
  predicate Truthy(p: Properties) {
    match p
    case NoProperties => false
    case OneProperty(name) => name != ""
    case PropertyList(names) => names != []
  }

  /** The constructor: a single string becomes a one-element list, a missing or
      empty argument becomes the empty list, and no filters are set. */
  function New(eventType: string, props: Properties): (e: EventExpr)
    ensures e.eventType == eventType
    ensures e.filters == []
    ensures !Truthy(props) ==> e.properties == []
    ensures props.OneProperty? && props.name != "" ==> e.properties == [props.name]
    ensures props.PropertyList? ==> e.properties == props.names
  {
    var properties :=
      if Truthy(props) then
        (if props.OneProperty? then [props.name] else props.names)
      else [];
    EventExpr(eventType, properties, [])
  }

  /** `__eq__`: same type, same properties (length and pairwise), same filters
      (length and pairwise, in order). */
  predicate Equal(a: EventExpr, b: EventExpr) {
    && a.eventType == b.eventType
    && |a.properties| == |b.properties|
    && (forall i :: 0 <= i < |a.properties| ==> a.properties[i] == b.properties[i])
    && a.properties == b.properties
    && |a.filters| == |b.filters|
    && (forall i :: 0 <= i < |a.filters| ==> a.filters[i] == b.filters[i])
  }

  /** Equality of expressions is exactly equality of their three parts. */
  lemma EqualIsStructural(a: EventExpr, b: EventExpr)
    ensures Equal(a, b) <==> a == b
  {
    if Equal(a, b) {
      assert a.filters == b.filters;
    }
  }

  /** `copy`: rebuilds the expression from its type and a copy of its
      properties, then takes a copy of its filters. */
  function Copy(e: EventExpr): (c: EventExpr)
    ensures Equal(c, e)
  {
    var c := New(e.eventType, PropertyList(e.properties));
    c.(filters := e.filters)
  }

  /** The filters' texts one after another, with no separator. */
  function RenderFilters(fs: seq<Filter>): string
    decreases |fs|
  {
    if |fs| == 0 then "" else Filters.Render(fs[0]) + RenderFilters(fs[1..])
  }

  /** Rendering distributes over concatenation of filter chains. */
  lemma {:induction false} RenderFiltersConcat(fs: seq<Filter>, gs: seq<Filter>)
    ensures RenderFilters(fs + gs) == RenderFilters(fs) + RenderFilters(gs)
    decreases |fs|
  {
    if |fs| == 0 {
      assert fs + gs == gs;
    } else {
      assert (fs + gs)[1..] == fs[1..] + gs;
      RenderFiltersConcat(fs[1..], gs);
    }
  }

  lemma RenderFiltersAppend(fs: seq<Filter>, f: Filter)
    ensures RenderFilters(fs + [f]) == RenderFilters(fs) + Filters.Render(f)
  {
    RenderFiltersConcat(fs, [f]);
    assert RenderFilters([f]) == Filters.Render(f) + RenderFilters([]);
  }

  /** The head of a rendered expression: `type` or `type(p1,...,pn)`. */
  function RenderHead(eventType: string, properties: seq<string>): string {
    if |properties| == 0 then eventType
    else eventType + "(" + Join(",", properties) + ")"
  }

  /** `get_expression`: the type, the properties in parentheses joined by `,`
      when there are any, then every filter in order. */
  function Render(e: EventExpr): string {
    RenderHead(e.eventType, e.properties) + RenderFilters(e.filters)
  }

  /** The type alone when nothing else is set; in every case the text starts
      with the type. */
  lemma RenderStartsWithType(e: EventExpr)
    ensures |e.properties| == 0 && |e.filters| == 0 ==> Render(e) == e.eventType
    ensures |Render(e)| >= |e.eventType| && Render(e)[..|e.eventType|] == e.eventType
  {
  }

  /** Appends one filter to a copy of the receiver. */
  function AddFilter(e: EventExpr, f: Filter): (r: EventExpr)
    ensures r.eventType == e.eventType && r.properties == e.properties
    ensures |r.filters| == |e.filters| + 1
    ensures r.filters[..|e.filters|] == e.filters && r.filters[|e.filters|] == f
    ensures !Equal(r, e)
    ensures Render(r) == Render(e) + Filters.Render(f)
  {
    var c := Copy(e);
    EqualIsStructural(c, e);
    AppendRender(e, f);
    c.(filters := c.filters + [f])
  }

  /** Appending a filter appends its text to the expression's text. */
  lemma AppendRender(e: EventExpr, f: Filter)
    ensures Render(e.(filters := e.filters + [f])) == Render(e) + Filters.Render(f)
  {
    var head := RenderHead(e.eventType, e.properties);
    assert Render(e.(filters := e.filters + [f])) == head + (RenderFilters(e.filters) + Filters.Render(f)) by {
      RenderFiltersAppend(e.filters, f);
    }
  }

  function Eq(e: EventExpr, property: string, value: Value): (r: EventExpr)
    ensures r.eventType == e.eventType && r.properties == e.properties
    ensures r.filters == e.filters + [Filter(EQ, property, value)]
    ensures Render(r) == Render(e) + Filters.Render(Filter(EQ, property, value))
  {
    AddFilter(e, Filter(EQ, property, value))
  }

  function Ne(e: EventExpr, property: string, value: Value): (r: EventExpr)
    ensures r.eventType == e.eventType && r.properties == e.properties
    ensures r.filters == e.filters + [Filter(NE, property, value)]
    ensures Render(r) == Render(e) + Filters.Render(Filter(NE, property, value))
  {
    AddFilter(e, Filter(NE, property, value))
  }

  function Lt(e: EventExpr, property: string, value: Value): (r: EventExpr)
    ensures r.eventType == e.eventType && r.properties == e.properties
    ensures r.filters == e.filters + [Filter(LT, property, value)]
    ensures Render(r) == Render(e) + Filters.Render(Filter(LT, property, value))
  {
    AddFilter(e, Filter(LT, property, value))
  }

  function Le(e: EventExpr, property: string, value: Value): (r: EventExpr)
    ensures r.eventType == e.eventType && r.properties == e.properties
    ensures r.filters == e.filters + [Filter(LE, property, value)]
    ensures Render(r) == Render(e) + Filters.Render(Filter(LE, property, value))
  {
    AddFilter(e, Filter(LE, property, value))
  }

  function Gt(e: EventExpr, property: string, value: Value): (r: EventExpr)
    ensures r.eventType == e.eventType && r.properties == e.properties
    ensures r.filters == e.filters + [Filter(GT, property, value)]
    ensures Render(r) == Render(e) + Filters.Render(Filter(GT, property, value))
  {
    AddFilter(e, Filter(GT, property, value))
  }

  function Ge(e: EventExpr, property: string, value: Value): (r: EventExpr)
    ensures r.eventType == e.eventType && r.properties == e.properties
    ensures r.filters == e.filters + [Filter(GE, property, value)]
    ensures Render(r) == Render(e) + Filters.Render(Filter(GE, property, value))
  {
    AddFilter(e, Filter(GE, property, value))
  }

  function Re(e: EventExpr, property: string, value: Value): (r: EventExpr)
    ensures r.eventType == e.eventType && r.properties == e.properties
    ensures r.filters == e.filters + [Filter(RE, property, value)]
    ensures Render(r) == Render(e) + Filters.Render(Filter(RE, property, value))
  {
    AddFilter(e, Filter(RE, property, value))
  }

  /** `startswith`: a regular-expression filter anchored at the start. */
  function StartsWith(e: EventExpr, property: string, value: string): (r: EventExpr)
    ensures r.eventType == e.eventType && r.properties == e.properties
    ensures r.filters == e.filters + [Filter(RE, property, Str("^" + value))]
    ensures Render(r) == Render(e) + Filters.Render(Filter(RE, property, Str("^" + value)))
  {
    AddFilter(e, Filter(RE, property, Str("^" + value)))
  }

  /** `endswith`: a regular-expression filter anchored at the end. */
  function EndsWith(e: EventExpr, property: string, value: string): (r: EventExpr)
    ensures r.eventType == e.eventType && r.properties == e.properties
    ensures r.filters == e.filters + [Filter(RE, property, Str(".*" + value + "$"))]
    ensures Render(r) == Render(e) + Filters.Render(Filter(RE, property, Str(".*" + value + "$")))
  {
    AddFilter(e, Filter(RE, property, Str(".*" + value + "$")))
  }

  /** `contains`: an unanchored regular-expression filter. */
  function Contains(e: EventExpr, property: string, value: string): (r: EventExpr)
    ensures r.eventType == e.eventType && r.properties == e.properties
    ensures r.filters == e.filters + [Filter(RE, property, Str(".*" + value + ".*"))]
    ensures Render(r) == Render(e) + Filters.Render(Filter(RE, property, Str(".*" + value + ".*")))
  {
    AddFilter(e, Filter(RE, property, Str(".*" + value + ".*")))
  }

  /** `in_array`: an `in` filter; a bare string value is split into its
      characters, a list is used as given. */
  function InArray(e: EventExpr, property: string, value: Value): (r: EventExpr)
    requires !value.Num?
    ensures r.eventType == e.eventType && r.properties == e.properties
    ensures |r.filters| == |e.filters| + 1 && r.filters[..|e.filters|] == e.filters
    ensures r.filters[|e.filters|].op == IN && r.filters[|e.filters|].property == property
    ensures value.List? ==> r.filters[|e.filters|].value == value
    ensures value.Str? ==> r.filters[|e.filters|].value == List(Chars(value.s))
    ensures Render(r) == Render(e) + Filters.Render(Filter(IN, property, InValue(value)))
  {
    AddFilter(e, Filter(IN, property, InValue(value)))
  }

  /** A copy is equal to its original; one filter appended to the copy makes
      it unequal to the original, whose filters stay as they were. */
  lemma CopyIsIndependent(e: EventExpr, f: Filter)
    ensures Equal(Copy(e), e)
    ensures !Equal(AddFilter(Copy(e), f), e)
    ensures AddFilter(Copy(e), f).filters[..|e.filters|] == e.filters
  {
  }

  lemma ConcatAssociates(a: string, b: string, c: string)
    ensures a + (b + c) == (a + b) + c
  {
  }

  /** Filter order matters to equality. */
  lemma FilterOrderMatters(e: EventExpr, f: Filter, g: Filter)
    requires f != g
    ensures !Equal(AddFilter(AddFilter(e, f), g), AddFilter(AddFilter(e, g), f))
  {
    var a := AddFilter(AddFilter(e, f), g);
    var b := AddFilter(AddFilter(e, g), f);
    assert a.filters[|e.filters|] == f;
    assert b.filters[|e.filters|] == g;
  }

  /** Rendering a chain of filters is rendering the base followed by each new
      filter's text, in the order they were added. */
  lemma RenderChain(e: EventExpr, fs: seq<Filter>)
    ensures Render(e.(filters := e.filters + fs)) == Render(e) + RenderFilters(fs)
  {
    var head, base, more := RenderHead(e.eventType, e.properties), RenderFilters(e.filters), RenderFilters(fs);
    assert Render(e.(filters := e.filters + fs)) == head + RenderFilters(e.filters + fs);
    assert Render(e) == head + base;
    assert RenderFilters(e.filters + fs) == base + more by {
      RenderFiltersConcat(e.filters, fs);
    }
    ConcatAssociates(head, base, more);
  }

  /** The constructor's docstring example: the head, then each filter's
      text in the order the filters were added. */
  lemma RequestTimeExample()
    ensures Render(Lt(Gt(Eq(New("request", OneProperty("elapsed_ms")), "path", Str("/")),
                         "elapsed_ms", Num(100)),
                      "elapsed_ms", Num(1000)))
         == "request(elapsed_ms)" + ".eq(path, \"/\")" + ".gt(elapsed_ms, 100)" + ".lt(elapsed_ms, 1000)"
  {
    RequestTimeHead();
    RequestTimeEq();
    RequestTimeGt();
    RequestTimeLt();
  }

  lemma RequestTimeHead()
    ensures Render(New("request", OneProperty("elapsed_ms"))) == "request(elapsed_ms)"
  {
  }

  lemma RequestTimeEq()
    ensures Filters.Render(Filter(EQ, "path", Str("/"))) == ".eq(path, \"/\")"
  {
  }

  lemma RequestTimeGt()
    ensures Filters.Render(Filter(GT, "elapsed_ms", Num(100))) == ".gt(elapsed_ms, 100)"
  {
    assert RenderValue(Num(100)) == "100" by {
      assert NatToDecimal(100) == "100";
    }
  }

  lemma RequestTimeLt()
    ensures Filters.Render(Filter(LT, "elapsed_ms", Num(1000))) == ".lt(elapsed_ms, 1000)"
  {
    assert RenderValue(Num(1000)) == "1000" by {
      assert NatToDecimal(1000) == "1000";
    }
  }

  /** The filter tests: `in` over a bare string is `in` over its characters. */
  lemma InArrayStringExample(e: EventExpr)
    ensures InArray(e, "name", Str("test")).filters[|e.filters|] == Filter(IN, "name", List(["t", "e", "s", "t"]))
  {
    assert Chars("test") == ["t", "e", "s", "t"];
  }
}
