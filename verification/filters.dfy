/**
 Filters of an event expression: one predicate `.op(property, value)` on an
 event property. The filter classes' own source is not part of this model; the
 datatype and its rendering follow the rendered forms the expression doctests
 and the filter tests fix.
 */
module Filters {
  import opened Strings

  /** The filter operators of the query language. */
  datatype Op = EQ | NE | LT | LE | GT | GE | RE | IN

  /** The operator's name as it appears on the wire. */
  function OpName(op: Op): (name: string)
    ensures |name| == 2
  {
    match op
    case EQ => "eq"
    case NE => "ne"
    case LT => "lt"
    case LE => "le"
    case GT => "gt"
    case GE => "ge"
    case RE => "re"
    case IN => "in"
  }

  /** Different operators have different wire names. */
  lemma OpNameInjective(a: Op, b: Op)
    ensures OpName(a) == OpName(b) <==> a == b
  {
  }

  /** A filter's value: a string, a number, or a list of strings. */
  datatype Value = Str(s: string) | Num(n: int) | List(items: seq<string>)

  datatype Filter = Filter(op: Op, property: string, value: Value)

  /** A value literal: strings double-quoted, numbers bare, lists as
      `["a", "b"]`. */
  function RenderValue(v: Value): string {
    match v
    case Str(s) => Quote(s)
    case Num(n) => IntToDecimal(n)
    case List(items) => "[" + Join(", ", QuoteAll(items)) + "]"
  }

  /** The three forms of a value literal. A string is quoted; a non-negative
      number is bare digits that read back as the number, and a negative one is
      a minus sign before the literal of its magnitude; a list is its quoted
      items joined by `, ` between brackets. */
  lemma RenderValueForms(v: Value)
    ensures var r := RenderValue(v);
      && |r| >= 1
      && (v.Str? ==> r == Quote(v.s))
      && (v.Num? && v.n >= 0 ==> AllDigits(r) && DecimalValue(r) == v.n)
      && (v.Num? && v.n < 0 ==> r == "-" + RenderValue(Num(-v.n)))
      && (v.List? ==> r[0] == '[' && r[|r| - 1] == ']' && r[1..|r| - 1] == Join(", ", QuoteAll(v.items)))
  {
    match v
    case Str(s) => QuoteLayout(s);
    case Num(n) => NumberForm(n);
    case List(items) => ListForm(items);
  }

  lemma NumberForm(n: int)
    ensures var r := RenderValue(Num(n));
      && |r| >= 1
      && (n >= 0 ==> AllDigits(r) && DecimalValue(r) == n)
      && (n < 0 ==> r == "-" + RenderValue(Num(-n)))
  {
    if n >= 0 {
      NaturalForm(n);
    } else {
      NegativeForm(n);
    }
  }

  lemma NaturalForm(n: nat)
    ensures AllDigits(RenderValue(Num(n))) && DecimalValue(RenderValue(Num(n))) == n
  {
    assert RenderValue(Num(n)) == NatToDecimal(n);
    DecimalRoundTrip(n);
  }

  lemma NegativeForm(n: int)
    requires n < 0
    ensures RenderValue(Num(n)) == "-" + RenderValue(Num(-n))
  {
  }

  lemma ListForm(items: seq<string>)
    ensures var r := RenderValue(List(items));
      && |r| >= 2
      && r[0] == '[' && r[|r| - 1] == ']' && r[1..|r| - 1] == Join(", ", QuoteAll(items))
  {
    var inner := Join(", ", QuoteAll(items));
    assert RenderValue(List(items)) == "[" + inner + "]";
    assert ("[" + inner + "]")[1..|inner| + 1] == inner;
  }

  /** A filter's text: `.op(property, value)`. */
  function Render(f: Filter): string {
    "." + OpName(f.op) + "(" + f.property + ", " + RenderValue(f.value) + ")"
  }

  /** Where the parts of a filter sit in its text. */
  lemma RenderLayout(f: Filter)
    ensures var r := Render(f);
      && |r| >= 4 + |f.property| + 3
      && r[0] == '.' && r[1..3] == OpName(f.op) && r[3] == '('
      && r[4..4 + |f.property|] == f.property
      && r[4 + |f.property|..4 + |f.property| + 2] == ", "
      && r[|r| - 1] == ')'
  {
  }

  /** The operator can be read back from a filter's text. */
  lemma RenderDeterminesOp(f: Filter, g: Filter)
    requires Render(f) == Render(g)
    ensures f.op == g.op
  {
    RenderLayout(f);
    RenderLayout(g);
    assert OpName(f.op) == Render(f)[1..3] == Render(g)[1..3] == OpName(g.op);
  }

  /** The in-array quirk: a bare string becomes the list of its characters, one
      one-character string per character; a list is used as given. */
  function InValue(v: Value): (r: Value)
    requires !v.Num?
    ensures r.List?
    ensures v.List? ==> r == v
    ensures v.Str? ==> |r.items| == |v.s|
    ensures v.Str? ==> forall i :: 0 <= i < |v.s| ==> r.items[i] == [v.s[i]]
  {
    match v
    case Str(s) => List(Chars(s))
    case List(items) => v
  }

  function Chars(s: string): (r: seq<string>)
    ensures |r| == |s|
    ensures forall i :: 0 <= i < |s| ==> r[i] == [s[i]]
  {
    seq(|s|, i requires 0 <= i < |s| => [s[i]])
  }

  function Concat(xs: seq<string>): string
    decreases |xs|
  {
    if |xs| == 0 then "" else Concat(xs[..|xs| - 1]) + xs[|xs| - 1]
  }

  /** Splitting a string into characters loses nothing: concatenating the
      pieces gives the string back. */
  lemma {:induction false} CharsRoundTrip(s: string)
    ensures Concat(Chars(s)) == s
    decreases |s|
  {
    if |s| > 0 {
      var init := s[..|s| - 1];
      assert Chars(s)[..|s| - 1] == Chars(init);
      CharsRoundTrip(init);
      assert init + [s[|s| - 1]] == s;
    }
  }

  /** `RenderValue` on a list of three one-letter strings, as the filter tests
      fix it. */
  lemma RenderListExample()
    ensures RenderValue(List(["a", "b", "c"])) == "[" + "\"a\", \"b\", \"c\"" + "]"
  {
    QuoteLetters();
    JoinQuotedLetters();
  }

  lemma QuoteLetters()
    ensures QuoteAll(["a", "b", "c"]) == ["\"a\"", "\"b\"", "\"c\""]
  {
    var quoted := QuoteAll(["a", "b", "c"]);
    assert quoted[0] == "\"a\"" && quoted[1] == "\"b\"" && quoted[2] == "\"c\"";
  }

  lemma JoinQuotedLetters()
    ensures Join(", ", ["\"a\"", "\"b\"", "\"c\""]) == "\"a\", \"b\", \"c\""
  {
    var quoted := ["\"a\"", "\"b\"", "\"c\""];
    assert quoted[..2] == ["\"a\"", "\"b\""];
    assert quoted[..2][..1] == ["\"a\""];
    assert Join(", ", quoted[..2]) == "\"a\", \"b\"";
  }
}
