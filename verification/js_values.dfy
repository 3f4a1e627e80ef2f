/** JavaScript values as the dashboard reads them: optional fields, truthiness
    of strings, `a || b` fallback chains, and the decimal rendering a template
    literal gives a status code. */
module JsValues {

  /** A field that may be null or undefined. */
  datatype Option<+T> = None | Some(value: T)

  /** The truthy part of an optional string: null, undefined and "" are all
      falsy in JavaScript, every other string is truthy. */
  function Truthy(o: Option<string>): (r: Option<string>)
    ensures r.Some? <==> o.Some? && o.value != ""
    ensures r.Some? ==> r.value == o.value
  {
    if o.Some? && o.value != "" then o else None
  }

  /** JavaScript `o || fallback` on an optional string. */
  function OrElse(o: Option<string>, fallback: string): string
  {
    match Truthy(o)
    case Some(v) => v
    case None => fallback
  }

  /** Index of the first truthy candidate, or |cands| when there is none. */
  function FirstTruthyIndex(cands: seq<Option<string>>): (k: nat)
    ensures k <= |cands|
    ensures k < |cands| ==> Truthy(cands[k]).Some?
    ensures forall j | 0 <= j < k :: Truthy(cands[j]).None?
  {
    if |cands| == 0 then 0
    else if Truthy(cands[0]).Some? then 0
    else 1 + FirstTruthyIndex(cands[1..])
  }

  /** Reference meaning of a chain `c0 || c1 || ... || fallback`: the first
      truthy candidate, else the fallback. */
  function FirstTruthy(cands: seq<Option<string>>, fallback: string): string
  {
    var k := FirstTruthyIndex(cands);
    if k < |cands| then cands[k].value else fallback
  }

  /** A fallback chain never yields "" when its last resort is not "". */
  lemma {:induction false} FirstTruthyNonEmpty(cands: seq<Option<string>>, fallback: string)
    requires fallback != ""
    ensures FirstTruthy(cands, fallback) != ""
  {
    var k := FirstTruthyIndex(cands);
    if k < |cands| {
      assert Truthy(cands[k]).Some?;
    }
  }

  /** `a || (b || fallback)` is the chain [a, b] with that fallback. */
  lemma OrElseChain(a: Option<string>, b: Option<string>, fallback: string)
    ensures OrElse(a, OrElse(b, fallback)) == FirstTruthy([a, b], fallback)
  {
    if Truthy(a).None? {
      assert [a, b][1..] == [b];
      assert [b][1..] == [];
      if Truthy(b).None? {
        assert FirstTruthyIndex([a, b]) == 2;
      } else {
        assert FirstTruthyIndex([a, b]) == 1;
      }
    }
  }

  predicate IsDigit(c: char) {
    '0' <= c <= '9'
  }

  function DigitChar(d: nat): (c: char)
    requires d < 10
    ensures IsDigit(c)
    ensures c as int - '0' as int == d
  {
    ('0' as int + d) as char
  }

  /** The decimal text of a natural number, as `${n}` renders it. */
  function Decimal(n: nat): (r: string)
    ensures |r| > 0
    ensures forall i | 0 <= i < |r| :: IsDigit(r[i])
    ensures |r| > 1 ==> r[0] != '0'
    decreases n
  {
    if n < 10 then [DigitChar(n)] else Decimal(n / 10) + [DigitChar(n % 10)]
  }

  /** The number a string of decimal digits denotes. */
  function DecimalValue(s: string): nat
    requires forall i | 0 <= i < |s| :: IsDigit(s[i])
  {
    if |s| == 0 then 0
    else
      assert IsDigit(s[|s| - 1]);
      var d := s[|s| - 1] as int - '0' as int;
      DecimalValue(s[..|s| - 1]) * 10 + d
  }

  /** Rendering a status code in decimal loses nothing. */
  lemma {:induction false} DecimalRoundTrip(n: nat)
    ensures DecimalValue(Decimal(n)) == n
    decreases n
  {
    var s := Decimal(n);
    if n >= 10 {
      DecimalRoundTrip(n / 10);
      assert s[..|s| - 1] == Decimal(n / 10);
    }
  }
}
