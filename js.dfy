/** The small part of JavaScript's value semantics that the page relies on:
    parsed JSON values, truthiness for `||`, `String(..)` on primitives,
    the page's `displayStructuredOutput` helper and `String.prototype.trim`. */
module Js {

  /** A parsed JSON value. `Undefined` stands for a property the server did not send.
      Numbers are integers only. */
  datatype Json =
    | Undefined
    | Null
    | Bool(b: bool)
    | Num(n: int)
    | Str(s: string)
    | Arr(items: seq<Json>)
    | Obj(members: seq<(string, Json)>)

  /** ECMAScript ToBoolean, restricted to these values: objects and arrays are always
      truthy, null and undefined never, and a primitive is falsy only when it is false,
      zero or the empty string. */
  predicate Truthy(v: Json)
    ensures (v.Arr? || v.Obj?) ==> Truthy(v)
    ensures (v.Null? || v.Undefined?) ==> !Truthy(v)
    ensures v.Str? ==> (Truthy(v) <==> |v.s| > 0)
    ensures v.Num? ==> (Truthy(v) <==> v.n != 0)
    ensures v.Bool? ==> (Truthy(v) <==> v.b)
  {
    match v
    case Undefined => false
    case Null => false
    case Bool(b) => b
    case Num(n) => n != 0
    case Str(s) => s != ""
    case Arr(_) => true
    case Obj(_) => true
  }

  /** `a || b` on two JSON values: `a` when it is truthy, otherwise `b`; so the result is
      truthy exactly when one of the two is. */
  function Or(a: Json, b: Json): (r: Json)
    ensures r == a || r == b
    ensures Truthy(a) ==> r == a
    ensures !Truthy(a) ==> r == b
    ensures Truthy(r) <==> Truthy(a) || Truthy(b)
  {
    if Truthy(a) then a else b
  }

  /** `a || b` on two strings: the empty string is the only falsy one. */
  function OrElse(a: string, b: string): (r: string)
    ensures r == a || r == b
    ensures a != "" ==> r == a
    ensures a == "" ==> r == b
    ensures r != "" <==> a != "" || b != ""
  {
    if a != "" then a else b
  }

  function DigitChar(d: nat): (c: char)
    requires d < 10
    ensures '0' <= c <= '9'
    ensures (c == '0') == (d == 0)
  {
    ('0' as int + d) as char
  }

  /** How a template literal renders a non-negative integer, such as an HTTP status code. */
  function NatToDecimal(n: nat): (r: string)
    ensures |r| >= 1
    ensures forall i :: 0 <= i < |r| ==> '0' <= r[i] <= '9'
    ensures (r[0] == '0') == (n == 0)
    ensures n == 0 ==> r == "0"
    decreases n
  {
    if n < 10 then [DigitChar(n)] else NatToDecimal(n / 10) + [DigitChar(n % 10)]
  }

  /** The number a string of decimal digits denotes. */
  function DecimalValue(s: string): nat
    requires forall i :: 0 <= i < |s| ==> '0' <= s[i] <= '9'
    decreases |s|
  {
    if s == [] then 0 else 10 * DecimalValue(s[..|s| - 1]) + (s[|s| - 1] as int - '0' as int)
  }

  /** Reading back the rendered digits gives the number that was rendered. */
  lemma {:induction false} DecimalRoundTrip(n: nat)
    ensures DecimalValue(NatToDecimal(n)) == n
    decreases n
  {
    if n >= 10 {
      var r := NatToDecimal(n);
      assert r[..|r| - 1] == NatToDecimal(n / 10);
      DecimalRoundTrip(n / 10);
    }
  }

  predicate IsPrimitive(v: Json) {
    !v.Arr? && !v.Obj?
  }

  /** `String(v)` for a value that is not an object: a string is itself, a number its
      signed decimal form, and the other primitives their keyword. */
  function ToJsString(v: Json): (r: string)
    requires IsPrimitive(v)
    ensures v.Str? ==> r == v.s
    ensures v.Num? && v.n >= 0 ==> r == NatToDecimal(v.n)
    ensures v.Num? && v.n < 0 ==> r == "-" + NatToDecimal(-v.n)
    ensures v.Undefined? ==> r == "undefined"
    ensures v.Null? ==> r == "null"
    ensures v.Bool? ==> r == (if v.b then "true" else "false")
  {
    match v
    case Undefined => "undefined"
    case Null => "null"
    case Bool(b) => if b then "true" else "false"
    case Num(n) => if n < 0 then "-" + NatToDecimal(-n) else NatToDecimal(n)
    case Str(s) => s
  }

  /** The text that `displayStructuredOutput` hands to a setter: `stringify` (the page's
      `JSON.stringify(data, null, 2)`, left uninterpreted) for objects and arrays,
      `String(data)` for any other defined value, and "N/A" for null and undefined. */
  function DisplayStructured(v: Json, stringify: Json -> string): (r: string)
    ensures v.Str? ==> r == v.s
    ensures (v.Arr? || v.Obj?) ==> r == stringify(v)
    ensures (v.Null? || v.Undefined?) ==> r == "N/A"
    ensures v.Bool? ==> r == (if v.b then "true" else "false")
    ensures v.Num? && v.n >= 0 ==> r == NatToDecimal(v.n)
    ensures v.Num? && v.n < 0 ==> r == "-" + NatToDecimal(-v.n)
  {
    if v.Arr? || v.Obj? then stringify(v)
    else if !v.Undefined? && !v.Null? then ToJsString(v)
    else "N/A"
  }

  /** The white-space and line-terminator characters `trim` removes (a subset of the
      Unicode space separators is listed). */
  predicate IsWhitespace(c: char) {
    c == ' ' || c == '\t' || c == '\n' || c == '\r' || c == '\U{000B}' || c == '\U{000C}'
    || c == '\U{00A0}' || c == '\U{FEFF}' || c == '\U{2028}' || c == '\U{2029}'
  }

  predicate IsBlank(s: string) {
    forall i :: 0 <= i < |s| ==> IsWhitespace(s[i])
  }

  /** Drops the leading white space: the result is a suffix of `s`, everything cut off
      is white space, and the result does not start with white space. */
  function TrimStart(s: string): (r: string)
    ensures |r| <= |s| && r == s[|s| - |r|..]
    ensures forall i :: 0 <= i < |s| - |r| ==> IsWhitespace(s[i])
    ensures r != [] ==> !IsWhitespace(r[0])
    decreases |s|
  {
    if s != [] && IsWhitespace(s[0]) then TrimStart(s[1..]) else s
  }

  /** Drops the trailing white space: the result is a prefix of `s`, everything cut off
      is white space, and the result does not end with white space. */
  function TrimEnd(s: string): (r: string)
    ensures |r| <= |s| && r == s[..|r|]
    ensures forall i :: |r| <= i < |s| ==> IsWhitespace(s[i])
    ensures r != [] ==> !IsWhitespace(r[|r| - 1])
    decreases |s|
  {
    if s != [] && IsWhitespace(s[|s| - 1]) then TrimEnd(s[..|s| - 1]) else s
  }

  /** `r` is the stretch of `s` that starts at `k`, and everything of `s` before and after
      that stretch is white space. */
  predicate MiddleOf(s: string, k: nat, r: string) {
    k + |r| <= |s| && r == s[k..k + |r|]
    && (forall i :: 0 <= i < k ==> IsWhitespace(s[i]))
    && (forall i :: k + |r| <= i < |s| ==> IsWhitespace(s[i]))
  }

  /** `s.trim()`: the part of `s` between its leading and its trailing white space. It is
      empty exactly when `s` is blank, and otherwise neither starts nor ends with white space. */
  function Trim(s: string): (r: string)
    ensures |r| == 0 <==> IsBlank(s)
    ensures |r| > 0 ==> !IsWhitespace(r[0]) && !IsWhitespace(r[|r| - 1])
    ensures |r| <= |s|
    ensures MiddleOf(s, |s| - |TrimStart(s)|, r)
  {
    TrimBothEnds(s);
    TrimKeepsMiddle(s);
    TrimEnd(TrimStart(s))
  }

  /** The content half of `Trim`: what is kept is the stretch of `s` between the white
      space `TrimStart` cuts and the white space `TrimEnd` cuts. */
  lemma TrimKeepsMiddle(s: string)
    ensures MiddleOf(s, |s| - |TrimStart(s)|, TrimEnd(TrimStart(s)))
  {
    var t := TrimStart(s);
    var r := TrimEnd(t);
    var k := |s| - |t|;
    PrefixOfSuffix(s, k, |r|);
    WhitespaceTailOfSuffix(s, k, |r|);
  }

  lemma PrefixOfSuffix(s: string, k: nat, n: nat)
    requires k + n <= |s|
    ensures s[k..][..n] == s[k..k + n]
  {
  }

  lemma WhitespaceTailOfSuffix(s: string, k: nat, n: nat)
    requires k + n <= |s|
    requires forall j :: n <= j < |s[k..]| ==> IsWhitespace(s[k..][j])
    ensures forall i :: k + n <= i < |s| ==> IsWhitespace(s[i])
  {
    forall i | k + n <= i < |s| ensures IsWhitespace(s[i]) {
      assert s[i] == s[k..][i - k];
    }
  }

  lemma TrimBothEnds(s: string)
    ensures var r := TrimEnd(TrimStart(s));
      (|r| == 0 <==> IsBlank(s)) && (|r| > 0 ==> !IsWhitespace(r[0]) && !IsWhitespace(r[|r| - 1]))
  {
    var t := TrimStart(s);
    var r := TrimEnd(t);
    var k := |s| - |t|;
    assert t == s[k..];
    if |r| == 0 {
      assert IsBlank(t);
      BlankAfterBlankPrefix(s, k);
    } else {
      assert r[0] == t[0] == s[k];
      assert !IsWhitespace(s[k]);
    }
  }

  /** Trimming twice is trimming once. */
  lemma {:induction false} TrimIdempotent(s: string)
    ensures Trim(Trim(s)) == Trim(s)
  {
    var r := Trim(s);
    if |r| > 0 {
      assert TrimStart(r) == r;
      assert TrimEnd(r) == r;
    }
  }

  /** A string that neither starts nor ends with white space is its own trim. */
  lemma {:induction false} TrimmedIsFixed(s: string)
    requires |s| > 0 && !IsWhitespace(s[0]) && !IsWhitespace(s[|s| - 1])
    ensures Trim(s) == s
  {
    assert TrimStart(s) == s;
    assert TrimEnd(s) == s;
  }

  /** A string whose first `k` characters are white space and whose rest is blank is blank. */
  lemma BlankAfterBlankPrefix(s: string, k: nat)
    requires k <= |s|
    requires forall i :: 0 <= i < k ==> IsWhitespace(s[i])
    ensures IsBlank(s[k..]) ==> IsBlank(s)
  {
    if IsBlank(s[k..]) {
      forall i | k <= i < |s| ensures IsWhitespace(s[i]) {
        assert s[i] == s[k..][i - k];
      }
    }
  }
}
