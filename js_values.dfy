/** The JavaScript and Mongoose conversions the request handlers rely on:
    JSON scalars in a request body, truthiness, `String.prototype.trim`,
    and the casts a Mongoose schema applies to String and Boolean paths. */
module JsValues {

  datatype Option<+T> = None | Some(value: T)

  /** A JSON scalar as `express.json()` hands it to a handler. */
  datatype Value = Null | Bool(b: bool) | Num(n: int) | Str(s: string)

  /** A parsed request body (`req.body || {}`); a key that is absent reads as `undefined`. */
  type Body = map<string, Value>

  /** Milliseconds since the epoch, the content of a JavaScript `Date`. */
  type Date = int

  /** `body[k]`, with `None` standing for `undefined`. */
  function Field(body: Body, k: string): (r: Option<Value>)
    ensures r.Some? <==> k in body
    ensures r.Some? ==> r.value == body[k]
  {
    if k in body then Some(body[k]) else None
  }

  /** JavaScript truthiness: `undefined`, `null`, `false`, `0` and `""` are falsy. */
  predicate Truthy(v: Option<Value>)
  {
    match v
    case None => false
    case Some(Null) => false
    case Some(Bool(b)) => b
    case Some(Num(n)) => n != 0
    case Some(Str(s)) => s != ""
  }

  /** `v != null`: loose inequality is false for both `undefined` and `null`. */
  predicate NotNullish(v: Option<Value>)
  {
    v.Some? && !v.value.Null?
  }

  // ---------------------------------------------------------------- trimming

  /** White space and line terminators, the characters `trim()` removes. */
  predicate IsSpace(c: char)
  {
    c == ' ' || c == '\t' || c == '\n' || c == '\r' || c == '\U{000B}' || c == '\U{000C}'
    || c == '\U{00A0}' || c == '\U{1680}' || ('\U{2000}' <= c <= '\U{200A}')
    || c == '\U{2028}' || c == '\U{2029}' || c == '\U{202F}' || c == '\U{205F}'
    || c == '\U{3000}' || c == '\U{FEFF}'
  }

  predicate AllSpace(s: string)
  {
    forall i :: 0 <= i < |s| ==> IsSpace(s[i])
  }

  /** Neither end of `s` is white space: what a `trim: true` path stores. */
  predicate IsTrimmed(s: string)
  {
    s == [] || (!IsSpace(s[0]) && !IsSpace(s[|s| - 1]))
  }

  /** What a required, trimmed String path accepts: trimmed and not empty. */
  predicate IsRequiredText(s: string)
  {
    s != [] && IsTrimmed(s)
  }

  /** The first index at or after `i` that does not hold white space, or `|s|`. */
  function SkipSpace(s: string, i: nat): (j: nat)
    requires i <= |s|
    ensures i <= j <= |s|
    ensures forall k :: i <= k < j ==> IsSpace(s[k])
    ensures j == |s| || !IsSpace(s[j])
    decreases |s| - i
  {
    if i < |s| && IsSpace(s[i]) then SkipSpace(s, i + 1) else i
  }

  /** Walking back from `j` but not past `lo`: the end of `s[lo..j]` once its
      trailing white space is dropped. */
  function SkipSpaceBack(s: string, lo: nat, j: nat): (i: nat)
    requires lo <= j <= |s|
    ensures lo <= i <= j
    ensures forall k :: i <= k < j ==> IsSpace(s[k])
    ensures i == lo || !IsSpace(s[i - 1])
  {
    if j > lo && IsSpace(s[j - 1]) then SkipSpaceBack(s, lo, j - 1) else j
  }

  /** `String.prototype.trim`: `s` with white space removed at both ends. Nothing
      but white space is left exactly when `s` is all white space, and a string
      that is already trimmed comes back unchanged. */
  function Trim(s: string): (r: string)
    ensures IsTrimmed(r)
    ensures r == [] <==> AllSpace(s)
    ensures IsTrimmed(s) ==> r == s
  {
    var a := SkipSpace(s, 0);
    var b := SkipSpaceBack(s, a, |s|);
    assert AllSpace(s) ==> a == |s|;
    assert IsTrimmed(s) && s != [] ==> a == 0 && b == |s|;
    s[a..b]
  }

  /** `r` is `s` with the white space `s[..a]` before it and white space after it. */
  predicate PaddedBy(s: string, r: string, a: int)
  {
    && 0 <= a <= |s| - |r| && r == s[a..a + |r|]
    && (forall k :: 0 <= k < a ==> IsSpace(s[k]))
    && (forall k :: a + |r| <= k < |s| ==> IsSpace(s[k]))
  }

  /** What trimming removes is white space, and only from the two ends. */
  lemma {:induction false} TrimRemovesOnlyEnds(s: string)
    ensures exists a :: PaddedBy(s, Trim(s), a)
  {
    var a := SkipSpace(s, 0);
    var b := SkipSpaceBack(s, a, |s|);
    assert Trim(s) == s[a..b];
    assert PaddedBy(s, s[a..b], a);
  }

  // ---------------------------------------------------------------- casts

  function DigitChar(d: nat): (c: char)
    requires d < 10
    ensures '0' <= c <= '9'
    ensures c as int - '0' as int == d
  {
    ['0', '1', '2', '3', '4', '5', '6', '7', '8', '9'][d]
  }

  /** A run of decimal digits without a leading zero, the way JavaScript
      writes a non-negative integer. */
  predicate IsDecimal(s: string)
  {
    && s != []
    && (forall i :: 0 <= i < |s| ==> '0' <= s[i] <= '9')
    && (s[0] == '0' ==> |s| == 1)
  }

  /** The number a run of decimal digits denotes, read most significant first. */
  function DecimalValue(s: string): (n: nat)
    requires forall i :: 0 <= i < |s| ==> '0' <= s[i] <= '9'
  {
    if s == [] then 0
    else 10 * DecimalValue(s[..|s| - 1]) + (s[|s| - 1] as int - '0' as int)
  }

  /** The decimal digits of `n`, most significant first. */
  function NatToDecimal(n: nat): (r: string)
    ensures IsDecimal(r)
    ensures r[0] == '0' <==> n == 0
  {
    if n < 10 then [DigitChar(n)] else NatToDecimal(n / 10) + [DigitChar(n % 10)]
  }

  /** Reading back the digits of `n` gives `n`. */
  lemma {:induction false} DecimalRoundTrip(n: nat)
    ensures DecimalValue(NatToDecimal(n)) == n
  {
    var r := NatToDecimal(n);
    if n >= 10 {
      DecimalRoundTrip(n / 10);
      assert r[..|r| - 1] == NatToDecimal(n / 10);
    }
  }

  /** `String(x)` for a non-null JSON scalar, as Mongoose casts it into a String path. */
  function ToJsString(v: Value): (r: string)
    requires !v.Null?
    ensures v.Str? ==> r == v.s
    ensures v.Bool? && v.b ==> r == "true"
    ensures v.Bool? && !v.b ==> r == "false"
    ensures v.Num? && v.n >= 0 ==> IsDecimal(r)
    ensures v.Num? && v.n < 0 ==> |r| >= 2 && r[0] == '-' && IsDecimal(r[1..]) && r[1] != '0'
  {
    match v
    case Str(s) => s
    case Bool(b) => if b then "true" else "false"
    case Num(n) =>
      if n < 0 then
        var d := NatToDecimal(-n);
        assert ("-" + d)[1..] == d;
        "-" + d
      else NatToDecimal(n)
  }

  /** The String form of an integer reads back as that integer: its digits
      denote its magnitude, after a minus sign exactly when it is negative. */
  lemma NumberTextRoundTrip(n: int)
    ensures var t := ToJsString(Num(n));
      if n >= 0 then DecimalValue(t) == n
      else DecimalValue(t[1..]) == -n
  {
    if n >= 0 {
      DecimalRoundTrip(n);
    } else {
      DecimalRoundTrip(-n);
      assert ToJsString(Num(n))[1..] == NatToDecimal(-n);
    }
  }

  /** A required, trimmed String path: `null` fails `required`, anything else is
      cast and trimmed, and fails `required` when nothing is left. The stored
      text is the String form of the value less white space at its two ends. */
  function CastRequiredText(v: Value): (r: Option<string>)
    ensures r.Some? ==> IsRequiredText(r.value)
    ensures r.Some? <==> !v.Null? && !AllSpace(ToJsString(v))
    ensures r.Some? ==> exists a :: PaddedBy(ToJsString(v), r.value, a)
    ensures v.Str? && IsRequiredText(v.s) ==> r == Some(v.s)
  {
    if v.Null? then None
    else
      var t := Trim(ToJsString(v));
      TrimRemovesOnlyEnds(ToJsString(v));
      if t == [] then None else Some(t)
  }

  /** An optional, trimmed String path: `null` leaves it unset; anything else
      is stored as its String form less white space at its two ends. */
  function CastOptionalText(v: Value): (r: Option<string>)
    ensures r.None? <==> v.Null?
    ensures r.Some? ==> IsTrimmed(r.value)
    ensures r.Some? ==> exists a :: PaddedBy(ToJsString(v), r.value, a)
    ensures v.Str? && IsTrimmed(v.s) ==> r == Some(v.s)
  {
    if v.Null? then None
    else
      TrimRemovesOnlyEnds(ToJsString(v));
      Some(Trim(ToJsString(v)))
  }

  /** Mongoose's Boolean cast: `true`, `'true'`, `1`, `'1'`, `'yes'` give true;
      `false`, `'false'`, `0`, `'0'`, `'no'` give false; anything else is a cast error. */
  function CastBoolean(v: Value): (r: Option<bool>)
    ensures v.Bool? ==> r == Some(v.b)
    ensures v.Null? ==> r.None?
  {
    match v
    case Bool(b) => Some(b)
    case Num(n) => if n == 1 then Some(true) else if n == 0 then Some(false) else None
    case Str(s) =>
      if s == "true" || s == "1" || s == "yes" then Some(true)
      else if s == "false" || s == "0" || s == "no" then Some(false)
      else None
    case Null => None
  }
}
