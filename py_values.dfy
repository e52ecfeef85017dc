/**
 * The Python values a stored quote record is made of, and the few Python operations the
 * exporters and the role table apply to them: truthiness, `dict.get`, `x or default`,
 * `int(x)`, `float(x)`, `str.strip()` and `str.lower()`.  Text that the code builds with
 * f-strings is kept as a sequence of abstract pieces, so that number formatting stays
 * uninterpreted while the decisions about which text is drawn can still be stated.
 */
module PyValues {
  import opened Wrappers

  /** A JSON-like Python value.  Python's int and float are kept apart because `str()` tells them apart. */
  datatype Json =
    | JNull
    | JBool(b: bool)
    | JInt(i: int)
    | JFloat(f: real)
    | JStr(s: string)
    | JList(items: seq<Json>)
    | JObj(fields: map<string, Json>)

  type Dict = map<string, Json>

  /** The exception a Python call raises, named by the expression that raises it. */
  datatype Raised =
    | AttributeError(expr: string)   // `.get` on something that is not a dict
    | ConversionError(expr: string)  // `int(x)` on something that is not a number

  /** Python truthiness: None, False, zero, and empty strings, lists and dicts are false. */
  predicate Truthy(v: Json) {
    match v
    case JNull => false
    case JBool(b) => b
    case JInt(i) => i != 0
    case JFloat(f) => f != 0.0
    case JStr(s) => s != ""
    case JList(xs) => xs != []
    case JObj(m) => m != map[]
  }

  /** `d.get(k, default)` */
  function Get(d: Dict, k: string, default: Json): Json {
    if k in d then d[k] else default
  }

  /** `v or default` */
  function Or(v: Json, default: Json): Json {
    if Truthy(v) then v else default
  }

  /** `(v or {})` used as a dict: a falsy value is the empty dict; a truthy non-dict makes the next `.get` raise. */
  function AsDictOr(v: Json): Option<Dict> {
    if !Truthy(v) then Some(map[])
    else if v.JObj? then Some(v.fields)
    else None
  }

  /** `v` used as a dict directly: anything but a dict makes `.get` raise. */
  function AsDict(v: Json): Option<Dict> {
    if v.JObj? then Some(v.fields) else None
  }

  lemma AsDictOrOfDict(v: Json)
    requires v.JObj?
    ensures AsDictOr(v) == Some(v.fields)
  {
  }

  // ---------------------------------------------------------------------------------
  // Characters, strip() and lower()
  // ---------------------------------------------------------------------------------

  /** The characters Python's `str.isspace()` accepts, which are the ones `str.strip()` removes. */
  predicate IsSpace(c: char) {
    ('\t' <= c <= '\r') || ('\U{001C}' <= c <= ' ') || c == '\U{0085}' || c == '\U{00A0}'
    || c == '\U{1680}' || ('\U{2000}' <= c <= '\U{200A}') || c == '\U{2028}' || c == '\U{2029}'
    || c == '\U{202F}' || c == '\U{205F}' || c == '\U{3000}'
  }

  function TrimStart(s: string): string {
    if |s| > 0 && IsSpace(s[0]) then TrimStart(s[1..]) else s
  }

  function TrimEnd(s: string): string {
    if |s| > 0 && IsSpace(s[|s| - 1]) then TrimEnd(s[..|s| - 1]) else s
  }

  /** `s.strip()`: the result neither starts nor ends with whitespace. */
  function Strip(s: string): (r: string)
    ensures r == "" || (!IsSpace(r[0]) && !IsSpace(r[|r| - 1]))
  {
    TrimStartEnds(s);
    TrimEndKeepsStart(TrimStart(s));
    TrimEnd(TrimStart(s))
  }

  lemma {:induction false} TrimStartEnds(s: string)
    ensures TrimStart(s) == "" || !IsSpace(TrimStart(s)[0])
  {
    if |s| > 0 && IsSpace(s[0]) {
      TrimStartEnds(s[1..]);
    }
  }

  lemma {:induction false} TrimEndKeepsStart(s: string)
    requires s == "" || !IsSpace(s[0])
    ensures var r := TrimEnd(s); r == "" || (!IsSpace(r[0]) && !IsSpace(r[|r| - 1]))
  {
    if |s| > 0 && IsSpace(s[|s| - 1]) {
      if |s| > 1 {
        TrimEndKeepsStart(s[..|s| - 1]);
      }
    }
  }

  lemma {:induction false} TrimStartNoop(s: string)
    requires s == "" || !IsSpace(s[0])
    ensures TrimStart(s) == s
  {
  }

  lemma {:induction false} TrimEndNoop(s: string)
    requires s == "" || !IsSpace(s[|s| - 1])
    ensures TrimEnd(s) == s
  {
  }

  /** Stripping twice is stripping once. */
  lemma StripIdempotent(s: string)
    ensures Strip(Strip(s)) == Strip(s)
  {
    var r := Strip(s);
    TrimStartNoop(r);
    TrimEndNoop(r);
  }

  /** Lower-cases ASCII letters; every other character is kept. */
  function LowerChar(c: char): char {
    if 'A' <= c <= 'Z' then (c as int + 32) as char else c
  }

  /** `s.lower()`, for ASCII letters. */
  function Lower(s: string): (r: string)
    ensures |r| == |s|
  {
    seq(|s|, i requires 0 <= i < |s| => LowerChar(s[i]))
  }

  lemma LowerIdempotent(s: string)
    ensures Lower(Lower(s)) == Lower(s)
  {
  }

  /** A string without upper-case ASCII letters is its own lower-case form. */
  lemma LowerOfLowercase(s: string)
    requires forall i :: 0 <= i < |s| ==> !('A' <= s[i] <= 'Z')
    ensures Lower(s) == s
  {
  }

  lemma {:induction false} TrimStartLower(s: string)
    ensures TrimStart(Lower(s)) == Lower(TrimStart(s))
  {
    if |s| > 0 && IsSpace(s[0]) {
      assert Lower(s)[1..] == Lower(s[1..]);
      TrimStartLower(s[1..]);
    }
  }

  lemma {:induction false} TrimEndLower(s: string)
    ensures TrimEnd(Lower(s)) == Lower(TrimEnd(s))
  {
    if |s| > 0 && IsSpace(s[|s| - 1]) {
      assert Lower(s)[..|s| - 1] == Lower(s[..|s| - 1]);
      TrimEndLower(s[..|s| - 1]);
    }
  }

  /** Lower-casing does not change which characters are whitespace, so it commutes with strip. */
  lemma StripLower(s: string)
    ensures Strip(Lower(s)) == Lower(Strip(s))
  {
    TrimStartLower(s);
    TrimEndLower(TrimStart(s));
  }

  /** `sub in s` for strings. */
  predicate IsSubstring(sub: string, s: string) {
    sub <= s || (|s| > 0 && IsSubstring(sub, s[1..]))
  }

  /** A string that never holds the first character of `sub` does not contain `sub`. */
  lemma {:induction false} NotSubstringWithoutFirstChar(sub: string, s: string)
    requires |sub| > 0
    requires forall i :: 0 <= i < |s| ==> s[i] != sub[0]
    ensures !IsSubstring(sub, s)
  {
    if |s| > 0 {
      assert s[1..][0..] == s[1..];
      NotSubstringWithoutFirstChar(sub, s[1..]);
    }
  }

  // ---------------------------------------------------------------------------------
  // int() and float()
  // ---------------------------------------------------------------------------------

  predicate AllDigits(s: string) {
    forall i :: 0 <= i < |s| ==> '0' <= s[i] <= '9'
  }

  function DigitsValue(s: string): nat
    requires AllDigits(s)
  {
    if s == [] then 0 else 10 * DigitsValue(s[..|s| - 1]) + (s[|s| - 1] as int - '0' as int)
  }

  function Pow10(n: nat): (p: nat)
    ensures p >= 1
  {
    if n == 0 then 1 else 10 * Pow10(n - 1)
  }

  /** Index of the first `c` in `s`, or `|s|` when there is none. */
  function IndexOf(s: string, c: char): (k: nat)
    ensures k <= |s|
    ensures k < |s| ==> s[k] == c
    ensures forall j :: 0 <= j < k ==> s[j] != c
  {
    if s == [] then 0 else if s[0] == c then 0 else 1 + IndexOf(s[1..], c)
  }

  /** Splits an optional leading sign off: (is negative, the rest). */
  function SplitSign(t: string): (bool, string) {
    if |t| > 0 && (t[0] == '-' || t[0] == '+') then (t[0] == '-', t[1..]) else (false, t)
  }

  /** `int(s)` for a stripped string: an optional sign and decimal digits. */
  function ParseInt(t: string): Option<int> {
    var (neg, body) := SplitSign(t);
    if body != [] && AllDigits(body) then
      var n: int := DigitsValue(body);
      Some(if neg then -n else n)
    else
      None
  }

  /** `float(s)` for a stripped string: an optional sign, digits, and an optional fraction. */
  function ParseFloat(t: string): Option<real> {
    var (neg, body) := SplitSign(t);
    var k := IndexOf(body, '.');
    var whole := body[..k];
    var frac := if k < |body| then body[k + 1..] else "";
    if |whole| + |frac| > 0 && AllDigits(whole) && AllDigits(frac) then
      var x := DigitsValue(whole) as real + DigitsValue(frac) as real / Pow10(|frac|) as real;
      Some(if neg then -x else x)
    else
      None
  }

  /** Python's `int(f)` on a float truncates toward zero. */
  function Truncate(f: real): (n: int)
    ensures 0.0 <= f ==> n as real <= f < n as real + 1.0
    ensures f < 0.0 ==> n as real - 1.0 < f <= n as real
  {
    if f >= 0.0 then f.Floor else -((-f).Floor)
  }

  /** `int(v)`, or None where Python raises. */
  function PyInt(v: Json): Option<int> {
    match v
    case JBool(b) => Some(if b then 1 else 0)
    case JInt(i) => Some(i)
    case JFloat(f) => Some(Truncate(f))
    case JStr(s) => ParseInt(Strip(s))
    case _ => None
  }

  /** `float(v)`, or None where Python raises. */
  function PyFloat(v: Json): Option<real> {
    match v
    case JBool(b) => Some(if b then 1.0 else 0.0)
    case JInt(i) => Some(i as real)
    case JFloat(f) => Some(f)
    case JStr(s) => ParseFloat(Strip(s))
    case _ => None
  }

  // ---------------------------------------------------------------------------------
  // Formatted text
  // ---------------------------------------------------------------------------------

  /** One piece of an f-string. */
  datatype Piece =
    | Lit(s: string)                   // literal text
    | Show(v: Json)                    // `{v}`, that is `str(v)`
    | Fixed(x: real, decimals: nat)    // `{x:.Nf}`
    | Grouped(x: real, decimals: nat)  // `{x:,.Nf}`

  type Text = seq<Piece>

  /** Whether a piece renders as the empty string: `str(v)` is empty only for the empty string. */
  predicate PieceBlank(p: Piece) {
    match p
    case Lit(s) => s == ""
    case Show(v) => v == JStr("")
    case Fixed(_, _) => false
    case Grouped(_, _) => false
  }

  /** Whether a text renders as the empty string. */
  predicate Blank(t: Text) {
    forall i :: 0 <= i < |t| ==> PieceBlank(t[i])
  }

  lemma ShowBlankIffFalsyString(v: Json)
    ensures PieceBlank(Show(v)) <==> (v.JStr? && !Truthy(v))
  {
  }
}
