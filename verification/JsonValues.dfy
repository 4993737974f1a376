/**
 * JSON values and the text Python's json.dumps gives them with ensure_ascii=False
 * (grammar and escapes: sections 3 to 7 of RFC 8259).
 *
 * An object is the dict the program holds: members in insertion order, no key twice.
 */
module JsonValues {
  datatype Json =
    | Null
    | Bool(b: bool)
    | Int(n: int)
    | Str(s: string)
    | Arr(items: seq<Json>)
    | Obj(members: seq<Member>)

  datatype Member = Member(key: string, value: Json)

  /** The white space json.dumps puts after each "," and each ":". */
  datatype Style = Style(itemGap: string, keyGap: string)

  const COMPACT := Style("", "")

  ghost predicate DistinctKeys(ms: seq<Member>) {
    forall i, j :: 0 <= i < j < |ms| ==> ms[i].key != ms[j].key
  }

  /** Every object, at any depth, is a dict: no key twice. */
  ghost predicate WellFormed(j: Json)
    decreases j
  {
    match j
    case Arr(xs) => forall i :: 0 <= i < |xs| ==> WellFormed(xs[i])
    case Obj(ms) => DistinctKeys(ms) && forall i :: 0 <= i < |ms| ==> WellFormed(ms[i].value)
    case _ => true
  }

  /** The arguments of a call: a dict. */
  type Args = j: Json | j.Obj? && WellFormed(j) ghost witness Obj([])

  /** Cancelling a common prefix. */
  lemma DropPrefix(p: string, a: string, b: string)
    requires p + a == p + b
    ensures a == b
  {
    assert a == (p + a)[|p|..] == (p + b)[|p|..] == b;
  }

  // ---- numbers ----------------------------------------------------------

  function Digit(d: nat): char
    requires d < 10
  {
    (48 + d) as char
  }

  function Digits(n: nat): (s: string)
    ensures s != []
    ensures forall i :: 0 <= i < |s| ==> IsDigit(s[i])
  {
    if n < 10 then [Digit(n)] else Digits(n / 10) + [Digit(n % 10)]
  }

  predicate IsDigit(c: char) {
    '0' <= c <= '9'
  }

  function IntText(n: int): string {
    if n < 0 then "-" + Digits(-n) else Digits(n)
  }

  /** What a run of digits denotes; the inverse that makes the spelling injective. */
  function DigitsValue(s: string): int {
    if s == [] then 0 else 10 * DigitsValue(s[..|s| - 1]) + (s[|s| - 1] as int - 48)
  }

  lemma {:induction false} DigitsRoundTrip(n: nat)
    ensures DigitsValue(Digits(n)) == n
  {
    if n < 10 {
      assert Digits(n)[..0] == [];
    } else {
      DigitsRoundTrip(n / 10);
      var s := Digits(n);
      assert s[..|s| - 1] == Digits(n / 10);
    }
  }

  predicate DigitFree(x: string) {
    x == [] || !IsDigit(x[0])
  }

  lemma DigitsFit(a: string, b: string, x: string, y: string)
    requires forall i :: 0 <= i < |b| ==> IsDigit(b[i])
    requires DigitFree(x) && a + x == b + y
    ensures |b| <= |a|
  {
    var t := a + x;
    if |a| < |t| {
      assert t[|a|] == x[0];
    }
    assert forall i :: 0 <= i < |b| ==> t[i] == b[i];
  }

  lemma DigitRun(m: nat, n: nat, x: string, y: string)
    requires DigitFree(x) && DigitFree(y)
    requires Digits(m) + x == Digits(n) + y
    ensures m == n && x == y
  {
    var a, b := Digits(m), Digits(n);
    DigitsFit(a, b, x, y);
    DigitsFit(b, a, y, x);
    assert a == (a + x)[..|a|] == (b + y)[..|b|] == b;
    assert x == (a + x)[|a|..] == (b + y)[|b|..] == y;
    DigitsRoundTrip(m);
    DigitsRoundTrip(n);
  }

  // ---- strings ----------------------------------------------------------

  function HexDigit(d: nat): char
    requires d < 16
  {
    if d < 10 then (48 + d) as char else (87 + d) as char
  }

  function EscapeChar(c: char): (e: string)
    ensures e != [] && e[0] != '"'
    ensures forall i :: 0 <= i < |e| ==> e[i] >= ' '
  {
    if c == '"' then "\\\""
    else if c == '\\' then "\\\\"
    else if c == '\n' then "\\n"
    else if c == '\r' then "\\r"
    else if c == '\t' then "\\t"
    else if c == 8 as char then "\\b"
    else if c == 12 as char then "\\f"
    else if c < ' ' then "\\u00" + [HexDigit(c as int / 16), HexDigit(c as int % 16)]
    else [c]
  }

  function Escape(s: string): string {
    if s == [] then "" else EscapeChar(s[0]) + Escape(s[1..])
  }

  function Quote(s: string): string {
    "\"" + Escape(s) + "\""
  }

  // ---- values -----------------------------------------------------------

  function Print(j: Json, st: Style): string
    decreases j
  {
    match j
    case Null => "null"
    case Bool(b) => if b then "true" else "false"
    case Int(n) => IntText(n)
    case Str(s) => Quote(s)
    case Arr(xs) => "[" + (if xs == [] then "]" else Print(xs[0], st) + PrintItems(xs[1..], st))
    case Obj(ms) => "{" + (if ms == [] then "}" else PrintMember(ms[0], st) + PrintMembers(ms[1..], st))
  }

  /** The items after the first, with the closing bracket. */
  function PrintItems(xs: seq<Json>, st: Style): string
    decreases xs
  {
    if xs == [] then "]" else "," + st.itemGap + Print(xs[0], st) + PrintItems(xs[1..], st)
  }

  function PrintMember(m: Member, st: Style): string
    decreases m
  {
    Quote(m.key) + ":" + st.keyGap + Print(m.value, st)
  }

  function PrintMembers(ms: seq<Member>, st: Style): string
    decreases ms
  {
    if ms == [] then "}" else "," + st.itemGap + PrintMember(ms[0], st) + PrintMembers(ms[1..], st)
  }
}
