/**
 * The canonical text as a text: it spells, by the grammar of RFC 8259 (sections 3 to 7), a value of
 * the same meaning whose objects have their keys in code point order, with no white space.
 */
module CanonicalText {
  import opened JsonValues
  import opened CanonicalJson
  import opened Wrappers

  // ---- the grammar ----------------------------------------------------------------

  ghost function Joined(ts: seq<string>, sep: string): string {
    if ts == [] then ""
    else if |ts| == 1 then ts[0]
    else Joined(ts[..|ts| - 1], sep) + sep + ts[|ts| - 1]
  }

  /** The number a run of decimal digits denotes. */
  ghost function Decimal(t: string): int {
    if t == "" then 0 else 10 * Decimal(t[..|t| - 1]) + (t[|t| - 1] as int - '0' as int)
  }

  ghost predicate IsNumeral(t: string) {
    && t != "" && (forall i :: 0 <= i < |t| ==> '0' <= t[i] <= '9')
    && (|t| > 1 ==> t[0] != '0')
  }

  /** Section 6: digits without a leading zero, after a minus sign if negative. */
  ghost predicate SpellsInt(t: string, n: int) {
    if n >= 0 then IsNumeral(t) && Decimal(t) == n
    else exists d :: t == "-" + d && IsNumeral(d) && Decimal(d) == -n
  }

  ghost predicate IsHex(c: char, d: int) {
    (d < 10 && c as int == '0' as int + d) || (d >= 10 && c as int == 'a' as int + d - 10)
  }

  /** Section 7: quotation mark, backslash and control characters are escaped, the rest stands for itself. */
  ghost predicate SpellsChar(e: string, c: char) {
    match c
    case '"' => e == "\\\""
    case '\\' => e == "\\\\"
    case '\n' => e == "\\n"
    case '\r' => e == "\\r"
    case '\t' => e == "\\t"
    case _ =>
      if c as int == 0x08 then e == "\\b"
      else if c as int == 0x0c then e == "\\f"
      else if c as int < 0x20 then
        |e| == 6 && e[..4] == "\\u00" && IsHex(e[4], c as int / 16) && IsHex(e[5], c as int % 16)
      else e == [c]
  }

  ghost function Flat(es: seq<string>): string {
    if es == [] then "" else Flat(es[..|es| - 1]) + es[|es| - 1]
  }

  ghost predicate SpellsString(t: string, s: string) {
    exists es: seq<string> :: SpelledBy(es, s) && t == "\"" + Flat(es) + "\""
  }

  ghost predicate SpelledBy(es: seq<string>, s: string) {
    |es| == |s| && forall i :: 0 <= i < |s| ==> SpellsChar(es[i], s[i])
  }

  /** Sections 3 to 5; `st` is the white space after each comma and each colon. */
  ghost predicate Spells(t: string, j: Json, st: Style)
    decreases j
  {
    match j
    case Null => t == "null"
    case Bool(b) => t == if b then "true" else "false"
    case Int(n) => SpellsInt(t, n)
    case Str(s) => SpellsString(t, s)
    case Arr(xs) =>
      exists ts: seq<string> ::
        && |ts| == |xs| && t == "[" + Joined(ts, "," + st.itemGap) + "]"
        && forall i :: 0 <= i < |xs| ==> Spells(ts[i], xs[i], st)
    case Obj(ms) =>
      exists ts: seq<string> ::
        && |ts| == |ms| && t == "{" + Joined(ts, "," + st.itemGap) + "}"
        && forall i :: 0 <= i < |ms| ==> SpellsMember(ts[i], ms[i], st)
  }

  ghost predicate SpellsMember(t: string, m: Member, st: Style)
    decreases m
  {
    exists k, v :: t == k + ":" + st.keyGap + v && SpellsString(k, m.key) && Spells(v, m.value, st)
  }

  // ---- printing spells -----------------------------------------------------------------

  lemma {:induction false} JoinedCons(t: string, ts: seq<string>, sep: string)
    requires ts != []
    ensures Joined([t] + ts, sep) == t + sep + Joined(ts, sep)
  {
    var all := [t] + ts;
    if |ts| == 1 {
      assert all[..1] == [t];
    } else {
      var init := ts[..|ts| - 1];
      assert all[..|all| - 1] == [t] + init;
      JoinedCons(t, init, sep);
      assert (t + sep + Joined(init, sep)) + sep + ts[|ts| - 1] == t + sep + (Joined(init, sep) + sep + ts[|ts| - 1]);
    }
  }

  lemma {:induction false} FlatCons(e: string, es: seq<string>)
    ensures Flat([e] + es) == e + Flat(es)
  {
    var all := [e] + es;
    if es == [] {
      assert all[..0] == [] && Flat(all) == "" + e;
    } else {
      var init := es[..|es| - 1];
      assert all[..|all| - 1] == [e] + init;
      FlatCons(e, init);
      assert (e + Flat(init)) + es[|es| - 1] == e + (Flat(init) + es[|es| - 1]);
    }
  }

  lemma {:induction false} DigitsSpell(n: nat)
    ensures IsNumeral(Digits(n)) && Decimal(Digits(n)) == n
    ensures n > 0 ==> Digits(n)[0] != '0'
  {
    if n < 10 {
      assert Digits(n)[..0] == "";
    } else {
      DigitsSpell(n / 10);
      var s := Digits(n);
      assert s[..|s| - 1] == Digits(n / 10);
    }
  }

  lemma IntSpells(n: int)
    ensures SpellsInt(IntText(n), n)
  {
    if n < 0 {
      DigitsSpell(-n);
    } else {
      DigitsSpell(n);
    }
  }

  lemma CharSpells(c: char)
    ensures SpellsChar(EscapeChar(c), c)
  {
  }

  lemma {:induction false} EscapeSpells(s: string) returns (es: seq<string>)
    ensures SpelledBy(es, s) && Flat(es) == Escape(s)
  {
    es := [];
    if s != "" {
      var rest := EscapeSpells(s[1..]);
      CharSpells(s[0]);
      es := [EscapeChar(s[0])] + rest;
      FlatCons(EscapeChar(s[0]), rest);
    }
  }

  lemma QuoteSpells(s: string)
    ensures SpellsString(Quote(s), s)
  {
    var es := EscapeSpells(s);
  }

  ghost function Printed(xs: seq<Json>, st: Style): seq<string> {
    seq(|xs|, i requires 0 <= i < |xs| => Print(xs[i], st))
  }

  lemma {:induction false} ItemsJoin(xs: seq<Json>, st: Style)
    requires xs != []
    ensures Print(xs[0], st) + PrintItems(xs[1..], st) == Joined(Printed(xs, st), "," + st.itemGap) + "]"
  {
    var (first, rest, sep) := (Print(xs[0], st), xs[1..], "," + st.itemGap);
    if rest == [] {
      assert Printed(xs, st) == [first];
    } else {
      ItemsJoin(rest, st);
      assert Printed(xs, st) == [first] + Printed(rest, st);
      JoinedCons(first, Printed(rest, st), sep);
      ItemsNext(rest, st);
      Glue(first, sep, Print(rest[0], st) + PrintItems(rest[1..], st), Joined(Printed(rest, st), sep), "]");
    }
  }

  lemma ItemsNext(xs: seq<Json>, st: Style)
    requires xs != []
    ensures PrintItems(xs, st) == ("," + st.itemGap) + (Print(xs[0], st) + PrintItems(xs[1..], st))
  {
    Regroup("," + st.itemGap, Print(xs[0], st), PrintItems(xs[1..], st));
  }

  /** First, separator and the rest with its bracket, taken together either way. */
  lemma Glue(first: string, sep: string, rest: string, more: string, close: string)
    requires rest == more + close
    ensures first + (sep + rest) == (first + sep + more) + close
  {
  }

  ghost function PrintedMembers(ms: seq<Member>, st: Style): seq<string> {
    seq(|ms|, i requires 0 <= i < |ms| => PrintMember(ms[i], st))
  }

  lemma {:induction false} MembersJoin(ms: seq<Member>, st: Style)
    requires ms != []
    ensures PrintMember(ms[0], st) + PrintMembers(ms[1..], st)
         == Joined(PrintedMembers(ms, st), "," + st.itemGap) + "}"
  {
    var (first, rest, sep) := (PrintMember(ms[0], st), ms[1..], "," + st.itemGap);
    if rest == [] {
      assert PrintedMembers(ms, st) == [first];
    } else {
      MembersJoin(rest, st);
      assert PrintedMembers(ms, st) == [first] + PrintedMembers(rest, st);
      JoinedCons(first, PrintedMembers(rest, st), sep);
      MembersNext(rest, st);
      Glue(first, sep, PrintMember(rest[0], st) + PrintMembers(rest[1..], st),
           Joined(PrintedMembers(rest, st), sep), "}");
    }
  }

  lemma MembersNext(ms: seq<Member>, st: Style)
    requires ms != []
    ensures PrintMembers(ms, st) == ("," + st.itemGap) + (PrintMember(ms[0], st) + PrintMembers(ms[1..], st))
  {
    Regroup("," + st.itemGap, PrintMember(ms[0], st), PrintMembers(ms[1..], st));
  }

  /** Printing spells the value, with exactly the white space of the style. */
  lemma {:induction false} PrintSpells(j: Json, st: Style)
    ensures Spells(Print(j, st), j, st)
    decreases j
  {
    match j {
      case Int(n) => IntSpells(n);
      case Str(s) => QuoteSpells(s);
      case Arr(xs) => ArraySpells(xs, st);
      case Obj(ms) => ObjectSpells(ms, st);
      case _ =>
    }
  }

  lemma {:induction false} ArraySpells(xs: seq<Json>, st: Style)
    ensures Spells(Print(Arr(xs), st), Arr(xs), st)
    decreases xs
  {
    var ts := Printed(xs, st);
    if xs != [] {
      ItemsJoin(xs, st);
    }
    assert Print(Arr(xs), st) == "[" + Joined(ts, "," + st.itemGap) + "]";
    forall i | 0 <= i < |xs| ensures Spells(ts[i], xs[i], st) {
      PrintSpells(xs[i], st);
    }
  }

  lemma {:induction false} ObjectSpells(ms: seq<Member>, st: Style)
    ensures Spells(Print(Obj(ms), st), Obj(ms), st)
    decreases ms
  {
    var ts := PrintedMembers(ms, st);
    if ms != [] {
      MembersJoin(ms, st);
    }
    assert Print(Obj(ms), st) == "{" + Joined(ts, "," + st.itemGap) + "}";
    forall i | 0 <= i < |ms| ensures SpellsMember(ts[i], ms[i], st) {
      QuoteSpells(ms[i].key);
      PrintSpells(ms[i].value, st);
    }
  }

  // ---- the canonical text ------------------------------------------------------------------

  /** Code point order: at the first difference the smaller character, or the end, comes first. */
  ghost predicate Before(a: string, b: string) {
    exists k: nat :: DiffersAt(a, b, k)
  }

  ghost predicate DiffersAt(a: string, b: string, k: nat) {
    && k <= |a| && k < |b| && a[..k] == b[..k]
    && (k == |a| || a[k] < b[k])
  }

  /** The members of every object, at any depth, in key order. */
  ghost predicate KeysInOrder(j: Json)
    decreases j
  {
    match j
    case Arr(xs) => forall i :: 0 <= i < |xs| ==> KeysInOrder(xs[i])
    case Obj(ms) =>
      && (forall i, k :: 0 <= i < k < |ms| ==> Before(ms[i].key, ms[k].key))
      && forall i :: 0 <= i < |ms| ==> KeysInOrder(ms[i].value)
    case _ => true
  }

  lemma {:induction false} KeyLessIsBefore(a: string, b: string)
    requires KeyLess(a, b)
    ensures Before(a, b)
  {
    if a == [] || a[0] < b[0] {
      assert DiffersAt(a, b, 0);
    } else {
      KeyLessIsBefore(a[1..], b[1..]);
      var k: nat :| DiffersAt(a[1..], b[1..], k);
      assert a[..k + 1] == [a[0]] + a[1..][..k] && b[..k + 1] == [b[0]] + b[1..][..k];
      assert DiffersAt(a, b, k + 1);
    }
  }

  lemma {:induction false} NormalInOrder(j: Json)
    requires WellFormed(j)
    ensures KeysInOrder(Normal(j))
    decreases j
  {
    match j {
      case Arr(xs) =>
        forall i | 0 <= i < |xs| ensures KeysInOrder(Normal(xs[i])) {
          NormalInOrder(xs[i]);
        }
      case Obj(ms) =>
        forall i | 0 <= i < |ms| ensures KeysInOrder(Normal(ms[i].value)) {
          NormalInOrder(ms[i].value);
        }
        MembersInOrder(ms);
      case _ =>
    }
  }

  lemma MembersInOrder(ms: seq<Member>)
    requires DistinctKeys(ms) && forall i :: 0 <= i < |ms| ==> KeysInOrder(Normal(ms[i].value))
    ensures KeysInOrder(Obj(SortByKey(NormalMembers(ms))))
  {
    var sorted := SortByKey(NormalMembers(ms));
    SortedMembers(ms);
    forall i, k | 0 <= i < k < |sorted| ensures Before(sorted[i].key, sorted[k].key) {
      KeyLessIsBefore(sorted[i].key, sorted[k].key);
    }
    forall i | 0 <= i < |sorted| ensures KeysInOrder(sorted[i].value) {
      assert sorted[i] in sorted;
    }
  }

  /** The canonical text spells, without white space, a value that means the same, its keys in order. */
  lemma CanonicalSpells(j: Json)
    requires WellFormed(j)
    ensures exists k :: Spells(Canonical(j), k, Style("", "")) && KeysInOrder(k) && Meaning(k) == Meaning(j)
  {
    PrintSpells(Normal(j), COMPACT);
    NormalInOrder(j);
    NormalKeepsMeaning(j);
  }
}
