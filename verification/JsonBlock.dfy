/**
 * Pulling the first JSON array or object out of prose, by counting brackets outside strings.
 */
module JsonBlock {
  import opened JsonValues
  import opened Wrappers

  predicate Opens(c: char) {
    c == '[' || c == '{'
  }

  function Closer(opener: char): char {
    if opener == '[' then ']' else '}'
  }

  datatype Scanner = Scanner(depth: int, inString: bool, escaped: bool)

  /** One turn of the scan, for a character that does not close the block. */
  function Step(s: Scanner, opener: char, c: char): Scanner {
    if s.escaped then s.(escaped := false)
    else if c == '\\' then s.(escaped := true)
    else if c == '"' then s.(inString := !s.inString)
    else if s.inString then s
    else if c == opener then s.(depth := s.depth + 1)
    else if c == Closer(opener) then s.(depth := s.depth - 1)
    else s
  }

  /** The characters consumed up to and including the one that closes the block. */
  function Scan(text: string, opener: char, s: Scanner): Option<nat> {
    if text == [] then None
    else
      var next := Step(s, opener, text[0]);
      if next.depth < s.depth && next.depth == 0 then Some(1)
      else Shift(1, Scan(text[1..], opener, next))
  }

  function Shift(k: nat, r: Option<nat>): Option<nat> {
    match r
    case None => None
    case Some(n) => Some(n + k)
  }

  /** The index of the first bracket, or the length of a text that has none. */
  function FirstOpener(text: string): (k: nat)
    ensures k <= |text|
    ensures forall i :: 0 <= i < k ==> !Opens(text[i])
    ensures k < |text| ==> Opens(text[k])
  {
    if text == [] || Opens(text[0]) then 0 else 1 + FirstOpener(text[1..])
  }

  function Block(text: string): Option<string> {
    BlockAt(text, FirstOpener(text))
  }

  function BlockAt(text: string, start: nat): Option<string>
    requires start <= |text|
  {
    if start == |text| then None else CutOut(text, start, Scan(text[start..], text[start], Scanner(0, false, false)))
  }

  function CutOut(text: string, start: nat, length: Option<nat>): Option<string>
    requires start <= |text|
  {
    if length.Some? && start + length.value <= |text| then Some(text[start..start + length.value]) else None
  }

  /** One turn of the scan at an offset of the text. */
  lemma ScanTurn(text: string, offset: nat, opener: char, s: Scanner)
    requires offset < |text|
    ensures var next := Step(s, opener, text[offset]);
            Scan(text[offset..], opener, s)
            == if next.depth < s.depth && next.depth == 0 then Some(1)
               else Shift(1, Scan(text[offset + 1..], opener, next))
  {
    assert text[offset..][1..] == text[offset + 1..];
  }

  method FirstBracket(text: string) returns (start: nat)
    ensures start == FirstOpener(text)
  {
    start := 0;
    while start < |text| && !Opens(text[start])
      invariant start <= |text|
      invariant FirstOpener(text) == start + FirstOpener(text[start..])
    {
      assert text[start..][1..] == text[start + 1..];
      start := start + 1;
    }
  }

  /** Counts brackets from `start` on, up to the one that closes the block. */
  method ScanBlock(text: string, start: nat) returns (length: Option<nat>)
    requires start < |text|
    ensures length == Scan(text[start..], text[start], Scanner(0, false, false))
    ensures length.Some? ==> start + length.value <= |text|
  {
    var opener := text[start];
    var s := Scanner(0, false, false);
    var offset := start;
    ghost var whole := Scan(text[start..], opener, s);
    while offset < |text|
      invariant start <= offset <= |text|
      invariant whole == Shift(offset - start, Scan(text[offset..], opener, s))
    {
      ScanTurn(text, offset, opener, s);
      var next := Step(s, opener, text[offset]);
      if next.depth < s.depth && next.depth == 0 {
        return Some(offset + 1 - start);
      }
      s := next;
      offset := offset + 1;
    }
    return None;
  }

  method ExtractJsonBlock(text: string) returns (block: Option<string>)
    ensures block == Block(text)
  {
    if text == [] {
      return None;
    }
    var start := FirstBracket(text);
    if start == |text| {
      return None;
    }
    var length := ScanBlock(text, start);
    if length == None {
      return None;
    }
    return Some(text[start..start + length.value]);
  }

  // ---- printed values pass through the scan -------------------------------

  /** Inside a block and outside a string, the text leaves the scan as it found it. */
  ghost predicate Neutral(t: string, opener: char) {
    forall rest: string, d: int :: d >= 1 ==> Passes(t, opener, rest, d)
  }

  ghost predicate Passes(t: string, opener: char, rest: string, d: int) {
    Scan(t + rest, opener, Scanner(d, false, false)) == Shift(|t|, Scan(rest, opener, Scanner(d, false, false)))
  }

  lemma NeutralPlain(t: string, opener: char)
    requires Opens(opener)
    requires forall i :: 0 <= i < |t| ==> Plain(t[i])
    ensures Neutral(t, opener)
  {
    forall rest: string, d: int | d >= 1
      ensures Passes(t, opener, rest, d)
    {
      PlainRun(t, opener, rest, Scanner(d, false, false));
    }
  }

  predicate Plain(c: char) {
    c !in {'"', '\\', '[', ']', '{', '}'}
  }

  lemma {:induction false} PlainRun(t: string, opener: char, rest: string, s: Scanner)
    requires Opens(opener) && s.depth >= 1 && !s.inString && !s.escaped
    requires forall i :: 0 <= i < |t| ==> Plain(t[i])
    ensures Scan(t + rest, opener, s) == Shift(|t|, Scan(rest, opener, s))
  {
    if t == [] {
      assert t + rest == rest;
    } else {
      assert (t + rest)[1..] == t[1..] + rest;
      PlainRun(t[1..], opener, rest, s);
    }
  }

  lemma NeutralConcat(a: string, b: string, opener: char)
    requires Neutral(a, opener) && Neutral(b, opener)
    ensures Neutral(a + b, opener)
  {
    forall rest: string, d: int | d >= 1
      ensures Passes(a + b, opener, rest, d)
    {
      Regroup(a, b, rest);
      assert Passes(a, opener, b + rest, d) && Passes(b, opener, rest, d);
    }
  }

  /** A character of a string literal, however it is escaped, leaves the scan inside the string. */
  lemma EscapedCharRun(c: char, opener: char, rest: string, d: int)
    requires Opens(opener) && d >= 1
    ensures Scan(EscapeChar(c) + rest, opener, Scanner(d, true, false))
         == Shift(|EscapeChar(c)|, Scan(rest, opener, Scanner(d, true, false)))
  {
    var e := EscapeChar(c);
    var s := Scanner(d, true, false);
    if |e| == 1 {
      assert (e + rest)[1..] == rest;
    } else {
      StringRun(e[2..], opener, rest, s);
      EscapePairRun(e, opener, rest, s);
    }
  }

  /** A backslash and the character after it. */
  lemma EscapePairRun(e: string, opener: char, rest: string, s: Scanner)
    requires |e| >= 2 && e[0] == '\\' && !s.escaped
    ensures Scan(e + rest, opener, s) == Shift(2, Scan(e[2..] + rest, opener, s))
  {
    assert (e + rest)[1..] == e[1..] + rest;
    assert (e[1..] + rest)[1..] == e[2..] + rest;
  }

  lemma {:induction false} StringRun(t: string, opener: char, rest: string, s: Scanner)
    requires Opens(opener) && s.depth >= 1 && s.inString && !s.escaped
    requires forall i :: 0 <= i < |t| ==> t[i] != '"' && t[i] != '\\'
    ensures Scan(t + rest, opener, s) == Shift(|t|, Scan(rest, opener, s))
  {
    if t == [] {
      assert t + rest == rest;
    } else {
      assert (t + rest)[1..] == t[1..] + rest;
      StringRun(t[1..], opener, rest, s);
    }
  }

  lemma {:induction false} EscapeRun(s: string, opener: char, rest: string, d: int)
    requires Opens(opener) && d >= 1
    ensures Scan(Escape(s) + rest, opener, Scanner(d, true, false))
         == Shift(|Escape(s)|, Scan(rest, opener, Scanner(d, true, false)))
  {
    if s == [] {
      assert Escape(s) + rest == rest;
    } else {
      Regroup(EscapeChar(s[0]), Escape(s[1..]), rest);
      EscapedCharRun(s[0], opener, Escape(s[1..]) + rest, d);
      EscapeRun(s[1..], opener, rest, d);
    }
  }

  lemma NeutralQuote(s: string, opener: char)
    requires Opens(opener)
    ensures Neutral(Quote(s), opener)
  {
    forall rest: string, d: int | d >= 1
      ensures Passes(Quote(s), opener, rest, d)
    {
      assert (Quote(s) + rest)[1..] == Escape(s) + ("\"" + rest);
      EscapeRun(s, opener, "\"" + rest, d);
      assert ("\"" + rest)[1..] == rest;
    }
  }

  /** A bracket pair around neutral text is neutral: it nests one deeper, or not at all. */
  lemma NeutralBrackets(open: char, body: string, opener: char)
    requires Opens(open) && Opens(opener) && Neutral(body, opener)
    ensures Neutral([open] + (body + [Closer(open)]), opener)
  {
    var t := [open] + (body + [Closer(open)]);
    forall rest: string, d: int | d >= 1
      ensures Passes(t, opener, rest, d)
    {
      assert t + rest == [open] + (body + ([Closer(open)] + rest));
      OpeningRun(open, body + ([Closer(open)] + rest), opener, d);
      assert Passes(body, opener, [Closer(open)] + rest, Inner(open, opener, d));
      ClosingRun(open, rest, opener, d);
    }
  }

  /** The depth inside a bracket pair. */
  function Inner(open: char, opener: char, d: int): int {
    if open == opener then d + 1 else d
  }

  lemma OpeningRun(open: char, rest: string, opener: char, d: int)
    requires Opens(open) && Opens(opener) && d >= 0
    ensures Scan([open] + rest, opener, Scanner(d, false, false))
         == Shift(1, Scan(rest, opener, Scanner(Inner(open, opener, d), false, false)))
  {
    assert ([open] + rest)[1..] == rest;
  }

  lemma ClosingRun(open: char, rest: string, opener: char, d: int)
    requires Opens(open) && Opens(opener) && d >= 0
    ensures Scan([Closer(open)] + rest, opener, Scanner(Inner(open, opener, d), false, false))
         == if d == 0 && open == opener then Some(1) else Shift(1, Scan(rest, opener, Scanner(d, false, false)))
  {
    assert ([Closer(open)] + rest)[1..] == rest;
  }

  ghost predicate PlainStyle(st: Style) {
    && (forall i :: 0 <= i < |st.itemGap| ==> Plain(st.itemGap[i]))
    && (forall i :: 0 <= i < |st.keyGap| ==> Plain(st.keyGap[i]))
  }

  /** The inside of an array: the items and the separators between them. */
  function ItemsBody(xs: seq<Json>, st: Style): string
    decreases xs
  {
    if xs == [] then "" else ("," + st.itemGap) + (Print(xs[0], st) + ItemsBody(xs[1..], st))
  }

  function MembersBody(ms: seq<Member>, st: Style): string
    decreases ms
  {
    if ms == [] then "" else ("," + st.itemGap) + (PrintMember(ms[0], st) + MembersBody(ms[1..], st))
  }

  lemma {:induction false} ItemsBodyCloses(xs: seq<Json>, st: Style)
    ensures PrintItems(xs, st) == ItemsBody(xs, st) + "]"
    decreases xs
  {
    if xs != [] {
      ItemsBodyCloses(xs[1..], st);
      var g, p, b := "," + st.itemGap, Print(xs[0], st), ItemsBody(xs[1..], st);
      assert (g + p) + (b + "]") == (g + (p + b)) + "]";
    }
  }

  lemma {:induction false} MembersBodyCloses(ms: seq<Member>, st: Style)
    ensures PrintMembers(ms, st) == MembersBody(ms, st) + "}"
    decreases ms
  {
    if ms != [] {
      MembersBodyCloses(ms[1..], st);
      var g, p, b := "," + st.itemGap, PrintMember(ms[0], st), MembersBody(ms[1..], st);
      assert (g + p) + (b + "}") == (g + (p + b)) + "}";
    }
  }

  /** What is between the brackets of a printed array or object. */
  function Inside(j: Json, st: Style): string
    requires j.Arr? || j.Obj?
  {
    if j.Arr? then
      if j.items == [] then "" else Print(j.items[0], st) + ItemsBody(j.items[1..], st)
    else
      if j.members == [] then "" else PrintMember(j.members[0], st) + MembersBody(j.members[1..], st)
  }

  function OpenerOf(j: Json): char {
    if j.Arr? then '[' else '{'
  }

  lemma PrintInside(j: Json, st: Style)
    requires j.Arr? || j.Obj?
    ensures Print(j, st) == [OpenerOf(j)] + (Inside(j, st) + [Closer(OpenerOf(j))])
  {
    if j.Arr? && j.items != [] {
      ItemsBodyCloses(j.items[1..], st);
      Regroup(Print(j.items[0], st), ItemsBody(j.items[1..], st), "]");
    } else if j.Obj? && j.members != [] {
      MembersBodyCloses(j.members[1..], st);
      Regroup(PrintMember(j.members[0], st), MembersBody(j.members[1..], st), "}");
    }
  }

  lemma {:induction false} NeutralValue(j: Json, st: Style, opener: char)
    requires Opens(opener) && PlainStyle(st)
    ensures Neutral(Print(j, st), opener)
    decreases j, 2
  {
    match j {
      case Str(s) => NeutralQuote(s, opener);
      case Arr(xs) =>
        NeutralInside(j, st, opener);
        PrintInside(j, st);
        NeutralBrackets('[', Inside(j, st), opener);
      case Obj(ms) =>
        NeutralInside(j, st, opener);
        PrintInside(j, st);
        NeutralBrackets('{', Inside(j, st), opener);
      case _ => NeutralPlain(Print(j, st), opener);
    }
  }

  lemma {:induction false} NeutralInside(j: Json, st: Style, opener: char)
    requires Opens(opener) && PlainStyle(st) && (j.Arr? || j.Obj?)
    ensures Neutral(Inside(j, st), opener)
    decreases j, 1
  {
    NeutralPlain("", opener);
    if j.Arr? && j.items != [] {
      NeutralValue(j.items[0], st, opener);
      NeutralItems(j.items[1..], st, opener);
      NeutralConcat(Print(j.items[0], st), ItemsBody(j.items[1..], st), opener);
    } else if j.Obj? && j.members != [] {
      NeutralMember(j.members[0], st, opener);
      NeutralMembers(j.members[1..], st, opener);
      NeutralConcat(PrintMember(j.members[0], st), MembersBody(j.members[1..], st), opener);
    }
  }

  lemma {:induction false} NeutralItems(xs: seq<Json>, st: Style, opener: char)
    requires Opens(opener) && PlainStyle(st)
    ensures Neutral(ItemsBody(xs, st), opener)
    decreases xs, 0
  {
    NeutralPlain("", opener);
    if xs != [] {
      NeutralPlain("," + st.itemGap, opener);
      NeutralValue(xs[0], st, opener);
      NeutralItems(xs[1..], st, opener);
      NeutralConcat(Print(xs[0], st), ItemsBody(xs[1..], st), opener);
      NeutralConcat("," + st.itemGap, Print(xs[0], st) + ItemsBody(xs[1..], st), opener);
    }
  }

  lemma {:induction false} NeutralMember(m: Member, st: Style, opener: char)
    requires Opens(opener) && PlainStyle(st)
    ensures Neutral(PrintMember(m, st), opener)
    decreases m, 0
  {
    NeutralQuote(m.key, opener);
    NeutralPlain(":" + st.keyGap, opener);
    NeutralConcat(Quote(m.key), ":" + st.keyGap, opener);
    NeutralValue(m.value, st, opener);
    NeutralConcat(Quote(m.key) + (":" + st.keyGap), Print(m.value, st), opener);
    Regroup(Quote(m.key), ":", st.keyGap);
  }

  lemma {:induction false} NeutralMembers(ms: seq<Member>, st: Style, opener: char)
    requires Opens(opener) && PlainStyle(st)
    ensures Neutral(MembersBody(ms, st), opener)
    decreases ms, 0
  {
    NeutralPlain("", opener);
    if ms != [] {
      NeutralPlain("," + st.itemGap, opener);
      NeutralMember(ms[0], st, opener);
      NeutralMembers(ms[1..], st, opener);
      NeutralConcat(PrintMember(ms[0], st), MembersBody(ms[1..], st), opener);
      NeutralConcat("," + st.itemGap, PrintMember(ms[0], st) + MembersBody(ms[1..], st), opener);
    }
  }

  /**
   * Whatever prose surrounds a printed array or object, extraction returns it whole, provided
   * the prose before it has no bracket of its own; the prose after it may hold anything.
   */
  lemma ExtractionUndoesPrinting(prefix: string, j: Json, st: Style, suffix: string)
    requires j.Arr? || j.Obj?
    requires PlainStyle(st)
    requires forall i :: 0 <= i < |prefix| ==> !Opens(prefix[i])
    ensures Block(prefix + Print(j, st) + suffix) == Some(Print(j, st))
  {
    PrintInside(j, st);
    AroundPrinted(prefix, Print(j, st), suffix);
    PrintedRun(j, st, suffix);
  }

  /** The scan of a printed array or object ends where the print does, whatever follows. */
  lemma PrintedRun(j: Json, st: Style, suffix: string)
    requires (j.Arr? || j.Obj?) && PlainStyle(st)
    ensures Scan(Print(j, st) + suffix, OpenerOf(j), Scanner(0, false, false)) == Some(|Print(j, st)|)
  {
    var opener := OpenerOf(j);
    var inside, closer := Inside(j, st), Closer(opener);
    PrintInside(j, st);
    NeutralInside(j, st, opener);
    assert Print(j, st) + suffix == [opener] + (inside + ([closer] + suffix));
    assert Passes(inside, opener, [closer] + suffix, 1);
    BlockRun(inside, opener, suffix);
  }

  /** From the bracket before an inside that the scan passes, the block ends with the bracket after it. */
  lemma BlockRun(inside: string, opener: char, suffix: string)
    requires Opens(opener) && Passes(inside, opener, [Closer(opener)] + suffix, 1)
    ensures Scan([opener] + (inside + ([Closer(opener)] + suffix)), opener, Scanner(0, false, false))
         == Some(|inside| + 2)
  {
    var rest := [Closer(opener)] + suffix;
    OpeningRun(opener, inside + rest, opener, 0);
    ClosingRun(opener, suffix, opener, 0);
    calc {
      Scan([opener] + (inside + rest), opener, Scanner(0, false, false));
      Shift(1, Scan(inside + rest, opener, Scanner(1, false, false)));
      Shift(1, Shift(|inside|, Scan(rest, opener, Scanner(1, false, false))));
    }
  }

  lemma AroundPrinted(prefix: string, p: string, suffix: string)
    requires p != [] && Opens(p[0])
    requires forall i :: 0 <= i < |prefix| ==> !Opens(prefix[i])
    ensures var text := prefix + p + suffix;
            && FirstOpener(text) == |prefix| && text[|prefix|] == p[0]
            && text[|prefix|..] == p + suffix && text[|prefix|..|prefix| + |p|] == p
  {
    var text := prefix + p + suffix;
    assert text[|prefix|] == p[0];
    assert forall i :: 0 <= i < |prefix| ==> text[i] == prefix[i];
  }

  /** The only reason a printed value is missed: a bracket in the prose before it wins the search. */
  lemma EarlierBracketWins(prefix: string, rest: string)
    requires exists i :: 0 <= i < |prefix| && Opens(prefix[i])
    ensures FirstOpener(prefix + rest) == FirstOpener(prefix) < |prefix|
  {
    var k := FirstOpener(prefix);
    assert (prefix + rest)[k] == prefix[k];
    assert forall i :: 0 <= i < k ==> (prefix + rest)[i] == prefix[i];
  }
}
