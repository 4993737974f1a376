/**
 * What one block of an event stream means, said of its text: its lines, the fields on them, and
 * the frame they make (section 9.2.6 of the WHATWG HTML Living Standard); and how line ends are
 * read.
 */
module SseBlocks {
  import opened Wrappers
  import opened SseParser

  // ---- lines ------------------------------------------------------------------

  /** The texts with a line end between every two of them. */
  ghost function Glued(ls: seq<string>): string {
    if ls == [] then ""
    else if |ls| == 1 then ls[0]
    else Glued(ls[..|ls| - 1]) + "\n" + ls[|ls| - 1]
  }

  ghost predicate SplitsInto(block: string, ls: seq<string>) {
    ls != [] && block == Glued(ls) && forall l :: l in ls ==> '\n' !in l
  }

  lemma {:induction false} GluedCons(l: string, ls: seq<string>)
    requires ls != []
    ensures Glued([l] + ls) == l + "\n" + Glued(ls)
  {
    var all := [l] + ls;
    if |ls| == 1 {
      assert all[..1] == [l];
    } else {
      var init := ls[..|ls| - 1];
      assert all[..|all| - 1] == [l] + init;
      GluedCons(l, init);
      assert (l + "\n" + Glued(init)) + "\n" + ls[|ls| - 1] == l + "\n" + (Glued(init) + "\n" + ls[|ls| - 1]);
    }
  }

  lemma FirstLineEnd(l: string, rest: string)
    requires '\n' !in l
    ensures IndexOf(l, '\n') == |l| && IndexOf(l + "\n" + rest, '\n') == |l|
  {
    var s := l + "\n" + rest;
    assert s[|l|] == '\n' && s[..|l|] == l;
    assert forall i :: 0 <= i < |l| ==> s[i] == l[i] && l[i] in l;
  }

  /** A block splits into its lines in exactly one way. */
  lemma {:induction false} LinesIff(block: string, ls: seq<string>)
    ensures SplitsInto(block, ls) <==> ls == Lines(block)
  {
    LinesGlue(block);
    if SplitsInto(block, ls) {
      GluedLines(ls);
    }
  }

  lemma {:induction false} GluedLines(ls: seq<string>)
    requires ls != [] && forall l :: l in ls ==> '\n' !in l
    ensures Lines(Glued(ls)) == ls
  {
    var l, rest := ls[0], ls[1..];
    assert ls == [l] + rest && l in ls;
    if rest == [] {
      FirstLineEnd(l, "");
    } else {
      assert forall x :: x in rest ==> x in ls;
      GluedLines(rest);
      GluedCons(l, rest);
      FirstLineEnd(l, Glued(rest));
      var s := l + "\n" + Glued(rest);
      assert s[..|l|] == l && s[|l| + 1..] == Glued(rest);
    }
  }

  lemma {:induction false} LinesGlue(s: string)
    ensures SplitsInto(s, Lines(s))
  {
    var k := IndexOf(s, '\n');
    if k < |s| {
      var rest := Lines(s[k + 1..]);
      LinesGlue(s[k + 1..]);
      GluedCons(s[..k], rest);
      assert s == s[..k] + "\n" + s[k + 1..];
    }
  }

  // ---- fields -------------------------------------------------------------------

  /** The value after a colon: one leading space does not belong to it. */
  ghost predicate ValueIs(text: string, value: string) {
    if text != "" && text[0] == ' ' then text == " " + value else text == value
  }

  /** The name before the first colon and the value after it. */
  ghost predicate AroundColon(line: string, name: string, value: string) {
    exists text :: line == name + ":" + text && ':' !in name && ValueIs(text, value)
  }

  /** The line carries this field. Empty lines and comments carry none. */
  ghost predicate Carries(line: string, name: string, value: string) {
    && line != "" && line[0] != ':'
    && (|| (':' !in line && name == line && value == "")
        || AroundColon(line, name, value))
  }

  /** The data values of a block in order; `at` says on which lines they are. */
  ghost predicate DataOf(ls: seq<string>, at: seq<nat>, values: seq<string>) {
    && |at| == |values|
    && (forall k :: 0 <= k < |at| ==> at[k] < |ls| && Carries(ls[at[k]], "data", values[k]))
    && (forall j, k :: 0 <= j < k < |at| ==> at[j] < at[k])
    && forall i, v :: 0 <= i < |ls| && i !in at ==> !Carries(ls[i], "data", v)
  }

  /** The event is named by the last line that names it, and is a message without one. */
  ghost predicate EventOf(ls: seq<string>, event: string) {
    || (event == "message" && forall i, v :: 0 <= i < |ls| ==> !Carries(ls[i], "event", v))
    || (exists i :: 0 <= i < |ls| && NamedAt(ls, i, event))
  }

  ghost predicate NamedAt(ls: seq<string>, i: nat, event: string)
    requires i < |ls|
  {
    Carries(ls[i], "event", event) && forall j, v :: i < j < |ls| ==> !Carries(ls[j], "event", v)
  }

  lemma SplitAtColon(line: string, name: string, text: string)
    requires line == name + ":" + text && ':' !in name
    ensures IndexOf(line, ':') == |name| && line[..|name|] == name && line[|name| + 1..] == text
  {
    assert line[|name|] == ':' && line[..|name|] == name;
    assert forall i :: 0 <= i < |name| ==> line[i] == name[i] && name[i] in name;
  }

  lemma ValueDropsSpace(text: string)
    ensures forall v :: ValueIs(text, v) <==> v == DropSpace(text)
  {
    forall v ensures ValueIs(text, v) <==> v == DropSpace(text) {
      if text != "" && text[0] == ' ' {
        assert text == " " + text[1..];
        assert (" " + v)[1..] == v;
      }
    }
  }

  lemma AroundFirstColon(line: string, name: string, value: string)
    ensures var k := IndexOf(line, ':');
            AroundColon(line, name, value) <==>
              k < |line| && name == line[..k] && value == DropSpace(line[k + 1..])
  {
    if AroundColon(line, name, value) {
      ColonIsFirst(line, name, value);
    }
    if IndexOf(line, ':') < |line| {
      FirstColonSplits(line, DropSpace(line[IndexOf(line, ':') + 1..]));
    }
  }

  lemma ColonIsFirst(line: string, name: string, value: string)
    requires AroundColon(line, name, value)
    ensures var k := IndexOf(line, ':');
            k < |line| && name == line[..k] && value == DropSpace(line[k + 1..])
  {
    var text :| line == name + ":" + text && ':' !in name && ValueIs(text, value);
    SplitAtColon(line, name, text);
    ValueDropsSpace(text);
  }

  lemma FirstColonSplits(line: string, value: string)
    requires IndexOf(line, ':') < |line| && value == DropSpace(line[IndexOf(line, ':') + 1..])
    ensures AroundColon(line, line[..IndexOf(line, ':')], value)
  {
    var k := IndexOf(line, ':');
    CutAt(line, k);
    ValueOfText(line[k + 1..]);
  }

  lemma CutAt(line: string, k: nat)
    requires k < |line| && line[k] == ':' && forall i :: 0 <= i < k ==> line[i] != ':'
    ensures line == line[..k] + ":" + line[k + 1..] && ':' !in line[..k]
  {
  }

  lemma ValueOfText(text: string)
    ensures ValueIs(text, DropSpace(text))
  {
    ValueDropsSpace(text);
  }

  /** What the parser reads on a line is the field the line carries. */
  lemma CarriesIff(line: string, name: string, value: string)
    ensures Carries(line, name, value) <==>
              && line != "" && line[0] != ':'
              && var k := IndexOf(line, ':');
                 && name == line[..k]
                 && value == (if k == |line| then "" else DropSpace(line[k + 1..]))
  {
    var k := IndexOf(line, ':');
    AroundFirstColon(line, name, value);
    if k < |line| {
      assert line[k] in line;
    } else {
      assert line[..k] == line;
    }
  }

  // ---- the frame ------------------------------------------------------------------

  lemma {:induction false} FoldSnoc(b: Block, ls: seq<string>, l: string)
    ensures FoldLines(b, ls + [l]) == Line(FoldLines(b, ls), l)
    decreases |ls|
  {
    if ls == [] {
      assert [] + [l] == [l] && [l][1..] == [];
    } else {
      assert (ls + [l])[0] == ls[0] && (ls + [l])[1..] == ls[1..] + [l];
      FoldSnoc(Line(b, ls[0]), ls[1..], l);
    }
  }

  lemma DataStays(ls: seq<string>, l: string, at: seq<nat>, values: seq<string>)
    requires DataOf(ls, at, values) && forall v :: !Carries(l, "data", v)
    ensures DataOf(ls + [l], at, values)
  {
  }

  lemma DataGrows(ls: seq<string>, l: string, at: seq<nat>, values: seq<string>, v: string)
    requires DataOf(ls, at, values) && Carries(l, "data", v)
    ensures DataOf(ls + [l], at + [|ls|], values + [v])
  {
    var more := at + [|ls|];
    assert more[|at|] == |ls|;
    forall i, u | 0 <= i < |ls| + 1 && i !in more ensures !Carries((ls + [l])[i], "data", u) {
      assert i != |ls| && i !in at;
    }
  }

  lemma EventStays(ls: seq<string>, l: string, event: string)
    requires EventOf(ls, event) && forall v :: !Carries(l, "event", v)
    ensures EventOf(ls + [l], event)
  {
    if i :| 0 <= i < |ls| && NamedAt(ls, i, event) {
      assert NamedAt(ls + [l], i, event);
    }
  }

  lemma EventChanges(ls: seq<string>, l: string, event: string)
    requires Carries(l, "event", event)
    ensures EventOf(ls + [l], event)
  {
    assert NamedAt(ls + [l], |ls|, event);
  }

  /** One more line, and what it adds to the block. */
  lemma LineReads(b: Block, l: string)
    ensures if exists v :: Carries(l, "data", v) then
              (exists v :: Carries(l, "data", v) && Line(b, l) == b.(data := b.data + [v]))
              && forall v :: !Carries(l, "event", v)
            else if exists v :: Carries(l, "event", v) then
              exists v :: Carries(l, "event", v) && Line(b, l) == b.(event := v)
            else Line(b, l) == b
  {
    forall v
      ensures Carries(l, "data", v) ==> Line(b, l) == b.(data := b.data + [v])
      ensures Carries(l, "event", v) ==> Line(b, l) == b.(event := v)
    {
      CarriesIff(l, "data", v);
      CarriesIff(l, "event", v);
    }
    if l != "" && l[0] != ':' {
      var k := IndexOf(l, ':');
      var v := if k == |l| then "" else DropSpace(l[k + 1..]);
      CarriesIff(l, l[..k], v);
    }
    forall v, u ensures !(Carries(l, "data", v) && Carries(l, "event", u)) {
      CarriesIff(l, "data", v);
      CarriesIff(l, "event", u);
    }
  }

  lemma {:induction false} FoldReads(ls: seq<string>) returns (at: seq<nat>)
    ensures DataOf(ls, at, FoldLines(Block("message", []), ls).data)
    ensures EventOf(ls, FoldLines(Block("message", []), ls).event)
  {
    at := [];
    if ls != [] {
      var front, l := ls[..|ls| - 1], ls[|ls| - 1];
      assert ls == front + [l];
      at := FoldReads(front);
      var b := FoldLines(Block("message", []), front);
      FoldSnoc(Block("message", []), front, l);
      LineReads(b, l);
      if exists v :: Carries(l, "data", v) {
        var v :| Carries(l, "data", v) && Line(b, l) == b.(data := b.data + [v]);
        DataGrows(front, l, at, b.data, v);
        at := at + [|front|];
        EventStays(front, l, b.event);
      } else {
        DataStays(front, l, at, b.data);
        if exists v :: Carries(l, "event", v) {
          var v :| Carries(l, "event", v) && Line(b, l) == b.(event := v);
          EventChanges(front, l, v);
        } else {
          EventStays(front, l, b.event);
        }
      }
    }
  }

  lemma {:induction false} JoinGlues(values: seq<string>)
    ensures JoinLines(values) == Glued(values)
  {
    if |values| > 1 {
      JoinGlues(values[1..]);
      GluedCons(values[0], values[1..]);
      assert values == [values[0]] + values[1..];
    }
  }

  /**
   * What a block emits, read off its text: nothing without a data line, and else one frame, with
   * the last event name on it and the data values in order, a line end between every two.
   */
  lemma EmitReads(block: string, ls: seq<string>) returns (at: seq<nat>, values: seq<string>, event: string)
    requires SplitsInto(block, ls)
    ensures DataOf(ls, at, values) && EventOf(ls, event)
    ensures Emit(block) == if values == [] then [] else [Frame(event, Glued(values))]
  {
    LinesIff(block, ls);
    at := FoldReads(ls);
    var b := FoldLines(Block("message", []), ls);
    values, event := b.data, b.event;
    JoinGlues(values);
  }

  // ---- line ends ----------------------------------------------------------------------

  lemma {:induction false} NormaliseSkips(a: string, b: string)
    requires '\r' !in a
    ensures Normalise(a + b) == a + Normalise(b)
  {
    if a == "" {
      assert a + b == b;
    } else {
      assert (a + b)[0] == a[0] && (a + b)[1..] == a[1..] + b && a[0] in a;
      assert forall c :: c in a[1..] ==> c in a;
      NormaliseSkips(a[1..], b);
      assert [a[0]] + (a[1..] + Normalise(b)) == a + Normalise(b);
    }
  }

  /** A carriage return ends a line, with the line feed after it if there is one; all other text stays. */
  lemma LineEndsRead(a: string, b: string)
    requires '\r' !in a
    ensures Normalise(a) == a
    ensures Normalise(a + "\r\n" + b) == a + "\n" + Normalise(b)
    ensures b == "" || b[0] != '\n' ==> Normalise(a + "\r" + b) == a + "\n" + Normalise(b)
  {
    NormaliseSkips(a, "");
    assert a + "" == a;
    var pair, lone := "\r\n" + b, "\r" + b;
    assert a + "\r\n" + b == a + pair && a + "\r" + b == a + lone;
    NormaliseSkips(a, pair);
    NormaliseSkips(a, lone);
    assert pair[2..] == b && lone[1..] == b;
    assert a + ("\n" + Normalise(b)) == a + "\n" + Normalise(b);
  }
}
