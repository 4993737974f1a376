/** What the server writes to an event stream, read back by the client's parser. */
module SseRoundTrip {
  import opened JsonValues
  import SseCuts
  import opened SseParser
  import opened Wrappers

  /** What the server sends: an event with one line of data, or a keepalive comment. */
  datatype Item = Sent(event: string, data: string) | Comment(text: string)

  function BlockOf(i: Item): string {
    match i
    case Sent(e, d) => ("event: " + e) + "\n" + ("data: " + d)
    case Comment(t) => ": " + t
  }

  function WireText(items: seq<Item>): string {
    if items == [] then "" else BlockOf(items[0]) + "\n\n" + WireText(items[1..])
  }

  function FramesOf(items: seq<Item>): seq<Frame> {
    if items == [] then []
    else (match items[0] case Sent(e, d) => [Frame(e, d)] case Comment(_) => []) + FramesOf(items[1..])
  }

  predicate OneLine(s: string) {
    forall i :: 0 <= i < |s| ==> s[i] != '\n' && s[i] != '\r'
  }

  predicate Sendable(i: Item) {
    match i
    case Sent(e, d) => OneLine(e) && OneLine(d)
    case Comment(t) => OneLine(t)
  }

  // ---- lines ----------------------------------------------------------------

  lemma {:induction false} IndexOfAbsent(s: string, c: char, t: string)
    requires forall i :: 0 <= i < |s| ==> s[i] != c
    requires t == [] || t[0] == c
    ensures IndexOf(s + t, c) == |s|
  {
    if s == [] {
      assert s + t == t;
    } else {
      assert (s + t)[1..] == s[1..] + t;
      IndexOfAbsent(s[1..], c, t);
    }
  }

  lemma LinesOne(a: string)
    requires OneLine(a)
    ensures Lines(a) == [a]
  {
    IndexOfAbsent(a, '\n', "");
    assert a + "" == a;
  }

  lemma LinesTwo(a: string, b: string)
    requires OneLine(a) && OneLine(b)
    ensures Lines(a + "\n" + b) == [a, b]
  {
    var s := a + "\n" + b;
    assert s == a + ("\n" + b);
    IndexOfAbsent(a, '\n', "\n" + b);
    assert s[..|a|] == a && s[|a| + 1..] == b;
    LinesOne(b);
  }

  lemma FieldLine(b: Block, name: string, value: string)
    requires name == "event" || name == "data"
    ensures Line(b, (name + ": ") + value)
         == if name == "event" then b.(event := value) else b.(data := b.data + [value])
  {
    var line := (name + ": ") + value;
    assert line == name + (": " + value);
    IndexOfAbsent(name, ':', ": " + value);
    var tail := ": " + value;
    assert tail[1..] == " " + value && line[..|name|] == name && line[|name| + 1..] == tail[1..];
    assert DropSpace(" " + value) == value;
  }

  lemma FoldTwo(b: Block, x: string, y: string)
    ensures FoldLines(b, [x, y]) == Line(Line(b, x), y)
  {
    assert [x, y][1..] == [y];
    FoldCons(Line(b, x), y, []);
  }

  lemma EmitItem(i: Item)
    requires Sendable(i)
    ensures Emit(BlockOf(i)) == FramesOf([i])
  {
    assert [i][1..] == [];
    match i {
      case Sent(e, d) =>
        var x, y := "event: " + e, "data: " + d;
        LinesTwo(x, y);
        FoldTwo(Block("message", []), x, y);
        assert "event" + ": " == "event: " && "data" + ": " == "data: ";
        FieldLine(Block("message", []), "event", e);
        FieldLine(Block(e, []), "data", d);
        assert [] + [d] == [d] && JoinLines([d]) == d;
      case Comment(t) =>
        LinesOne(": " + t);
        FoldCons(Block("message", []), ": " + t, []);
    }
  }

  // ---- blocks ----------------------------------------------------------------

  lemma ItemIsBlock(i: Item)
    requires Sendable(i)
    ensures var b := BlockOf(i); b != "" && b[|b| - 1] != '\n' && forall k :: !BlankLineAt(b, k)
    ensures NoCr(BlockOf(i))
  {
    var b := BlockOf(i);
    if i.Sent? {
      var x, y := "event: " + i.event, "data: " + i.data;
      assert forall k :: 0 <= k < |b| && k != |x| ==> b[k] != '\n';
    }
  }

  lemma {:induction false} WireIsLf(items: seq<Item>)
    requires forall i :: i in items ==> Sendable(i)
    ensures NoCr(WireText(items))
  {
    if items != [] {
      ItemIsBlock(items[0]);
      WireIsLf(items[1..]);
    }
  }

  lemma {:induction false} WireReadsBack(items: seq<Item>)
    requires forall i :: i in items ==> Sendable(i)
    ensures Batch(WireText(items)) == FramesOf(items)
  {
    if items == [] {
      LinesOne("");
      assert [""][1..] == [];
    } else {
      BatchOfItem(items[0], WireText(items[1..]));
      WireReadsBack(items[1..]);
      assert [items[0]][1..] == [];
      assert FramesOf([items[0]]) + FramesOf(items[1..]) == FramesOf(items);
    }
  }

  lemma BatchOfItem(i: Item, rest: string)
    requires Sendable(i)
    ensures Batch(BlockOf(i) + "\n\n" + rest) == FramesOf([i]) + Batch(rest)
  {
    var b := BlockOf(i);
    ItemIsBlock(i);
    SseCuts.BatchOf(b, rest);
    EmitItem(i);
  }

  /**
   * However the network cuts it, what the server wrote arrives: every event, in order, with
   * comments dropped.
   */
  lemma ServerFramesArrive(items: seq<Item>, chunks: seq<string>)
    requires forall i :: i in items ==> Sendable(i)
    requires Concat(chunks) == WireText(items)
    ensures Incremental(chunks) == FramesOf(items)
  {
    WireIsLf(items);
    LfBodyHasNoCuts(chunks);
    ChunkingIsInvisible(chunks);
    WireReadsBack(items);
  }

  // ---- JSON fits on one line ------------------------------------------------------

  predicate Printable(s: string) {
    forall i :: 0 <= i < |s| ==> s[i] >= ' '
  }

  lemma {:induction false} EscapePrintable(s: string)
    ensures Printable(Escape(s))
  {
    if s != [] { EscapePrintable(s[1..]); }
  }

  lemma {:induction false} PrintPrintable(j: Json, st: Style)
    requires Printable(st.itemGap) && Printable(st.keyGap)
    ensures Printable(Print(j, st))
    decreases j, 1
  {
    match j {
      case Str(s) => EscapePrintable(s);
      case Arr(xs) => ArrayPrintable(xs, st);
      case Obj(ms) => ObjectPrintable(ms, st);
      case _ =>
    }
  }

  lemma {:induction false} ArrayPrintable(xs: seq<Json>, st: Style)
    requires Printable(st.itemGap) && Printable(st.keyGap)
    ensures Printable(Print(Arr(xs), st))
    decreases xs, 1
  {
    if xs != [] {
      PrintPrintable(xs[0], st);
      ItemsPrintable(xs[1..], st);
    }
  }

  lemma {:induction false} ObjectPrintable(ms: seq<Member>, st: Style)
    requires Printable(st.itemGap) && Printable(st.keyGap)
    ensures Printable(Print(Obj(ms), st))
    decreases ms, 1
  {
    if ms != [] {
      MemberPrintable(ms[0], st);
      MembersPrintable(ms[1..], st);
    }
  }

  lemma {:induction false} ItemsPrintable(xs: seq<Json>, st: Style)
    requires Printable(st.itemGap) && Printable(st.keyGap)
    ensures Printable(PrintItems(xs, st))
    decreases xs, 0
  {
    if xs != [] {
      PrintPrintable(xs[0], st);
      ItemsPrintable(xs[1..], st);
    }
  }

  lemma {:induction false} MemberPrintable(m: Member, st: Style)
    requires Printable(st.itemGap) && Printable(st.keyGap)
    ensures Printable(PrintMember(m, st))
    decreases m, 0
  {
    EscapePrintable(m.key);
    PrintPrintable(m.value, st);
  }

  lemma {:induction false} MembersPrintable(ms: seq<Member>, st: Style)
    requires Printable(st.itemGap) && Printable(st.keyGap)
    ensures Printable(PrintMembers(ms, st))
    decreases ms, 0
  {
    if ms != [] {
      MemberPrintable(ms[0], st);
      MembersPrintable(ms[1..], st);
    }
  }

  /** A payload printed by json.dumps is one line, whatever strings it holds, so it can be sent. */
  lemma JsonPayloadSendable(event: string, j: Json, st: Style)
    requires OneLine(event) && Printable(st.itemGap) && Printable(st.keyGap)
    ensures Sendable(Sent(event, Print(j, st)))
  {
    PrintPrintable(j, st);
  }

  // ---- a cut CR LF pair is seen ---------------------------------------------------

  /** Two data lines of one frame, sent with CR LF line ends and cut inside the first of them. */
  function CutChunks(x: string, y: string): seq<string> {
    ["data: " + x + "\r", "\n" + ("data: " + y) + "\r\n\r\n"]
  }

  lemma NormaliseCrLf(a: string, rest: string)
    requires NoCr(a)
    ensures Normalise(a + ("\r\n" + rest)) == a + ("\n" + Normalise(rest))
  {
    NormaliseAfterLf(a, "\r\n" + rest);
    var t := "\r\n" + rest;
    assert t[2..] == rest;
  }

  lemma NormaliseEnd(a: string)
    requires NoCr(a)
    ensures Normalise(a + "\r\n\r\n") == a + "\n\n"
  {
    NormaliseCrLf("", "");
    assert "" + ("\r\n" + "") == "\r\n" && Normalise("") == "" && "" + ("\n" + "") == "\n";
    NormaliseCrLf(a, "\r\n");
    assert a + ("\r\n" + "\r\n") == a + "\r\n\r\n" && a + ("\n" + "\n") == a + "\n\n";
  }

  lemma CutSeen(x: string, y: string)
    requires OneLine(x) && OneLine(y)
    ensures SeenText(CutChunks(x, y)) == "data: " + x + "\n\n" + ("data: " + y + "\n\n" + "")
  {
    var a, b := "data: " + x, "data: " + y;
    var c := CutChunks(x, y);
    assert c[1..] == [c[1]] && [c[1]][1..] == [];
    NormaliseAfterLf(a, "\r");
    assert "\r"[1..] == "" && Normalise("") == "" && Normalise("\r") == "\n" + "";
    NormaliseEnd("\n" + b);
    assert SeenText([c[1]]) == Normalise(c[1]) + "";
    assert (a + "\n") + (("\n" + b + "\n\n") + "") == a + "\n\n" + (b + "\n\n" + "");
  }

  lemma CutBody(x: string, y: string)
    requires OneLine(x) && OneLine(y)
    ensures Normalise(Concat(CutChunks(x, y))) == ("data: " + x) + "\n" + ("data: " + y) + "\n\n" + ""
  {
    var a, b := "data: " + x, "data: " + y;
    var c := CutChunks(x, y);
    assert c[1..] == [c[1]] && [c[1]][1..] == [];
    assert Concat([c[1]]) == c[1] + "";
    assert Concat(c) == c[0] + c[1] == a + ("\r\n" + (b + "\r\n\r\n"));
    NormaliseCrLf(a, b + "\r\n\r\n");
    NormaliseEnd(b);
    assert a + ("\n" + (b + "\n\n")) == a + "\n" + b + "\n\n" + "";
  }

  lemma BatchOfOne(block: string)
    requires forall i :: !BlankLineAt(block, i)
    requires block != "" && block[|block| - 1] != '\n'
    ensures Batch(block + "\n\n" + "") == Emit(block)
  {
    SseCuts.BatchOf(block, "");
    LinesOne("");
    FoldCons(Block("message", []), "", []);
    assert Batch("") == [];
    assert Emit(block) + [] == Emit(block);
  }

  lemma DataLine(x: string)
    requires OneLine(x)
    ensures Emit("data: " + x) == [Frame("message", x)]
    ensures forall i :: !BlankLineAt("data: " + x, i)
    ensures var b := "data: " + x; b[|b| - 1] != '\n'
  {
    var b := Block("message", []);
    LinesOne("data: " + x);
    FoldCons(b, "data: " + x, []);
    assert "data" + ": " == "data: ";
    FieldLine(b, "data", x);
    assert [] + [x] == [x];
  }

  lemma TwoDataLines(x: string, y: string)
    requires OneLine(x) && OneLine(y)
    ensures Emit("data: " + x + "\n" + ("data: " + y)) == [Frame("message", x + "\n" + y)]
  {
    var b := Block("message", []);
    LinesTwo("data: " + x, "data: " + y);
    FoldTwo(b, "data: " + x, "data: " + y);
    assert "data" + ": " == "data: ";
    FieldLine(b, "data", x);
    FieldLine(Block("message", [x]), "data", y);
    assert [] + [x] == [x] && [x] + [y] == [x, y] && [x, y][1..] == [y];
    assert JoinLines([y]) == y && JoinLines([x, y]) == x + "\n" + y;
  }

  lemma CutFrames(x: string, y: string)
    requires OneLine(x) && OneLine(y)
    ensures Incremental(CutChunks(x, y)) == [Frame("message", x), Frame("message", y)]
  {
    IncrementalIsBatchOfSeen(CutChunks(x, y));
    CutSeen(x, y);
    DataLine(x);
    DataLine(y);
    BatchOfOne("data: " + y);
    SseCuts.BatchOf("data: " + x, "data: " + y + "\n\n" + "");
  }

  lemma BodyFrames(x: string, y: string)
    requires OneLine(x) && OneLine(y)
    ensures Batch(Normalise(Concat(CutChunks(x, y)))) == [Frame("message", x + "\n" + y)]
  {
    var a := "data: " + x;
    var both := a + "\n" + ("data: " + y);
    CutBody(x, y);
    assert forall i :: 0 <= i < |both| && i != |a| ==> both[i] != '\n';
    TwoDataLines(x, y);
    BatchOfOne(both);
  }

  /**
   * For every two lines of data: one frame of both becomes two frames when the CR LF between them
   * is cut by a chunk edge.
   */
  lemma CutPairSplitsFrame(x: string, y: string)
    requires OneLine(x) && OneLine(y)
    ensures Incremental(CutChunks(x, y)) != Batch(Normalise(Concat(CutChunks(x, y))))
    ensures |Incremental(CutChunks(x, y))| == 2 && |Batch(Normalise(Concat(CutChunks(x, y))))| == 1
  {
    CutFrames(x, y);
    BodyFrames(x, y);
  }

  lemma OnePairCut(c: string, d: string)
    requires CutsPair(c, d)
    ensures CutPairs([c, d]) == 1
  {
    assert [c, d][1..] == [d] && [d][1..] == [];
    assert Concat([]) == "" && Concat([d]) == d + "" && d + "" == d;
    assert !CutsPair(d, "") && CutPairs([]) == 0 && CutPairs([d]) == 0;
  }

  /** A cut pair need not show: for every line, the pair of the blank line after it may be cut. */
  lemma HarmlessCut(line: string)
    requires OneLine(line)
    ensures CutPairs([line + "\r\n\r", "\n"]) == 1
    ensures Incremental([line + "\r\n\r", "\n"]) == Incremental([line + "\r\n\r\n"])
  {
    var c, d, a := line + "\r\n\r", "\n", line + "\n";
    OnePairCut(c, d);
    assert c[..|c| - 1] == line + "\r\n" && c + d == line + "\r\n\r\n";
    NormaliseAfterLf(line, "\r\n");
    SseCuts.NormaliseCr("");
    assert "\r\n" + "" == "\r\n" && "\n" + Normalise("") == "\n";
    forall i ensures !BlankLineAt(a, i) {
    }
    SseCuts.NoBoundary(a);
    assert [] + [c, d] + [] == [c, d] && [] + [c + d] + [] == [c + d];
    assert SeenText([]) == "" && "" + a == a;
    SseCuts.CutPairShowsIff([], c, d, []);
  }
}
