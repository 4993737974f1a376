/**
 * Reading a Server-Sent Events body that arrives in arbitrary chunks (sections 9.2.5 and 9.2.6 of
 * the WHATWG HTML Living Standard), against parsing the whole body at once.
 */
module SseParser {
  import opened Wrappers

  datatype Frame = Frame(event: string, data: string)

  // ---- text ----------------------------------------------------------------

  /** buffer.replace(/\r\n?/g, '\n') */
  function Normalise(s: string): string {
    if s == [] then ""
    else if s[0] == '\r' then "\n" + Normalise(if |s| > 1 && s[1] == '\n' then s[2..] else s[1..])
    else [s[0]] + Normalise(s[1..])
  }

  function IndexOf(s: string, c: char): (k: nat)
    ensures k <= |s|
    ensures forall i :: 0 <= i < k ==> s[i] != c
    ensures k < |s| ==> s[k] == c
  {
    if s == [] || s[0] == c then 0 else 1 + IndexOf(s[1..], c)
  }

  /** s.split('\n') */
  function Lines(s: string): seq<string> {
    var k := IndexOf(s, '\n');
    if k == |s| then [s] else [s[..k]] + Lines(s[k + 1..])
  }

  predicate BlankLineAt(s: string, i: int) {
    0 <= i < |s| - 1 && s[i] == '\n' && s[i + 1] == '\n'
  }

  /** s.indexOf('\n\n') */
  function Boundary(s: string): (r: Option<nat>)
    ensures r.Some? ==> BlankLineAt(s, r.value) && forall i :: 0 <= i < r.value ==> !BlankLineAt(s, i)
    ensures r.None? ==> forall i :: !BlankLineAt(s, i)
  {
    if |s| < 2 then None
    else if BlankLineAt(s, 0) then Some(0)
    else
      assert forall i :: 1 <= i ==> (BlankLineAt(s, i) <==> BlankLineAt(s[1..], i - 1));
      match Boundary(s[1..])
      case None => None
      case Some(k) => Some(k + 1)
  }

  // ---- one block -------------------------------------------------------------

  /** value.replace(/^ /, '') */
  function DropSpace(s: string): string {
    if s != [] && s[0] == ' ' then s[1..] else s
  }

  datatype Block = Block(event: string, data: seq<string>)

  function Line(b: Block, line: string): Block {
    if line == "" || line[0] == ':' then b
    else
      var k := IndexOf(line, ':');
      var value := if k == |line| then "" else DropSpace(line[k + 1..]);
      if line[..k] == "event" then b.(event := value)
      else if line[..k] == "data" then b.(data := b.data + [value])
      else b
  }

  function FoldLines(b: Block, lines: seq<string>): Block
    decreases |lines|
  {
    if lines == [] then b else FoldLines(Line(b, lines[0]), lines[1..])
  }

  function JoinLines(lines: seq<string>): string {
    if lines == [] then "" else if |lines| == 1 then lines[0] else lines[0] + "\n" + JoinLines(lines[1..])
  }

  /** The frame of a block, none if it holds no data line: a comment is a keepalive, not a frame. */
  function Emit(block: string): seq<Frame> {
    var b := FoldLines(Block("message", []), Lines(block));
    if b.data == [] then [] else [Frame(b.event, JoinLines(b.data))]
  }

  function EmitAll(blocks: seq<string>): seq<Frame> {
    if blocks == [] then [] else Emit(blocks[0]) + EmitAll(blocks[1..])
  }

  /** The blocks ended by a blank line, and the unfinished rest. */
  function Blocks(s: string): (seq<string>, string)
    decreases |s|
  {
    match Boundary(s)
    case None => ([], s)
    case Some(k) => var (more, rest) := Blocks(s[k + 2..]); ([s[..k]] + more, rest)
  }

  // ---- the whole body at once ---------------------------------------------------

  /** A stream that ends without the closing blank line still delivered a frame. */
  function Batch(text: string): seq<Frame> {
    var (blocks, rest) := Blocks(text);
    EmitAll(blocks) + Emit(rest)
  }

  // ---- chunk by chunk --------------------------------------------------------------

  predicate IsJsSpace(c: char) {
    c as int in {0x09, 0x0a, 0x0b, 0x0c, 0x0d, 0x20, 0xa0, 0x1680, 0x2028, 0x2029, 0x202f, 0x205f, 0x3000, 0xfeff}
    || 0x2000 <= c as int <= 0x200a
  }

  predicate Blank(s: string) {
    forall i :: 0 <= i < |s| ==> IsJsSpace(s[i])
  }

  datatype Reading = Reading(buffer: string, frames: seq<Frame>)

  function Chunk(r: Reading, text: string): Reading {
    var (blocks, rest) := Blocks(Normalise(r.buffer + text));
    Reading(rest, r.frames + EmitAll(blocks))
  }

  function Finish(r: Reading): seq<Frame> {
    var last := Chunk(r, "");
    last.frames + if Blank(last.buffer) then [] else Emit(last.buffer)
  }

  function Chunks(chunks: seq<string>): Reading {
    if chunks == [] then Reading("", []) else Chunk(Chunks(chunks[..|chunks| - 1]), chunks[|chunks| - 1])
  }

  function Incremental(chunks: seq<string>): seq<Frame> {
    Finish(Chunks(chunks))
  }

  lemma TakeBlock(emitted: seq<string>, s: string)
    requires Boundary(s).Some?
    ensures var k := Boundary(s).value;
            && emitted + Blocks(s).0 == (emitted + [s[..k]]) + Blocks(s[k + 2..]).0
            && Blocks(s).1 == Blocks(s[k + 2..]).1
  {
    var k := Boundary(s).value;
    var more := Blocks(s[k + 2..]).0;
    assert Blocks(s).0 == [s[..k]] + more;
    assert emitted + ([s[..k]] + more) == (emitted + [s[..k]]) + more;
  }

  lemma {:induction false} EmitAllSnoc(blocks: seq<string>, block: string)
    ensures EmitAll(blocks + [block]) == EmitAll(blocks) + Emit(block)
  {
    if blocks == [] {
      assert blocks + [block] == [block] && [block][1..] == [];
      assert Emit(block) + [] == [] + Emit(block);
    } else {
      assert (blocks + [block])[1..] == blocks[1..] + [block];
      EmitAllSnoc(blocks[1..], block);
    }
  }

  class SseReader {
    var buffer: string
    var frames: seq<Frame>

    ghost function View(): Reading
      reads this
    {
      Reading(buffer, frames)
    }

    constructor ()
      ensures View() == Reading("", [])
    {
      buffer, frames := "", [];
    }

    method EmitBlock(block: string)
      modifies this`frames
      ensures frames == old(frames) + Emit(block)
    {
      var event, data := "message", [];
      var lines := Lines(block);
      var i := 0;
      while i < |lines|
        invariant i <= |lines|
        invariant FoldLines(Block(event, data), lines[i..]) == FoldLines(Block("message", []), lines)
      {
        var line := lines[i];
        assert lines[i..][1..] == lines[i + 1..];
        i := i + 1;
        if line == "" || line[0] == ':' {
          continue;
        }
        var separator := IndexOf(line, ':');
        var field := line[..separator];
        var value := if separator == |line| then "" else DropSpace(line[separator + 1..]);
        if field == "event" {
          event := value;
        } else if field == "data" {
          data := data + [value];
        }
      }
      if data != [] {
        frames := frames + [Frame(event, JoinLines(data))];
      }
    }

    method DrainBlocks()
      modifies this
      ensures buffer == Blocks(old(buffer)).1
      ensures frames == old(frames) + EmitAll(Blocks(old(buffer)).0)
    {
      var boundary := Boundary(buffer);
      ghost var emitted: seq<string> := [];
      assert emitted + Blocks(buffer).0 == Blocks(buffer).0;
      while boundary.Some?
        invariant boundary == Boundary(buffer)
        invariant Blocks(old(buffer)) == (emitted + Blocks(buffer).0, Blocks(buffer).1)
        invariant frames == old(frames) + EmitAll(emitted)
        decreases |buffer|
      {
        var block := buffer[..boundary.value];
        EmitBlock(block);
        TakeBlock(emitted, buffer);
        EmitAllSnoc(emitted, block);
        emitted := emitted + [block];
        buffer := buffer[boundary.value + 2..];
        boundary := Boundary(buffer);
      }
      assert emitted + [] == emitted;
    }

    method Drain(final: bool)
      modifies this
      ensures !final ==> View() == Chunk(old(View()), "")
      ensures final ==> frames == Finish(old(View()))
    {
      assert buffer + "" == buffer;
      buffer := Normalise(buffer);
      DrainBlocks();
      assert View() == Chunk(old(View()), "");
      if final && exists i :: 0 <= i < |buffer| && !IsJsSpace(buffer[i]) {
        EmitBlock(buffer);
      }
    }

    method Receive(text: string)
      modifies this
      ensures View() == Chunk(old(View()), text)
    {
      buffer := buffer + text;
      ghost var mid := View();
      assert mid.buffer + "" == old(buffer) + text;
      Drain(false);
    }
  }

  /** The read loop: every chunk as it comes, then the end of the stream. */
  method ReadSseStream(chunks: seq<string>) returns (frames: seq<Frame>)
    ensures frames == Incremental(chunks)
  {
    var reader := new SseReader();
    for i := 0 to |chunks|
      invariant reader.View() == Chunks(chunks[..i])
    {
      assert chunks[..i + 1][..i] == chunks[..i];
      reader.Receive(chunks[i]);
    }
    assert chunks[..|chunks|] == chunks;
    reader.Drain(true);
    frames := reader.frames;
  }

  // ---- the framer sees the chunks normalised one by one ------------------------------

  function Concat(chunks: seq<string>): string {
    if chunks == [] then "" else chunks[0] + Concat(chunks[1..])
  }

  function SeenText(chunks: seq<string>): string {
    if chunks == [] then "" else Normalise(chunks[0]) + SeenText(chunks[1..])
  }

  predicate NoCr(s: string) {
    forall i :: 0 <= i < |s| ==> s[i] != '\r'
  }

  lemma {:induction false} NormaliseIsLf(s: string)
    ensures NoCr(Normalise(s))
    decreases |s|
  {
    if s != [] {
      NormaliseIsLf(if s[0] == '\r' && |s| > 1 && s[1] == '\n' then s[2..] else s[1..]);
    }
  }

  lemma {:induction false} NormaliseAfterLf(s: string, t: string)
    requires NoCr(s)
    ensures Normalise(s + t) == s + Normalise(t)
  {
    if s == [] {
      assert s + t == t && s + Normalise(t) == Normalise(t);
    } else {
      assert (s + t)[1..] == s[1..] + t;
      NormaliseAfterLf(s[1..], t);
      assert [s[0]] + (s[1..] + Normalise(t)) == s + Normalise(t);
    }
  }

  lemma BoundaryInPrefix(x: string, y: string)
    requires Boundary(x).Some?
    ensures Boundary(x + y) == Boundary(x)
  {
    var k := Boundary(x).value;
    assert BlankLineAt(x + y, k);
    forall i | 0 <= i < k ensures !BlankLineAt(x + y, i) {
      assert !BlankLineAt(x, i);
    }
  }

  /** Draining early and going on with the rest finds the blocks of the whole. */
  lemma {:induction false} BlocksAppend(x: string, y: string)
    ensures var (first, rest) := Blocks(x);
            var (more, last) := Blocks(rest + y);
            Blocks(x + y) == (first + more, last)
    decreases |x|
  {
    match Boundary(x) {
      case None =>
        assert [] + Blocks(x + y).0 == Blocks(x + y).0;
      case Some(k) =>
        BoundaryInPrefix(x, y);
        BlocksAppend(x[k + 2..], y);
        assert (x + y)[..k] == x[..k] && (x + y)[k + 2..] == x[k + 2..] + y;
        var (first, rest) := Blocks(x[k + 2..]);
        var (more, last) := Blocks(rest + y);
        assert [x[..k]] + (first + more) == ([x[..k]] + first) + more;
    }
  }

  lemma {:induction false} BlocksLf(s: string)
    requires NoCr(s)
    ensures NoCr(Blocks(s).1)
    decreases |s|
  {
    match Boundary(s) {
      case None =>
      case Some(k) => BlocksLf(s[k + 2..]);
    }
  }

  lemma {:induction false} EmitAllConcat(a: seq<string>, b: seq<string>)
    ensures EmitAll(a + b) == EmitAll(a) + EmitAll(b)
  {
    if a == [] {
      assert a + b == b;
    } else {
      assert (a + b)[1..] == a[1..] + b;
      EmitAllConcat(a[1..], b);
    }
  }

  lemma {:induction false} SeenTextSnoc(chunks: seq<string>, c: string)
    ensures SeenText(chunks + [c]) == SeenText(chunks) + Normalise(c)
  {
    if chunks == [] {
      assert chunks + [c] == [c] && [c][1..] == [];
    } else {
      assert (chunks + [c])[1..] == chunks[1..] + [c];
      SeenTextSnoc(chunks[1..], c);
    }
  }

  /** The state of a reader that has drained a text. */
  function Drained(seen: string): Reading {
    Reading(Blocks(seen).1, EmitAll(Blocks(seen).0))
  }

  lemma ChunkStep(seen: string, c: string)
    requires NoCr(Drained(seen).buffer)
    ensures Chunk(Drained(seen), c) == Drained(seen + Normalise(c))
    ensures NoCr(Drained(seen + Normalise(c)).buffer)
  {
    var (blocks, rest) := Blocks(seen);
    var more := rest + Normalise(c);
    NormaliseAfterLf(rest, c);
    NormaliseIsLf(c);
    assert NoCr(more);
    BlocksLf(more);
    BlocksAppend(seen, Normalise(c));
    EmitAllConcat(blocks, Blocks(more).0);
  }

  lemma DrainedEmpty()
    ensures Drained("") == Reading("", []) && NoCr("")
  {
  }

  /** After any chunks: the frames and the buffer of the text seen so far. */
  lemma {:induction false} ChunksAreBlocks(chunks: seq<string>)
    ensures Chunks(chunks) == Drained(SeenText(chunks)) && NoCr(Drained(SeenText(chunks)).buffer)
  {
    if chunks == [] {
      DrainedEmpty();
    } else {
      var before, c := chunks[..|chunks| - 1], chunks[|chunks| - 1];
      ChunksAreBlocks(before);
      ChunksSnoc(before, c);
      assert before + [c] == chunks;
    }
  }

  lemma ChunksSnoc(before: seq<string>, c: string)
    requires Chunks(before) == Drained(SeenText(before)) && NoCr(Drained(SeenText(before)).buffer)
    ensures Chunks(before + [c]) == Drained(SeenText(before + [c]))
    ensures NoCr(Drained(SeenText(before + [c])).buffer)
  {
    assert (before + [c])[..|before|] == before;
    ChunkStep(SeenText(before), c);
    SeenTextSnoc(before, c);
  }

  // ---- a blank remainder holds no frame ------------------------------------------------

  lemma {:induction false} BlankLines(b: Block, s: string)
    requires Blank(s)
    ensures FoldLines(b, Lines(s)) == b
    decreases |s|
  {
    var k := IndexOf(s, '\n');
    BlankLine(b, s[..k]);
    if k == |s| {
      assert s[..k] == s;
      FoldCons(b, s, []);
    } else {
      BlankLines(b, s[k + 1..]);
      FoldCons(b, s[..k], Lines(s[k + 1..]));
    }
  }

  lemma FoldCons(b: Block, line: string, rest: seq<string>)
    ensures FoldLines(b, [line] + rest) == FoldLines(Line(b, line), rest)
    ensures FoldLines(b, [line]) == Line(b, line)
  {
    assert ([line] + rest)[1..] == rest;
    assert [line][1..] == [];
  }

  lemma BlankLine(b: Block, line: string)
    requires Blank(line)
    ensures Line(b, line) == b
  {
    if line != "" && line[0] != ':' {
      var field := line[..IndexOf(line, ':')];
      assert field != "" ==> IsJsSpace(field[0]);
      assert !IsJsSpace("event"[0]) && !IsJsSpace("data"[0]);
    }
  }

  /**
   * Whatever the chunks, reading them one by one emits the frames of a single parse of the text
   * the framer saw: the chunks, each with its line ends normalised on its own.
   */
  lemma IncrementalIsBatchOfSeen(chunks: seq<string>)
    ensures Incremental(chunks) == Batch(SeenText(chunks))
  {
    ChunksAreBlocks(chunks);
    var (blocks, rest) := Blocks(SeenText(chunks));
    NormaliseAfterLf(rest, "");
    assert rest + "" == rest && rest + Normalise("") == rest;
    BlocksAppend(SeenText(chunks), "");
    assert SeenText(chunks) + "" == SeenText(chunks);
    RestIsUnfinished(SeenText(chunks));
    assert EmitAll(blocks) + [] == EmitAll(blocks);
    if Blank(rest) {
      BlankLines(Block("message", []), rest);
    }
  }

  lemma {:induction false} RestIsUnfinished(s: string)
    ensures Blocks(Blocks(s).1) == ([], Blocks(s).1)
    decreases |s|
  {
    match Boundary(s) {
      case None =>
      case Some(k) => RestIsUnfinished(s[k + 2..]);
    }
  }

  // ---- when the chunking does not matter --------------------------------------------------

  /** How often a CR LF pair is cut in two by a chunk edge. */
  function CutPairs(chunks: seq<string>): nat {
    if chunks == [] then 0
    else
      (if CutsPair(chunks[0], Concat(chunks[1..])) then 1 else 0) + CutPairs(chunks[1..])
  }

  predicate CutsPair(left: string, right: string) {
    left != "" && left[|left| - 1] == '\r' && right != "" && right[0] == '\n'
  }

  lemma {:induction false} NormaliseConcat(a: string, b: string)
    ensures CutsPair(a, b) ==> |Normalise(a) + Normalise(b)| == |Normalise(a + b)| + 1
    ensures !CutsPair(a, b) ==> Normalise(a) + Normalise(b) == Normalise(a + b)
    decreases |a|
  {
    if a == [] {
      assert a + b == b && Normalise(a) + Normalise(b) == Normalise(b);
    } else if a == "\r" {
      assert (a + b)[1..] == b && Normalise(a) == "\n" + Normalise("");
      if b != "" && b[0] == '\n' {
        assert (a + b)[2..] == b[1..];
      }
    } else {
      var skip := if a[0] == '\r' && a[1] == '\n' then 2 else 1;
      assert (a + b)[skip..] == a[skip..] + b;
      NormaliseConcat(a[skip..], b);
      var head := if a[0] == '\r' then "\n" else [a[0]];
      assert Normalise(a) == head + Normalise(a[skip..]);
      assert Normalise(a + b) == head + Normalise(a[skip..] + b);
      Regroup(head, Normalise(a[skip..]), Normalise(b));
      if skip == 2 && a[2..] == "" {
        assert a[|a| - 1] == '\n';
      }
    }
  }

  /** Every cut pair costs exactly one extra line end. */
  lemma {:induction false} SeenTextLength(chunks: seq<string>)
    ensures |SeenText(chunks)| == |Normalise(Concat(chunks))| + CutPairs(chunks)
    ensures CutPairs(chunks) == 0 ==> SeenText(chunks) == Normalise(Concat(chunks))
  {
    if chunks != [] {
      SeenTextLength(chunks[1..]);
      NormaliseConcat(chunks[0], Concat(chunks[1..]));
    }
  }

  /** The framer sees the body itself, line ends normalised, exactly when no CR LF pair is cut. */
  lemma SeenTextIsBodyIff(chunks: seq<string>)
    ensures SeenText(chunks) == Normalise(Concat(chunks)) <==> CutPairs(chunks) == 0
  {
    SeenTextLength(chunks);
  }

  /** If none is cut, any two ways of cutting a body give the frames of the whole body. */
  lemma ChunkingIsInvisible(chunks: seq<string>)
    requires CutPairs(chunks) == 0
    ensures Incremental(chunks) == Batch(Normalise(Concat(chunks)))
  {
    IncrementalIsBatchOfSeen(chunks);
    SeenTextLength(chunks);
  }

  /** A body without CR can be cut anywhere. */
  lemma {:induction false} LfBodyHasNoCuts(chunks: seq<string>)
    requires NoCr(Concat(chunks))
    ensures CutPairs(chunks) == 0 && Normalise(Concat(chunks)) == Concat(chunks)
  {
    var body := Concat(chunks);
    assert body + "" == body;
    NormaliseAfterLf(body, "");
    if chunks != [] {
      assert forall i :: 0 <= i < |chunks[0]| ==> body[i] == chunks[0][i];
      assert body[|chunks[0]|..] == Concat(chunks[1..]);
      LfBodyHasNoCuts(chunks[1..]);
    }
  }
}
