/**
 * Where a chunk edge shows. An edge that does not cut a CR LF pair never does; one that does cut a
 * pair puts a blank line where there was a line end, and shows exactly if that splits a block
 * whose two halves do not emit, one after the other, what they emit together.
 */
module SseCuts {
  import opened SseParser
  import opened Wrappers

  // ---- one block at a time ----------------------------------------------------------

  ghost predicate NoBlankLine(s: string) {
    forall i :: !BlankLineAt(s, i)
  }

  lemma NoBoundary(s: string)
    requires NoBlankLine(s)
    ensures Boundary(s) == None
  {
  }

  ghost predicate NoneBefore(s: string, k: nat) {
    forall i :: 0 <= i < k ==> !BlankLineAt(s, i)
  }

  lemma BoundaryIs(s: string, k: nat)
    requires BlankLineAt(s, k) && NoneBefore(s, k)
    ensures Boundary(s) == Some(k)
  {
    if Boundary(s).Some? {
      assert BlankLineAt(s, Boundary(s).value);
    }
  }

  lemma BatchAt(s: string, k: nat)
    requires Boundary(s) == Some(k)
    ensures Batch(s) == Emit(s[..k]) + Batch(s[k + 2..])
  {
    var (more, rest) := Blocks(s[k + 2..]);
    assert ([s[..k]] + more)[1..] == more;
    Regroup(Emit(s[..k]), EmitAll(more), Emit(rest));
  }

  /** A block that holds no blank line, then the blank line that ends it. */
  lemma BatchOf(block: string, rest: string)
    requires NoBlankLine(block) && (block == "" || block[|block| - 1] != '\n')
    ensures Batch(block + "\n\n" + rest) == Emit(block) + Batch(rest)
  {
    var s := block + "\n\n" + rest;
    assert BlankLineAt(s, |block|);
    forall i | 0 <= i < |block| ensures !BlankLineAt(s, i) {
      assert !BlankLineAt(block, i);
    }
    BoundaryIs(s, |block|);
    BatchAt(s, |block|);
    assert s[..|block|] == block && s[|block| + 2..] == rest;
  }

  lemma BatchOfUnfinished(s: string)
    requires Boundary(s) == None
    ensures Batch(s) == Emit(s)
  {
    assert [] + Emit(s) == Emit(s);
  }

  /** What has been drained stays drained. */
  lemma BatchDrained(done: string, more: string)
    ensures Batch(done + more) == EmitAll(Blocks(done).0) + Batch(Blocks(done).1 + more)
  {
    var (first, rest) := Blocks(done);
    var (next, last) := Blocks(rest + more);
    BlocksAppend(done, more);
    EmitAllConcat(first, next);
    Regroup(EmitAll(first), EmitAll(next), Emit(last));
  }

  lemma {:induction false} RestHasNoBlankLine(s: string)
    ensures NoBlankLine(Blocks(s).1)
    decreases |s|
  {
    match Boundary(s) {
      case None =>
      case Some(k) => RestHasNoBlankLine(s[k + 2..]);
    }
  }

  // ---- line ends around a block -------------------------------------------------------

  lemma LinesFirst(s: string, k: nat)
    requires k < |s| && s[k] == '\n' && forall i :: 0 <= i < k ==> s[i] != '\n'
    ensures Lines(s) == [s[..k]] + Lines(s[k + 1..])
  {
    assert IndexOf(s, '\n') == k;
  }

  lemma EmptyBlock()
    ensures Emit("") == [] && Lines("") == [""]
  {
    assert Lines("") == [""];
    FoldCons(Block("message", []), "", []);
  }

  lemma EmitLeading(s: string)
    ensures Emit("\n" + s) == Emit(s)
  {
    var t := "\n" + s;
    LinesFirst(t, 0);
    assert t[..0] == "" && t[1..] == s;
    FoldCons(Block("message", []), "", Lines(s));
  }

  /** A line end before a block changes nothing. */
  lemma {:induction false} BatchLeading(s: string)
    ensures Batch("\n" + s) == Batch(s)
    decreases |s|
  {
    var t := "\n" + s;
    EmptyBlock();
    if s != "" && s[0] == '\n' {
      assert t == "" + "\n\n" + s[1..] && s == "\n" + s[1..];
      BatchOf("", s[1..]);
      BatchLeading(s[1..]);
      assert [] + Batch(s[1..]) == Batch(s[1..]);
    } else {
      forall i ensures BlankLineAt(t, i) <==> BlankLineAt(s, i - 1) {
      }
      match Boundary(s) {
        case None =>
          NoBoundary(t);
          BatchOfUnfinished(s);
          BatchOfUnfinished(t);
          EmitLeading(s);
        case Some(k) =>
          BoundaryIs(t, k + 1);
          BatchAt(s, k);
          BatchAt(t, k + 1);
          assert t[..k + 1] == "\n" + s[..k] && t[k + 3..] == s[k + 2..];
          EmitLeading(s[..k]);
      }
    }
  }

  // ---- the condition -------------------------------------------------------------------

  function FirstBlock(s: string): string {
    match Boundary(s)
    case None => s
    case Some(k) => s[..k]
  }

  predicate AtLineStart(a: string) {
    a == "" || a[|a| - 1] == '\n'
  }

  predicate StartsWithLineEnd(b: string) {
    b != "" && b[0] == '\n'
  }

  /**
   * The pair cut between the unfinished text `a` and what follows it does not show: a blank line
   * begins or ends there anyway, or the two halves of the block emit alone what they emit joined.
   */
  predicate Harmless(a: string, b: string) {
    AtLineStart(a) || StartsWithLineEnd(b) || Emit(a + "\n" + FirstBlock(b)) == Emit(a) + Emit(FirstBlock(b))
  }

  lemma LineEndMoves(x: string, b: string)
    ensures (x + "\n") + "\n\n" + b == x + "\n\n" + ("\n" + b)
    ensures (x + "\n") + "\n" + b == x + "\n\n" + b
  {
  }

  lemma AfterNothing(b: string)
    ensures Batch("\n\n" + b) == Batch("\n" + b)
  {
    BatchOf("", b);
    assert "" + "\n\n" + b == "\n\n" + b;
    EmptyBlock();
    assert [] + Batch(b) == Batch(b);
    BatchLeading(b);
  }

  lemma AfterLineEnd(x: string, b: string)
    requires NoBlankLine(x + "\n")
    ensures Batch((x + "\n") + "\n\n" + b) == Batch((x + "\n") + "\n" + b)
  {
    var a := x + "\n";
    forall i ensures !BlankLineAt(x, i) {
      assert !BlankLineAt(a, i);
    }
    assert !BlankLineAt(a, |a| - 2);
    LineEndMoves(x, b);
    BatchOf(x, "\n" + b);
    BatchOf(x, b);
    BatchLeading(b);
  }

  lemma BeforeLineEnd(a: string, b: string)
    requires NoBlankLine(a) && (a == "" || a[|a| - 1] != '\n')
    ensures Batch(a + "\n\n" + ("\n" + b)) == Batch(a + "\n" + ("\n" + b))
  {
    assert a + "\n" + ("\n" + b) == a + "\n\n" + b;
    BatchOf(a, "\n" + b);
    BatchOf(a, b);
    BatchLeading(b);
  }

  lemma AtBlankLineAnyway(a: string, b: string)
    requires NoBlankLine(a)
    requires AtLineStart(a) || StartsWithLineEnd(b)
    ensures Batch(a + "\n\n" + b) == Batch(a + "\n" + b)
  {
    if a == "" {
      AfterNothing(b);
      assert a + "\n\n" == "\n\n" && a + "\n" == "\n";
    } else if AtLineStart(a) {
      assert a == a[..|a| - 1] + "\n";
      AfterLineEnd(a[..|a| - 1], b);
    } else {
      assert b == "\n" + b[1..];
      BeforeLineEnd(a, b[1..]);
    }
  }

  lemma JoinedBlankLine(a: string, b: string, i: int)
    requires NoBlankLine(a) && !AtLineStart(a) && !StartsWithLineEnd(b)
    ensures BlankLineAt(a + "\n" + b, i) <==> BlankLineAt(b, i - |a| - 1)
  {
    assert !BlankLineAt(a, i);
  }

  /** The text after the first block and its blank line, if it has one. */
  function Rest(s: string): Option<string> {
    match Boundary(s)
    case None => None
    case Some(k) => Some(s[k + 2..])
  }

  function FramesOfRest(rest: Option<string>): seq<Frame> {
    if rest == None then [] else Batch(rest.value)
  }

  lemma BatchFirst(s: string)
    ensures Batch(s) == Emit(FirstBlock(s)) + FramesOfRest(Rest(s))
  {
    match Boundary(s) {
      case None =>
        BatchOfUnfinished(s);
        assert Emit(s) + [] == Emit(s);
      case Some(k) => BatchAt(s, k);
    }
  }

  lemma JoinedUnfinished(a: string, b: string)
    requires NoBlankLine(a) && !AtLineStart(a) && !StartsWithLineEnd(b) && Boundary(b) == None
    ensures Boundary(a + "\n" + b) == None
  {
    forall i ensures !BlankLineAt(a + "\n" + b, i) {
      JoinedBlankLine(a, b, i);
      assert !BlankLineAt(b, i - |a| - 1);
    }
    NoBoundary(a + "\n" + b);
  }

  lemma JoinedBefore(a: string, b: string, k: nat)
    requires NoBlankLine(a) && !AtLineStart(a) && !StartsWithLineEnd(b) && NoneBefore(b, k)
    ensures NoneBefore(a + "\n" + b, |a| + 1 + k)
  {
    forall i | 0 <= i < |a| + 1 + k ensures !BlankLineAt(a + "\n" + b, i) {
      JoinedBlankLine(a, b, i);
      assert i - |a| - 1 >= 0 ==> !BlankLineAt(b, i - |a| - 1);
    }
  }

  lemma JoinedPlace(a: string, b: string, k: nat)
    requires NoBlankLine(a) && !AtLineStart(a) && !StartsWithLineEnd(b) && NoneBefore(b, k) && BlankLineAt(b, k)
    ensures NoneBefore(a + "\n" + b, |a| + 1 + k) && BlankLineAt(a + "\n" + b, |a| + 1 + k)
  {
    JoinedBefore(a, b, k);
    JoinedBlankLine(a, b, |a| + 1 + k);
  }

  lemma FirstBlockAt(s: string, k: nat)
    requires NoneBefore(s, k) && BlankLineAt(s, k)
    ensures FirstBlock(s) == s[..k]
  {
    BoundaryIs(s, k);
  }

  lemma RestAt(s: string, k: nat, rest: string)
    requires NoneBefore(s, k) && BlankLineAt(s, k) && s[k + 2..] == rest
    ensures Rest(s) == Some(rest)
  {
    BoundaryIs(s, k);
  }

  lemma BoundaryPlace(s: string)
    requires Boundary(s).Some?
    ensures NoneBefore(s, Boundary(s).value) && BlankLineAt(s, Boundary(s).value)
  {
  }

  lemma FirstOfJoined(a: string, b: string)
    requires NoBlankLine(a) && !AtLineStart(a) && !StartsWithLineEnd(b)
    ensures FirstBlock(a + "\n" + b) == a + "\n" + FirstBlock(b)
    ensures Rest(a + "\n" + b) == Rest(b)
  {
    if Boundary(b) == None {
      JoinedUnfinished(a, b);
    } else {
      var k := Boundary(b).value;
      BoundaryPlace(b);
      JoinedPlace(a, b, k);
      JoinedCut(a, b, k);
      FirstBlockAt(a + "\n" + b, |a| + 1 + k);
      FirstBlockAt(b, k);
      RestAt(a + "\n" + b, |a| + 1 + k, b[k + 2..]);
      RestAt(b, k, b[k + 2..]);
    }
  }

  lemma JoinedCut(a: string, b: string, k: nat)
    requires k + 2 <= |b|
    ensures (a + "\n" + b)[..|a| + 1 + k] == a + "\n" + b[..k]
    ensures (a + "\n" + b)[|a| + 1 + k + 2..] == b[k + 2..]
  {
  }

  /** Two halves of one block: emitted apart with the extra line end, together without it. */
  lemma HalvesOfBlock(a: string, b: string)
    requires NoBlankLine(a) && !AtLineStart(a) && !StartsWithLineEnd(b)
    ensures Batch(a + "\n\n" + b) == (Emit(a) + Emit(FirstBlock(b))) + FramesOfRest(Rest(b))
    ensures Batch(a + "\n" + b) == Emit(a + "\n" + FirstBlock(b)) + FramesOfRest(Rest(b))
  {
    BatchOf(a, b);
    BatchFirst(b);
    Regroup(Emit(a), Emit(FirstBlock(b)), FramesOfRest(Rest(b)));
    FirstOfJoined(a, b);
    BatchFirst(a + "\n" + b);
  }

  lemma DropTail(x: seq<Frame>, y: seq<Frame>, tail: seq<Frame>)
    ensures x + tail == y + tail <==> x == y
  {
    if x + tail == y + tail {
      assert |x| == |y|;
      assert x == (x + tail)[..|x|] == (y + tail)[..|y|] == y;
    }
  }

  lemma DropHead(x: seq<Frame>, y: seq<Frame>, head: seq<Frame>)
    ensures head + x == head + y <==> x == y
  {
    if head + x == head + y {
      assert x == (head + x)[|head|..] == (head + y)[|head|..] == y;
    }
  }

  lemma UnfinishedShowsIff(a: string, b: string)
    requires NoBlankLine(a)
    ensures Batch(a + "\n\n" + b) == Batch(a + "\n" + b) <==> Harmless(a, b)
  {
    if AtLineStart(a) || StartsWithLineEnd(b) {
      AtBlankLineAnyway(a, b);
    } else {
      HalvesOfBlock(a, b);
      DropTail(Emit(a) + Emit(FirstBlock(b)), Emit(a + "\n" + FirstBlock(b)), FramesOfRest(Rest(b)));
    }
  }

  lemma AfterDrained(before: string, end: string, after: string)
    ensures Batch(before + end + after) == EmitAll(Blocks(before).0) + Batch(Blocks(before).1 + end + after)
  {
    BatchDrained(before, end + after);
    Regroup(before, end, after);
    Regroup(Blocks(before).1, end, after);
  }

  /** One line end more, anywhere in a text, changes its frames exactly if it is not harmless there. */
  lemma ExtraLineEndShowsIff(before: string, after: string)
    ensures Batch(before + "\n\n" + after) == Batch(before + "\n" + after) <==> Harmless(Blocks(before).1, after)
  {
    var a := Blocks(before).1;
    RestHasNoBlankLine(before);
    AfterDrained(before, "\n\n", after);
    AfterDrained(before, "\n", after);
    DropHead(Batch(a + "\n\n" + after), Batch(a + "\n" + after), EmitAll(Blocks(before).0));
    UnfinishedShowsIff(a, after);
  }

  // ---- chunk edges -----------------------------------------------------------------------

  lemma {:induction false} SeenTextConcat(x: seq<string>, y: seq<string>)
    ensures SeenText(x + y) == SeenText(x) + SeenText(y)
  {
    if x == [] {
      assert x + y == y;
    } else {
      assert (x + y)[1..] == x[1..] + y;
      SeenTextConcat(x[1..], y);
      Regroup(Normalise(x[0]), SeenText(x[1..]), SeenText(y));
    }
  }

  lemma SeenAround(pre: seq<string>, mid: seq<string>, post: seq<string>)
    ensures SeenText(pre + mid + post) == SeenText(pre) + SeenText(mid) + SeenText(post)
  {
    SeenTextConcat(pre + mid, post);
    SeenTextConcat(pre, mid);
  }

  lemma SeenOne(c: string)
    ensures SeenText([c]) == Normalise(c)
  {
    assert [c][1..] == [];
  }

  lemma SeenTwo(c: string, d: string)
    ensures SeenText([c, d]) == Normalise(c) + Normalise(d)
  {
    assert [c, d] == [c] + [d];
    SeenTextConcat([c], [d]);
    SeenOne(c);
    SeenOne(d);
  }

  /** An edge that does not cut a pair can be anywhere. */
  lemma EdgeIsInvisible(pre: seq<string>, c: string, d: string, post: seq<string>)
    requires !CutsPair(c, d)
    ensures Incremental(pre + [c, d] + post) == Incremental(pre + [c + d] + post)
  {
    IncrementalIsBatchOfSeen(pre + [c, d] + post);
    IncrementalIsBatchOfSeen(pre + [c + d] + post);
    SeenAround(pre, [c, d], post);
    SeenAround(pre, [c + d], post);
    SeenTwo(c, d);
    SeenOne(c + d);
    NormaliseConcat(c, d);
  }

  lemma NormaliseCr(rest: string)
    ensures Normalise("\r") == "\n" && Normalise("\r\n" + rest) == "\n" + Normalise(rest)
    ensures Normalise("\n" + rest) == "\n" + Normalise(rest)
  {
    var t := "\r\n" + rest;
    assert t[2..] == rest && "\r"[1..] == "" && Normalise("") == "";
    assert ("\n" + rest)[1..] == rest;
  }

  lemma CutNormalised(c0: string, d0: string)
    ensures Normalise(c0 + "\r") == Normalise(c0) + "\n"
    ensures Normalise("\n" + d0) == "\n" + Normalise(d0)
    ensures Normalise((c0 + "\r") + ("\n" + d0)) == Normalise(c0) + ("\n" + Normalise(d0))
  {
    NormaliseCr(d0);
    NormaliseConcat(c0, "\r");
    NormaliseConcat(c0, "\r\n" + d0);
    assert (c0 + "\r") + ("\n" + d0) == c0 + ("\r\n" + d0);
  }

  lemma SeenCut(s: string, u: string, v: string, t: string)
    ensures s + ((u + "\n") + ("\n" + v)) + t == (s + u) + "\n\n" + (v + t)
    ensures s + (u + ("\n" + v)) + t == (s + u) + "\n" + (v + t)
  {
  }

  lemma SeenWithEdge(pre: seq<string>, c: string, d: string, post: seq<string>)
    requires CutsPair(c, d)
    ensures var (before, after) := (SeenText(pre) + Normalise(c[..|c| - 1]), Normalise(d[1..]) + SeenText(post));
            && SeenText(pre + [c, d] + post) == before + "\n\n" + after
            && SeenText(pre + [c + d] + post) == before + "\n" + after
  {
    SeenAround(pre, [c, d], post);
    SeenAround(pre, [c + d], post);
    SeenTwo(c, d);
    SeenOne(c + d);
    assert c == c[..|c| - 1] + "\r" && d == "\n" + d[1..];
    CutNormalised(c[..|c| - 1], d[1..]);
    SeenCut(SeenText(pre), Normalise(c[..|c| - 1]), Normalise(d[1..]), SeenText(post));
  }

  /**
   * An edge that cuts a pair shows in the frames if and only if it is not harmless, judged by the
   * unfinished text before it and the text after it as the framer sees them.
   */
  lemma CutPairShowsIff(pre: seq<string>, c: string, d: string, post: seq<string>)
    requires CutsPair(c, d)
    ensures Incremental(pre + [c, d] + post) == Incremental(pre + [c + d] + post)
       <==> Harmless(Blocks(SeenText(pre) + Normalise(c[..|c| - 1])).1, Normalise(d[1..]) + SeenText(post))
  {
    IncrementalIsBatchOfSeen(pre + [c, d] + post);
    IncrementalIsBatchOfSeen(pre + [c + d] + post);
    SeenWithEdge(pre, c, d, post);
    ExtraLineEndShowsIff(SeenText(pre) + Normalise(c[..|c| - 1]), Normalise(d[1..]) + SeenText(post));
  }

  // ---- the condition by fields --------------------------------------------------------------

  lemma {:induction false} FoldSplits(b: Block, x: seq<string>, y: seq<string>)
    ensures FoldLines(b, x + y) == FoldLines(FoldLines(b, x), y)
    decreases |x|
  {
    if x == [] {
      assert x + y == y;
    } else {
      FoldSplits(Line(b, x[0]), x[1..], y);
      assert x + y == [x[0]] + (x[1..] + y) && x == [x[0]] + x[1..];
      FoldCons(b, x[0], x[1..] + y);
      FoldCons(b, x[0], x[1..]);
    }
  }

  /** Folding adds data to what is there, and sets the event from there. */
  lemma LineAdds(b: Block, line: string)
    ensures Line(b, line).data == b.data + Line(Block(b.event, []), line).data
    ensures Line(b, line).event == Line(Block(b.event, []), line).event
    ensures Line(Block("message", []), line).data == Line(Block(b.event, []), line).data
  {
    assert b.data + [] == b.data;
  }

  lemma {:induction false} FoldAdds(b: Block, lines: seq<string>)
    ensures FoldLines(b, lines).data == b.data + FoldLines(Block("message", []), lines).data
    ensures FoldLines(b, lines).event == FoldLines(Block(b.event, []), lines).event
    decreases |lines|
  {
    if lines == [] {
      assert b.data + [] == b.data;
    } else {
      var (m, e) := (Line(Block("message", []), lines[0]), Line(Block(b.event, []), lines[0]));
      LineAdds(b, lines[0]);
      FoldAdds(Line(b, lines[0]), lines[1..]);
      FoldAdds(m, lines[1..]);
      FoldAdds(e, lines[1..]);
      Regroup(b.data, m.data, FoldLines(Block("message", []), lines[1..]).data);
    }
  }

  lemma {:induction false} LinesJoin(a: string, b: string)
    ensures Lines(a + "\n" + b) == Lines(a) + Lines(b)
    decreases |a|
  {
    var k := IndexOf(a, '\n');
    var t := a + "\n" + b;
    if k == |a| {
      LinesFirst(t, |a|);
      assert t[..|a|] == a && t[|a| + 1..] == b && Lines(a) == [a];
    } else {
      LinesFirst(t, k);
      LinesFirst(a, k);
      assert t[..k] == a[..k] && t[k + 1..] == a[k + 1..] + "\n" + b;
      LinesJoin(a[k + 1..], b);
      Regroup([a[..k]], Lines(a[k + 1..]), Lines(b));
    }
  }

  function Folded(block: string): Block {
    FoldLines(Block("message", []), Lines(block))
  }

  predicate Alike(fa: Block, fb: Block, joined: Block) {
    && (fa.data == [] || fb.data == [])
    && (fa.data != [] ==> fa.event == joined.event) && (fb.data != [] ==> fb.event == joined.event)
  }

  /**
   * The two halves emit alone what they emit joined if and only if not both hold data, and the
   * half that does has the event name of the joined block.
   */
  lemma HalvesEmitAlikeIff(a: string, b: string)
    ensures Emit(a + "\n" + b) == Emit(a) + Emit(b) <==> Alike(Folded(a), Folded(b), Folded(a + "\n" + b))
  {
    var (fa, fb) := (Folded(a), Folded(b));
    LinesJoin(a, b);
    FoldSplits(Block("message", []), Lines(a), Lines(b));
    FoldAdds(fa, Lines(b));
    assert fa.data + [] == fa.data && [] + fb.data == fb.data;
    assert Emit(a) + [] == Emit(a) && [] + Emit(b) == Emit(b);
  }
}
