/**
 * A whole chunking with any number of cut CR LF pairs: the framer reads the pieces between the
 * cuts on their own, and this shows exactly if some block of the body is cut into pieces that do
 * not emit, one after the other, what the block emits.
 */
module SseChunking {
  import opened SseCuts
  import opened SseParser
  import opened Wrappers

  // ---- the pieces between the cuts ---------------------------------------------------------

  function JoinBy(pieces: seq<string>, end: string): string {
    if pieces == [] then "" else if |pieces| == 1 then pieces[0] else pieces[0] + end + JoinBy(pieces[1..], end)
  }

  function Tail(s: string): string {
    if s == "" then "" else s[1..]
  }

  /** The body between its cut pairs, which are left out, with line ends normalised. */
  function Pieces(chunks: seq<string>): (ps: seq<string>)
    ensures ps != []
  {
    if chunks == [] then [""]
    else
      var (c, ps) := (chunks[0], Pieces(chunks[1..]));
      if CutsPair(c, Concat(chunks[1..])) then [Normalise(c[..|c| - 1]), Tail(ps[0])] + ps[1..]
      else [Normalise(c) + ps[0]] + ps[1..]
  }

  lemma JoinFirst(x: string, ps: seq<string>, end: string)
    requires ps != []
    ensures JoinBy([x + ps[0]] + ps[1..], end) == x + JoinBy(ps, end)
  {
    var qs := [x + ps[0]] + ps[1..];
    if |ps| > 1 {
      assert qs[1..] == ps[1..];
      Regroup(x, ps[0] + end, JoinBy(ps[1..], end));
      Regroup(x, ps[0], end);
    }
  }

  lemma JoinCons(x: string, ps: seq<string>, end: string)
    requires ps != []
    ensures JoinBy([x] + ps, end) == x + end + JoinBy(ps, end)
  {
    assert ([x] + ps)[1..] == ps;
  }

  lemma FirstOfJoin(ps: seq<string>, end: string)
    requires ps != [] && ps[0] != ""
    ensures JoinBy(ps, end) != "" && JoinBy(ps, end)[0] == ps[0][0]
  {
  }

  /** Without its first line end. */
  lemma JoinTail(ps: seq<string>, end: string)
    requires ps != [] && ps[0] != "" && ps[0][0] == '\n'
    ensures JoinBy(ps, end) == "\n" + JoinBy([Tail(ps[0])] + ps[1..], end)
  {
    assert ps[0] == "\n" + Tail(ps[0]);
    assert [Tail(ps[0])] + ps[1..] == [Tail(ps[0])] + ([Tail(ps[0])] + ps[1..])[1..];
    JoinFirst("\n", [Tail(ps[0])] + ps[1..], end);
    assert ["\n" + Tail(ps[0])] + ps[1..] == ps;
  }

  lemma CutBody(c0: string, rest: string)
    requires rest != "" && rest[0] == '\n'
    ensures Normalise(c0 + "\r" + rest) == Normalise(c0) + Normalise(rest)
    ensures Normalise(c0 + "\r") == Normalise(c0) + "\n"
  {
    var d0 := rest[1..];
    assert rest == "\n" + d0;
    CutNormalised(c0, d0);
  }

  lemma {:induction false} PiecesOf(chunks: seq<string>)
    ensures var ps := Pieces(chunks);
            && |ps| == CutPairs(chunks) + 1
            && JoinBy(ps, "\n\n") == SeenText(chunks) && JoinBy(ps, "\n") == Normalise(Concat(chunks))
    ensures Concat(chunks) != "" && Concat(chunks)[0] == '\n' ==>
              Pieces(chunks)[0] != "" && Pieces(chunks)[0][0] == '\n'
  {
    if chunks != [] {
      var (c, rest) := (chunks[0], Concat(chunks[1..]));
      PiecesOf(chunks[1..]);
      if CutsPair(c, rest) {
        PiecesAtCut(chunks);
      } else {
        PiecesAtEdge(chunks);
      }
      PiecesStart(chunks);
    }
  }

  lemma PiecesAtCut(chunks: seq<string>)
    requires chunks != [] && CutsPair(chunks[0], Concat(chunks[1..]))
    requires var ps := Pieces(chunks[1..]);
             && JoinBy(ps, "\n\n") == SeenText(chunks[1..]) && JoinBy(ps, "\n") == Normalise(Concat(chunks[1..]))
             && ps[0] != "" && ps[0][0] == '\n'
    ensures JoinBy(Pieces(chunks), "\n\n") == SeenText(chunks)
    ensures JoinBy(Pieces(chunks), "\n") == Normalise(Concat(chunks))
  {
    var (c, rest) := (chunks[0], Concat(chunks[1..]));
    CutJoins(Normalise(c[..|c| - 1]), Pieces(chunks[1..]));
    CutOf(c, rest);
  }

  lemma CutOf(c: string, rest: string)
    requires CutsPair(c, rest)
    ensures Normalise(c + rest) == Normalise(c[..|c| - 1]) + Normalise(rest)
    ensures Normalise(c) == Normalise(c[..|c| - 1]) + "\n"
  {
    assert c == c[..|c| - 1] + "\r";
    CutBody(c[..|c| - 1], rest);
  }

  /** What joining gives when the first line end of the pieces becomes a cut. */
  lemma CutJoins(n: string, ps: seq<string>)
    requires ps != [] && ps[0] != "" && ps[0][0] == '\n'
    ensures var qs := [n, Tail(ps[0])] + ps[1..];
            && JoinBy(qs, "\n\n") == (n + "\n") + JoinBy(ps, "\n\n")
            && JoinBy(qs, "\n") == n + JoinBy(ps, "\n")
  {
    var qs := [Tail(ps[0])] + ps[1..];
    assert [n, Tail(ps[0])] + ps[1..] == [n] + qs;
    JoinCons(n, qs, "\n\n");
    JoinCons(n, qs, "\n");
    JoinTail(ps, "\n\n");
    JoinTail(ps, "\n");
    Regroup(n, "\n", JoinBy(qs, "\n"));
    LineEndsSplit(n, JoinBy(qs, "\n\n"));
  }

  lemma LineEndsSplit(n: string, t: string)
    ensures n + "\n\n" + t == (n + "\n") + ("\n" + t)
  {
  }

  lemma PiecesAtEdge(chunks: seq<string>)
    requires chunks != [] && !CutsPair(chunks[0], Concat(chunks[1..]))
    requires var ps := Pieces(chunks[1..]);
             JoinBy(ps, "\n\n") == SeenText(chunks[1..]) && JoinBy(ps, "\n") == Normalise(Concat(chunks[1..]))
    ensures JoinBy(Pieces(chunks), "\n\n") == SeenText(chunks)
    ensures JoinBy(Pieces(chunks), "\n") == Normalise(Concat(chunks))
  {
    NormaliseConcat(chunks[0], Concat(chunks[1..]));
    JoinFirst(Normalise(chunks[0]), Pieces(chunks[1..]), "\n\n");
    JoinFirst(Normalise(chunks[0]), Pieces(chunks[1..]), "\n");
  }

  lemma PiecesStart(chunks: seq<string>)
    requires chunks != []
    requires Concat(chunks[1..]) != "" && Concat(chunks[1..])[0] == '\n' ==>
               Pieces(chunks[1..])[0] != "" && Pieces(chunks[1..])[0][0] == '\n'
    ensures Concat(chunks) != "" && Concat(chunks)[0] == '\n' ==>
              Pieces(chunks)[0] != "" && Pieces(chunks)[0][0] == '\n'
  {
    var c := chunks[0];
    if c == "" {
      assert "" + Concat(chunks[1..]) == Concat(chunks[1..]);
      assert Normalise(c) + Pieces(chunks[1..])[0] == Pieces(chunks[1..])[0];
    } else if c[0] == '\n' {
      assert c == "\n" + c[1..];
      if |c| > 1 {
        assert c[..|c| - 1] == "\n" + c[1..|c| - 1];
      }
    }
  }

  // ---- every piece is read on its own ------------------------------------------------------

  function BatchEach(pieces: seq<string>): seq<Frame> {
    if pieces == [] then [] else Batch(pieces[0]) + BatchEach(pieces[1..])
  }

  lemma EmitTrailing(x: string)
    ensures Emit(x + "\n") == Emit(x)
  {
    assert x + "\n" == x + "\n" + "";
    LinesJoin(x, "");
    EmptyBlock();
    FoldSplits(Block("message", []), Lines(x), [""]);
    FoldCons(FoldLines(Block("message", []), Lines(x)), "", []);
  }

  /** A blank line separates: what is before it and what is after it are read apart. */
  lemma BlankLineSeparates(before: string, after: string)
    ensures Batch(before + "\n\n" + after) == Batch(before) + Batch(after)
  {
    var (done, a) := Blocks(before);
    RestHasNoBlankLine(before);
    AfterDrained(before, "\n\n", after);
    UnfinishedSeparates(a, after);
    Regroup(EmitAll(done), Emit(a), Batch(after));
  }

  lemma UnfinishedSeparates(a: string, after: string)
    requires NoBlankLine(a)
    ensures Batch(a + "\n\n" + after) == Emit(a) + Batch(after)
  {
    if a != "" && a[|a| - 1] == '\n' {
      var x := a[..|a| - 1];
      assert a == x + "\n" && !BlankLineAt(a, |a| - 2);
      forall i ensures !BlankLineAt(x, i) {
        assert !BlankLineAt(a, i);
      }
      LineEndMoves(x, after);
      BatchOf(x, "\n" + after);
      BatchLeading(after);
      EmitTrailing(x);
    } else {
      BatchOf(a, after);
    }
  }

  lemma {:induction false} PiecesReadAlone(ps: seq<string>)
    requires ps != []
    ensures Batch(JoinBy(ps, "\n\n")) == BatchEach(ps)
  {
    if |ps| == 1 {
      assert Batch(ps[0]) + [] == Batch(ps[0]);
    } else {
      BlankLineSeparates(ps[0], JoinBy(ps[1..], "\n\n"));
      PiecesReadAlone(ps[1..]);
    }
  }

  /** Read in chunks, a body gives the frames of its pieces, one piece after the other. */
  lemma ChunksReadPieces(chunks: seq<string>)
    ensures Incremental(chunks) == BatchEach(Pieces(chunks))
  {
    IncrementalIsBatchOfSeen(chunks);
    PiecesOf(chunks);
    PiecesReadAlone(Pieces(chunks));
  }

  // ---- the blocks of the body, each with its pieces ------------------------------------------

  function Singles(blocks: seq<string>): seq<seq<string>> {
    if blocks == [] then [] else [[blocks[0]]] + Singles(blocks[1..])
  }

  /**
   * The blocks from the unfinished one in `open` on, each as the pieces the cuts leave of it. A cut
   * at a blank line divides blocks; any other divides one block in two.
   */
  function Groups(open: seq<string>, ps: seq<string>): seq<seq<string>>
    requires open != []
    decreases |ps|
  {
    if ps == [] then [open]
    else
      var (blocks, rest) := Blocks(ps[0]);
      if AtLineStart(open[|open| - 1]) || StartsWithLineEnd(JoinBy(ps, "\n")) then
        [open] + Singles(blocks) + Groups([rest], ps[1..])
      else if blocks != [] then [open + [blocks[0]]] + Singles(blocks[1..]) + Groups([rest], ps[1..])
      else Groups(open + [rest], ps[1..])
  }

  function BlockGroups(ps: seq<string>): seq<seq<string>>
    requires ps != []
  {
    Singles(Blocks(ps[0]).0) + Groups([Blocks(ps[0]).1], ps[1..])
  }

  function EmitJoined(groups: seq<seq<string>>): seq<Frame> {
    if groups == [] then [] else Emit(JoinBy(groups[0], "\n")) + EmitJoined(groups[1..])
  }

  function EmitApart(groups: seq<seq<string>>): seq<Frame> {
    if groups == [] then [] else EmitAll(groups[0]) + EmitApart(groups[1..])
  }

  lemma {:induction false} SinglesEmit(blocks: seq<string>)
    ensures EmitJoined(Singles(blocks)) == EmitAll(blocks) && EmitApart(Singles(blocks)) == EmitAll(blocks)
  {
    if blocks != [] {
      SinglesEmit(blocks[1..]);
      var gs := Singles(blocks);
      assert gs[1..] == Singles(blocks[1..]) && gs[0] == [blocks[0]];
      EmitAllOne(blocks[0]);
    }
  }

  lemma EmitAllOne(block: string)
    ensures EmitAll([block]) == Emit(block)
  {
    assert [block][1..] == [] && Emit(block) + [] == Emit(block);
  }

  lemma {:induction false} EmitApartConcat(a: seq<seq<string>>, b: seq<seq<string>>)
    ensures EmitApart(a + b) == EmitApart(a) + EmitApart(b)
  {
    if a == [] {
      assert a + b == b;
    } else {
      assert (a + b)[1..] == a[1..] + b;
      EmitApartConcat(a[1..], b);
      Regroup(EmitAll(a[0]), EmitApart(a[1..]), EmitApart(b));
    }
  }

  lemma {:induction false} EmitJoinedConcat(a: seq<seq<string>>, b: seq<seq<string>>)
    ensures EmitJoined(a + b) == EmitJoined(a) + EmitJoined(b)
  {
    if a == [] {
      assert a + b == b;
    } else {
      assert (a + b)[1..] == a[1..] + b;
      EmitJoinedConcat(a[1..], b);
      Regroup(Emit(JoinBy(a[0], "\n")), EmitJoined(a[1..]), EmitJoined(b));
    }
  }

  /** One group, then complete blocks, then further groups. */
  lemma GroupThen(g: seq<string>, blocks: seq<string>, more: seq<seq<string>>)
    ensures var gs := [g] + Singles(blocks) + more;
            && EmitJoined(gs) == Emit(JoinBy(g, "\n")) + (EmitAll(blocks) + EmitJoined(more))
            && EmitApart(gs) == EmitAll(g) + (EmitAll(blocks) + EmitApart(more))
  {
    SinglesEmit(blocks);
    EmitJoinedConcat(Singles(blocks), more);
    EmitApartConcat(Singles(blocks), more);
    Regroup([g], Singles(blocks), more);
    FirstGroup(g, Singles(blocks) + more);
  }

  lemma FirstGroup(g: seq<string>, rest: seq<seq<string>>)
    ensures EmitJoined([g] + rest) == Emit(JoinBy(g, "\n")) + EmitJoined(rest)
    ensures EmitApart([g] + rest) == EmitAll(g) + EmitApart(rest)
  {
    assert ([g] + rest)[1..] == rest;
  }

  lemma {:induction false} EmitAllSnocs(blocks: seq<string>, block: string)
    ensures EmitAll(blocks + [block]) == EmitAll(blocks) + Emit(block)
  {
    EmitAllConcat(blocks, [block]);
    EmitAllOne(block);
  }

  /** Apart, the groups emit what the pieces do, each read on its own. */
  lemma {:induction false} GroupsApart(open: seq<string>, ps: seq<string>)
    requires open != []
    ensures EmitApart(Groups(open, ps)) == EmitAll(open) + BatchEach(ps)
    decreases |ps|
  {
    if ps == [] {
      assert [open][1..] == [] && EmitAll(open) + [] == EmitAll(open);
    } else {
      var (blocks, rest) := Blocks(ps[0]);
      var later := BatchEach(ps[1..]);
      GroupsApart([rest], ps[1..]);
      EmitAllOne(rest);
      Regroup(EmitAll(blocks), Emit(rest), later);
      if AtLineStart(open[|open| - 1]) || StartsWithLineEnd(JoinBy(ps, "\n")) {
        GroupThen(open, blocks, Groups([rest], ps[1..]));
      } else if blocks != [] {
        GroupThen(open + [blocks[0]], blocks[1..], Groups([rest], ps[1..]));
        EmitAllSnocs(open, blocks[0]);
        Regroup(EmitAll(open), Emit(blocks[0]), EmitAll(blocks[1..]) + (Emit(rest) + later));
        Regroup(Emit(blocks[0]), EmitAll(blocks[1..]), Emit(rest) + later);
      } else {
        GroupsApart(open + [rest], ps[1..]);
        EmitAllSnocs(open, rest);
        Regroup(EmitAll(open), Emit(rest), later);
        assert [] + (Emit(rest) + later) == Emit(rest) + later;
      }
    }
  }

  // ---- joined again ---------------------------------------------------------------------------

  /** The text from the unfinished block on, with one line end at each cut. */
  function Ahead(open: seq<string>, ps: seq<string>): string {
    if ps == [] then JoinBy(open, "\n") else JoinBy(open, "\n") + "\n" + JoinBy(ps, "\n")
  }

  lemma {:induction false} JoinSnoc(ps: seq<string>, x: string)
    requires ps != []
    ensures JoinBy(ps + [x], "\n") == JoinBy(ps, "\n") + "\n" + x
  {
    assert (ps + [x])[1..] == ps[1..] + [x];
    if |ps| > 1 {
      JoinSnoc(ps[1..], x);
      Regroup(ps[0] + "\n", JoinBy(ps[1..], "\n") + "\n", x);
      Regroup(ps[0] + "\n", JoinBy(ps[1..], "\n"), "\n");
    } else {
      assert ps[1..] == [] && JoinBy([x], "\n") == x;
    }
  }

  lemma {:induction false} JoinStarts(ps: seq<string>)
    requires ps != []
    ensures AtLineStart(JoinBy(ps, "\n")) <==> AtLineStart(ps[|ps| - 1])
    decreases |ps|
  {
    if |ps| > 1 {
      JoinStarts(ps[1..]);
      assert ps[1..][|ps[1..]| - 1] == ps[|ps| - 1];
    }
  }

  lemma BlocksFirst(p: string)
    requires Blocks(p).0 != []
    ensures Boundary(p).Some? && FirstBlock(p) == Blocks(p).0[0]
    ensures Rest(p).Some? && Blocks(Rest(p).value) == (Blocks(p).0[1..], Blocks(p).1)
  {
    var k := Boundary(p).value;
    var (more, rest) := Blocks(p[k + 2..]);
    assert ([p[..k]] + more)[1..] == more;
  }

  /** A text whose first block is complete, whatever follows. */
  lemma FirstBlockStays(p: string, more: string)
    requires Boundary(p).Some?
    ensures FirstBlock(p + more) == FirstBlock(p) && Rest(p + more) == Some(Rest(p).value + more)
  {
    var k := Boundary(p).value;
    BoundaryPlace(p);
    var t := p + more;
    assert BlankLineAt(t, k);
    forall i | 0 <= i < k ensures !BlankLineAt(t, i) {
      assert !BlankLineAt(p, i);
    }
    FirstBlockAt(t, k);
    RestAt(t, k, p[k + 2..] + more);
  }

  function Following(p: string, ps: seq<string>): string {
    if ps == [] then p else p + "\n" + JoinBy(ps, "\n")
  }

  lemma JoinIsFollowing(ps: seq<string>)
    requires ps != []
    ensures JoinBy(ps, "\n") == Following(ps[0], ps[1..])
  {
  }

  /** The complete blocks of a piece, then the rest of it with what follows. */
  lemma FollowingDrained(p: string, ps: seq<string>)
    ensures Batch(Following(p, ps)) == EmitAll(Blocks(p).0) + Batch(Following(Blocks(p).1, ps))
  {
    if ps == [] {
      RestIsUnfinished(p);
      var (blocks, rest) := Blocks(p);
      assert EmitAll([]) + Emit(rest) == Emit(rest);
    } else {
      AfterDrained(p, "\n", JoinBy(ps, "\n"));
    }
  }

  lemma AheadOfRest(rest: string, ps: seq<string>)
    ensures Ahead([rest], ps) == Following(rest, ps)
  {
  }

  /** A cut at a blank line. */
  lemma AheadDivides(open: seq<string>, ps: seq<string>)
    requires open != [] && ps != [] && NoBlankLine(JoinBy(open, "\n"))
    requires AtLineStart(open[|open| - 1]) || StartsWithLineEnd(JoinBy(ps, "\n"))
    ensures Batch(Ahead(open, ps))
         == Emit(JoinBy(open, "\n")) + (EmitAll(Blocks(ps[0]).0) + Batch(Ahead([Blocks(ps[0]).1], ps[1..])))
  {
    var (a, b) := (JoinBy(open, "\n"), JoinBy(ps, "\n"));
    JoinStarts(open);
    AtBlankLineAnyway(a, b);
    UnfinishedSeparates(a, b);
    JoinIsFollowing(ps);
    FollowingDrained(ps[0], ps[1..]);
    AheadOfRest(Blocks(ps[0]).1, ps[1..]);
  }

  /** A cut inside a block that ends in the next piece. */
  lemma AheadCompletes(open: seq<string>, ps: seq<string>)
    requires open != [] && ps != [] && NoBlankLine(JoinBy(open, "\n")) && Blocks(ps[0]).0 != []
    requires !AtLineStart(open[|open| - 1]) && !StartsWithLineEnd(JoinBy(ps, "\n"))
    ensures Batch(Ahead(open, ps))
         == Emit(JoinBy(open + [Blocks(ps[0]).0[0]], "\n"))
            + (EmitAll(Blocks(ps[0]).0[1..]) + Batch(Ahead([Blocks(ps[0]).1], ps[1..])))
  {
    var (a, b, p) := (JoinBy(open, "\n"), JoinBy(ps, "\n"), ps[0]);
    JoinStarts(open);
    HalvesOfBlock(a, b);
    BlocksFirst(p);
    JoinIsFollowing(ps);
    FirstOfFollowing(p, ps[1..]);
    FollowingDrained(Rest(p).value, ps[1..]);
    JoinSnoc(open, Blocks(p).0[0]);
    AheadOfRest(Blocks(p).1, ps[1..]);
  }

  lemma FirstOfFollowing(p: string, ps: seq<string>)
    requires Boundary(p).Some?
    ensures FirstBlock(Following(p, ps)) == FirstBlock(p)
    ensures Rest(Following(p, ps)) == Some(Following(Rest(p).value, ps))
  {
    if ps != [] {
      FirstBlockStays(p, "\n" + JoinBy(ps, "\n"));
      Regroup(p, "\n", JoinBy(ps, "\n"));
      Regroup(Rest(p).value, "\n", JoinBy(ps, "\n"));
    }
  }

  /** A cut inside a block that goes on beyond the next piece. */
  lemma AheadContinues(open: seq<string>, ps: seq<string>)
    requires open != [] && ps != [] && NoBlankLine(JoinBy(open, "\n")) && Blocks(ps[0]).0 == []
    requires !AtLineStart(open[|open| - 1]) && !StartsWithLineEnd(JoinBy(ps, "\n"))
    ensures Ahead(open, ps) == Ahead(open + [ps[0]], ps[1..]) && Blocks(ps[0]).1 == ps[0]
    ensures NoBlankLine(JoinBy(open + [ps[0]], "\n"))
  {
    JoinStarts(open);
    JoinSnoc(open, ps[0]);
    assert Boundary(ps[0]) == None && !StartsWithLineEnd(ps[0]);
    StillUnfinished(JoinBy(open, "\n"), ps[0]);
    AheadMoves(open, ps);
  }

  lemma StillUnfinished(a: string, p: string)
    requires NoBlankLine(a) && !AtLineStart(a) && !StartsWithLineEnd(p) && Boundary(p) == None
    ensures NoBlankLine(a + "\n" + p)
  {
    JoinedUnfinished(a, p);
    assert Boundary(a + "\n" + p) == None;
  }

  lemma AheadMoves(open: seq<string>, ps: seq<string>)
    requires open != [] && ps != []
    ensures Ahead(open, ps) == Ahead(open + [ps[0]], ps[1..])
  {
    JoinSnoc(open, ps[0]);
    if |ps| > 1 {
      var (a, p, more) := (JoinBy(open, "\n"), ps[0], JoinBy(ps[1..], "\n"));
      Regroup(a + "\n", p + "\n", more);
      Regroup(a + "\n", p, "\n");
    }
  }

  /** Joined, the groups emit what the text does. */
  lemma {:induction false} GroupsJoined(open: seq<string>, ps: seq<string>)
    requires open != [] && NoBlankLine(JoinBy(open, "\n"))
    ensures EmitJoined(Groups(open, ps)) == Batch(Ahead(open, ps))
    decreases |ps|
  {
    if ps == [] {
      NoBoundary(JoinBy(open, "\n"));
      BatchOfUnfinished(JoinBy(open, "\n"));
      FirstGroup(open, []);
      assert [open] + [] == [open] && Emit(JoinBy(open, "\n")) + [] == Emit(JoinBy(open, "\n"));
    } else {
      var (blocks, rest) := Blocks(ps[0]);
      RestHasNoBlankLine(ps[0]);
      if AtLineStart(open[|open| - 1]) || StartsWithLineEnd(JoinBy(ps, "\n")) {
        GroupsJoined([rest], ps[1..]);
        GroupThen(open, blocks, Groups([rest], ps[1..]));
        AheadDivides(open, ps);
      } else if blocks != [] {
        GroupsJoined([rest], ps[1..]);
        GroupThen(open + [blocks[0]], blocks[1..], Groups([rest], ps[1..]));
        AheadCompletes(open, ps);
      } else {
        AheadContinues(open, ps);
        GroupsJoined(open + [rest], ps[1..]);
      }
    }
  }

  lemma BlockGroupsEmit(ps: seq<string>)
    requires ps != []
    ensures EmitJoined(BlockGroups(ps)) == Batch(JoinBy(ps, "\n")) && EmitApart(BlockGroups(ps)) == BatchEach(ps)
  {
    var ((blocks, rest), later) := (Blocks(ps[0]), Groups([Blocks(ps[0]).1], ps[1..]));
    RestHasNoBlankLine(ps[0]);
    GroupsJoined([rest], ps[1..]);
    GroupsApart([rest], ps[1..]);
    SinglesEmit(blocks);
    EmitJoinedConcat(Singles(blocks), later);
    EmitApartConcat(Singles(blocks), later);
    JoinIsFollowing(ps);
    FollowingDrained(ps[0], ps[1..]);
    AheadOfRest(rest, ps[1..]);
    EmitAllOne(rest);
    Regroup(EmitAll(blocks), Emit(rest), BatchEach(ps[1..]));
  }

  // ---- no block makes up for another ------------------------------------------------------------

  lemma {:induction false} DataOfJoin(g: seq<string>)
    requires g != [] && forall i :: 0 <= i < |g| ==> Folded(g[i]).data == []
    ensures Folded(JoinBy(g, "\n")).data == []
  {
    if |g| > 1 {
      DataOfJoin(g[1..]);
      FoldedJoin(g[0], JoinBy(g[1..], "\n"));
    }
  }

  lemma FoldedJoin(a: string, b: string)
    ensures Folded(a + "\n" + b).data == Folded(a).data + Folded(b).data
  {
    LinesJoin(a, b);
    FoldSplits(Block("message", []), Lines(a), Lines(b));
    FoldAdds(Folded(a), Lines(b));
  }

  lemma {:induction false} ApartEmitsNoFewer(g: seq<string>)
    requires g != []
    ensures |Emit(JoinBy(g, "\n"))| <= |EmitAll(g)|
  {
    if |g| > 1 {
      ApartEmitsNoFewer(g[1..]);
      FoldedJoin(g[0], JoinBy(g[1..], "\n"));
    } else {
      assert Emit(g[0]) + [] == Emit(g[0]);
    }
  }

  ghost predicate NoneEmpty(groups: seq<seq<string>>) {
    forall k :: 0 <= k < |groups| ==> groups[k] != []
  }

  ghost predicate AllEmitAlike(groups: seq<seq<string>>) {
    forall k :: 0 <= k < |groups| ==> EmitsAlike(groups[k])
  }

  /** The pieces of a block emit, one after the other, what the block does. */
  predicate EmitsAlike(g: seq<string>) {
    EmitAll(g) == Emit(JoinBy(g, "\n"))
  }

  lemma {:induction false} AllApartEmitNoFewer(groups: seq<seq<string>>)
    requires NoneEmpty(groups)
    ensures |EmitJoined(groups)| <= |EmitApart(groups)|
  {
    if groups != [] {
      ApartEmitsNoFewer(groups[0]);
      AllApartEmitNoFewer(groups[1..]);
    }
  }

  lemma {:induction false} SameFramesIff(groups: seq<seq<string>>)
    requires NoneEmpty(groups)
    ensures EmitApart(groups) == EmitJoined(groups) <==> AllEmitAlike(groups)
  {
    if groups != [] {
      var (g, rest) := (groups[0], groups[1..]);
      ApartEmitsNoFewer(g);
      AllApartEmitNoFewer(rest);
      SameFramesIff(rest);
      SameStart(EmitAll(g), EmitApart(rest), Emit(JoinBy(g, "\n")), EmitJoined(rest));
      assert AllEmitAlike(groups) <==> EmitsAlike(g) && AllEmitAlike(rest) by {
        assert forall k :: 0 <= k < |rest| ==> rest[k] == groups[k + 1];
      }
    }
  }

  lemma SameStart(x: seq<Frame>, xs: seq<Frame>, y: seq<Frame>, ys: seq<Frame>)
    requires |x| >= |y| && |xs| >= |ys|
    ensures x + xs == y + ys <==> x == y && xs == ys
  {
    if x + xs == y + ys {
      assert |x| == |y|;
      assert x == (x + xs)[..|x|] == (y + ys)[..|y|] == y;
      assert xs == (x + xs)[|x|..] == (y + ys)[|y|..] == ys;
    }
  }

  lemma {:induction false} GroupsNotEmpty(open: seq<string>, ps: seq<string>)
    requires open != []
    ensures NoneEmpty(Groups(open, ps))
    decreases |ps|
  {
    if ps != [] {
      var (blocks, rest) := Blocks(ps[0]);
      SinglesNotEmpty(blocks);
      SinglesNotEmpty(if blocks == [] then [] else blocks[1..]);
      GroupsNotEmpty([rest], ps[1..]);
      GroupsNotEmpty(open + [rest], ps[1..]);
    }
  }

  lemma {:induction false} SinglesNotEmpty(blocks: seq<string>)
    ensures NoneEmpty(Singles(blocks))
  {
    if blocks != [] {
      SinglesNotEmpty(blocks[1..]);
    }
  }

  /**
   * However a body is cut into chunks, its frames are those of the body read whole if and only if
   * every block of the body emits what the pieces the cut CR LF pairs leave of it emit apart.
   */
  lemma ChunkingShowsIff(chunks: seq<string>)
    ensures Incremental(chunks) == Batch(Normalise(Concat(chunks))) <==> AllEmitAlike(BlockGroups(Pieces(chunks)))
  {
    var ps := Pieces(chunks);
    ChunksReadPieces(chunks);
    PiecesOf(chunks);
    BlockGroupsEmit(ps);
    SinglesNotEmpty(Blocks(ps[0]).0);
    GroupsNotEmpty([Blocks(ps[0]).1], ps[1..]);
    SameFramesIff(BlockGroups(ps));
  }

  // ---- the condition by fields ---------------------------------------------------------------------

  ghost predicate HoldsData(block: string) {
    Folded(block).data != []
  }

  /** At most one piece holds data, and then under the event name of the whole block. */
  ghost predicate OneSpeaks(g: seq<string>) {
    forall i :: 0 <= i < |g| && HoldsData(g[i]) ==>
      && (forall j :: 0 <= j < |g| && HoldsData(g[j]) ==> i == j)
      && Folded(g[i]).event == Folded(JoinBy(g, "\n")).event
  }

  lemma EmitOf(block: string)
    ensures Emit(block) == if HoldsData(block) then [Frame(Folded(block).event, JoinLines(Folded(block).data))] else []
  {
  }

  lemma {:induction false} SilentPieces(g: seq<string>)
    requires forall i :: 0 <= i < |g| ==> !HoldsData(g[i])
    ensures EmitAll(g) == []
  {
    if g != [] {
      SilentPieces(g[1..]);
    }
  }

  lemma {:induction false} OnlySpeaker(g: seq<string>, i: nat)
    requires i < |g| && forall j :: 0 <= j < |g| && HoldsData(g[j]) ==> i == j
    ensures EmitAll(g) == Emit(g[i]) && Folded(JoinBy(g, "\n")).data == Folded(g[i]).data
  {
    if |g| == 1 {
      EmitAllOne(g[0]);
      assert g == [g[0]];
    } else {
      FoldedJoin(g[0], JoinBy(g[1..], "\n"));
      if i == 0 {
        forall j | 0 <= j < |g[1..]| ensures !HoldsData(g[1..][j]) {
          assert g[1..][j] == g[j + 1];
        }
        SilentPieces(g[1..]);
        DataOfJoin(g[1..]);
        assert Emit(g[0]) + [] == Emit(g[0]) && Folded(g[0]).data + [] == Folded(g[0]).data;
      } else {
        OnlySpeaker(g[1..], i - 1);
        assert !HoldsData(g[0]);
        assert [] + Emit(g[i]) == Emit(g[i]) && [] + Folded(g[i]).data == Folded(g[i]).data;
      }
    }
  }

  lemma {:induction false} SpeakerEmits(g: seq<string>, i: nat)
    requires i < |g| && HoldsData(g[i])
    ensures |EmitAll(g)| >= 1
  {
    if i > 0 {
      SpeakerEmits(g[1..], i - 1);
    }
  }

  lemma {:induction false} TwoSpeakersEmit(g: seq<string>, i: nat, j: nat)
    requires i < j < |g| && HoldsData(g[i]) && HoldsData(g[j])
    ensures |EmitAll(g)| >= 2
  {
    if i > 0 {
      TwoSpeakersEmit(g[1..], i - 1, j - 1);
    } else {
      SpeakerEmits(g[1..], j - 1);
    }
  }

  /** The pieces of a block emit alike if and only if at most one holds data, under the event name of the whole. */
  lemma EmitsAlikeIff(g: seq<string>)
    requires g != []
    ensures EmitsAlike(g) <==> OneSpeaks(g)
  {
    EmitOf(JoinBy(g, "\n"));
    if forall i :: 0 <= i < |g| ==> !HoldsData(g[i]) {
      SilentPieces(g);
      DataOfJoin(g);
    } else {
      var i :| 0 <= i < |g| && HoldsData(g[i]);
      EmitOf(g[i]);
      if j :| 0 <= j < |g| && HoldsData(g[j]) && j != i {
        TwoSpeakersEmit(g, if i < j then i else j, if i < j then j else i);
      } else {
        OnlySpeaker(g, i);
      }
    }
  }
}
