/**
 * Coalescing one step's streamed deltas into fewer persisted events. Clients append deltas to the
 * step's text, so a joined delta must be indistinguishable from its pieces, and no other event of
 * the step may overtake text streamed before it. The buffer is emptied before the write, so a write
 * that raises takes its text with it, unless it had landed before.
 */
module TokenBatcher {
  import opened Wrappers
  import opened Writes

  /** What is persisted for the step: token events, and every other kind of event. */
  datatype Entry = Token(delta: string) | Other(name: string)

  /**
   * What the sub-agent produces, with the clock reading at which it arrives, and how the write of
   * the held text, and of the other event, would end.
   */
  datatype Input =
    | Delta(text: string, now: int, flush: Write)
    | Notice(name: string, at: int, flush: Write, event: Write)

  datatype Batch = Batch(parts: seq<string>, chars: int, lastFlush: Option<int>, log: seq<Entry>)

  datatype Config = Config(interval: int, maxChars: int)

  const EMPTY := Batch([], 0, None, [])

  function Join(parts: seq<string>): string {
    if parts == [] then "" else Join(parts[..|parts| - 1]) + parts[|parts| - 1]
  }

  function Flush(b: Batch, now: int, flush: Write): Batch {
    if b.parts == [] then b else Batch([], 0, Some(now), b.log + if Landed(flush) then [Token(Join(b.parts))] else [])
  }

  predicate Due(b: Batch, now: int, cfg: Config) {
    cfg.interval <= 0 || b.lastFlush.None? || b.chars >= cfg.maxChars || now - b.lastFlush.value >= cfg.interval
  }

  function Add(b: Batch, delta: string, now: int, flush: Write, cfg: Config): Batch {
    if delta == "" then b
    else if Due(Held(b, delta), now, cfg) then Flush(Held(b, delta), now, flush)
    else Held(b, delta)
  }

  function Held(b: Batch, delta: string): Batch {
    b.(parts := b.parts + [delta], chars := b.chars + |delta|)
  }

  /** The step as it runs: other events are written only after a flush, and not if that raised. */
  function Feed(b: Batch, i: Input, cfg: Config): Batch {
    match i
    case Delta(d, now, flush) => Add(b, d, now, flush, cfg)
    case Notice(name, at, flush, event) =>
      var f := Flush(b, at, flush);
      if b.parts != [] && !flush.Ok? then f else f.(log := f.log + if Landed(event) then [Other(name)] else [])
  }

  /** A write that is tried raises. */
  predicate Raising(b: Batch, i: Input, cfg: Config) {
    match i
    case Delta(d, now, flush) => !flush.Ok? && d != "" && Due(Held(b, d), now, cfg)
    case Notice(_, _, flush, event) => (!flush.Ok? && b.parts != []) || !event.Ok?
  }

  /** Text that is flushed does not land; or the other event does not, or is not tried after a flush that raised. */
  predicate Loses(b: Batch, i: Input, cfg: Config) {
    match i
    case Delta(d, now, flush) => !Landed(flush) && d != "" && Due(Held(b, d), now, cfg)
    case Notice(_, _, flush, event) => (!flush.Ok? && b.parts != []) || !Landed(event)
  }

  class Batcher {
    const cfg: Config
    var parts: seq<string>
    var chars: int
    var lastFlush: Option<int>
    var log: seq<Entry>

    ghost function View(): Batch
      reads this
    {
      Batch(parts, chars, lastFlush, log)
    }

    constructor (cfg: Config)
      ensures View() == EMPTY && this.cfg == cfg
    {
      this.cfg := cfg;
      parts, chars, lastFlush, log := [], 0, None, [];
    }

    method AddDelta(delta: string, now: int, flush: Write) returns (ok: bool)
      modifies this
      ensures View() == Add(old(View()), delta, now, flush, cfg)
      ensures ok <==> !Raising(old(View()), Delta(delta, now, flush), cfg)
    {
      ok := true;
      if delta == "" {
        return;
      }
      parts := parts + [delta];
      chars := chars + |delta|;
      if cfg.interval <= 0 || lastFlush.None? || chars >= cfg.maxChars || now - lastFlush.value >= cfg.interval {
        ok := DoFlush(now, flush);
      }
    }

    method DoFlush(now: int, flush: Write) returns (ok: bool)
      modifies this
      ensures View() == Flush(old(View()), now, flush)
      ensures ok <==> flush.Ok? || old(parts) == []
    {
      if parts == [] {
        return true;
      }
      var delta := "";
      var k := 0;
      while k < |parts|
        invariant k <= |parts| && delta == Join(parts[..k])
        invariant View() == old(View())
      {
        assert parts[..k + 1][..k] == parts[..k];
        delta := delta + parts[k];
        k := k + 1;
      }
      assert parts[..k] == parts;
      parts, chars, lastFlush := [], 0, Some(now);
      if Landed(flush) {
        log := log + [Token(delta)];
      }
      return flush.Ok?;
    }

    method WriteEvent(name: string, now: int, flush: Write, event: Write) returns (ok: bool)
      modifies this
      ensures View() == Feed(old(View()), Notice(name, now, flush, event), cfg)
      ensures ok <==> !Raising(old(View()), Notice(name, now, flush, event), cfg)
    {
      ok := DoFlush(now, flush);
      if ok {
        if Landed(event) {
          log := log + [Other(name)];
        }
        ok := event.Ok?;
      }
    }
  }

  // ---- what a client sees -----------------------------------------------------

  /** A log with adjacent token events run together: all a client can tell apart. */
  function Seen(log: seq<Entry>): seq<Entry> {
    if log == [] then [] else Push(Seen(log[..|log| - 1]), log[|log| - 1])
  }

  function Push(seen: seq<Entry>, e: Entry): seq<Entry> {
    if e.Token? && seen != [] && seen[|seen| - 1].Token? then
      seen[..|seen| - 1] + [Token(seen[|seen| - 1].delta + e.delta)]
    else seen + [e]
  }

  /** One event per delta, written at once: the behaviour coalescing must not be told from. */
  function Uncoalesced(inputs: seq<Input>): seq<Entry> {
    if inputs == [] then []
    else
      Uncoalesced(inputs[..|inputs| - 1]) +
      match inputs[|inputs| - 1]
      case Delta(d, _, _) => if d == "" then [] else [Token(d)]
      case Notice(name, _, _, _) => [Other(name)]
  }

  function Coalesced(inputs: seq<Input>, cfg: Config): Batch {
    if inputs == [] then EMPTY else Feed(Coalesced(inputs[..|inputs| - 1], cfg), inputs[|inputs| - 1], cfg)
  }

  function Pending(b: Batch): seq<Entry> {
    if b.parts == [] then [] else [Token(Join(b.parts))]
  }

  lemma SeenSnoc(log: seq<Entry>, e: Entry)
    ensures Seen(log + [e]) == Push(Seen(log), e)
  {
    assert (log + [e])[..|log|] == log;
  }

  lemma PushTwice(seen: seq<Entry>, a: string, b: string)
    ensures Push(Push(seen, Token(a)), Token(b)) == Push(seen, Token(a + b))
  {
    if seen != [] && seen[|seen| - 1].Token? {
      var last := seen[|seen| - 1].delta;
      assert (last + a) + b == last + (a + b);
    }
  }

  ghost predicate LosesAt(inputs: seq<Input>, k: nat, cfg: Config)
    requires k < |inputs|
  {
    Loses(Coalesced(inputs[..k], cfg), inputs[k], cfg)
  }

  ghost predicate NoneLost(inputs: seq<Input>, cfg: Config) {
    forall k :: 0 <= k < |inputs| ==> !LosesAt(inputs, k, cfg)
  }

  lemma NoneLostSnoc(inputs: seq<Input>, cfg: Config)
    requires inputs != []
    ensures var before := inputs[..|inputs| - 1];
            NoneLost(inputs, cfg) <==> NoneLost(before, cfg) && !LosesAt(inputs, |inputs| - 1, cfg)
  {
    var before := inputs[..|inputs| - 1];
    forall k | 0 <= k < |before| ensures LosesAt(inputs, k, cfg) == LosesAt(before, k, cfg) {
      assert before[..k] == inputs[..k];
    }
  }

  /** When nothing fails to land, the log and what is held back show what writing every delta at once would show. */
  lemma {:induction false} NothingLost(inputs: seq<Input>, cfg: Config)
    requires NoneLost(inputs, cfg)
    ensures var b := Coalesced(inputs, cfg); Seen(b.log + Pending(b)) == Seen(Uncoalesced(inputs))
  {
    if inputs == [] {
    } else {
      var before := inputs[..|inputs| - 1];
      var i := inputs[|inputs| - 1];
      NoneLostSnoc(inputs, cfg);
      NothingLost(before, cfg);
      var b, raw := Coalesced(before, cfg), Uncoalesced(before);
      assert !Loses(b, i, cfg) by {
        assert !LosesAt(inputs, |inputs| - 1, cfg);
      }
      match i {
        case Notice(name, at, flush, _) =>
          assert Flush(b, at, flush).log == b.log + Pending(b);
          SeenSnoc(b.log + Pending(b), Other(name));
          SeenSnoc(raw, Other(name));
          assert Coalesced(inputs, cfg).log + [] == b.log + Pending(b) + [Other(name)];
        case Delta(d, now, flush) =>
          if d == "" {
            assert raw + [] == raw;
          } else {
            AddShows(b, d, now, flush, cfg);
            SeenSnoc(raw, Token(d));
          }
      }
    }
  }

  lemma AddShows(b: Batch, d: string, now: int, flush: Write, cfg: Config)
    requires d != "" && !Loses(b, Delta(d, now, flush), cfg)
    ensures var c := Add(b, d, now, flush, cfg); Seen(c.log + Pending(c)) == Push(Seen(b.log + Pending(b)), Token(d))
  {
    var held := b.parts + [d];
    assert held[..|held| - 1] == b.parts && Join(held) == Join(b.parts) + d;
    var c := Add(b, d, now, flush, cfg);
    assert c.log + Pending(c) == b.log + [Token(Join(held))];
    SeenSnoc(b.log, Token(Join(held)));
    if b.parts == [] {
      assert b.log + [] == b.log && Join(held) == d;
    } else {
      SeenSnoc(b.log, Token(Join(b.parts)));
      PushTwice(Seen(b.log), Join(b.parts), d);
    }
  }

  /** What a log amounts to: the characters of its text, and one for each other event. */
  function Size(log: seq<Entry>): nat {
    if log == [] then 0
    else Size(log[..|log| - 1]) + if log[|log| - 1].Token? then |log[|log| - 1].delta| else 1
  }

  lemma SizeSnoc(log: seq<Entry>, e: Entry)
    ensures Size(log + [e]) == Size(log) + if e.Token? then |e.delta| else 1
  {
    assert (log + [e])[..|log|] == log;
  }

  lemma {:induction false} SeenKeepsSize(log: seq<Entry>)
    ensures Size(Seen(log)) == Size(log)
  {
    if log != [] {
      var (before, e) := (log[..|log| - 1], log[|log| - 1]);
      SeenKeepsSize(before);
      var seen := Seen(before);
      if e.Token? && seen != [] && seen[|seen| - 1].Token? {
        SizeSnoc(seen[..|seen| - 1], Token(seen[|seen| - 1].delta + e.delta));
      } else {
        SizeSnoc(seen, e);
      }
    }
  }

  /** The size of the log with what is held back. */
  function Kept(b: Batch): nat {
    Size(b.log) + |Join(b.parts)|
  }

  ghost predicate NoneEmpty(parts: seq<string>) {
    forall k :: 0 <= k < |parts| ==> parts[k] != ""
  }

  lemma JoinSnoc(parts: seq<string>, d: string)
    ensures Join(parts + [d]) == Join(parts) + d
  {
    assert (parts + [d])[..|parts|] == parts;
  }

  lemma JoinOfNoneEmpty(parts: seq<string>)
    requires NoneEmpty(parts) && parts != []
    ensures Join(parts) != ""
  {
    assert parts[|parts| - 1] != "";
  }

  lemma FlushKeeps(b: Batch, now: int, flush: Write)
    requires NoneEmpty(b.parts)
    ensures NoneEmpty(Flush(b, now, flush).parts) && Kept(Flush(b, now, flush)) <= Kept(b)
    ensures Kept(Flush(b, now, flush)) < Kept(b) <==> !Landed(flush) && b.parts != []
  {
    if b.parts != [] {
      JoinOfNoneEmpty(b.parts);
      SizeSnoc(b.log, Token(Join(b.parts)));
      assert b.log + [] == b.log;
    }
  }

  /** One input adds its size to what is kept exactly when nothing is lost, and less when something is. */
  lemma FeedKeeps(b: Batch, i: Input, cfg: Config)
    requires NoneEmpty(b.parts)
    ensures NoneEmpty(Feed(b, i, cfg).parts)
    ensures var size := Kept(b) + if i.Delta? then |i.text| else 1;
            && Kept(Feed(b, i, cfg)) <= size
            && (Kept(Feed(b, i, cfg)) < size <==> Loses(b, i, cfg))
  {
    match i {
      case Delta(d, now, flush) =>
        if d != "" {
          JoinSnoc(b.parts, d);
          FlushKeeps(Held(b, d), now, flush);
        }
      case Notice(name, at, flush, _) =>
        FlushKeeps(b, at, flush);
        SizeSnoc(Flush(b, at, flush).log, Other(name));
        assert Flush(b, at, flush).log + [] == Flush(b, at, flush).log;
    }
  }

  lemma {:induction false} LosingShows(inputs: seq<Input>, cfg: Config)
    ensures var b := Coalesced(inputs, cfg);
            && NoneEmpty(b.parts) && Kept(b) <= Size(Uncoalesced(inputs))
            && (Kept(b) < Size(Uncoalesced(inputs)) <==> !NoneLost(inputs, cfg))
  {
    if inputs != [] {
      var (before, i) := (inputs[..|inputs| - 1], inputs[|inputs| - 1]);
      LosingShows(before, cfg);
      NoneLostSnoc(inputs, cfg);
      FeedKeeps(Coalesced(before, cfg), i, cfg);
      var raw := Uncoalesced(before);
      assert raw + [] == raw;
      match i {
        case Delta(d, _, _) => SizeSnoc(raw, Token(d));
        case Notice(name, _, _, _) => SizeSnoc(raw, Other(name));
      }
    }
  }

  /**
   * Coalescing cannot be told from writing every delta at once exactly when everything landed: what
   * does not land, or is not tried after an error, is missing whatever follows.
   */
  lemma NothingLostIff(inputs: seq<Input>, cfg: Config)
    ensures var b := Coalesced(inputs, cfg);
            Seen(b.log + Pending(b)) == Seen(Uncoalesced(inputs)) <==> NoneLost(inputs, cfg)
  {
    var b := Coalesced(inputs, cfg);
    if NoneLost(inputs, cfg) {
      NothingLost(inputs, cfg);
    } else {
      LosingShows(inputs, cfg);
      SeenKeepsSize(b.log + Pending(b));
      SeenKeepsSize(Uncoalesced(inputs));
      PendingSize(b);
    }
  }

  lemma PendingSize(b: Batch)
    ensures Size(b.log + Pending(b)) == Kept(b)
  {
    if b.parts == [] {
      assert b.log + [] == b.log;
    } else {
      SizeSnoc(b.log, Token(Join(b.parts)));
    }
  }

  /** Whenever an event other than a token is to be written, no streamed text is still held back. */
  lemma NothingPendingAtNotice(inputs: seq<Input>, cfg: Config)
    requires inputs != [] && inputs[|inputs| - 1].Notice?
    ensures Coalesced(inputs, cfg).parts == []
    ensures Seen(Coalesced(inputs, cfg).log) == Seen(Uncoalesced(inputs)) <==> NoneLost(inputs, cfg)
  {
    NothingLostIff(inputs, cfg);
    var b := Coalesced(inputs, cfg);
    assert b.log + [] == b.log;
  }

  /** Held-back text is short, inside an open interval, and never the first of the step. */
  ghost predicate Brief(b: Batch, cfg: Config) {
    && b.chars == |Join(b.parts)|
    && (b.parts != [] ==> cfg.interval > 0 && b.lastFlush.Some? && b.chars < cfg.maxChars)
  }

  lemma AddIsBrief(b: Batch, d: string, now: int, flush: Write, cfg: Config)
    requires Brief(b, cfg)
    ensures Brief(Add(b, d, now, flush, cfg), cfg)
  {
    JoinSnoc(b.parts, d);
  }

  lemma {:induction false} HeldBriefly(inputs: seq<Input>, cfg: Config)
    ensures Brief(Coalesced(inputs, cfg), cfg)
  {
    if inputs != [] {
      HeldBriefly(inputs[..|inputs| - 1], cfg);
      var i := inputs[|inputs| - 1];
      if i.Delta? {
        AddIsBrief(Coalesced(inputs[..|inputs| - 1], cfg), i.text, i.now, i.flush, cfg);
      }
    }
  }

  /** The text held back after these inputs. */
  ghost function HeldText(inputs: seq<Input>, cfg: Config): string {
    Join(Coalesced(inputs, cfg).parts)
  }

  /** When the last flush was, if there was one. */
  ghost function LastFlush(inputs: seq<Input>, cfg: Config): Option<int> {
    Coalesced(inputs, cfg).lastFlush
  }

  /**
   * A delta is held back exactly while it may be: not without an interval, not the first of the
   * step, not once the held text has reached the size limit or the interval is over. Held back it
   * writes nothing; otherwise all the text held goes out with it as one event, if the write lands.
   */
  lemma HoldsBackIff(inputs: seq<Input>, d: string, now: int, flush: Write, cfg: Config)
    requires d != ""
    ensures var (before, last) := (HeldText(inputs, cfg), LastFlush(inputs, cfg));
            var (b, next) := (Coalesced(inputs, cfg), Coalesced(inputs + [Delta(d, now, flush)], cfg));
            if cfg.interval > 0 && last.Some? && |before| + |d| < cfg.maxChars && now < last.value + cfg.interval
            then next.log == b.log && Join(next.parts) == before + d && next.lastFlush == last
            else
              && next.log == b.log + (if Landed(flush) then [Token(before + d)] else [])
              && next.parts == [] && next.lastFlush == Some(now)
  {
    var b := Coalesced(inputs, cfg);
    var more := inputs + [Delta(d, now, flush)];
    assert more[..|more| - 1] == inputs;
    HeldBriefly(inputs, cfg);
    JoinSnoc(b.parts, d);
  }

  /** A call raises exactly when it tries a write that does not go through. */
  lemma RaisesIff(inputs: seq<Input>, i: Input, cfg: Config)
    ensures var (b, next) := (Coalesced(inputs, cfg), Coalesced(inputs + [i], cfg));
            Raising(b, i, cfg) <==>
              match i
              case Delta(d, _, flush) => d != "" && next.parts == [] && flush != Write.Ok
              case Notice(_, _, flush, event) => (b.parts != [] && flush != Write.Ok) || event != Write.Ok
  {
    assert (inputs + [i])[..|inputs|] == inputs;
  }
}
