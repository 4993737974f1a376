/**
 * One run's event log on its way to a browser: the server pages through an append-only log and
 * hides failures a resume has superseded; the client keeps a cursor, drops what it has already
 * applied, and reconnects. Connections may break anywhere.
 */
module EventStream {
  import opened Wrappers

  const PAGE_LIMIT: nat := 100

  datatype Kind = RunComplete | RunFailed | RunCancelled | RunResumed | Progress(name: string)

  datatype Event = Event(kind: Kind, payload: string)

  predicate Terminal(e: Event) {
    e.kind == RunComplete || e.kind == RunFailed || e.kind == RunCancelled
  }

  // ---- the log -------------------------------------------------------------

  datatype RunStatus = IsRunning | IsFailed | IsCompleted | IsCancelled

  /** A run and its log; the event with sequence number n is the n-th entry. */
  datatype Run = Run(status: RunStatus, log: seq<Event>)

  /**
   * The ways the store appends: events of a running run, a transition out of running with its
   * terminal event, and the one transition back, from failed, with run_resumed.
   */
  predicate MayAppend(r: Run, e: Event) {
    match e.kind
    case RunResumed => r.status == IsFailed
    case _ => r.status == IsRunning
  }

  function AppendEvent(r: Run, e: Event): Run {
    Run(match e.kind
        case RunComplete => IsCompleted
        case RunFailed => IsFailed
        case RunCancelled => IsCancelled
        case _ => IsRunning,
        r.log + [e])
  }

  /** A failure followed by the resume that superseded it. */
  predicate Superseded(log: seq<Event>, n: nat) {
    1 <= n < |log| && log[n - 1].kind == RunFailed && log[n].kind == RunResumed
  }

  /** Only the last event of a log can be terminal, superseded failures aside. */
  ghost predicate LogOk(r: Run) {
    && (forall n :: 1 <= n < |r.log| && Terminal(r.log[n - 1]) ==> Superseded(r.log, n))
    && (r.status == IsRunning <==> r.log == [] || !Terminal(r.log[|r.log| - 1]))
    && (r.status == IsFailed <==> r.log != [] && r.log[|r.log| - 1].kind == RunFailed)
  }

  lemma AppendKeepsLog(r: Run, e: Event)
    requires LogOk(r) && MayAppend(r, e)
    ensures LogOk(AppendEvent(r, e))
    ensures forall n :: Superseded(r.log, n) ==> Superseded(r.log + [e], n)
  {
    var t := AppendEvent(r, e);
    forall n | 1 <= n < |t.log| && Terminal(t.log[n - 1]) ensures Superseded(t.log, n) {
      assert t.log[n - 1] == r.log[n - 1];
      if n == |r.log| {
        assert t.log[n] == e;
      } else {
        assert Superseded(r.log, n);
      }
    }
  }

  // ---- the server ------------------------------------------------------------

  datatype Frame = Hello | Ping | RunFrame(seqNo: nat, event: Event)

  datatype Served = Hidden | Sent | SentLast

  /** What becomes of one event, given the event that follows it so far. */
  function ServeOne(e: Event, following: Option<Event>): Served {
    if !Terminal(e) then Sent
    else if following.Some? && following.value.kind == RunResumed then Hidden
    else SentLast
  }

  /** The event after the head of a page: the next one of the page, else a fresh read. */
  function Following(page: seq<Event>, readAfter: Option<Event>): Option<Event>
    requires page != []
  {
    if |page| > 1 then Some(page[1]) else readAfter
  }

  datatype PageResult = PageResult(frames: seq<Frame>, lastSeq: nat, stopped: bool)

  /** A whole page; readAfter(n) is what a read after sequence number n returns at that moment. */
  function ServePage(page: seq<Event>, lastSeq: nat, readAfter: nat -> Option<Event>): PageResult {
    if page == [] then PageResult([], lastSeq, false)
    else
      var frame := RunFrame(lastSeq + 1, page[0]);
      match ServeOne(page[0], Following(page, readAfter(lastSeq + 1)))
      case Hidden => ServePage(page[1..], lastSeq + 1, readAfter)
      case Sent =>
        var rest := ServePage(page[1..], lastSeq + 1, readAfter);
        rest.(frames := [frame] + rest.frames)
      case SentLast => PageResult([frame], lastSeq + 1, true)
  }

  /** The whole page comes to these frames and then what the rest of it comes to. */
  ghost predicate ComesTo(whole: PageResult, frames: seq<Frame>, rest: PageResult) {
    whole == rest.(frames := frames + rest.frames)
  }

  lemma ComesToMore(whole: PageResult, frames: seq<Frame>, f: Frame, rest: PageResult)
    requires ComesTo(whole, frames, rest.(frames := [f] + rest.frames))
    ensures ComesTo(whole, frames + [f], rest)
  {
    assert frames + ([f] + rest.frames) == (frames + [f]) + rest.frames;
  }

  method StreamPage(page: seq<Event>, after: nat, readAfter: nat -> Option<Event>)
    returns (frames: seq<Frame>, lastSeq: nat, stopped: bool)
    ensures PageResult(frames, lastSeq, stopped) == ServePage(page, after, readAfter)
  {
    frames, lastSeq := [], after;
    var position := 0;
    ghost var whole := ServePage(page, after, readAfter);
    assert page[0..] == page && [] + whole.frames == whole.frames;
    while position < |page|
      invariant position <= |page| && lastSeq == after + position
      invariant ComesTo(whole, frames, ServePage(page[position..], lastSeq, readAfter))
    {
      var e := page[position];
      lastSeq := lastSeq + 1;
      assert page[position..][1..] == page[position + 1..];
      if Terminal(e) {
        var following := if position + 1 < |page| then Some(page[position + 1]) else readAfter(lastSeq);
        if following.Some? && following.value.kind == RunResumed {
          position := position + 1;
          continue;
        }
        ComesToMore(whole, frames, RunFrame(lastSeq, e), PageResult([], lastSeq, true));
      } else {
        ComesToMore(whole, frames, RunFrame(lastSeq, e), ServePage(page[position + 1..], lastSeq, readAfter));
      }
      frames := frames + [RunFrame(lastSeq, e)];
      if Terminal(e) {
        assert frames + [] == frames;
        return frames, lastSeq, true;
      }
      position := position + 1;
    }
    assert frames + [] == frames;
    return frames, lastSeq, false;
  }

  // ---- the client ------------------------------------------------------------

  datatype ConnectionState = Idle | Connecting | Open | Stale | Reconnecting | Closed

  datatype Client = Client(
    state: ConnectionState, attempt: nat, lastSeq: nat, terminal: bool, hasSource: bool, retryPending: bool)

  /** The cursor and the dedupe: what a frame does to a client, and whether its event is applied. */
  function OnFrame(c: Client, f: Frame): (Client, bool) {
    match f
    case RunFrame(n, e) =>
      if c.terminal || !c.hasSource || (n > 0 && n <= c.lastSeq) then (c, false)
      else
        var seen := Activity(if n > 0 then c.(lastSeq := n) else c);
        (if Terminal(e) then Finish(seen) else seen, true)
    case _ => (if c.hasSource && !c.terminal then Activity(c) else c, false)
  }

  function Activity(c: Client): Client {
    if c.state != Open then c.(attempt := 0, state := Open) else c
  }

  function Finish(c: Client): Client {
    Close(c.(terminal := true))
  }

  function Close(c: Client): Client {
    c.(hasSource := false, retryPending := false, state := if c.state == Idle then Idle else Closed)
  }

  function OpenSource(c: Client): Client {
    if c.terminal then c else c.(state := Connecting, hasSource := true)
  }

  /** onerror: another attempt if any is left, else the caller has to reconcile. */
  function OnError(c: Client, maxRetries: nat): Client {
    if c.terminal || !c.hasSource then c
    else if c.attempt >= maxRetries then c.(hasSource := false, retryPending := false, state := Closed)
    else c.(attempt := c.attempt + 1, hasSource := false, state := Reconnecting, retryPending := true)
  }

  function OnRetryTimer(c: Client): Client {
    if c.retryPending then OpenSource(c.(retryPending := false)) else c
  }

  function Prepared(afterSeq: int): Client {
    Client(Idle, 0, if afterSeq < 0 then 0 else afterSeq, false, false, false)
  }

  function Resumed(c: Client): Client {
    OpenSource(c.(terminal := false, attempt := 0, hasSource := false, retryPending := false))
  }

  class PipelineStream {
    const maxRetries: nat
    var state: ConnectionState
    var attempt: nat
    var lastSeq: nat
    var terminal: bool
    var hasSource: bool
    var retryPending: bool

    ghost function View(): Client
      reads this
    {
      Client(state, attempt, lastSeq, terminal, hasSource, retryPending)
    }

    constructor (maxRetries: nat)
      ensures View() == Prepared(0) && this.maxRetries == maxRetries
    {
      this.maxRetries := maxRetries;
      state, attempt, lastSeq := Idle, 0, 0;
      terminal, hasSource, retryPending := false, false, false;
    }

    method DoClose()
      modifies this
      ensures View() == Close(old(View()))
    {
      hasSource, retryPending := false, false;
      if state != Idle && state != Closed {
        state := Closed;
      }
    }

    method ReceiveActivity()
      modifies this
      ensures View() == Activity(old(View()))
    {
      if state != Open {
        attempt := 0;
        state := Open;
      }
    }

    /** The listeners bound to a source: heartbeats bypass the cursor, run events go through it. */
    method Receive(f: Frame) returns (applied: bool)
      modifies this
      ensures (View(), applied) == OnFrame(old(View()), f)
      ensures !f.RunFrame? ==> lastSeq == old(lastSeq)
    {
      if terminal || !hasSource {
        return false;
      }
      if !f.RunFrame? {
        ReceiveActivity();
        return false;
      }
      if f.seqNo > 0 {
        if f.seqNo <= lastSeq {
          return false;
        }
        lastSeq := f.seqNo;
      }
      ReceiveActivity();
      if Terminal(f.event) {
        terminal := true;
        DoClose();
      }
      return true;
    }

    method ScheduleReconnect()
      modifies this
      ensures View() == OnError(old(View()), maxRetries)
    {
      if terminal || !hasSource {
        return;
      }
      hasSource := false;
      if attempt >= maxRetries {
        retryPending := false;
        state := Closed;
        return;
      }
      attempt := attempt + 1;
      state := Reconnecting;
      retryPending := true;
    }

    method DoOpen()
      modifies this
      ensures View() == OpenSource(old(View()))
    {
      if terminal {
        return;
      }
      state := Connecting;
      hasSource := true;
    }

    method RetryTimer()
      modifies this
      ensures View() == OnRetryTimer(old(View()))
    {
      if retryPending {
        retryPending := false;
        DoOpen();
      }
    }

    method Prepare(afterSeq: int)
      modifies this
      ensures View() == Prepared(afterSeq)
    {
      DoClose();
      terminal, attempt := false, 0;
      lastSeq := if afterSeq < 0 then 0 else afterSeq;
      state := Idle;
    }

    method Resume()
      modifies this
      ensures View() == Resumed(old(View()))
    {
      retryPending, hasSource := false, false;
      terminal, attempt := false, 0;
      DoOpen();
    }
  }

  // ---- what "delivered" means ---------------------------------------------------

  /**
   * The frames carry exactly the events of the log after `from` and up to `to`, in order and once
   * each, leaving out nothing but superseded failures.
   */
  ghost predicate Covers(log: seq<Event>, from: nat, frames: seq<Frame>, to: nat) {
    && from <= to <= |log|
    && (forall i :: 0 <= i < |frames| ==>
          frames[i].RunFrame? && from < frames[i].seqNo <= to && frames[i].event == log[frames[i].seqNo - 1])
    && (forall i, j :: 0 <= i < j < |frames| ==> frames[i].seqNo < frames[j].seqNo)
    && (forall n :: from < n <= to ==> Carries(frames, n) || Superseded(log, n))
  }

  ghost predicate Carries(frames: seq<Frame>, n: nat) {
    exists i :: 0 <= i < |frames| && frames[i].RunFrame? && frames[i].seqNo == n
  }

  lemma CoversGrows(log: seq<Event>, e: Event, from: nat, frames: seq<Frame>, to: nat)
    requires Covers(log, from, frames, to)
    ensures Covers(log + [e], from, frames, to)
  {
    forall n | from < n <= to ensures Carries(frames, n) || Superseded(log + [e], n) {
      assert Superseded(log, n) ==> Superseded(log + [e], n);
    }
  }

  lemma CoversSent(log: seq<Event>, from: nat, frames: seq<Frame>, to: nat)
    requires Covers(log, from, frames, to) && to < |log|
    ensures Covers(log, from, frames + [RunFrame(to + 1, log[to])], to + 1)
  {
    var all := frames + [RunFrame(to + 1, log[to])];
    forall n | from < n <= to + 1 ensures Carries(all, n) || Superseded(log, n) {
      if n == to + 1 {
        assert all[|frames|].seqNo == n;
      } else if Carries(frames, n) {
        var i :| 0 <= i < |frames| && frames[i].RunFrame? && frames[i].seqNo == n;
        assert all[i].seqNo == n;
      }
    }
  }

  lemma CoversHidden(log: seq<Event>, from: nat, frames: seq<Frame>, to: nat)
    requires Covers(log, from, frames, to) && Superseded(log, to + 1)
    ensures Covers(log, from, frames, to + 1)
  {
  }

  /** The first frame on the wire: what lies between the wire's start and it was superseded. */
  lemma CoversFirst(log: seq<Event>, from: nat, frames: seq<Frame>, to: nat)
    requires Covers(log, from, frames, to) && frames != []
    ensures Covers(log, frames[0].seqNo, frames[1..], to)
    ensures forall n :: from < n < frames[0].seqNo ==> Superseded(log, n)
  {
    var k := frames[0].seqNo;
    forall n | from < n <= to && n != k ensures Carries(frames[1..], n) || Superseded(log, n) {
      if Carries(frames, n) {
        var i :| 0 <= i < |frames| && frames[i].RunFrame? && frames[i].seqNo == n;
        assert frames[1..][i - 1].seqNo == n;
      }
    }
    forall n | from < n < k ensures !Carries(frames, n) {
    }
  }

  /** Reads return what the log holds. */
  ghost predicate ReadsLog(readAfter: nat -> Option<Event>, log: seq<Event>) {
    forall n: nat :: readAfter(n).Some? ==> n < |log| && log[n] == readAfter(n).value
  }

  lemma HeadOfPage(run: Run, lastSeq: nat, size: nat, readAfter: nat -> Option<Event>)
    requires LogOk(run) && 0 < size && lastSeq + size <= |run.log| && ReadsLog(readAfter, run.log)
    ensures var page := run.log[lastSeq..lastSeq + size];
            && page[0] == run.log[lastSeq] && page[1..] == run.log[lastSeq + 1..lastSeq + size]
            && (ServeOne(page[0], Following(page, readAfter(lastSeq + 1))) == Hidden ==>
                  Superseded(run.log, lastSeq + 1))
  {
    var page := run.log[lastSeq..lastSeq + size];
    var f := Following(page, readAfter(lastSeq + 1));
    assert f.Some? ==> lastSeq + 1 < |run.log| && f.value == run.log[lastSeq + 1];
  }

  /** A page served against an append-only log carries exactly what it consumed. */
  lemma {:induction false} PageCovers(run: Run, lastSeq: nat, size: nat, readAfter: nat -> Option<Event>)
    requires LogOk(run) && lastSeq + size <= |run.log| && ReadsLog(readAfter, run.log)
    ensures var r := ServePage(run.log[lastSeq..lastSeq + size], lastSeq, readAfter);
            Covers(run.log, lastSeq, r.frames, r.lastSeq) && (r.stopped || r.lastSeq == lastSeq + size)
    decreases size
  {
    var log := run.log;
    var page := log[lastSeq..lastSeq + size];
    if size > 0 {
      HeadOfPage(run, lastSeq, size, readAfter);
      PageCovers(run, lastSeq + 1, size - 1, readAfter);
      var rest := ServePage(page[1..], lastSeq + 1, readAfter);
      match ServeOne(page[0], Following(page, readAfter(lastSeq + 1))) {
        case Hidden =>
          CoversPrepend(log, lastSeq, [], rest.frames, rest.lastSeq);
          assert [] + rest.frames == rest.frames;
        case Sent =>
          CoversPrepend(log, lastSeq, [RunFrame(lastSeq + 1, page[0])], rest.frames, rest.lastSeq);
        case SentLast =>
          CoversSent(log, lastSeq, [], lastSeq);
          assert [] + [RunFrame(lastSeq + 1, page[0])] == [RunFrame(lastSeq + 1, page[0])];
      }
    }
  }

  lemma CoversPrepend(log: seq<Event>, from: nat, first: seq<Frame>, frames: seq<Frame>, to: nat)
    requires from < |log| && Covers(log, from + 1, frames, to)
    requires first == [RunFrame(from + 1, log[from])] || (first == [] && Superseded(log, from + 1))
    ensures Covers(log, from, first + frames, to)
  {
    var all := first + frames;
    forall n | from < n <= to ensures Carries(all, n) || Superseded(log, n) {
      if n == from + 1 {
        if first != [] { assert all[0].seqNo == n; }
      } else if Carries(frames, n) {
        var i :| 0 <= i < |frames| && frames[i].RunFrame? && frames[i].seqNo == n;
        assert all[|first| + i].seqNo == n;
      }
    }
  }

  // ---- the protocol ---------------------------------------------------------------

  /** The server's side of one connection: its cursor and the rest of the page in hand. */
  datatype Server = Down | Up(lastSeq: nat, page: seq<Event>, ended: bool)

  /** `base` is where the client's cursor started; `applied` and `wireFrom` are history. */
  datatype System = System(
    run: Run, server: Server, wire: seq<Frame>, wireFrom: nat,
    client: Client, base: nat, applied: seq<Frame>)

  datatype Move =
    | Commit(e: Event)
    | Connect(after: nat)
    | ReadPage
    | ServeNext
    | Heartbeat
    | Deliver
    | Break(maxRetries: nat)
    | Retry
    | Reopen

  predicate Enabled(s: System, m: Move) {
    match m
    case Commit(e) => MayAppend(s.run, e)
    case Connect(after) =>
      // the server may be asked for, or round down to, anything up to the client's cursor
      s.server.Down? && s.client.hasSource && after <= s.client.lastSeq
    case ReadPage => s.server.Up? && !s.server.ended && s.server.page == []
    case ServeNext => s.server.Up? && !s.server.ended && s.server.page != []
    case Heartbeat => s.server.Up? && !s.server.ended
    case Deliver => s.wire != [] && s.client.hasSource
    case Break(_) => s.client.hasSource || s.server.Up?
    case Retry => s.client.retryPending && s.server.Down?
    case Reopen => s.server.Down?
  }

  function Fresh(log: seq<Event>, n: nat): Option<Event> {
    if n < |log| then Some(log[n]) else None
  }

  function Apply(s: System, m: Move): System
    requires Enabled(s, m)
  {
    match m
    case Commit(e) => s.(run := AppendEvent(s.run, e))
    case Connect(after) => s.(server := Up(after, [], false), wire := [Hello], wireFrom := after)
    case ReadPage =>
      var rest := if s.server.lastSeq <= |s.run.log| then s.run.log[s.server.lastSeq..] else [];
      s.(server := s.server.(page := if |rest| > PAGE_LIMIT then rest[..PAGE_LIMIT] else rest))
    case ServeNext =>
      var n, e := s.server.lastSeq + 1, s.server.page[0];
      var next := Up(n, s.server.page[1..], false);
      (match ServeOne(e, Following(s.server.page, Fresh(s.run.log, n)))
       case Hidden => s.(server := next)
       case Sent => s.(server := next, wire := s.wire + [RunFrame(n, e)])
       case SentLast => s.(server := next.(ended := true), wire := s.wire + [RunFrame(n, e)]))
    case Heartbeat => s.(wire := s.wire + [Ping])
    case Deliver =>
      var f := s.wire[0];
      var (c, applied) := OnFrame(s.client, f);
      s.(wire := s.wire[1..], client := c,
         wireFrom := if f.RunFrame? then f.seqNo else s.wireFrom,
         applied := if applied then s.applied + [f] else s.applied)
    case Break(maxRetries) => s.(server := Down, wire := [], client := OnError(s.client, maxRetries))
    case Retry => s.(client := OnRetryTimer(s.client))
    case Reopen => s.(client := Resumed(s.client), wire := [])
  }

  function RunFrames(wire: seq<Frame>): seq<Frame> {
    if wire == [] then []
    else if wire[0].RunFrame? then [wire[0]] + RunFrames(wire[1..])
    else RunFrames(wire[1..])
  }

  lemma {:induction false} RunFramesSnoc(wire: seq<Frame>, f: Frame)
    ensures RunFrames(wire + [f]) == if f.RunFrame? then RunFrames(wire) + [f] else RunFrames(wire)
  {
    if wire != [] {
      assert (wire + [f])[1..] == wire[1..] + [f];
      RunFramesSnoc(wire[1..], f);
    } else {
      assert wire + [f] == [f];
    }
  }

  /** Nothing missing, nothing twice, nothing out of order: up to the cursor and on the wire. */
  ghost predicate Inv(s: System) {
    && LogOk(s.run)
    && Covers(s.run.log, s.base, s.applied, s.client.lastSeq)
    && s.wireFrom <= s.client.lastSeq && (s.client.hasSource ==> !s.client.terminal)
    && WireOk(s)
  }

  ghost predicate WireOk(s: System) {
    && (s.server.Down? ==> RunFrames(s.wire) == [])
    && (s.server.Up? ==>
          && Covers(s.run.log, s.wireFrom, RunFrames(s.wire), s.server.lastSeq)
          && s.server.lastSeq + |s.server.page| <= |s.run.log|
          && s.server.page == s.run.log[s.server.lastSeq..s.server.lastSeq + |s.server.page|])
  }

  /** A browser that starts from a snapshot taken at some event of the log. */
  ghost predicate Init(s: System) {
    && LogOk(s.run) && s.base <= |s.run.log|
    && s.client == OpenSource(Prepared(s.base))
    && s.server == Down && s.wire == [] && s.wireFrom == s.base && s.applied == []
  }

  lemma InitInv(s: System)
    requires Init(s)
    ensures Inv(s)
  {
  }

  lemma CoversApplied(log: seq<Event>, base: nat, applied: seq<Frame>, cursor: nat, f: Frame)
    requires Covers(log, base, applied, cursor)
    requires f.RunFrame? && cursor < f.seqNo <= |log| && f.event == log[f.seqNo - 1]
    requires forall n :: cursor < n < f.seqNo ==> Superseded(log, n)
    ensures Covers(log, base, applied + [f], f.seqNo)
  {
    var all := applied + [f];
    forall n | base < n <= f.seqNo ensures Carries(all, n) || Superseded(log, n) {
      if n == f.seqNo {
        assert all[|applied|].seqNo == n;
      } else if n <= cursor && Carries(applied, n) {
        var i :| 0 <= i < |applied| && applied[i].RunFrame? && applied[i].seqNo == n;
        assert all[i].seqNo == n;
      }
    }
  }

  lemma DeliverApplied(s: System)
    requires Inv(s) && Enabled(s, Deliver)
    ensures var t := Apply(s, Deliver); Covers(t.run.log, t.base, t.applied, t.client.lastSeq)
    ensures Apply(s, Deliver).wireFrom <= Apply(s, Deliver).client.lastSeq
  {
    var f := s.wire[0];
    if f.RunFrame? {
      assert RunFrames(s.wire)[0] == f;
      CoversFirst(s.run.log, s.wireFrom, RunFrames(s.wire), s.server.lastSeq);
      if f.seqNo > s.client.lastSeq {
        CoversApplied(s.run.log, s.base, s.applied, s.client.lastSeq, f);
      }
    }
  }

  lemma DeliverWire(s: System)
    requires Inv(s) && Enabled(s, Deliver)
    ensures WireOk(Apply(s, Deliver))
  {
    var f, t := s.wire[0], Apply(s, Deliver);
    if f.RunFrame? {
      assert RunFrames(s.wire)[0] == f && RunFrames(s.wire)[1..] == RunFrames(s.wire[1..]);
      CoversFirst(s.run.log, s.wireFrom, RunFrames(s.wire), s.server.lastSeq);
    } else {
      assert RunFrames(s.wire) == RunFrames(t.wire);
    }
  }

  lemma DeliverKeepsInv(s: System)
    requires Inv(s) && Enabled(s, Deliver)
    ensures Inv(Apply(s, Deliver))
  {
    DeliverApplied(s);
    DeliverWire(s);
  }

  /** What the server sees after the event in hand is what the log holds there now. */
  lemma FollowingIsNext(s: System)
    requires Inv(s) && Enabled(s, ServeNext)
    ensures var n, page := s.server.lastSeq + 1, s.server.page;
            && n <= |s.run.log| && page[0] == s.run.log[n - 1]
            && Following(page, Fresh(s.run.log, n)) == Fresh(s.run.log, n)
            && page[1..] == s.run.log[n..n + |page[1..]|]
  {
    var page := s.server.page;
    assert |page| > 1 ==> page[1] == s.run.log[s.server.lastSeq + 1];
  }

  /** One more event of the log taken from the page: on the wire, or left out as superseded. */
  lemma CoversNext(log: seq<Event>, from: nat, wire: seq<Frame>, n: nat, hidden: bool)
    requires 1 <= n <= |log| && Covers(log, from, RunFrames(wire), n - 1) && (hidden ==> Superseded(log, n))
    ensures Covers(log, from, RunFrames(if hidden then wire else wire + [RunFrame(n, log[n - 1])]), n)
  {
    if hidden {
      CoversHidden(log, from, RunFrames(wire), n - 1);
    } else {
      RunFramesSnoc(wire, RunFrame(n, log[n - 1]));
      CoversSent(log, from, RunFrames(wire), n - 1);
    }
  }

  lemma HiddenIsSuperseded(run: Run, n: nat)
    requires LogOk(run) && 1 <= n <= |run.log| && ServeOne(run.log[n - 1], Fresh(run.log, n)) == Hidden
    ensures Superseded(run.log, n)
  {
  }

  lemma ServeKeepsWire(s: System)
    requires Inv(s) && Enabled(s, ServeNext)
    ensures WireOk(Apply(s, ServeNext))
  {
    var n, log := s.server.lastSeq + 1, s.run.log;
    FollowingIsNext(s);
    var hidden := ServeOne(log[n - 1], Fresh(log, n)) == Hidden;
    if hidden {
      HiddenIsSuperseded(s.run, n);
    }
    CoversNext(log, s.wireFrom, s.wire, n, hidden);
    var t := Apply(s, ServeNext);
    assert t.wire == if hidden then s.wire else s.wire + [RunFrame(n, log[n - 1])];
    assert t.server.lastSeq == n && t.server.page == s.server.page[1..];
  }

  lemma CommitKeepsInv(s: System, e: Event)
    requires Inv(s) && Enabled(s, Commit(e))
    ensures Inv(Apply(s, Commit(e)))
  {
    AppendKeepsLog(s.run, e);
    CoversGrows(s.run.log, e, s.base, s.applied, s.client.lastSeq);
    if s.server.Up? {
      CoversGrows(s.run.log, e, s.wireFrom, RunFrames(s.wire), s.server.lastSeq);
    }
  }

  /** Every move keeps the invariant, wherever connections break and however pages fall. */
  lemma MovesKeepInv(s: System, m: Move)
    requires Inv(s) && Enabled(s, m)
    ensures Inv(Apply(s, m))
  {
    match m {
      case Commit(e) => CommitKeepsInv(s, e);
      case ServeNext => ServeKeepsWire(s);
      case Heartbeat => RunFramesSnoc(s.wire, Ping);
      case Deliver => DeliverKeepsInv(s);
      case Connect(after) => assert RunFrames([Hello]) == [];
      case _ =>
    }
  }

  // ---- whole runs ---------------------------------------------------------------------

  ghost predicate StepAt(states: seq<System>, moves: seq<Move>, t: nat)
    requires |states| == |moves| + 1 && t < |moves|
  {
    Enabled(states[t], moves[t]) && states[t + 1] == Apply(states[t], moves[t])
  }

  ghost predicate IsRun(states: seq<System>, moves: seq<Move>) {
    && |states| == |moves| + 1 && Init(states[0])
    && forall t :: 0 <= t < |moves| ==> StepAt(states, moves, t)
  }

  lemma {:induction false} RunInv(states: seq<System>, moves: seq<Move>, t: nat)
    requires IsRun(states, moves) && t < |states|
    ensures Inv(states[t]) && states[t].base == states[0].base
  {
    if t == 0 {
      InitInv(states[0]);
    } else {
      RunInv(states, moves, t - 1);
      assert StepAt(states, moves, t - 1);
      MovesKeepInv(states[t - 1], moves[t - 1]);
    }
  }

  /**
   * Delivery, end to end: at every moment of every run, the events the client has applied are, in
   * strictly increasing order and once each, exactly the log from where it started to its cursor,
   * minus nothing but failures that a resume superseded.
   */
  lemma Delivered(states: seq<System>, moves: seq<Move>, t: nat)
    requires IsRun(states, moves) && t < |states|
    ensures Covers(states[t].run.log, states[0].base, states[t].applied, states[t].client.lastSeq)
  {
    RunInv(states, moves, t);
  }

  /** Nothing is held back: once the server has read the log and the wire is empty, all is applied. */
  lemma QuietMeansComplete(states: seq<System>, moves: seq<Move>, t: nat)
    requires IsRun(states, moves) && t < |states|
    requires states[t].server.Up? && states[t].server.lastSeq == |states[t].run.log|
    requires states[t].wire == []
    ensures states[t].client.lastSeq == |states[t].run.log|
  {
    RunInv(states, moves, t);
    var s := states[t];
    assert !Superseded(s.run.log, |s.run.log|) && RunFrames(s.wire) == [];
  }
}
