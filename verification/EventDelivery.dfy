/**
 * Which events of a log reach the client: what a page sends and where it stops, said of the events
 * themselves, and that along every run nothing superseded is sent or ends a stream.
 */
module EventDelivery {
  import opened EventStream
  import opened Wrappers

  // ---- one page ---------------------------------------------------------------

  ghost predicate Ends(e: Event) {
    e.kind in {RunComplete, RunFailed, RunCancelled}
  }

  /** The event after number n, as the server sees it: the next of the page, or a fresh read after the last. */
  ghost function NextSeen(page: seq<Event>, after: nat, readAfter: nat -> Option<Event>, n: nat): Option<Event> {
    if after < n < after + |page| then Some(page[n - after]) else readAfter(n)
  }

  ghost predicate ResumedNext(page: seq<Event>, after: nat, readAfter: nat -> Option<Event>, n: nat) {
    var next := NextSeen(page, after, readAfter, n);
    next.Some? && next.value.kind == RunResumed
  }

  ghost predicate InPage(page: seq<Event>, after: nat, n: nat) {
    after < n <= after + |page|
  }

  /** Event n is an ending that a resume is seen to follow: it is history. */
  ghost predicate IsHistory(page: seq<Event>, after: nat, readAfter: nat -> Option<Event>, n: nat) {
    InPage(page, after, n) && Ends(page[n - after - 1]) && ResumedNext(page, after, readAfter, n)
  }

  /** Event n is an ending that stands. */
  ghost predicate Stands(page: seq<Event>, after: nat, readAfter: nat -> Option<Event>, n: nat) {
    InPage(page, after, n) && Ends(page[n - after - 1]) && !ResumedNext(page, after, readAfter, n)
  }

  /** The page stops at the first ending that stands, or else is served to its end. */
  ghost predicate StopsRight(page: seq<Event>, after: nat, readAfter: nat -> Option<Event>, r: PageResult) {
    && (forall n :: after < n < r.lastSeq ==> !Stands(page, after, readAfter, n))
    && if r.stopped then Stands(page, after, readAfter, r.lastSeq)
       else r.lastSeq == after + |page| && !Stands(page, after, readAfter, r.lastSeq)
  }

  /** The frames are the events up to where it stopped, in order, but for those that are history. */
  ghost predicate SendsRight(page: seq<Event>, after: nat, readAfter: nat -> Option<Event>, r: PageResult) {
    && (forall i :: 0 <= i < |r.frames| ==> FrameOf(page, after, r.frames[i]))
    && (forall i, j :: 0 <= i < j < |r.frames| ==> r.frames[i].seqNo < r.frames[j].seqNo)
    && forall n :: after < n <= after + |page| ==>
         (Carries(r.frames, n) <==> n <= r.lastSeq && !IsHistory(page, after, readAfter, n))
  }

  ghost predicate FrameOf(page: seq<Event>, after: nat, f: Frame) {
    f.RunFrame? && InPage(page, after, f.seqNo) && f.event == page[f.seqNo - after - 1]
  }

  /** Dropping the head of a page moves its numbers by one and changes nothing else. */
  lemma RestOfPage(page: seq<Event>, after: nat, readAfter: nat -> Option<Event>, n: nat)
    requires page != [] && n > after + 1
    ensures IsHistory(page, after, readAfter, n) <==> IsHistory(page[1..], after + 1, readAfter, n)
    ensures Stands(page, after, readAfter, n) <==> Stands(page[1..], after + 1, readAfter, n)
  {
  }

  lemma HeadServed(page: seq<Event>, after: nat, readAfter: nat -> Option<Event>)
    requires page != []
    ensures var served := ServeOne(page[0], Following(page, readAfter(after + 1)));
            && (served == Hidden <==> IsHistory(page, after, readAfter, after + 1))
            && (served == SentLast <==> Stands(page, after, readAfter, after + 1))
  {
  }

  lemma {:induction false} PageStops(page: seq<Event>, after: nat, readAfter: nat -> Option<Event>)
    ensures StopsRight(page, after, readAfter, ServePage(page, after, readAfter))
    ensures after <= ServePage(page, after, readAfter).lastSeq <= after + |page|
    ensures page != [] ==> after < ServePage(page, after, readAfter).lastSeq
  {
    if page != [] {
      HeadServed(page, after, readAfter);
      PageStops(page[1..], after + 1, readAfter);
      var r := ServePage(page, after, readAfter);
      forall n | after + 1 < n
        ensures Stands(page, after, readAfter, n) <==> Stands(page[1..], after + 1, readAfter, n)
      {
        RestOfPage(page, after, readAfter, n);
      }
    }
  }

  lemma FramesOfRest(page: seq<Event>, after: nat, readAfter: nat -> Option<Event>, frames: seq<Frame>)
    requires page != [] && forall i :: 0 <= i < |frames| ==> FrameOf(page[1..], after + 1, frames[i])
    ensures forall i :: 0 <= i < |frames| ==> FrameOf(page, after, frames[i])
    ensures !Carries(frames, after + 1)
  {
    forall i | 0 <= i < |frames| ensures FrameOf(page, after, frames[i]) {
      assert FrameOf(page[1..], after + 1, frames[i]);
    }
    if i :| 0 <= i < |frames| && frames[i].RunFrame? && frames[i].seqNo == after + 1 {
      assert false;
    }
  }

  lemma CarriesAfter(f: Frame, frames: seq<Frame>, n: nat)
    requires f.RunFrame?
    ensures Carries([f] + frames, n) <==> f.seqNo == n || Carries(frames, n)
  {
    var all := [f] + frames;
    assert all[0] == f;
    if i :| 0 <= i < |all| && all[i].RunFrame? && all[i].seqNo == n {
      assert i > 0 ==> all[i] == frames[i - 1];
    }
    if i :| 0 <= i < |frames| && frames[i].RunFrame? && frames[i].seqNo == n {
      assert all[i + 1] == frames[i];
    }
  }

  lemma {:induction false} PageSends(page: seq<Event>, after: nat, readAfter: nat -> Option<Event>)
    ensures SendsRight(page, after, readAfter, ServePage(page, after, readAfter))
  {
    if page != [] {
      HeadServed(page, after, readAfter);
      PageSends(page[1..], after + 1, readAfter);
      PageStops(page[1..], after + 1, readAfter);
      var rest := ServePage(page[1..], after + 1, readAfter);
      var r := ServePage(page, after, readAfter);
      var f := RunFrame(after + 1, page[0]);
      FramesOfRest(page, after, readAfter, rest.frames);
      forall n | after < n <= after + |page|
        ensures Carries(r.frames, n) <==> n <= r.lastSeq && !IsHistory(page, after, readAfter, n)
      {
        if n > after + 1 {
          RestOfPage(page, after, readAfter, n);
        }
        CarriesAfter(f, [], n);
        assert [f] + [] == [f];
        CarriesAfter(f, rest.frames, n);
      }
    }
  }

  /** On a log, history is exactly the superseded failures whose resume the page or the read shows. */
  lemma HistoryIsSuperseded(run: Run, after: nat, size: nat, readAfter: nat -> Option<Event>, n: nat)
    requires LogOk(run) && after + size <= |run.log| && ReadsLog(readAfter, run.log)
    ensures var page := run.log[after..after + size];
            IsHistory(page, after, readAfter, n) <==>
              InPage(page, after, n) && Superseded(run.log, n) && (n < after + size || readAfter(n).Some?)
  {
    var page := run.log[after..after + size];
    if InPage(page, after, n) {
      assert page[n - after - 1] == run.log[n - 1];
      assert n < after + size ==> page[n - after] == run.log[n];
    }
  }

  // ---- one event, in a run ---------------------------------------------------------

  /** The server takes the next event of its page: sent unless superseded by now, and the last if it is an ending. */
  lemma ServedIff(s: System)
    requires Inv(s) && Enabled(s, ServeNext)
    ensures var n, t := s.server.lastSeq + 1, Apply(s, ServeNext);
            && n <= |s.run.log|
            && t.wire == (if Superseded(s.run.log, n) then s.wire else s.wire + [RunFrame(n, s.run.log[n - 1])])
            && (t.server.ended <==> Ends(s.run.log[n - 1]) && !Superseded(s.run.log, n))
            && t.server.lastSeq == n && t.applied == s.applied && t.client == s.client
  {
    FollowingIsNext(s);
    var n, log := s.server.lastSeq + 1, s.run.log;
    assert Superseded(log, n) <==> Terminal(log[n - 1]) && n < |log| && log[n].kind == RunResumed by {
      assert Terminal(log[n - 1]) && n < |log| ==> Superseded(log, n);
    }
  }

  // ---- whole runs ---------------------------------------------------------------------

  /** The frame was put on the wire at move u, and was not superseded then. */
  ghost predicate ServedAt(states: seq<System>, moves: seq<Move>, u: nat, f: Frame)
    requires |states| == |moves| + 1
  {
    && u < |moves| && moves[u] == ServeNext && states[u].server.Up? && f.RunFrame?
    && f.seqNo == states[u].server.lastSeq + 1 && f.seqNo <= |states[u].run.log|
    && f.event == states[u].run.log[f.seqNo - 1] && !Superseded(states[u].run.log, f.seqNo)
  }

  ghost predicate ServedBefore(states: seq<System>, moves: seq<Move>, t: nat, f: Frame)
    requires |states| == |moves| + 1
  {
    exists u: nat :: u < t && ServedAt(states, moves, u, f)
  }

  ghost predicate AllServed(states: seq<System>, moves: seq<Move>, t: nat, frames: seq<Frame>)
    requires |states| == |moves| + 1
  {
    forall f :: f in frames && f.RunFrame? ==> ServedBefore(states, moves, t, f)
  }

  /** A client that has finished has applied an ending last. */
  ghost predicate FinishedByEnding(s: System) {
    s.client.terminal ==> s.applied != [] && EndingFrame(s.applied[|s.applied| - 1])
  }

  ghost predicate EndingFrame(f: Frame) {
    f.RunFrame? && Ends(f.event)
  }

  lemma ServedLater(states: seq<System>, moves: seq<Move>, t: nat, frames: seq<Frame>)
    requires |states| == |moves| + 1 && AllServed(states, moves, t, frames)
    ensures AllServed(states, moves, t + 1, frames)
  {
    forall f | f in frames && f.RunFrame? ensures ServedBefore(states, moves, t + 1, f) {
      assert ServedBefore(states, moves, t, f);
    }
  }

  /** What a move does to the frames under way and applied. */
  lemma FramesMove(s: System, m: Move)
    requires Inv(s) && Enabled(s, m)
    ensures var t := Apply(s, m);
            && (forall f :: f in t.wire && f.RunFrame? ==>
                  || f in s.wire
                  || (m == ServeNext && f.seqNo == s.server.lastSeq + 1 && f.seqNo <= |s.run.log|
                      && f.event == s.run.log[f.seqNo - 1] && !Superseded(s.run.log, f.seqNo)))
            && (forall f :: f in t.applied ==> f in s.applied || f in s.wire)
            && (FinishedByEnding(s) ==> FinishedByEnding(t))
  {
    match m {
      case ServeNext => ServedIff(s);
      case _ =>
    }
  }

  lemma {:induction false} RunServes(states: seq<System>, moves: seq<Move>, t: nat)
    requires IsRun(states, moves) && t < |states|
    ensures AllServed(states, moves, t, states[t].wire) && AllServed(states, moves, t, states[t].applied)
    ensures FinishedByEnding(states[t])
  {
    if t > 0 {
      var s, m := states[t - 1], moves[t - 1];
      RunServes(states, moves, t - 1);
      RunInv(states, moves, t - 1);
      assert StepAt(states, moves, t - 1);
      FramesMove(s, m);
      ServedLater(states, moves, t - 1, s.wire);
      ServedLater(states, moves, t - 1, s.applied);
      forall f | f in states[t].wire && f.RunFrame? ensures ServedBefore(states, moves, t, f) {
        if f !in s.wire {
          assert ServedAt(states, moves, t - 1, f);
        }
      }
      forall f | f in states[t].applied && f.RunFrame? ensures ServedBefore(states, moves, t, f) {
      }
    }
  }

  /** At every moment of every run, no event the client has applied was superseded when it was served. */
  lemma NothingSupersededArrives(states: seq<System>, moves: seq<Move>, t: nat, f: Frame)
    requires IsRun(states, moves) && t < |states| && f in states[t].applied && f.RunFrame?
    ensures ServedBefore(states, moves, t, f)
  {
    RunServes(states, moves, t);
  }

  /** A client has finished only after an ending that stood when it was served. */
  lemma FinishedByStandingEnding(states: seq<System>, moves: seq<Move>, t: nat)
    requires IsRun(states, moves) && t < |states| && states[t].client.terminal
    ensures var applied := states[t].applied;
            applied != [] && EndingFrame(applied[|applied| - 1])
            && ServedBefore(states, moves, t, applied[|applied| - 1])
  {
    RunServes(states, moves, t);
  }

  // ---- the log and the client, step by step ---------------------------------------------

  /** What may be appended when, and what becomes of the run. */
  lemma AppendIff(r: Run, e: Event)
    ensures MayAppend(r, e) <==> if e.kind == RunResumed then r.status == IsFailed else r.status == IsRunning
    ensures AppendEvent(r, e).log == r.log + [e]
    ensures var status := AppendEvent(r, e).status;
            && (status == IsCompleted <==> e.kind == RunComplete)
            && (status == IsFailed <==> e.kind == RunFailed)
            && (status == IsCancelled <==> e.kind == RunCancelled)
  {
  }

  /** The client listens: it has a source and has not finished. */
  ghost predicate Listens(c: Client) {
    c.hasSource && !c.terminal
  }

  /**
   * A frame is applied if and only if the client listens and it is a run event it has not seen; any
   * frame it hears shows that the connection is alive, and an ending closes it.
   */
  lemma HearsIff(c: Client, f: Frame)
    ensures var (d, applied) := OnFrame(c, f);
            && (applied <==> Listens(c) && f.RunFrame? && (f.seqNo == 0 || f.seqNo > c.lastSeq))
            && d.lastSeq == (if applied && f.seqNo > 0 then f.seqNo else c.lastSeq)
            && (d.terminal <==> c.terminal || (applied && Ends(f.event)))
            && (if applied && Ends(f.event) then !d.hasSource && !d.retryPending && d.state == Closed
                else d.hasSource == c.hasSource && d.retryPending == c.retryPending)
            && (!Listens(c) || (f.RunFrame? && !applied) ==> d == c)
            && (Listens(c) && (f.RunFrame? ==> applied) ==>
                  && (d.state == Open || (applied && Ends(f.event)))
                  && d.attempt == if c.state == Open then c.attempt else 0)
  {
  }

  /** Losing the connection costs one retry, and the client gives up exactly when none is left. */
  lemma LosesIff(c: Client, maxRetries: nat)
    ensures var d := OnError(c, maxRetries);
            && (!Listens(c) ==> d == c)
            && (Listens(c) ==>
                  && !d.hasSource && d.lastSeq == c.lastSeq && !d.terminal
                  && (d.retryPending <==> c.attempt < maxRetries)
                  && d.attempt == (if c.attempt < maxRetries then c.attempt + 1 else c.attempt)
                  && d.state == if c.attempt < maxRetries then Reconnecting else Closed)
  {
  }

  /** Closing drops source and timer and keeps the cursor; a client that was never opened stays idle. */
  lemma ClosesIff(c: Client)
    ensures Close(c) == Client(
              if c.state == Idle then Idle else Closed, c.attempt, c.lastSeq, c.terminal, false, false)
  {
  }

  /** A retry opens the source again where it stopped; so does a resume, which also forgets the ending. */
  lemma OpensIff(c: Client)
    ensures OnRetryTimer(c).hasSource <==> c.hasSource || (c.retryPending && !c.terminal)
    ensures !OnRetryTimer(c).retryPending && OnRetryTimer(c).lastSeq == c.lastSeq
    ensures OnRetryTimer(c).terminal == c.terminal && OnRetryTimer(c).attempt == c.attempt
    ensures OnRetryTimer(c).state == if c.retryPending && !c.terminal then Connecting else c.state
    ensures Resumed(c) == Client(Connecting, 0, c.lastSeq, false, true, false)
    ensures forall after: nat :: Prepared(after) == Client(Idle, 0, after, false, false, false)
    ensures forall after: int :: after < 0 ==> Prepared(after) == Prepared(0)
  {
  }

  ghost function Retried(c: Client, maxRetries: nat, n: nat): Client {
    if n == 0 then c else OnError(OnRetryTimer(Retried(c, maxRetries, n - 1)), maxRetries)
  }

  /** Without any activity in between, a client that listens survives exactly as many losses as it has retries left. */
  lemma {:induction false} SurvivesIff(c: Client, maxRetries: nat, n: nat)
    requires Listens(c) && !c.retryPending && c.attempt == 0 && n >= 1
    ensures Retried(c, maxRetries, n).retryPending <==> n <= maxRetries
    ensures !Retried(c, maxRetries, n).terminal && !Retried(c, maxRetries, n).hasSource
    ensures n <= maxRetries ==> Retried(c, maxRetries, n).attempt == n
  {
    var before := Retried(c, maxRetries, n - 1);
    if n > 1 {
      SurvivesIff(c, maxRetries, n - 1);
      OpensIff(before);
    }
    LosesIff(OnRetryTimer(before), maxRetries);
  }
}
