/**
 * Waking event streams: writers notify inside the transaction that appends an event, one listener
 * per process turns notifications into wake flags, and a stream clears its flag, reads the table
 * and only then waits. The moves below are the atomic steps of all of them.
 */
module RunEventHub {
  type RunId = nat
  type StreamId = nat

  const PAGE_LIMIT: nat := 100

  /** Where a stream is in its loop. */
  datatype Pc = Looking | Cleared | Waiting

  /** `seen` counts the events of the run the stream has read; `scheduled` is a set in flight. */
  datatype Stream = Stream(run: RunId, pc: Pc, woken: bool, scheduled: bool, seen: nat)

  /** Where the listener thread is: no LISTEN, just listening, waking everyone, receiving. */
  datatype Phase = Off | Listening | WakingAll(todo: set<RunId>) | Receiving

  datatype Hub = Hub(
    committed: map<RunId, nat>,    // events committed per run
    queue: seq<RunId>,             // notifications on the connection, not yet received
    linkUp: bool,                  // whether the connection is alive
    phase: Phase,
    healthy: bool,                 // the flag callers see
    publishing: set<StreamId>,     // the rest of the entries one publish call has copied
    streams: map<StreamId, Stream>)

  function Count(h: Hub, r: RunId): nat {
    if r in h.committed then h.committed[r] else 0
  }

  function Subscribers(h: Hub, r: RunId): set<StreamId> {
    set id | id in h.streams && h.streams[id].run == r
  }

  function SubscribedRuns(h: Hub): set<RunId> {
    set id | id in h.streams :: h.streams[id].run
  }

  datatype Move =
    | Commit(r: RunId)
    | Subscribe(id: StreamId, r: RunId, seen: nat)
    | Unsubscribe(id: StreamId)
    | Clear(id: StreamId)
    | Read(id: StreamId)
    | Wake(id: StreamId)
    | Timeout(id: StreamId)
    | SetFlag(id: StreamId)       // the loop runs the scheduled woken.set
    | Connect
    | StartWakeAll
    | WakeRun(r: RunId)
    | BecomeHealthy
    | Receive
    | Schedule(id: StreamId)      // one call_soon_threadsafe of a publish
    | LoseLink
    | ListenerFails

  predicate Enabled(h: Hub, m: Move) {
    match m
    case Commit(r) => true
    case Subscribe(id, r, seen) => id !in h.streams && seen <= Count(h, r)
    case Unsubscribe(id) => id in h.streams
    case Clear(id) => id in h.streams && h.streams[id].pc == Looking
    case Read(id) => id in h.streams && h.streams[id].pc == Cleared && h.streams[id].seen <= Count(h, h.streams[id].run)
    case Wake(id) => id in h.streams && h.streams[id].pc == Waiting && h.streams[id].woken
    case Timeout(id) => id in h.streams && h.streams[id].pc == Waiting
    case SetFlag(id) => id in h.streams && h.streams[id].scheduled
    case Connect => h.phase == Off
    case StartWakeAll => h.phase == Listening
    case WakeRun(r) => h.phase.WakingAll? && r in h.phase.todo && h.publishing == {}
    case BecomeHealthy => h.phase == WakingAll({}) && h.publishing == {}
    case Receive => h.phase == Receiving && h.queue != [] && h.publishing == {}
    case Schedule(id) => id in h.publishing
    case LoseLink => h.linkUp
    case ListenerFails => h.phase != Off && h.publishing == {}
  }

  function SetStream(h: Hub, id: StreamId, s: Stream): Hub {
    h.(streams := h.streams[id := s])
  }

  function Apply(h: Hub, m: Move): Hub
    requires Enabled(h, m)
  {
    match m
    case Commit(r) =>
      // the notification is delivered with the commit, to a connection that listens
      h.(committed := h.committed[r := Count(h, r) + 1],
         queue := if h.linkUp && h.phase != Off then h.queue + [r] else h.queue)
    case Subscribe(id, r, seen) => SetStream(h, id, Stream(r, Looking, false, false, seen))
    case Unsubscribe(id) => h.(streams := h.streams - {id})
    case Clear(id) => SetStream(h, id, h.streams[id].(pc := Cleared, woken := false))
    case Read(id) =>
      var s := h.streams[id];
      var all := Count(h, s.run);
      // a full page means more rows are waiting: the stream looks again instead of waiting
      SetStream(h, id, if all - s.seen >= PAGE_LIMIT then s.(pc := Looking, seen := s.seen + PAGE_LIMIT)
                       else s.(pc := Waiting, seen := all))
    case Wake(id) => SetStream(h, id, h.streams[id].(pc := Looking))
    case Timeout(id) => SetStream(h, id, h.streams[id].(pc := Looking))
    case SetFlag(id) => SetStream(h, id, h.streams[id].(woken := true, scheduled := false))
    case Connect => h.(phase := Listening, linkUp := true, queue := [])
    case StartWakeAll => h.(phase := WakingAll(SubscribedRuns(h)))
    case WakeRun(r) => h.(phase := WakingAll(h.phase.todo - {r}), publishing := Subscribers(h, r))
    case BecomeHealthy => h.(phase := Receiving, healthy := true)
    case Receive => h.(queue := h.queue[1..], publishing := Subscribers(h, h.queue[0]))
    case Schedule(id) =>
      h.(publishing := h.publishing - {id},
         streams := if id in h.streams then h.streams[id := h.streams[id].(scheduled := true)] else h.streams)
    case LoseLink => h.(linkUp := false, queue := [])
    case ListenerFails => h.(phase := Off, healthy := false, linkUp := false, queue := [])
  }

  const START := Hub(map[], [], false, Off, false, {}, map[])

  /** A notification, or the catch-up of a run, is passed on to exactly the streams of that run. */
  lemma PassesOnIff(h: Hub, m: Move, id: StreamId)
    requires Enabled(h, m) && (m.Receive? || m.WakeRun?)
    ensures h.publishing == {}
    ensures m.Receive? ==> h.phase == Receiving && h.queue != [] && Apply(h, m).queue == h.queue[1..]
    ensures m.WakeRun? ==> h.phase.WakingAll? && m.r in h.phase.todo
    ensures id in Apply(h, m).publishing <==>
              id in h.streams && h.streams[id].run == (if m.Receive? then h.queue[0] else m.r)
  {
  }

  /** A stream reads at most a page, and waits if and only if that was all there is. */
  lemma ReadsAPage(h: Hub, id: StreamId)
    requires Enabled(h, Read(id))
    ensures var (s, t, all) := (h.streams[id], Apply(h, Read(id)).streams[id], Count(h, h.streams[id].run));
            && s.pc == Cleared
            && t.seen == (if all <= s.seen + 99 then all else s.seen + 100)
            && (t.pc == Waiting <==> all - s.seen < 100) && (t.pc == Looking <==> all - s.seen >= 100)
            && t.run == s.run && t.woken == s.woken && t.scheduled == s.scheduled
  {
  }

  /** A commit is notified if and only if a live connection listens; healthy comes only after the catch-up. */
  lemma NotifiedIff(h: Hub, r: RunId)
    ensures var k := Apply(h, Commit(r));
            && Count(k, r) == Count(h, r) + 1
            && k.queue == if h.linkUp && h.phase != Off then h.queue + [r] else h.queue
    ensures Enabled(h, BecomeHealthy) ==> h.phase == WakingAll({}) && h.publishing == {}
  {
  }

  /** Every stream after every move: only its own moves, the loop and a publish touch it. */
  lemma StreamAfter(h: Hub, m: Move, id: StreamId)
    requires Enabled(h, m) && id in h.streams && m != Unsubscribe(id) && m != Read(id)
    ensures id in Apply(h, m).streams
    ensures var (s, t) := (h.streams[id], Apply(h, m).streams[id]);
            && t.run == s.run && t.seen == s.seen
            && t.pc == (if m == Clear(id) then Cleared else if m in {Wake(id), Timeout(id)} then Looking else s.pc)
            && t.woken == (if m == Clear(id) then false else if m == SetFlag(id) then true else s.woken)
            && t.scheduled == (if m == SetFlag(id) then false else if m == Schedule(id) then true else s.scheduled)
            && (m in {Wake(id), Timeout(id)} ==> s.pc == Waiting) && (m == Wake(id) ==> s.woken)
            && (m == Clear(id) ==> s.pc == Looking)
  {
  }

  /** The listener and its connection after every move. */
  lemma ListenerAfter(h: Hub, m: Move)
    requires Enabled(h, m)
    ensures var k := Apply(h, m);
            && k.phase == (match m
                           case Connect => Listening
                           case StartWakeAll => WakingAll(SubscribedRuns(h))
                           case WakeRun(r) => WakingAll(h.phase.todo - {r})
                           case BecomeHealthy => Receiving
                           case ListenerFails => Off
                           case _ => h.phase)
            && (k.healthy <==> m.BecomeHealthy? || (h.healthy && !m.ListenerFails?))
            && (k.linkUp <==> m.Connect? || (h.linkUp && !m.LoseLink? && !m.ListenerFails?))
            && (m.Connect? || m.LoseLink? || m.ListenerFails? ==> k.queue == [])
            && (m.Schedule? ==> k.publishing == h.publishing - {m.id})
            && (!m.Schedule? && !m.Receive? && !m.WakeRun? ==> k.publishing == h.publishing)
  {
  }

  /** Nothing is left to pass on, and the stream waits with its flag down. */
  ghost predicate Asleep(h: Hub, id: StreamId) {
    && h.healthy && h.phase == Receiving && h.linkUp && h.queue == [] && h.publishing == {}
    && id in h.streams && Subscribers(h, h.streams[id].run) == {id}
    && h.streams[id].pc == Waiting && !h.streams[id].scheduled
  }

  /** With the connection alive, a commit leads a sleeping stream back to the table, and it reads the event. */
  lemma CommitIsRead(h: Hub, id: StreamId) returns (k: Hub)
    requires Asleep(h, id) && h.streams[id].seen == Count(h, h.streams[id].run)
    ensures var r := h.streams[id].run;
            && Makes(h, [Commit(r), Receive, Schedule(id), SetFlag(id)] + [Wake(id), Clear(id), Read(id)], k)
            && id in k.streams && k.streams[id].seen == Count(k, r) == Count(h, r) + 1
            && Asleep(k, id)
  {
    var r := h.streams[id].run;
    var woken := CommitWakes(h, id);
    k := WokenReads(woken, id);
    MakesConcat(h, [Commit(r), Receive, Schedule(id), SetFlag(id)], woken, [Wake(id), Clear(id), Read(id)], k);
  }

  lemma CommitWakes(h: Hub, id: StreamId) returns (k: Hub)
    requires Asleep(h, id)
    ensures var s := h.streams[id];
            && Makes(h, [Commit(s.run), Receive, Schedule(id), SetFlag(id)], k)
            && Asleep(k, id) && k.streams[id] == s.(woken := true) && Count(k, s.run) == Count(h, s.run) + 1
  {
    var r := h.streams[id].run;
    var a := Apply(h, Commit(r));
    var b := Apply(a, Receive);
    assert b.publishing == {id} && b.queue == [];
    var c := Apply(b, Schedule(id));
    k := Apply(c, SetFlag(id));
    assert Subscribers(k, r) == Subscribers(h, r);
    MakesCons(c, SetFlag(id), [], k);
    MakesCons(b, Schedule(id), [SetFlag(id)], k);
    MakesCons(a, Receive, [Schedule(id), SetFlag(id)], k);
    MakesCons(h, Commit(r), [Receive, Schedule(id), SetFlag(id)], k);
  }

  lemma WokenReads(h: Hub, id: StreamId) returns (k: Hub)
    requires Asleep(h, id) && h.streams[id].woken && Count(h, h.streams[id].run) == h.streams[id].seen + 1
    ensures Makes(h, [Wake(id), Clear(id), Read(id)], k) && Asleep(k, id)
    ensures k.streams[id].run == h.streams[id].run && k.streams[id].seen == Count(k, h.streams[id].run)
    ensures Count(k, h.streams[id].run) == Count(h, h.streams[id].run)
  {
    var r := h.streams[id].run;
    var a := Apply(h, Wake(id));
    var b := Apply(a, Clear(id));
    k := Apply(b, Read(id));
    assert Subscribers(k, r) == Subscribers(h, r);
    MakesCons(b, Read(id), [], k);
    MakesCons(a, Clear(id), [Read(id)], k);
    MakesCons(h, Wake(id), [Clear(id), Read(id)], k);
  }

  lemma {:induction false} MakesConcat(h: Hub, a: seq<Move>, j: Hub, b: seq<Move>, k: Hub)
    requires Makes(h, a, j) && Makes(j, b, k)
    ensures Makes(h, a + b, k)
    decreases |a|
  {
    if a == [] {
      assert a + b == b;
    } else {
      assert (a + b)[0] == a[0] && (a + b)[1..] == a[1..] + b;
      MakesConcat(Apply(h, a[0]), a[1..], j, b, k);
    }
  }

  /** These moves lead from one state to the other. */
  ghost predicate Makes(h: Hub, moves: seq<Move>, k: Hub)
    decreases |moves|
  {
    if moves == [] then h == k else Enabled(h, moves[0]) && Makes(Apply(h, moves[0]), moves[1..], k)
  }

  lemma MakesCons(h: Hub, m: Move, rest: seq<Move>, k: Hub)
    requires Enabled(h, m) && Makes(Apply(h, m), rest, k)
    ensures Makes(h, [m] + rest, k)
  {
    assert ([m] + rest)[1..] == rest;
  }

  // ---- no lost wakeup ------------------------------------------------------------

  /** The stream will look at the table again without waiting for its poll interval. */
  predicate WillLook(h: Hub, id: StreamId)
    requires id in h.streams
  {
    var s := h.streams[id];
    || s.pc != Waiting
    || s.woken
    || s.scheduled
    || id in h.publishing
    || s.run in h.queue
  }

  predicate Unread(h: Hub, id: StreamId)
    requires id in h.streams
  {
    h.streams[id].seen < Count(h, h.streams[id].run)
  }

  /** The catch-up of a fresh connection will reach this stream. */
  predicate WillCatchUp(h: Hub, id: StreamId)
    requires id in h.streams
  {
    h.phase == Listening || (h.phase.WakingAll? && h.streams[id].run in h.phase.todo)
  }

  ghost predicate Inv(h: Hub) {
    && (h.healthy ==> h.phase == Receiving)
    && (!h.linkUp ==> h.queue == [])
    && (forall id :: id in h.streams ==> h.streams[id].seen <= Count(h, h.streams[id].run))
    && (h.linkUp && h.phase != Off ==>
          forall id :: id in h.streams && Unread(h, id) ==> WillLook(h, id) || WillCatchUp(h, id))
  }

  lemma StartOk()
    ensures Inv(START)
  {
  }

  /** A stream with something unread stays on its way to it. */
  lemma StreamStaysServed(h: Hub, m: Move, id: StreamId)
    requires Inv(h) && Enabled(h, m)
    requires var t := Apply(h, m); t.linkUp && t.phase != Off && id in t.streams && Unread(t, id)
    ensures WillLook(Apply(h, m), id) || WillCatchUp(Apply(h, m), id)
  {
    var t := Apply(h, m);
    match m {
      case Commit(r) =>
        if t.streams[id].run == r {
          assert t.queue[|h.queue|] == r;
        } else {
          assert Unread(h, id);
          assert t.streams[id].run in h.queue ==> t.streams[id].run in t.queue;
        }
      case StartWakeAll => assert t.streams[id].run in SubscribedRuns(h);
      case WakeRun(r) =>
        if t.streams[id].run == r { assert id in Subscribers(h, r); }
      case Receive =>
        if t.streams[id].run == h.queue[0] {
          assert id in Subscribers(h, h.queue[0]);
        } else {
          assert h.queue == [h.queue[0]] + h.queue[1..];
        }
      case _ =>
    }
  }

  lemma ReadsStayInLog(h: Hub, m: Move)
    requires Inv(h) && Enabled(h, m)
    ensures Apply(h, m).healthy ==> Apply(h, m).phase == Receiving
    ensures !Apply(h, m).linkUp ==> Apply(h, m).queue == []
    ensures forall id :: id in Apply(h, m).streams ==>
              Apply(h, m).streams[id].seen <= Count(Apply(h, m), Apply(h, m).streams[id].run)
  {
  }

  /** Every step of every writer, stream and listener keeps the invariant. */
  lemma MovesKeepInv(h: Hub, m: Move)
    requires Inv(h) && Enabled(h, m)
    ensures Inv(Apply(h, m))
  {
    var t := Apply(h, m);
    ReadsStayInLog(h, m);
    forall id | t.linkUp && t.phase != Off && id in t.streams && Unread(t, id)
      ensures WillLook(t, id) || WillCatchUp(t, id)
    {
      StreamStaysServed(h, m, id);
    }
  }

  ghost predicate StepAt(states: seq<Hub>, moves: seq<Move>, t: nat)
    requires |states| == |moves| + 1 && t < |moves|
  {
    Enabled(states[t], moves[t]) && states[t + 1] == Apply(states[t], moves[t])
  }

  ghost predicate IsRun(states: seq<Hub>, moves: seq<Move>) {
    |states| == |moves| + 1 && states[0] == START && forall t :: 0 <= t < |moves| ==> StepAt(states, moves, t)
  }

  lemma {:induction false} RunInv(states: seq<Hub>, moves: seq<Move>, t: nat)
    requires IsRun(states, moves) && t < |states|
    ensures Inv(states[t])
  {
    if t == 0 {
      StartOk();
    } else {
      RunInv(states, moves, t - 1);
      assert StepAt(states, moves, t - 1);
      MovesKeepInv(states[t - 1], moves[t - 1]);
    }
  }

  /**
   * Over every interleaving: while the listener is healthy and its connection alive, a stream with
   * a committed event it has not read is on its way to the table, and the step that brings it
   * there is already enabled somewhere.
   */
  lemma NoLostWakeup(states: seq<Hub>, moves: seq<Move>, t: nat, id: StreamId)
    requires IsRun(states, moves) && t < |states|
    requires states[t].healthy && states[t].linkUp
    requires id in states[t].streams && Unread(states[t], id)
    ensures WillLook(states[t], id)
    ensures var h := states[t];
            || Enabled(h, Clear(id)) || Enabled(h, Read(id)) || Enabled(h, Wake(id)) || Enabled(h, SetFlag(id))
            || Enabled(h, Receive) || exists other :: Enabled(h, Schedule(other))
  {
    RunInv(states, moves, t);
    var h := states[t];
    if h.publishing != {} {
      var other :| other in h.publishing;
      assert Enabled(h, Schedule(other));
    }
  }

  /** Committed events are read in order and completely before a stream waits. */
  lemma WaitingMeansCaughtUp(h: Hub, id: StreamId)
    requires Inv(h) && Enabled(h, Read(id))
    ensures var t := Apply(h, Read(id));
            && h.streams[id].seen <= t.streams[id].seen <= Count(h, h.streams[id].run)
            && (t.streams[id].pc == Waiting ==> t.streams[id].seen == Count(h, h.streams[id].run))
  {
  }

  // ---- the flag alone is not enough -----------------------------------------------------

  ghost predicate Reachable(h: Hub) {
    exists states, moves :: IsRun(states, moves) && states[|moves|] == h
  }

  lemma StartReachable()
    ensures Reachable(START)
  {
    var moves: seq<Move> := [];
    assert IsRun([START], moves);
  }

  lemma ReachNext(h: Hub, m: Move)
    requires Reachable(h) && Enabled(h, m)
    ensures Reachable(Apply(h, m))
  {
    var states, moves :| IsRun(states, moves) && states[|moves|] == h;
    var moves', states' := moves + [m], states + [Apply(h, m)];
    forall t | 0 <= t < |moves'| ensures StepAt(states', moves', t) {
      if t < |moves| {
        assert StepAt(states, moves, t);
      }
    }
    assert IsRun(states', moves') && states'[|moves'|] == Apply(h, m);
  }

  lemma ReachableInv(h: Hub)
    requires Reachable(h)
    ensures Inv(h)
  {
    var states, moves :| IsRun(states, moves) && states[|moves|] == h;
    RunInv(states, moves, |moves|);
  }

  /**
   * What the flag is taken to say, that notifications arrive, holds exactly while the connection is
   * alive: then, and only then, a commit sends a sleeping stream of its run back to the table.
   */
  lemma CommitReachesSleeperIff(h: Hub, id: StreamId)
    requires Reachable(h) && h.healthy && id in h.streams && !WillLook(h, id)
    ensures WillLook(Apply(h, Commit(h.streams[id].run)), id) <==> h.linkUp
  {
    ReachableInv(h);
    var t := Apply(h, Commit(h.streams[id].run));
    if h.linkUp {
      assert t.queue[|h.queue|] == h.streams[id].run;
    }
  }

  /** Without it, the stream sleeps on until its own poll, its end, or the listener noticing the loss. */
  lemma SleepsOn(h: Hub, id: StreamId, m: Move)
    requires Inv(h) && h.healthy && !h.linkUp && id in h.streams && !WillLook(h, id)
    requires Enabled(h, m) && m != Timeout(id) && m != Unsubscribe(id) && !m.ListenerFails?
    ensures var t := Apply(h, m);
            t.healthy && !t.linkUp && id in t.streams && !WillLook(t, id) && t.streams[id] == h.streams[id]
  {
  }

  function Quiet(streams: map<StreamId, Stream>): Hub {
    Hub(map[], [], true, Receiving, true, {}, streams)
  }

  lemma QuietReachable()
    ensures Reachable(Quiet(map[]))
  {
    var a := START.(phase := Listening, linkUp := true);
    var b := a.(phase := WakingAll({}));
    StartReachable();
    ReachNext(START, Connect);
    ReachNext(a, StartWakeAll);
    assert SubscribedRuns(a) == {};
    assert Apply(a, StartWakeAll) == b;
    ReachNext(b, BecomeHealthy);
    assert Apply(b, BecomeHealthy) == Quiet(map[]);
  }

  function One(pc: Pc): map<StreamId, Stream> {
    map[0 := Stream(7, pc, false, false, 0)]
  }

  lemma WaitingReachable()
    ensures Reachable(Quiet(One(Waiting)))
  {
    QuietReachable();
    ReachNext(Quiet(map[]), Subscribe(0, 7, 0));
    assert Apply(Quiet(map[]), Subscribe(0, 7, 0)).streams == One(Looking);
    ReachNext(Quiet(One(Looking)), Clear(0));
    assert Apply(Quiet(One(Looking)), Clear(0)).streams == One(Cleared);
    ReachNext(Quiet(One(Cleared)), Read(0));
    assert Apply(Quiet(One(Cleared)), Read(0)).streams == One(Waiting);
  }

  /**
   * Between the loss of the connection and the listener noticing it, the flag still says healthy
   * while notifications go nowhere; then only the poll interval brings the stream back.
   */
  lemma FlagOutlivesLink() returns (h: Hub)
    ensures Reachable(h)
    ensures h.healthy && !h.linkUp && 0 in h.streams && Unread(h, 0) && !WillLook(h, 0) && Enabled(h, Timeout(0))
  {
    WaitingReachable();
    var lost := Quiet(One(Waiting)).(linkUp := false);
    ReachNext(Quiet(One(Waiting)), LoseLink);
    assert Apply(Quiet(One(Waiting)), LoseLink) == lost;
    ReachNext(lost, Commit(7));
    h := Apply(lost, Commit(7));
  }
}
