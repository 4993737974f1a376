/**
 * One background job: deliveries race for its lease, the owner starts it, heartbeats, ends it or
 * schedules a retry, the reaper takes over from owners that stopped heartbeating, and a user may
 * cancel at any time. Every write is one conditional update, with the guards the repository has.
 */
module JobLeases {
  import opened Wrappers

  type Worker = nat
  type Reaper = nat

  datatype Status = Queued | Running | Failed | Completed | Cancelled

  datatype Row = Row(
    status: Status, worker: Option<Worker>, expires: Option<int>,
    attempts: nat, nextRetry: Option<int>)

  /** Attempts are counted from one. */
  type Attempt = n: nat | n >= 1 witness 1

  /** Where one delivery of the job is. */
  datatype Delivery =
    | Gated(read: nat)            // passed the status gate having read this attempt count
    | Leased(read: nat)           // holds the lease
    | Working(attempt: Attempt)       // started the job
    | Rescheduling(attempt: Attempt)  // recorded a retry, about to enqueue it
    | Leaving                     // about to release its lease

  datatype ReaperPc = Holding | Enqueued

  datatype Config = Config(lease: int, maxRetries: nat, baseDelay: nat, maxDelay: nat)

  /** The fields from `revoked` on are history the proofs speak about. */
  datatype Job = Job(
    row: Row, now: int, queue: nat,
    deliveries: map<Worker, Delivery>, used: set<Worker>,
    reapers: map<Reaper, ReaperPc>,
    revoked: set<Worker>,       // owners whose lease went to someone else
    starter: Option<Worker>,    // who made the last start
    retries: nat,               // retries scheduled so far
    reclaimed: bool,            // queued again by the reaper, not started since
    starts: nat,                // attempts started,
    evicted: nat,               // ... of which the reaper took away,
    ended: nat)                 // ... and of which came to an end or were cancelled

  // ---- backoff ----------------------------------------------------------------

  function Pow2(n: nat): nat {
    if n == 0 then 1 else 2 * Pow2(n - 1)
  }

  function BackoffDelay(attempt: Attempt, cfg: Config): nat {
    var raw := cfg.baseDelay * Pow2(attempt - 1);
    if raw < cfg.maxDelay then raw else cfg.maxDelay
  }

  lemma {:induction false} Pow2Monotone(m: nat, n: nat)
    requires m <= n
    ensures Pow2(m) <= Pow2(n)
  {
    if m < n { Pow2Monotone(m, n - 1); }
  }

  lemma BackoffMonotone(a: Attempt, b: Attempt, cfg: Config)
    requires a <= b
    ensures BackoffDelay(a, cfg) <= BackoffDelay(b, cfg) <= cfg.maxDelay
  {
    Pow2Monotone(a - 1, b - 1);
    MulMonotone(cfg.baseDelay, Pow2(a - 1), Pow2(b - 1));
  }

  lemma MulMonotone(k: nat, x: nat, y: nat)
    requires x <= y
    ensures k * x <= k * y
  {
  }

  // ---- moves -----------------------------------------------------------------

  datatype Move =
    | Deliver(w: Worker)
    | Duplicate
    | Acquire(w: Worker)
    | Start(w: Worker)
    | Heartbeat(w: Worker)
    | Succeed(w: Worker)
    | FailJob(w: Worker, isTransient: bool)
    | Reschedule(w: Worker, enqueued: bool)
    | Release(w: Worker)
    | Crash(w: Worker)
    | Cancel
    | Tick(seconds: nat)
    | Reclaim(r: Reaper)
    | FindPending(r: Reaper)
    | ReaperEnqueue(r: Reaper, enqueued: bool)
    | ReaperAck(r: Reaper)
    | ReaperCrash(r: Reaper)

  predicate Live(j: Job) {
    j.row.expires.Some? && j.row.expires.value > j.now
  }

  predicate Owns(j: Job, w: Worker) {
    j.row.worker == Some(w) && Live(j)
  }

  predicate Free(j: Job, w: Worker) {
    j.row.worker == None || j.row.worker == Some(w) || j.row.expires == None || j.row.expires.value < j.now
  }

  predicate PassesGate(j: Job) {
    j.row.status == Queued || (j.row.status == Failed && j.row.nextRetry.Some? && j.row.nextRetry.value <= j.now)
  }

  predicate Lapsed(j: Job) {
    j.row.status == Running && j.row.worker.Some? && j.row.expires.Some? && j.row.expires.value < j.now
  }

  predicate Enabled(j: Job, m: Move) {
    match m
    case Deliver(w) => j.queue > 0 && w !in j.used
    case Acquire(w) => w in j.deliveries && j.deliveries[w].Gated?
    case Start(w) => w in j.deliveries && j.deliveries[w].Leased?
    case Heartbeat(w) => w in j.deliveries && j.deliveries[w].Working?
    case Succeed(w) => w in j.deliveries && j.deliveries[w].Working?
    case FailJob(w, _) => w in j.deliveries && j.deliveries[w].Working?
    case Reschedule(w, _) => w in j.deliveries && j.deliveries[w].Rescheduling?
    case Release(w) => w in j.deliveries && j.deliveries[w].Leaving?
    case Crash(w) => w in j.deliveries
    case Reclaim(r) => r !in j.reapers && Lapsed(j)
    case FindPending(r) =>
      r !in j.reapers && j.row.status == Queued && j.row.nextRetry.Some? && j.row.nextRetry.value <= j.now
    case ReaperEnqueue(r, _) => r in j.reapers && j.reapers[r].Holding?
    case ReaperAck(r) => r in j.reapers && j.reapers[r].Enqueued?
    case ReaperCrash(r) => r in j.reapers
    case _ => true
  }

  function Become(j: Job, w: Worker, d: Delivery): Job {
    j.(deliveries := j.deliveries[w := d])
  }

  /** The guard of every write that ends an attempt. */
  predicate MayEnd(j: Job, w: Worker) {
    j.row.status == Running && Owns(j, w)
  }

  predicate ShouldRetry(attempt: nat, isTransient: bool, cfg: Config) {
    attempt < cfg.maxRetries && isTransient
  }

  function Apply(j: Job, m: Move, cfg: Config): Job
    requires Enabled(j, m)
  {
    match m
    case Deliver(w) =>
      var taken := j.(queue := j.queue - 1, used := j.used + {w});
      if PassesGate(j) then Become(taken, w, Gated(j.row.attempts)) else taken
    case Duplicate => j.(queue := j.queue + 1)
    case Acquire(w) =>
      if !Free(j, w) then j.(deliveries := j.deliveries - {w})
      else
        Become(j, w, Leased(j.deliveries[w].read))
          .(row := j.row.(worker := Some(w), expires := Some(j.now + cfg.lease)),
            revoked := if j.row.worker.Some? && j.row.worker.value != w then j.revoked + {j.row.worker.value}
                       else j.revoked)
    case Start(w) =>
      if (j.row.status == Queued || j.row.status == Failed) && Owns(j, w) then
        var attempt := j.deliveries[w].read + 1;
        Become(j, w, Working(attempt))
          .(row := j.row.(status := Running, attempts := attempt, nextRetry := None),
            starter := Some(w), reclaimed := false, starts := j.starts + 1)
      else Become(j, w, Leaving)
    case Heartbeat(w) =>
      if j.row.status != Cancelled && Owns(j, w) then j.(row := j.row.(expires := Some(j.now + cfg.lease)))
      else Become(j, w, Leaving)
    case Succeed(w) =>
      if !MayEnd(j, w) then Become(j, w, Leaving)
      else Become(j, w, Leaving).(row := j.row.(status := Completed, nextRetry := None), ended := j.ended + 1)
    case FailJob(w, isTransient) =>
      var attempt := j.deliveries[w].attempt;
      if !MayEnd(j, w) then Become(j, w, Leaving)
      else if ShouldRetry(attempt, isTransient, cfg) then
        Become(j, w, Rescheduling(attempt))
          .(row := j.row.(status := Failed, nextRetry := Some(j.now + BackoffDelay(attempt, cfg))),
            retries := j.retries + 1, ended := j.ended + 1)
      else Become(j, w, Leaving).(row := j.row.(status := Failed, nextRetry := None), ended := j.ended + 1)
    case Reschedule(w, enqueued) =>
      if enqueued then Become(j, w, Leaving).(queue := j.queue + 1)
      else Become(j, w, Leaving)
             .(row := if j.row.status == Failed && Owns(j, w) then j.row.(nextRetry := None) else j.row)
    case Release(w) =>
      j.(deliveries := j.deliveries - {w},
         row := if j.row.worker == Some(w) && j.row.status != Running then j.row.(worker := None, expires := None)
                else j.row)
    case Crash(w) => j.(deliveries := j.deliveries - {w})
    case Cancel =>
      j.(row := if || j.row.status == Queued || j.row.status == Running
                   || (j.row.status == Failed && j.row.nextRetry.Some?)
                then j.row.(status := Cancelled, nextRetry := None) else j.row,
         ended := if j.row.status == Running then j.ended + 1 else j.ended)
    case Tick(seconds) => j.(now := j.now + seconds)
    case Reclaim(r) =>
      j.(row := j.row.(status := Queued, worker := None, expires := None, nextRetry := Some(j.now)),
         revoked := j.revoked + {j.row.worker.value}, reapers := j.reapers[r := Holding],
         reclaimed := true, evicted := j.evicted + 1)
    case FindPending(r) => j.(reapers := j.reapers[r := Holding])
    case ReaperEnqueue(r, enqueued) =>
      if enqueued then j.(queue := j.queue + 1, reapers := j.reapers[r := Enqueued])
      else j.(reapers := j.reapers - {r})
    case ReaperAck(r) =>
      j.(reapers := j.reapers - {r},
         row := if j.row.status == Queued then j.row.(nextRetry := None) else j.row)
    case ReaperCrash(r) => j.(reapers := j.reapers - {r})
  }

  const NEW_JOB := Job(Row(Queued, None, None, 0, None), 0, 1, map[], {}, map[], {}, None, 0, false, 0, 0, 0)

  // ---- fencing -------------------------------------------------------------------

  /** A lease once taken away is never held again: every delivery has an identity of its own. */
  ghost predicate OwnerIsFresh(j: Job) {
    && j.deliveries.Keys <= j.used && j.revoked <= j.used
    && (j.row.worker.Some? ==> j.row.worker.value in j.used && j.row.worker.value !in j.revoked)
    && GatedOwnNothing(j)
  }

  ghost predicate GatedOwnNothing(j: Job) {
    forall w :: w in j.deliveries && j.deliveries[w].Gated? ==> w !in j.revoked && j.row.worker != Some(w)
  }

  predicate AtWork(d: Delivery) {
    d.Working? || d.Rescheduling?
  }

  /** An owner at work made the last start, with the attempt number the row has. */
  ghost predicate OwnerIsStarter(j: Job) {
    forall w :: w in j.deliveries && AtWork(j.deliveries[w]) && j.row.worker == Some(w) ==>
      j.starter == Some(w) && j.row.attempts == j.deliveries[w].attempt
  }

  ghost predicate Fence(j: Job) {
    OwnerIsFresh(j) && OwnerIsStarter(j)
  }

  lemma MovesKeepFence(j: Job, m: Move, cfg: Config)
    requires Fence(j) && Enabled(j, m)
    ensures Fence(Apply(j, m, cfg))
  {
    MovesKeepFresh(j, m, cfg);
    MovesKeepStarter(j, m, cfg);
  }

  lemma MovesKeepFresh(j: Job, m: Move, cfg: Config)
    requires OwnerIsFresh(j) && Enabled(j, m)
    ensures OwnerIsFresh(Apply(j, m, cfg))
  {
    MovesKeepGated(j, m, cfg);
  }

  lemma MovesKeepGated(j: Job, m: Move, cfg: Config)
    requires OwnerIsFresh(j) && Enabled(j, m)
    ensures GatedOwnNothing(Apply(j, m, cfg))
  {
    var k := Apply(j, m, cfg);
    forall w | w in k.deliveries && k.deliveries[w].Gated? ensures w !in k.revoked && k.row.worker != Some(w) {
      OthersUndisturbed(j, m, cfg, w);
    }
  }

  /** The delivery a move belongs to; None for the moves of the user, the clock and the reapers. */
  function Mover(m: Move): Option<Worker> {
    match m
    case Deliver(w) => Some(w)
    case Acquire(w) => Some(w)
    case Start(w) => Some(w)
    case Heartbeat(w) => Some(w)
    case Succeed(w) => Some(w)
    case FailJob(w, _) => Some(w)
    case Reschedule(w, _) => Some(w)
    case Release(w) => Some(w)
    case Crash(w) => Some(w)
    case _ => None
  }

  lemma OthersUndisturbed(j: Job, m: Move, cfg: Config, w: Worker)
    requires Enabled(j, m) && w in Apply(j, m, cfg).deliveries
    ensures Mover(m) != Some(w) ==> w in j.deliveries && Apply(j, m, cfg).deliveries[w] == j.deliveries[w]
    ensures Mover(m) == Some(w) && Apply(j, m, cfg).deliveries[w].Gated? ==> m.Deliver?
  {
  }

  lemma MovesKeepStarter(j: Job, m: Move, cfg: Config)
    requires Fence(j) && Enabled(j, m)
    ensures OwnerIsStarter(Apply(j, m, cfg))
  {
    var k := Apply(j, m, cfg);
    forall w | w in k.deliveries && AtWork(k.deliveries[w]) && k.row.worker == Some(w)
      ensures k.starter == Some(w) && k.row.attempts == k.deliveries[w].attempt
    {
      OthersUndisturbed(j, m, cfg, w);
    }
  }

  /** The status the job ends an attempt with. */
  predicate EndsAttempt(j: Job, k: Job) {
    j.row.status == Running && (k.row.status == Completed || k.row.status == Failed)
  }

  /**
   * Only the delivery that started the current attempt, and still owns its live lease, ends it;
   * a worker whose lease was reclaimed or stolen never does.
   */
  lemma OnlyTheOwnerEndsAttempt(j: Job, m: Move, cfg: Config)
    requires Fence(j) && Enabled(j, m) && EndsAttempt(j, Apply(j, m, cfg))
    ensures (m.Succeed? || m.FailJob?)
         && Owns(j, m.w) && m.w !in j.revoked && j.starter == Some(m.w)
         && j.row.attempts == j.deliveries[m.w].attempt
  {
  }

  /** Cancelled and completed are final. */
  lemma FinalStatusStays(j: Job, m: Move, cfg: Config)
    requires Enabled(j, m)
    requires j.row.status == Cancelled || j.row.status == Completed
    ensures Apply(j, m, cfg).row.status == j.row.status
  {
  }

  // ---- runs --------------------------------------------------------------------------

  ghost predicate StepAt(states: seq<Job>, moves: seq<Move>, cfg: Config, t: nat)
    requires |states| == |moves| + 1 && t < |moves|
  {
    Enabled(states[t], moves[t]) && states[t + 1] == Apply(states[t], moves[t], cfg)
  }

  ghost predicate IsRunFrom(j: Job, states: seq<Job>, moves: seq<Move>, cfg: Config) {
    && |states| == |moves| + 1 && states[0] == j
    && forall t :: 0 <= t < |moves| ==> StepAt(states, moves, cfg, t)
  }

  ghost predicate IsRun(states: seq<Job>, moves: seq<Move>, cfg: Config) {
    IsRunFrom(NEW_JOB, states, moves, cfg)
  }

  lemma {:induction false} RunFence(states: seq<Job>, moves: seq<Move>, cfg: Config, t: nat)
    requires IsRun(states, moves, cfg) && t < |states|
    ensures Fence(states[t])
  {
    if t > 0 {
      RunFence(states, moves, cfg, t - 1);
      assert StepAt(states, moves, cfg, t - 1);
      MovesKeepFence(states[t - 1], moves[t - 1], cfg);
    }
  }

  lemma RevokedStay(j: Job, m: Move, cfg: Config)
    requires Enabled(j, m)
    ensures j.revoked <= Apply(j, m, cfg).revoked
  {
  }

  lemma {:induction false} RevokedStays(states: seq<Job>, moves: seq<Move>, cfg: Config, t: nat, u: nat, w: Worker)
    requires IsRun(states, moves, cfg) && t <= u < |states| && w in states[t].revoked
    ensures w in states[u].revoked
  {
    if t < u {
      RevokedStays(states, moves, cfg, t, u - 1, w);
      assert StepAt(states, moves, cfg, u - 1);
      RevokedStay(states[u - 1], moves[u - 1], cfg);
    }
  }

  lemma {:induction false} CancelledStays(states: seq<Job>, moves: seq<Move>, cfg: Config, t: nat, u: nat)
    requires IsRun(states, moves, cfg) && t <= u < |states| && states[t].row.status == Cancelled
    ensures states[u].row.status == Cancelled
  {
    if t < u {
      CancelledStays(states, moves, cfg, t, u - 1);
      assert StepAt(states, moves, cfg, u - 1);
      FinalStatusStays(states[u - 1], moves[u - 1], cfg);
    }
  }

  /** A worker that lost its lease, or whose job was cancelled, changes nothing when it ends its attempt. */
  lemma FencedMoveWritesNothing(j: Job, m: Move, cfg: Config)
    requires Fence(j) && Enabled(j, m) && (m.Succeed? || m.FailJob?)
    requires m.w in j.revoked || j.row.status == Cancelled
    ensures Apply(j, m, cfg).row == j.row
  {
  }

  /**
   * Over every run, with any number of deliveries, expiries, reaps and cancels: once a worker's
   * lease has gone to someone else, or the job is cancelled, that worker never ends the job.
   */
  lemma FencedWorkersNeverWrite(states: seq<Job>, moves: seq<Move>, cfg: Config, t: nat, u: nat, w: Worker)
    requires IsRun(states, moves, cfg) && t <= u < |moves|
    requires w in states[t].revoked || states[t].row.status == Cancelled
    requires moves[u] == Succeed(w) || (moves[u].FailJob? && moves[u].w == w)
    ensures states[u + 1].row == states[u].row
  {
    RunFence(states, moves, cfg, u);
    if w in states[t].revoked {
      RevokedStays(states, moves, cfg, t, u, w);
    } else {
      CancelledStays(states, moves, cfg, t, u);
    }
    assert StepAt(states, moves, cfg, u);
    FencedMoveWritesNothing(states[u], moves[u], cfg);
  }

  // ---- what an attempt costs ------------------------------------------------------------

  /** A retry is scheduled only for a transient error within the budget, and recorded for its delay later. */
  lemma RetryIsEarned(j: Job, m: Move, cfg: Config)
    requires Fence(j) && Enabled(j, m) && Apply(j, m, cfg).retries != j.retries
    ensures m.FailJob? && m.isTransient && j.row.attempts < cfg.maxRetries
    ensures Apply(j, m, cfg).row.nextRetry == Some(j.now + BackoffDelay(j.row.attempts, cfg))
  {
  }

  /** A failed job's delivery passes the gate if and only if its retry is due; one already past may start earlier. */
  lemma GateWaitsForRetry(j: Job, w: Worker, cfg: Config)
    requires OwnerIsFresh(j) && Enabled(j, Deliver(w)) && j.row.status == Failed
    ensures w in Apply(j, Deliver(w), cfg).deliveries <==> j.row.nextRetry.Some? && j.row.nextRetry.value <= j.now
  {
  }

  predicate Starts(j: Job, m: Move) {
    m.Start? && (j.row.status == Queued || j.row.status == Failed) && Owns(j, m.w)
  }

  /** Attempts started that the row does not count: every start writes the count it read, plus one. */
  function GivenBack(j: Job): int {
    j.starts - j.row.attempts
  }

  /** A start uses budget if and only if no newer start was counted since its read, and may lower the count. */
  lemma StartUsesBudgetIff(j: Job, w: Worker, cfg: Config)
    requires Enabled(j, Start(w)) && Starts(j, Start(w))
    ensures var (k, read) := (Apply(j, Start(w), cfg), j.deliveries[w].read);
            && (k.row.attempts > j.row.attempts <==> read >= j.row.attempts)
            && (k.row.attempts < j.row.attempts <==> read + 1 < j.row.attempts)
            && GivenBack(k) == GivenBack(j) + (j.row.attempts - read)
  {
  }

  lemma OnlyStartsCount(j: Job, m: Move, cfg: Config)
    requires Enabled(j, m) && !Starts(j, m)
    ensures Apply(j, m, cfg).row.attempts == j.row.attempts && GivenBack(Apply(j, m, cfg)) == GivenBack(j)
  {
  }

  /** Every attempt started is running, was evicted, or came to an end; only an ended one earns a retry. */
  ghost predicate Books(j: Job) {
    && j.starts == j.evicted + j.ended + (if j.row.status == Running then 1 else 0)
    && j.retries <= j.ended
  }

  lemma MovesKeepBooks(j: Job, m: Move, cfg: Config)
    requires Books(j) && Enabled(j, m)
    ensures Books(Apply(j, m, cfg))
  {
  }

  lemma {:induction false} RunBooks(states: seq<Job>, moves: seq<Move>, cfg: Config, t: nat)
    requires IsRun(states, moves, cfg) && t < |states|
    ensures Books(states[t])
  {
    if t > 0 {
      RunBooks(states, moves, cfg, t - 1);
      assert StepAt(states, moves, cfg, t - 1);
      MovesKeepBooks(states[t - 1], moves[t - 1], cfg);
    }
  }

  lemma RetriedByCount(j: Job, w: Worker, cfg: Config)
    requires Fence(j) && Enabled(j, FailJob(w, true)) && MayEnd(j, w)
    ensures Apply(j, FailJob(w, true), cfg).retries == j.retries + (if j.row.attempts < cfg.maxRetries then 1 else 0)
  {
  }

  /**
   * In every run a transient error is retried if and only if the attempts ended and evicted before
   * it, this one included, less those given back, are within the budget: an eviction is charged
   * like an error. So the rule that evictions cost nothing holds for an error exactly unless the
   * evictions are what uses up its budget.
   */
  lemma EvictionsAreCharged(states: seq<Job>, moves: seq<Move>, cfg: Config, t: nat, w: Worker)
    requires IsRun(states, moves, cfg) && t < |moves| && moves[t] == FailJob(w, true) && MayEnd(states[t], w)
    ensures var (j, retried) := (states[t], states[t + 1].retries > states[t].retries);
            && (retried <==> j.evicted + j.ended + 1 - GivenBack(j) < cfg.maxRetries)
            && (GivenBack(j) == 0 ==>
                  ((retried <==> j.ended + 1 < cfg.maxRetries)
                   <==> !(j.ended + 1 < cfg.maxRetries <= j.evicted + j.ended + 1)))
  {
    RunFence(states, moves, cfg, t);
    RunBooks(states, moves, cfg, t);
    assert StepAt(states, moves, cfg, t);
    RetriedByCount(states[t], w, cfg);
  }

  /** The reclaim itself leaves count and retries alone. */
  lemma ReclaimIsFree(j: Job, r: Reaper, cfg: Config)
    requires Enabled(j, Reclaim(r))
    ensures Apply(j, Reclaim(r), cfg).row.attempts == j.row.attempts && Apply(j, Reclaim(r), cfg).retries == j.retries
  {
  }

  /** Whatever is given back, and nothing else, lets retries exceed the budget. */
  lemma RetriesWithinBudget(states: seq<Job>, moves: seq<Move>, cfg: Config, t: nat)
    requires IsRun(states, moves, cfg) && t < |moves| && states[t + 1].retries != states[t].retries
    ensures states[t + 1].retries <= cfg.maxRetries - 1 + GivenBack(states[t])
  {
    RunFence(states, moves, cfg, t);
    RunBooks(states, moves, cfg, t);
    assert StepAt(states, moves, cfg, t);
    RetryIsEarned(states[t], moves[t], cfg);
    RunBooks(states, moves, cfg, t + 1);
    RetryEndsAttempt(states[t], moves[t], cfg);
  }

  lemma RetryEndsAttempt(j: Job, m: Move, cfg: Config)
    requires Enabled(j, m) && Apply(j, m, cfg).retries != j.retries
    ensures j.row.status == Running && Apply(j, m, cfg).retries == j.retries + 1
  {
  }

  /** A start made on the count the row still has. */
  predicate Current(j: Job, w: Worker)
    requires w in j.deliveries && j.deliveries[w].Leased?
  {
    j.deliveries[w].read == j.row.attempts
  }

  lemma {:induction false} NothingGivenBack(states: seq<Job>, moves: seq<Move>, cfg: Config, t: nat)
    requires IsRun(states, moves, cfg) && t < |states|
    requires forall k :: 0 <= k < |moves| && StepAt(states, moves, cfg, k) && Starts(states[k], moves[k]) ==>
               Current(states[k], moves[k].w)
    ensures GivenBack(states[t]) == 0
  {
    if t > 0 {
      NothingGivenBack(states, moves, cfg, t - 1);
      assert StepAt(states, moves, cfg, t - 1);
      if Starts(states[t - 1], moves[t - 1]) {
        StartUsesBudgetIff(states[t - 1], moves[t - 1].w, cfg);
      } else {
        OnlyStartsCount(states[t - 1], moves[t - 1], cfg);
      }
    }
  }

  /** If every start is made on a current count, at most maxRetries - 1 retries are ever scheduled. */
  lemma {:induction false} RetriesAreBounded(states: seq<Job>, moves: seq<Move>, cfg: Config, t: nat)
    requires IsRun(states, moves, cfg) && t < |states|
    requires forall k :: 0 <= k < |moves| && StepAt(states, moves, cfg, k) && Starts(states[k], moves[k]) ==>
               Current(states[k], moves[k].w)
    ensures states[t].retries == 0 || states[t].retries < cfg.maxRetries
  {
    if t > 0 {
      RetriesAreBounded(states, moves, cfg, t - 1);
      if states[t].retries != states[t - 1].retries {
        RetriesWithinBudget(states, moves, cfg, t - 1);
        NothingGivenBack(states, moves, cfg, t - 1);
      }
    }
  }

  // ---- redelivery after a reclaim -----------------------------------------------------------

  /** A delivery past the gate that has not started the job yet. */
  predicate PastGate(d: Delivery) {
    d.Gated? || d.Leased?
  }

  ghost predicate NobodyPastGate(j: Job) {
    forall w :: w in j.deliveries ==> !PastGate(j.deliveries[w])
  }

  ghost predicate OnlyPastGate(j: Job, w: Worker) {
    forall v :: v in j.deliveries && PastGate(j.deliveries[v]) ==> v == w
  }

  /** Taken from a dead worker and not started again. */
  predicate Awaiting(j: Job) {
    j.reclaimed && j.row.status == Queued
  }

  /** On its way: on the queue, in the hands of a delivery, or marked for the next sweep. */
  ghost predicate Coming(j: Job) {
    j.queue > 0 || j.row.nextRetry.Some? || !NobodyPastGate(j)
  }

  ghost predicate Redelivered(j: Job) {
    Awaiting(j) ==> Coming(j)
  }

  /**
   * The moves that lose a job that is no longer on the queue: its last delivery is refused the
   * lease, has lost it before the start, or dies in between, with no mark left; or a reaper
   * acknowledges an enqueue whose delivery is already gone.
   */
  ghost predicate Loses(j: Job, m: Move)
    requires Enabled(j, m)
  {
    j.queue == 0 &&
    match m
    case Acquire(w) => j.row.nextRetry == None && OnlyPastGate(j, w) && !Free(j, w)
    case Start(w) => j.row.nextRetry == None && OnlyPastGate(j, w) && !Owns(j, w)
    case Crash(w) => j.row.nextRetry == None && PastGate(j.deliveries[w]) && OnlyPastGate(j, w)
    case ReaperAck(_) => NobodyPastGate(j)
    case _ => false
  }

  /** Who is past the gate after a move: who was, except the mover; the mover if it has just come or taken the lease. */
  lemma PastGateAfter(j: Job, m: Move, cfg: Config, w: Worker)
    requires OwnerIsFresh(j) && Enabled(j, m)
    ensures var k := Apply(j, m, cfg);
            && (Mover(m) != Some(w) ==>
                  (w in k.deliveries && PastGate(k.deliveries[w]) <==> w in j.deliveries && PastGate(j.deliveries[w])))
            && (Mover(m) == Some(w) ==>
                  (w in k.deliveries && PastGate(k.deliveries[w]) <==>
                     (m.Deliver? && PassesGate(j)) || (m.Acquire? && Free(j, w))))
  {
  }

  lemma NobodyAfter(j: Job, m: Move, cfg: Config)
    requires OwnerIsFresh(j) && Enabled(j, m)
    ensures NobodyPastGate(Apply(j, m, cfg)) <==>
              && !(m.Deliver? && PassesGate(j)) && !(m.Acquire? && Free(j, m.w))
              && (if Mover(m).None? then NobodyPastGate(j) else OnlyPastGate(j, Mover(m).value))
  {
    var k := Apply(j, m, cfg);
    forall w ensures (w in k.deliveries && PastGate(k.deliveries[w])) ==
                     (if Mover(m) == Some(w) then (m.Deliver? && PassesGate(j)) || (m.Acquire? && Free(j, w))
                      else w in j.deliveries && PastGate(j.deliveries[w]))
    {
      PastGateAfter(j, m, cfg, w);
    }
    if Mover(m).Some? {
      PastGateAfter(j, m, cfg, Mover(m).value);
    }
  }

  lemma QueueAndMarkAfter(j: Job, m: Move, cfg: Config)
    requires Enabled(j, m) && Awaiting(j) && Awaiting(Apply(j, m, cfg))
    ensures var k := Apply(j, m, cfg);
            && (m.Deliver? ==> PassesGate(j))
            && (!m.Deliver? ==> k.queue >= j.queue)
            && (!m.ReaperAck? ==> k.row.nextRetry == j.row.nextRetry)
            && (m.ReaperAck? ==> k.row.nextRetry == None && k.queue == j.queue)
            && (m.Start? ==> !Owns(j, m.w))
  {
  }

  /** A job that is on its way is lost by exactly these moves. */
  lemma LostIff(j: Job, m: Move, cfg: Config)
    requires OwnerIsFresh(j) && Enabled(j, m) && Redelivered(j)
    ensures !Redelivered(Apply(j, m, cfg)) <==> Awaiting(j) && Loses(j, m)
  {
    var k := Apply(j, m, cfg);
    NobodyAfter(j, m, cfg);
    if Awaiting(j) && Awaiting(k) {
      QueueAndMarkAfter(j, m, cfg);
    }
  }

  /**
   * In every run a reclaimed job that is still queued is always on its way, if and only if none of
   * those moves is made.
   */
  lemma RedeliveredIff(states: seq<Job>, moves: seq<Move>, cfg: Config)
    requires IsRun(states, moves, cfg)
    ensures (forall t :: 0 <= t < |states| ==> Redelivered(states[t]))
       <==> (forall t :: 0 <= t < |moves| && StepAt(states, moves, cfg, t) && Awaiting(states[t]) ==>
               !Loses(states[t], moves[t]))
  {
    if forall t :: 0 <= t < |states| ==> Redelivered(states[t]) {
      forall t | 0 <= t < |moves| && StepAt(states, moves, cfg, t) && Awaiting(states[t])
        ensures !Loses(states[t], moves[t])
      {
        assert Redelivered(states[t]) && Redelivered(states[t + 1]);
        RunFence(states, moves, cfg, t);
        LostIff(states[t], moves[t], cfg);
      }
    }
    if forall t :: 0 <= t < |moves| && StepAt(states, moves, cfg, t) && Awaiting(states[t]) ==>
         !Loses(states[t], moves[t])
    {
      forall t | 0 <= t < |states| ensures Redelivered(states[t]) {
        RedeliveredUpTo(states, moves, cfg, t);
      }
    }
  }

  lemma {:induction false} RedeliveredUpTo(states: seq<Job>, moves: seq<Move>, cfg: Config, t: nat)
    requires IsRun(states, moves, cfg) && t < |states|
    requires forall k :: 0 <= k < |moves| && StepAt(states, moves, cfg, k) && Awaiting(states[k]) ==>
               !Loses(states[k], moves[k])
    ensures Redelivered(states[t])
  {
    if t > 0 {
      RedeliveredUpTo(states, moves, cfg, t - 1);
      RunFence(states, moves, cfg, t - 1);
      assert StepAt(states, moves, cfg, t - 1);
      LostIff(states[t - 1], moves[t - 1], cfg);
    }
  }

  /** Queued, taken from a dead worker, and nothing left anywhere that would run it. */
  predicate Stranded(j: Job) {
    && Awaiting(j) && j.row.nextRetry == None
    && j.queue == 0 && j.deliveries == map[] && j.reapers == map[]
  }

  /** Only a delivery from outside, or a cancel, changes that. */
  lemma StrandedStays(j: Job, m: Move, cfg: Config)
    requires Stranded(j) && Enabled(j, m) && !m.Duplicate? && !m.Cancel?
    ensures Stranded(Apply(j, m, cfg))
  {
  }

  // ---- permanent failures ------------------------------------------------------------------------

  predicate FailedForGood(j: Job) {
    j.row.status == Failed && j.row.nextRetry == None
  }

  /** Past the gate, and not yet too late for the start. */
  predicate MayStart(j: Job, w: Worker) {
    w in j.deliveries && (j.deliveries[w].Gated? || (j.deliveries[w].Leased? && Owns(j, w)))
  }

  ghost predicate NobodyMayStart(j: Job) {
    forall w :: w in j.deliveries ==> !MayStart(j, w)
  }

  lemma FailureStays(j: Job, m: Move, cfg: Config)
    requires FailedForGood(j) && NobodyMayStart(j) && Enabled(j, m)
    ensures FailedForGood(Apply(j, m, cfg)) && NobodyMayStart(Apply(j, m, cfg))
  {
    var k := Apply(j, m, cfg);
    forall w | w in k.deliveries ensures !MayStart(k, w) {
      OthersUndisturbed(j, m, cfg, w);
    }
  }

  lemma {:induction false} FailureStaysAlong(j: Job, states: seq<Job>, moves: seq<Move>, cfg: Config, t: nat)
    requires IsRunFrom(j, states, moves, cfg) && t < |states| && FailedForGood(j) && NobodyMayStart(j)
    ensures FailedForGood(states[t]) && NobodyMayStart(states[t])
  {
    if t > 0 {
      FailureStaysAlong(j, states, moves, cfg, t - 1);
      assert StepAt(states, moves, cfg, t - 1);
      FailureStays(states[t - 1], moves[t - 1], cfg);
    }
  }

  /** Some continuation runs the job again. */
  ghost predicate CanRunAgain(j: Job, cfg: Config) {
    exists states: seq<Job>, moves :: IsRunFrom(j, states, moves, cfg) && states[|moves|].row.status == Running
  }

  lemma OneMove(j: Job, m: Move, cfg: Config)
    requires Enabled(j, m) && Apply(j, m, cfg).row.status == Running
    ensures CanRunAgain(j, cfg)
  {
    var states, moves := [j, Apply(j, m, cfg)], [m];
    assert StepAt(states, moves, cfg, 0);
    assert IsRunFrom(j, states, moves, cfg);
  }

  lemma MoveFirst(j: Job, m: Move, cfg: Config)
    requires Enabled(j, m) && CanRunAgain(Apply(j, m, cfg), cfg)
    ensures CanRunAgain(j, cfg)
  {
    var k := Apply(j, m, cfg);
    var states: seq<Job>, moves :| IsRunFrom(k, states, moves, cfg) && states[|moves|].row.status == Running;
    var states', moves' := [j] + states, [m] + moves;
    forall t | 0 <= t < |moves'| ensures StepAt(states', moves', cfg, t) {
      if t > 0 {
        assert StepAt(states, moves, cfg, t - 1);
      }
    }
    assert IsRunFrom(j, states', moves', cfg);
  }

  /** Whoever may start does, once the lease in its way has run out. */
  lemma GatedRunsAgain(j: Job, w: Worker, cfg: Config)
    requires FailedForGood(j) && cfg.lease >= 1 && w in j.deliveries && j.deliveries[w].Gated?
    ensures CanRunAgain(j, cfg)
  {
    var wait: nat := if j.row.expires.Some? && j.row.expires.value >= j.now then j.row.expires.value - j.now + 1 else 0;
    var a := Apply(j, Tick(wait), cfg);
    var b := Apply(a, Acquire(w), cfg);
    assert Owns(b, w) && b.deliveries[w].Leased?;
    OneMove(b, Start(w), cfg);
    MoveFirst(a, Acquire(w), cfg);
    MoveFirst(j, Tick(wait), cfg);
  }

  /**
   * A permanent failure is final if and only if no delivery is past the gate with the lease still
   * to take or still its own; what is delivered later does not matter.
   */
  lemma PermanentFailureIsFinalIff(j: Job, cfg: Config)
    requires FailedForGood(j) && cfg.lease >= 1
    ensures CanRunAgain(j, cfg) <==> !NobodyMayStart(j)
  {
    if CanRunAgain(j, cfg) && NobodyMayStart(j) {
      var states: seq<Job>, moves :| IsRunFrom(j, states, moves, cfg) && states[|moves|].row.status == Running;
      FailureStaysAlong(j, states, moves, cfg, |moves|);
      assert false;
    }
    if !NobodyMayStart(j) {
      var w :| w in j.deliveries && MayStart(j, w);
      if j.deliveries[w].Gated? {
        GatedRunsAgain(j, w, cfg);
      } else {
        OneMove(j, Start(w), cfg);
      }
    }
  }

  // ---- reachable states that fall short of the promises ------------------------------------------

  predicate FewReapers(m: Move, reapers: nat) {
    match m
    case Reclaim(r) => r < reapers
    case FindPending(r) => r < reapers
    case ReaperEnqueue(r, _) => r < reapers
    case ReaperAck(r) => r < reapers
    case ReaperCrash(r) => r < reapers
    case _ => true
  }

  /** Reached by a run with this many reapers. */
  ghost predicate Reachable(j: Job, cfg: Config, reapers: nat) {
    exists states, moves :: IsRun(states, moves, cfg) && states[|moves|] == j
                            && forall m :: m in moves ==> FewReapers(m, reapers)
  }

  lemma StartReachable(cfg: Config, reapers: nat)
    ensures Reachable(NEW_JOB, cfg, reapers)
  {
    var moves: seq<Move> := [];
    assert IsRun([NEW_JOB], moves, cfg);
  }

  lemma ReachNext(j: Job, m: Move, k: Job, cfg: Config, reapers: nat)
    requires Reachable(j, cfg, reapers) && Enabled(j, m) && FewReapers(m, reapers) && k == Apply(j, m, cfg)
    ensures Reachable(k, cfg, reapers)
  {
    var states, moves :|
      IsRun(states, moves, cfg) && states[|moves|] == j && forall m :: m in moves ==> FewReapers(m, reapers);
    var states', moves' := states + [k], moves + [m];
    forall t | 0 <= t < |moves'| ensures StepAt(states', moves', cfg, t) {
      if t < |moves| {
        assert StepAt(states, moves, cfg, t);
      }
    }
    assert IsRun(states', moves', cfg) && states'[|moves'|] == k;
  }

  /** More reapers can do what fewer can. */
  lemma MoreReapers(j: Job, cfg: Config, few: nat, many: nat)
    requires Reachable(j, cfg, few) && few <= many
    ensures Reachable(j, cfg, many)
  {
    var states, moves :|
      IsRun(states, moves, cfg) && states[|moves|] == j && forall m :: m in moves ==> FewReapers(m, few);
    assert forall m :: m in moves ==> FewReapers(m, many);
  }

  function Range(k: nat, n: nat): (r: set<Worker>)
    ensures forall w: Worker :: w in r <==> k <= w < n
    decreases n - k
  {
    if k >= n then {} else {k} + Range(k + 1, n)
  }

  /** Deliveries k to n - 1, all of which read the count 0. */
  function Gates(k: nat, n: nat): (g: map<Worker, Delivery>)
    ensures forall w: Worker :: w in g <==> k <= w < n
    ensures forall w :: w in g ==> g[w] == Gated(0)
    decreases n - k
  {
    if k >= n then map[] else Gates(k + 1, n)[k := Gated(0)]
  }

  function Pool(k: nat, n: nat): Job {
    NEW_JOB.(used := Range(k, n), deliveries := Gates(k, n))
  }

  /** Any number of duplicates of a new job can get past the gate. */
  lemma {:induction false} PoolReachable(k: nat, n: nat, cfg: Config)
    requires k <= n
    ensures Reachable(Pool(k, n), cfg, 0)
    decreases n - k
  {
    if k == n {
      StartReachable(cfg, 0);
      assert Pool(k, n) == NEW_JOB;
    } else {
      PoolReachable(k + 1, n, cfg);
      var taken := Pool(k, n).(queue := 0);
      ReachNext(Pool(k + 1, n), Deliver(k), taken, cfg, 0);
      ReachNext(taken, Duplicate, Pool(k, n), cfg, 0);
    }
  }

  /** Of n such duplicates, k have started the job, failed with a transient error, and scheduled a retry. */
  function Retried(k: nat, n: nat, cfg: Config): Job {
    Job(if k == 0 then Row(Queued, None, None, 0, None) else Row(Failed, None, None, 1, Some(BackoffDelay(1, cfg))),
        0, 1 + k, Gates(k, n), Range(0, n), map[], {}, if k == 0 then None else Some(k - 1), k, false, k, 0, k)
  }

  /** The next of them, k, runs the job. */
  function Retrying(k: nat, n: nat, cfg: Config): Job {
    Retried(k, n, cfg).(row := Row(Running, Some(k), Some(cfg.lease), 1, None),
                        deliveries := Gates(k + 1, n)[k := Working(1)], starter := Some(k), starts := k + 1)
  }

  lemma RetryStarts(k: nat, n: nat, cfg: Config)
    requires k < n && cfg.lease >= 1 && Reachable(Retried(k, n, cfg), cfg, 0)
    ensures Reachable(Retrying(k, n, cfg), cfg, 0)
  {
    var before := Retried(k, n, cfg);
    var a := before.(row := before.row.(worker := Some(k), expires := Some(cfg.lease)),
                     deliveries := Gates(k + 1, n)[k := Leased(0)]);
    assert Gates(k, n)[k := Leased(0)] == Gates(k + 1, n)[k := Leased(0)];
    ReachNext(before, Acquire(k), a, cfg, 0);
    assert a.deliveries[k := Working(1)] == Gates(k + 1, n)[k := Working(1)];
    ReachNext(a, Start(k), Retrying(k, n, cfg), cfg, 0);
  }

  lemma RetryFails(k: nat, n: nat, cfg: Config)
    requires k < n && cfg.lease >= 1 && cfg.maxRetries >= 2 && Reachable(Retrying(k, n, cfg), cfg, 0)
    ensures Reachable(Retried(k + 1, n, cfg), cfg, 0)
  {
    var b, after := Retrying(k, n, cfg), Retried(k + 1, n, cfg);
    var failed := after.row.(worker := Some(k), expires := Some(cfg.lease));
    var c := after.(row := failed, queue := 1 + k, deliveries := Gates(k + 1, n)[k := Rescheduling(1)]);
    var d := after.(row := failed, deliveries := Gates(k + 1, n)[k := Leaving]);
    assert b.deliveries[k := Rescheduling(1)] == c.deliveries && c.deliveries[k := Leaving] == d.deliveries;
    assert d.deliveries - {k} == after.deliveries;
    ReachNext(b, FailJob(k, true), c, cfg, 0);
    ReachNext(c, Reschedule(k, true), d, cfg, 0);
    ReachNext(d, Release(k), after, cfg, 0);
  }

  lemma {:induction false} RetriedReachable(k: nat, n: nat, cfg: Config)
    requires k <= n && cfg.lease >= 1 && cfg.maxRetries >= 2
    ensures Reachable(Retried(k, n, cfg), cfg, 0)
  {
    if k == 0 {
      PoolReachable(0, n, cfg);
      assert Retried(0, n, cfg) == Pool(0, n);
    } else {
      RetriedReachable(k - 1, n, cfg);
      RetryStarts(k - 1, n, cfg);
      RetryFails(k - 1, n, cfg);
    }
  }

  /** With duplicates there is no bound: whatever the budget beyond one retry, n retries of one counted attempt. */
  lemma DuplicatesBreakBound(n: nat, cfg: Config)
    requires n >= 1 && cfg.lease >= 1 && cfg.maxRetries >= 2
    ensures Reachable(Retried(n, n, cfg), cfg, 0)
    ensures Retried(n, n, cfg).retries == n && Retried(n, n, cfg).row.attempts == 1
  {
    RetriedReachable(n, n, cfg);
  }

  /** Duplicate 1 is still past the gate with the count 0 when delivery 2 has made the second start and failed. */
  function SecondFailed(cfg: Config): Job {
    Job(Row(Failed, None, None, 2, None), BackoffDelay(1, cfg), 1, map[1 := Gated(0)], {0, 1, 2}, map[], {}, Some(2),
        1, false, 2, 0, 2)
  }

  function SecondRuns(cfg: Config): Job {
    var now := BackoffDelay(1, cfg);
    Job(Row(Running, Some(2), Some(now + cfg.lease), 2, None), now, 1, map[1 := Gated(0), 2 := Working(2)], {0, 1, 2},
        map[], {}, Some(2), 1, false, 2, 0, 1)
  }

  lemma SecondRunsReachable(cfg: Config)
    requires cfg.lease >= 1 && cfg.maxRetries >= 2
    ensures Reachable(SecondRuns(cfg), cfg, 0)
  {
    var first, now := Retried(1, 2, cfg), BackoffDelay(1, cfg);
    var a := first.(now := now);
    var b := a.(queue := 1, used := {0, 1, 2}, deliveries := map[1 := Gated(0), 2 := Gated(1)]);
    var c := b.(row := Row(Failed, Some(2), Some(now + cfg.lease), 1, Some(now)),
                deliveries := map[1 := Gated(0), 2 := Leased(1)]);
    RetriedReachable(1, 2, cfg);
    assert Gates(1, 2) == map[1 := Gated(0)] && Range(0, 2) == {0, 1};
    ReachNext(first, Tick(now), a, cfg, 0);
    ReachNext(a, Deliver(2), b, cfg, 0);
    ReachNext(b, Acquire(2), c, cfg, 0);
    ReachNext(c, Start(2), SecondRuns(cfg), cfg, 0);
  }

  /** Its stale start then lowers the count from 2 to 1. */
  lemma StaleStartLowersCount(cfg: Config)
    requires cfg.lease >= 1 && cfg.maxRetries >= 2
    ensures Reachable(SecondFailed(cfg), cfg, 0) && Enabled(SecondFailed(cfg), Acquire(1))
    ensures var leased := Apply(SecondFailed(cfg), Acquire(1), cfg);
            && Enabled(leased, Start(1)) && leased.row.attempts == 2 && Apply(leased, Start(1), cfg).row.attempts == 1
  {
    var runs := SecondRuns(cfg);
    var failed := SecondFailed(cfg).(row := Row(Failed, Some(2), runs.row.expires, 2, None),
                                     deliveries := map[1 := Gated(0), 2 := Leaving]);
    SecondRunsReachable(cfg);
    ReachNext(runs, FailJob(2, false), failed, cfg, 0);
    assert failed.deliveries - {2} == map[1 := Gated(0)];
    ReachNext(failed, Release(2), SecondFailed(cfg), cfg, 0);
  }

  // ---- evictions ----------------------------------------------------------------------------

  function Clock(n: nat, cfg: Config): int {
    if n == 0 then 0 else Clock(n - 1, cfg) + cfg.lease + 1
  }

  /** After n evictions and no error, delivery n runs the job. */
  function Evicted(n: nat, cfg: Config): Job {
    Job(Row(Running, Some(n), Some(Clock(n, cfg) + cfg.lease), n + 1, None), Clock(n, cfg), 0,
        map[n := Working(n + 1)], Range(0, n + 1), map[], Range(0, n), Some(n), 0, false, n + 1, n, 0)
  }

  /** Its worker dies, the lease runs out, and reaper 0 takes the job over and enqueues it. */
  function Enqueuing(n: nat, cfg: Config): Job {
    Job(Row(Queued, None, None, n + 1, Some(Clock(n + 1, cfg))), Clock(n + 1, cfg), 1,
        map[], Range(0, n + 1), map[0 := Enqueued], Range(0, n + 1), Some(n), 0, true, n + 1, n + 1, 0)
  }

  function Handed(n: nat, cfg: Config): Job {
    Enqueuing(n, cfg).(row := Row(Queued, None, None, n + 1, None), reapers := map[])
  }

  /** A delivery takes the handed-over job from the queue. */
  function TakenUp(n: nat, cfg: Config): Job {
    Handed(n, cfg).(queue := 0, used := Range(0, n + 2), deliveries := map[n + 1 := Gated(n + 1)])
  }

  lemma Reaped(n: nat, cfg: Config)
    requires cfg.lease >= 1 && Reachable(Evicted(n, cfg), cfg, 1)
    ensures Reachable(Enqueuing(n, cfg), cfg, 1)
  {
    var dead := Evicted(n, cfg).(deliveries := map[]);
    var late := dead.(now := Clock(n + 1, cfg));
    var held := Enqueuing(n, cfg).(queue := 0, reapers := map[0 := Holding]);
    assert map[n := Working(n + 1)] - {n} == map[];
    ReachNext(Evicted(n, cfg), Crash(n), dead, cfg, 1);
    ReachNext(dead, Tick(cfg.lease + 1), late, cfg, 1);
    assert Range(0, n) + {n} == Range(0, n + 1);
    ReachNext(late, Reclaim(0), held, cfg, 1);
    assert map[0 := Holding][0 := Enqueued] == map[0 := Enqueued];
    ReachNext(held, ReaperEnqueue(0, true), Enqueuing(n, cfg), cfg, 1);
  }

  lemma PickedUp(n: nat, cfg: Config)
    requires Reachable(Enqueuing(n, cfg), cfg, 1)
    ensures Reachable(TakenUp(n, cfg), cfg, 1)
  {
    assert map[0 := Enqueued] - {0} == map[];
    ReachNext(Enqueuing(n, cfg), ReaperAck(0), Handed(n, cfg), cfg, 1);
    assert Range(0, n + 1) + {n + 1} == Range(0, n + 2);
    ReachNext(Handed(n, cfg), Deliver(n + 1), TakenUp(n, cfg), cfg, 1);
  }

  lemma Restarted(n: nat, cfg: Config)
    requires cfg.lease >= 1 && Reachable(TakenUp(n, cfg), cfg, 1)
    ensures Reachable(Evicted(n + 1, cfg), cfg, 1)
  {
    var now := Clock(n + 1, cfg);
    var a := TakenUp(n, cfg).(row := Row(Queued, Some(n + 1), Some(now + cfg.lease), n + 1, None),
                              deliveries := map[n + 1 := Leased(n + 1)]);
    assert map[n + 1 := Gated(n + 1)][n + 1 := Leased(n + 1)] == map[n + 1 := Leased(n + 1)];
    ReachNext(TakenUp(n, cfg), Acquire(n + 1), a, cfg, 1);
    assert map[n + 1 := Leased(n + 1)][n + 1 := Working(n + 2)] == map[n + 1 := Working(n + 2)];
    ReachNext(a, Start(n + 1), Evicted(n + 1, cfg), cfg, 1);
  }

  lemma FirstStart(cfg: Config)
    requires cfg.lease >= 1
    ensures Reachable(Evicted(0, cfg), cfg, 1)
  {
    var a := NEW_JOB.(queue := 0, used := {0}, deliveries := map[0 := Gated(0)]);
    var b := a.(row := Row(Queued, Some(0), Some(cfg.lease), 0, None), deliveries := map[0 := Leased(0)]);
    StartReachable(cfg, 1);
    ReachNext(NEW_JOB, Deliver(0), a, cfg, 1);
    assert map[0 := Gated(0)][0 := Leased(0)] == map[0 := Leased(0)];
    ReachNext(a, Acquire(0), b, cfg, 1);
    assert map[0 := Leased(0)][0 := Working(1)] == map[0 := Working(1)];
    assert Range(0, 1) == {0};
    ReachNext(b, Start(0), Evicted(0, cfg), cfg, 1);
  }

  lemma {:induction false} EvictedReachable(n: nat, cfg: Config)
    requires cfg.lease >= 1
    ensures Reachable(Evicted(n, cfg), cfg, 1)
  {
    if n == 0 {
      FirstStart(cfg);
    } else {
      EvictedReachable(n - 1, cfg);
      Reaped(n - 1, cfg);
      PickedUp(n - 1, cfg);
      Restarted(n - 1, cfg);
    }
  }

  /** Each eviction and restart adds one to the count; maxRetries - 1 of them make a first transient error final. */
  lemma EvictionsUseUpBudget(n: nat, cfg: Config)
    requires cfg.lease >= 1
    ensures Reachable(Evicted(n, cfg), cfg, 1)
    ensures var j := Evicted(n, cfg);
            && j.evicted == n && j.ended == 0 && j.row.attempts == n + 1 && Enabled(j, FailJob(n, true))
            && (FailedForGood(Apply(j, FailJob(n, true), cfg)) <==> n + 1 >= cfg.maxRetries)
  {
    EvictedReachable(n, cfg);
  }

  // ---- stranded jobs -------------------------------------------------------------------------

  /** With one reaper, and two crashes: the second takes the delivery of the reclaimed job with it. */
  lemma OneReaperStrandsJob(cfg: Config) returns (j: Job)
    requires cfg.lease >= 1
    ensures Reachable(j, cfg, 1) && Stranded(j)
  {
    EvictedReachable(0, cfg);
    Reaped(0, cfg);
    PickedUp(0, cfg);
    j := TakenUp(0, cfg).(deliveries := map[]);
    assert map[1 := Gated(1)] - {1} == map[];
    ReachNext(TakenUp(0, cfg), Crash(1), j, cfg, 1);
  }

  /** Delivery 1 runs the job before reaper 0 has acknowledged handing it over. */
  function RunsAgain(cfg: Config): Job {
    Job(Row(Running, Some(1), Some(2 * cfg.lease + 1), 2, None), cfg.lease + 1, 0, map[1 := Working(2)], {0, 1},
        map[0 := Enqueued], {0}, Some(1), 0, false, 2, 1, 0)
  }

  lemma RunsAgainReachable(cfg: Config)
    requires cfg.lease >= 1
    ensures Reachable(RunsAgain(cfg), cfg, 2)
  {
    var h := Enqueuing(0, cfg);
    var a := h.(queue := 0, used := {0, 1}, deliveries := map[1 := Gated(1)]);
    var b := a.(row := h.row.(worker := Some(1), expires := Some(2 * cfg.lease + 1)),
                deliveries := map[1 := Leased(1)]);
    EvictedReachable(0, cfg);
    Reaped(0, cfg);
    MoreReapers(h, cfg, 1, 2);
    assert Range(0, 1) == {0} && Clock(1, cfg) == cfg.lease + 1;
    ReachNext(h, Deliver(1), a, cfg, 2);
    ReachNext(a, Acquire(1), b, cfg, 2);
    ReachNext(b, Start(1), RunsAgain(cfg), cfg, 2);
  }

  /** With a second reaper, without any delivery dying on the way: the late acknowledgement clears a newer mark. */
  lemma TwoReapersStrandJob(cfg: Config) returns (j: Job)
    requires cfg.lease >= 1
    ensures Reachable(j, cfg, 2) && Stranded(j)
  {
    var c, late := RunsAgain(cfg), 2 * cfg.lease + 2;
    var d := c.(deliveries := map[]);
    var e := d.(now := late);
    var f := Job(Row(Queued, None, None, 2, Some(late)), late, 0, map[], {0, 1},
                 map[0 := Enqueued, 1 := Holding], {0, 1}, Some(1), 0, true, 2, 2, 0);
    var g := f.(row := f.row.(nextRetry := None), reapers := map[1 := Holding]);
    RunsAgainReachable(cfg);
    ReachNext(c, Crash(1), d, cfg, 2);
    ReachNext(d, Tick(cfg.lease + 1), e, cfg, 2);
    ReachNext(e, Reclaim(1), f, cfg, 2);
    ReachNext(f, ReaperAck(0), g, cfg, 2);
    j := g.(reapers := map[]);
    assert map[1 := Holding] - {1} == map[];
    ReachNext(g, ReaperCrash(1), j, cfg, 2);
  }

  // ---- a revived failure ------------------------------------------------------------------------

  /** Of two duplicates past the gate, 0 has failed for good and let go of the lease. */
  function HalfFailed(cfg: Config): Job {
    Job(Row(Failed, None, None, 1, None), 0, 1, map[1 := Gated(0)], Range(0, 2), map[], {}, Some(0), 0, false, 1, 0, 1)
  }

  /** The other then starts the job again, although its error was permanent, and uses no budget. */
  lemma DuplicateRevivesFailure(cfg: Config)
    requires cfg.lease >= 1
    ensures Reachable(HalfFailed(cfg), cfg, 0) && FailedForGood(HalfFailed(cfg)) && CanRunAgain(HalfFailed(cfg), cfg)
    ensures Enabled(HalfFailed(cfg), Acquire(1))
    ensures var leased := Apply(HalfFailed(cfg), Acquire(1), cfg);
            && Enabled(leased, Start(1)) && Starts(leased, Start(1))
            && Apply(leased, Start(1), cfg).row.attempts == HalfFailed(cfg).row.attempts
  {
    var p, owned := Pool(0, 2), Row(Queued, Some(0), Some(cfg.lease), 0, None);
    var a := p.(row := owned, deliveries := map[0 := Leased(0), 1 := Gated(0)]);
    var b := Job(Row(Running, Some(0), Some(cfg.lease), 1, None), 0, 1,
                 map[0 := Working(1), 1 := Gated(0)], Range(0, 2),
                 map[], {}, Some(0), 0, false, 1, 0, 0);
    var c := HalfFailed(cfg).(row := Row(Failed, Some(0), Some(cfg.lease), 1, None),
                              deliveries := map[0 := Leaving, 1 := Gated(0)]);
    PoolReachable(0, 2, cfg);
    ReachNext(p, Acquire(0), a, cfg, 0);
    ReachNext(a, Start(0), b, cfg, 0);
    ReachNext(b, FailJob(0, false), c, cfg, 0);
    assert map[0 := Leaving, 1 := Gated(0)] - {0} == map[1 := Gated(0)];
    ReachNext(c, Release(0), HalfFailed(cfg), cfg, 0);
    GatedRunsAgain(HalfFailed(cfg), 1, cfg);
  }
}
