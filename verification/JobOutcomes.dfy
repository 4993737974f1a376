/**
 * How a job comes to its status: which move sets which, what a run that ended completed must have
 * contained, how long a retry waits, and that an owner who keeps beating keeps the job.
 */
module JobOutcomes {
  import opened JobLeases
  import opened Wrappers

  // ---- one move -----------------------------------------------------------------

  /** The worker's lease is the one on the row, and it has not run out. */
  ghost predicate Holds(j: Job, w: Worker) {
    j.row.worker == Some(w) && j.row.expires.Some? && j.now < j.row.expires.value
  }

  ghost predicate CompletesNow(j: Job, m: Move) {
    m.Succeed? && j.row.status == Running && Holds(j, m.w)
  }

  ghost predicate FailsNow(j: Job, m: Move) {
    m.FailJob? && j.row.status == Running && Holds(j, m.w)
  }

  ghost predicate StartsNow(j: Job, m: Move) {
    m.Start? && j.row.status in {Queued, Failed} && Holds(j, m.w)
  }

  /** A job that has not ended for good is cancelled; a failure counts as ended unless a retry is recorded. */
  ghost predicate CancelsNow(j: Job, m: Move) {
    m.Cancel? && (j.row.status in {Queued, Running} || (j.row.status == Failed && j.row.nextRetry.Some?))
  }

  /** Every status, and exactly the moves that set it. */
  lemma StatusIff(j: Job, m: Move, cfg: Config)
    requires Enabled(j, m)
    ensures var (old_, new_) := (j.row.status, Apply(j, m, cfg).row.status);
            && (new_ == Completed <==> old_ == Completed || CompletesNow(j, m))
            && (new_ == Cancelled <==> old_ == Cancelled || CancelsNow(j, m))
            && (new_ == Failed <==> (old_ == Failed && !StartsNow(j, m) && !CancelsNow(j, m)) || FailsNow(j, m))
            && (new_ == Running <==>
                  || StartsNow(j, m)
                  || (old_ == Running && !CompletesNow(j, m) && !FailsNow(j, m) && !CancelsNow(j, m) && !m.Reclaim?))
            && (new_ == Queued <==> (old_ == Queued && !StartsNow(j, m) && !CancelsNow(j, m)) || m.Reclaim?)
  {
  }

  /** The lease can be taken: nobody has it, the taker does, or it ran out before now. */
  ghost predicate CanTake(j: Job, w: Worker) {
    j.row.worker in {None, Some(w)} || j.row.expires == None || j.row.expires.value < j.now
  }

  /** A lease is taken, kept up, given up or taken away by exactly these moves. */
  lemma LeaseIff(j: Job, m: Move, cfg: Config)
    requires Enabled(j, m)
    ensures var k := Apply(j, m, cfg).row;
            if m.Acquire? && CanTake(j, m.w) then k.worker == Some(m.w) && k.expires == Some(j.now + cfg.lease)
            else if m.Heartbeat? && j.row.status != Cancelled && Holds(j, m.w) then
              k.worker == j.row.worker && k.expires == Some(j.now + cfg.lease)
            else if m.Reclaim? || (m.Release? && j.row.worker == Some(m.w) && j.row.status != Running) then
              k.worker == None && k.expires == None
            else k.worker == j.row.worker && k.expires == j.row.expires
  {
  }

  /** A retry is on the row, or off it, by exactly these moves. */
  lemma RetryMarkIff(j: Job, m: Move, cfg: Config)
    requires Fence(j) && Enabled(j, m)
    ensures var next := Apply(j, m, cfg).row.nextRetry;
            if FailsNow(j, m) then
              next == if m.isTransient && j.row.attempts < cfg.maxRetries
                      then Some(j.now + BackoffDelay(j.row.attempts, cfg)) else None
            else if m.Reclaim? then next == Some(j.now)
            else if || StartsNow(j, m) || CompletesNow(j, m) || CancelsNow(j, m)
                    || (m.ReaperAck? && j.row.status == Queued)
                    || (m.Reschedule? && !m.enqueued && j.row.status == Failed && Holds(j, m.w))
                 then next == None
            else next == j.row.nextRetry
  {
  }

  /** The delay doubles with every attempt until it reaches the cap. */
  lemma BackoffDoubles(a: Attempt, cfg: Config)
    ensures BackoffDelay(1, cfg) == if cfg.baseDelay < cfg.maxDelay then cfg.baseDelay else cfg.maxDelay
    ensures BackoffDelay(a + 1, cfg)
         == if 2 * BackoffDelay(a, cfg) < cfg.maxDelay then 2 * BackoffDelay(a, cfg) else cfg.maxDelay
  {
    var p := Pow2(a - 1);
    assert Pow2(a) == 2 * p && Pow2(0) == 1;
    assert cfg.baseDelay * (2 * p) == 2 * (cfg.baseDelay * p);
  }

  /** A delivery gets past the status gate if and only if the job is queued, or failed with a retry that is due. */
  lemma GateIff(j: Job, w: Worker, cfg: Config)
    requires OwnerIsFresh(j) && Enabled(j, Deliver(w))
    ensures var k := Apply(j, Deliver(w), cfg);
            && (w in k.deliveries <==>
                  || j.row.status == Queued
                  || (j.row.status == Failed && j.row.nextRetry.Some? && j.now >= j.row.nextRetry.value))
            && (w in k.deliveries ==> k.deliveries[w] == Gated(j.row.attempts))
            && k.row == j.row && k.queue == j.queue - 1
  {
  }

  // ---- whole runs ------------------------------------------------------------------

  ghost predicate CompletedBy(states: seq<Job>, moves: seq<Move>, t: nat)
    requires |states| == |moves| + 1
  {
    exists u: nat :: u < t && u < |moves| && CompletesNow(states[u], moves[u])
  }

  ghost predicate CancelledBy(states: seq<Job>, moves: seq<Move>, t: nat)
    requires |states| == |moves| + 1
  {
    exists u: nat :: u < t && u < |moves| && CancelsNow(states[u], moves[u])
  }

  /**
   * In every run a job is completed if and only if the owner of the live lease reported success
   * while it was running, and cancelled if and only if a cancel reached it before it had ended.
   */
  lemma {:induction false} OutcomeIff(states: seq<Job>, moves: seq<Move>, cfg: Config, t: nat)
    requires IsRun(states, moves, cfg) && t < |states|
    ensures states[t].row.status == Completed <==> CompletedBy(states, moves, t)
    ensures states[t].row.status == Cancelled <==> CancelledBy(states, moves, t)
  {
    if t > 0 {
      OutcomeIff(states, moves, cfg, t - 1);
      assert StepAt(states, moves, cfg, t - 1);
      StatusIff(states[t - 1], moves[t - 1], cfg);
      assert CompletedBy(states, moves, t) <==>
        CompletedBy(states, moves, t - 1) || CompletesNow(states[t - 1], moves[t - 1]);
      assert CancelledBy(states, moves, t) <==>
        CancelledBy(states, moves, t - 1) || CancelsNow(states[t - 1], moves[t - 1]);
    }
  }

  // ---- an owner who keeps beating ------------------------------------------------------

  /** No lease reaches further than one lease from now. */
  lemma {:induction false} LeasesAreShort(states: seq<Job>, moves: seq<Move>, cfg: Config, t: nat)
    requires IsRun(states, moves, cfg) && t < |states|
    ensures states[t].row.expires.Some? ==> states[t].row.expires.value <= states[t].now + cfg.lease
  {
    if t > 0 {
      LeasesAreShort(states, moves, cfg, t - 1);
      assert StepAt(states, moves, cfg, t - 1);
      LeaseIff(states[t - 1], moves[t - 1], cfg);
      TimePasses(states[t - 1], moves[t - 1], cfg);
    }
  }

  lemma TimePasses(j: Job, m: Move, cfg: Config)
    requires Enabled(j, m)
    ensures j.now <= Apply(j, m, cfg).now
  {
  }

  /** Until when the beat made before state b reaches: the heartbeat at b, or the lease held at t. */
  ghost predicate Beat(states: seq<Job>, moves: seq<Move>, w: Worker, t: nat, b: nat)
    requires |states| == |moves| + 1 && t <= b < |states|
  {
    b == t || moves[b - 1] == Heartbeat(w)
  }

  ghost function ReachOf(states: seq<Job>, cfg: Config, t: nat, b: nat): int
    requires t < |states| && b < |states| && states[t].row.expires.Some?
  {
    if b == t then states[t].row.expires.value else states[b].now + cfg.lease
  }

  /** At state i, some beat since t still reaches. */
  ghost predicate InTime(states: seq<Job>, moves: seq<Move>, cfg: Config, w: Worker, t: nat, i: nat)
    requires |states| == |moves| + 1 && t <= i < |states| && states[t].row.expires.Some?
  {
    exists b :: t <= b <= i && Beat(states, moves, w, t, b) && states[i].now < ReachOf(states, cfg, t, b)
  }

  /** The moves that end an attempt of w rightly: its own report, or the user. */
  ghost predicate EndsFor(m: Move, w: Worker) {
    m == Succeed(w) || (m.FailJob? && m.w == w) || m.Cancel?
  }

  /** A running job whose owner's lease is live stays so under every move, its clock aside. */
  lemma OwnedStep(j: Job, m: Move, cfg: Config, w: Worker)
    requires Fence(j) && Enabled(j, m) && !EndsFor(m, w)
    requires j.row.status == Running && Holds(j, w)
    ensures var k := Apply(j, m, cfg);
            && k.row.status == Running && k.row.worker == Some(w) && k.row.expires.Some?
            && k.row.expires == (if m == Heartbeat(w) then Some(j.now + cfg.lease) else j.row.expires)
            && (m.Heartbeat? ==> k.now == j.now) && !m.Reclaim? && (m.Acquire? ==> m.w != w)
  {
  }

  /**
   * From any moment of any run at which w owns the running job: while its heartbeats come within
   * every lease and the attempt is neither reported nor cancelled, the job stays its own. No reaper
   * finds it lapsed and no other delivery gets its lease, however many try.
   */
  lemma {:induction false} BeatingKeepsJob(
      states: seq<Job>, moves: seq<Move>, cfg: Config, w: Worker, t: nat, u: nat)
    requires IsRun(states, moves, cfg) && t <= u < |states|
    requires states[t].row.status == Running && Holds(states[t], w)
    requires forall i :: t <= i <= u ==> InTime(states, moves, cfg, w, t, i)
    requires forall i :: t <= i < u ==> !EndsFor(moves[i], w)
    ensures states[u].row.status == Running && Holds(states[u], w) && !Lapsed(states[u])
    ensures forall b :: t <= b <= u && Beat(states, moves, w, t, b) ==>
              ReachOf(states, cfg, t, b) <= states[u].row.expires.value
    decreases u - t
  {
    if t < u {
      var j, m := states[u - 1], moves[u - 1];
      BeatingKeepsJob(states, moves, cfg, w, t, u - 1);
      RunFence(states, moves, cfg, u - 1);
      assert StepAt(states, moves, cfg, u - 1);
      OwnedStep(j, m, cfg, w);
      LeasesAreShort(states, moves, cfg, u - 1);
      assert InTime(states, moves, cfg, w, t, u);
    } else {
      assert InTime(states, moves, cfg, w, t, u);
    }
  }
}
