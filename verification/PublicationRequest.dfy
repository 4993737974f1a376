/**
 * Requesting a publication over HTTP: the row is persisted, then a job is created and enqueued for
 * it, all as one keyed write. Whatever fails after the row is persisted gives the key back.
 */
module PublicationRequest {
  import opened CanonicalJson
  import opened Idempotency
  import opened JsonValues
  import opened Wrappers
  import opened Writes

  datatype PublicationStatus = AwaitingJob | MarkedFailed

  datatype JobStatus = Queued | Running | GivenUp | Finished

  datatype Publication = Publication(key: Option<string>, status: PublicationStatus)

  /** What one request meets; `valid`: the content, the media and the texts pass the checks. */
  datatype Env = Env(valid: bool, create: Write, job: Write, queue: Write, jobMark: Write, mark: Write)

  function Inflight(jobs: seq<JobStatus>): nat {
    if jobs == [] then 0
    else Inflight(jobs[..|jobs| - 1]) + if jobs[|jobs| - 1] in {Queued, Running} then 1 else 0
  }

  predicate Persists(env: Env) {
    env.valid && Landed(env.create)
  }

  predicate Succeeds(env: Env, full: bool) {
    env.valid && env.create.Ok? && !full && env.job.Ok? && env.queue.Ok?
  }

  class Desk {
    const limit: nat
    var publications: seq<Publication>
    var jobs: seq<JobStatus>

    predicate Full()
      reads this
    {
      Inflight(jobs) >= limit
    }

    method CountInflight() returns (n: nat)
      ensures n == Inflight(jobs)
    {
      n := 0;
      var i := 0;
      while i < |jobs|
        invariant i <= |jobs| && n == Inflight(jobs[..i])
      {
        assert jobs[..i + 1][..i] == jobs[..i];
        if jobs[i] == Queued || jobs[i] == Running {
          n := n + 1;
        }
        i := i + 1;
      }
      assert jobs[..i] == jobs;
    }

    /** create_and_enqueue_job: refuses at capacity; a job that cannot be enqueued is given up. */
    method CreateAndEnqueueJob(env: Env) returns (ok: bool)
      modifies this`jobs
      ensures ok <==> !old(Full()) && env.job.Ok? && env.queue.Ok?
      ensures jobs == if old(Full()) || !Landed(env.job) then old(jobs)
                      else old(jobs) + [
                             if env.job.Ok? && !env.queue.Ok? && Landed(env.jobMark) then GivenUp else Queued]
    {
      var n := CountInflight();
      if n >= limit {
        return false;
      }
      if Landed(env.job) {
        jobs := jobs + [Queued];
      }
      if !env.job.Ok? {
        return false;
      }
      if !env.queue.Ok? && Landed(env.jobMark) {
        jobs := jobs[|jobs| - 1 := GivenUp];
      }
      return env.queue.Ok?;
    }

    /**
     * The keyed write. It raises exactly unless everything goes well, and a row stays behind
     * whenever it was persisted, raised or not.
     */
    method CreateAndEnqueue(key: Option<string>, env: Env) returns (ok: bool)
      modifies this
      ensures ok <==> Succeeds(env, old(Full()))
      ensures if Persists(env)
              then |publications| == |old(publications)| + 1 && publications[..|old(publications)|] == old(publications)
                   && publications[|old(publications)|].key == key
                   && (publications[|old(publications)|].status.MarkedFailed? <==>
                         env.create.Ok? && !ok && Landed(env.mark))
              else publications == old(publications)
    {
      if Persists(env) {
        publications := publications + [Publication(key, AwaitingJob)];
      }
      if !env.valid || !env.create.Ok? {
        return false;
      }
      ok := CreateAndEnqueueJob(env);
      if !ok && Landed(env.mark) {
        publications := publications[|publications| - 1 := Publication(key, MarkedFailed)];
      }
    }
  }

  // ---- the retry ------------------------------------------------------------------------------

  function RequestKey(key: string): Key {
    Key(PublicationCreate, key)
  }

  /** After one request whose write raised, with or without a row, and gave the key back. */
  function FailedOnce(key: string, args: Args, landed: bool): World {
    var k := RequestKey(key);
    var taken := if landed then multiset{k} else multiset{};
    World(map[k := Record(Canonical(args), Failed, None)],
          map[0 := Request(Some(k), args, Canonical(args), Refused)], [], taken, taken)
  }

  function FailingMoves(key: string, args: Args, landed: bool): seq<Move> {
    [Arrive(0, Some(RequestKey(key)), args), TakeKey(0), WriteRaises(0, landed), Release(0)]
  }

  lemma FailedOnceReachable(key: string, args: Args, landed: bool) returns (worlds: seq<World>)
    requires key != ""
    ensures IsRun(worlds, FailingMoves(key, args, landed)) && worlds[4] == FailedOnce(key, args, landed)
  {
    var (k, moves) := (RequestKey(key), FailingMoves(key, args, landed));
    var a := Apply(EMPTY, moves[0]);
    var b := Apply(a, moves[1]);
    assert b.calls[0].pc == Writing;
    var c := Apply(b, moves[2]);
    var d := Apply(c, moves[3]);
    assert d.ledger == map[k := Record(Canonical(args), Failed, None)];
    assert d.calls == map[0 := Request(Some(k), args, Canonical(args), Refused)];
    worlds := [EMPTY, a, b, c, d];
    forall t | 0 <= t < |moves| ensures StepAt(worlds, moves, t) {
      assert t == 0 || t == 1 || t == 2 || t == 3;
    }
  }

  /**
   * A request that failed and is sent again under its key makes a second publication, with nothing
   * else going wrong, exactly when the first was persisted before the failure.
   */
  lemma RetryDuplicatesIff(key: string, args: Args, env: Env, full: bool)
    requires key != "" && !Succeeds(env, full)
    ensures var w := FailedOnce(key, args, Persists(env));
            Persists(env) <==>
              exists worlds: seq<World>, moves: seq<Move> ::
                && IsRunFrom(w, worlds, moves) && NeverLeaks(worlds, moves, RequestKey(key))
                && worlds[|moves|].effects[RequestKey(key)] >= 2
  {
    var (w, k) := (FailedOnce(key, args, Persists(env)), RequestKey(key));
    var before := FailedOnceReachable(key, args, Persists(env));
    RunInv(EMPTY, before, FailingMoves(key, args, Persists(env)), 4);
    if Persists(env) {
      var worlds, moves := FreeTakesEffect(w, k, 1, args);
      assert worlds[|moves|].effects[k] >= 2;
    } else {
      forall worlds: seq<World>, moves: seq<Move> | IsRunFrom(w, worlds, moves) && NeverLeaks(worlds, moves, k)
        ensures worlds[|moves|].effects[k] <= 1
      {
        ReleasedStays(w, worlds, moves, |moves|, k);
        RunInv(w, worlds, moves, |moves|);
        assert Accounted(worlds[|moves|], k);
      }
    }
  }

  /**
   * At capacity any valid request fails after its row is persisted; sent again when there is room,
   * it makes a second publication under the same key.
   */
  lemma FullQueueDuplicates(key: string, args: Args, env: Env) returns (worlds: seq<World>, moves: seq<Move>)
    requires key != "" && env.valid && env.create.Ok?
    ensures !Succeeds(env, true) && IsRun(worlds, moves)
    ensures FailingMoves(key, args, Persists(env)) <= moves
    ensures worlds[|moves|].effects[RequestKey(key)] == 2
  {
    var first := FailedOnceReachable(key, args, true);
    var start := FailingMoves(key, args, true);
    var later, more := FreeTakesEffect(first[4], RequestKey(key), 1, args);
    worlds, moves := first + later[1..], start + more;
    forall t | 0 <= t < |moves| ensures StepAt(worlds, moves, t) {
      if t < |start| {
        assert StepAt(first, start, t);
      } else {
        assert StepAt(later, more, t - |start|);
      }
    }
    assert worlds[|moves|] == later[|more|];
    RunInv(EMPTY, worlds, moves, |moves|);
    RunInv(EMPTY, first, start, 4);
    ReleasedStays(first[4], later, more, |more|, RequestKey(key));
    assert Accounted(later[|more|], RequestKey(key));
  }
}
