/**
 * The fixed-window request limiter: one counter row a key, upserted by every request, and a
 * sweep of day-old rows after it. Times are in microseconds;
 * a window of n seconds is n * 1_000_000 long.
 */
module RateLimit {
  const DAY: int := 86_400_000_000

  datatype Window = Window(start: int, attempts: nat)

  type Rows = map<string, Window>

  /** `window` is the length of a window. */
  datatype Request = Request(key: string, now: int, limit: int, window: int)

  predicate Expired(w: Window, now: int, window: int) {
    w.start <= now - window
  }

  /** The upsert: a fresh window, a restarted one, or one more attempt in the open one. */
  function Upsert(rows: Rows, r: Request): Rows {
    if r.key !in rows || Expired(rows[r.key], r.now, r.window) then rows[r.key := Window(r.now, 1)]
    else rows[r.key := rows[r.key].(attempts := rows[r.key].attempts + 1)]
  }

  /** The keys whose window started more than a day ago. */
  function Stale(rows: Rows, now: int): set<string> {
    set k | k in rows && rows[k].start < now - DAY
  }

  function Sweep(rows: Rows, now: int): Rows {
    rows - Stale(rows, now)
  }

  function Allowed(rows: Rows, r: Request): bool {
    Upsert(rows, r)[r.key].attempts <= r.limit
  }

  class Limiter {
    var rows: Rows

    constructor ()
      ensures rows == map[]
    {
      rows := map[];
    }

    method CheckRateLimit(r: Request) returns (allowed: bool)
      modifies this
      ensures allowed == Allowed(old(rows), r)
      ensures rows == Sweep(Upsert(old(rows), r), r.now)
    {
      var attempts := 1;
      if r.key in rows && !Expired(rows[r.key], r.now, r.window) {
        attempts := rows[r.key].attempts + 1;
        rows := rows[r.key := rows[r.key].(attempts := attempts)];
      } else {
        rows := rows[r.key := Window(r.now, 1)];
      }
      rows := rows - set k | k in rows && rows[k].start < r.now - DAY;
      return attempts <= r.limit;
    }
  }

  // ---- traces --------------------------------------------------------------------------

  ghost predicate ClockRuns(trace: seq<Request>) {
    forall i, j :: 0 <= i < j < |trace| ==> trace[i].now <= trace[j].now
  }

  /** Rows are swept when more than a day old, so a window may last until then: a day, in whole seconds. */
  ghost predicate ShortWindows(trace: seq<Request>) {
    forall i :: 0 <= i < |trace| ==> trace[i].window <= DAY + 1
  }

  /** The rows after the first n requests, swept or never swept. */
  function After(trace: seq<Request>, n: nat, sweeping: bool): Rows
    requires n <= |trace|
  {
    if n == 0 then map[]
    else
      var rows := Upsert(After(trace, n - 1, sweeping), trace[n - 1]);
      if sweeping then Sweep(rows, trace[n - 1].now) else rows
  }

  predicate Decision(trace: seq<Request>, n: nat, sweeping: bool)
    requires n < |trace|
  {
    Allowed(After(trace, n, sweeping), trace[n])
  }

  // ---- sweeping is invisible -----------------------------------------------------------------

  /** Swept rows are rows; what was swept away is more than a day old. */
  ghost predicate Agree(swept: Rows, kept: Rows, now: int) {
    && (forall k :: k in swept ==> k in kept && kept[k] == swept[k])
    && (forall k :: k in kept && k !in swept ==> kept[k].start < now - DAY)
  }

  lemma SweepAgrees(swept: Rows, kept: Rows, before: int, r: Request)
    requires Agree(swept, kept, before) && before <= r.now && r.window <= DAY + 1
    ensures Allowed(swept, r) == Allowed(kept, r)
    ensures Agree(Sweep(Upsert(swept, r), r.now), Upsert(kept, r), r.now)
  {
  }

  lemma {:induction false} RowsAgree(trace: seq<Request>, n: nat)
    requires ClockRuns(trace) && n <= |trace| && ShortWindows(trace)
    ensures n == 0 ==> After(trace, n, true) == After(trace, n, false)
    ensures n > 0 ==> Agree(After(trace, n, true), After(trace, n, false), trace[n - 1].now)
  {
    if n > 0 {
      RowsAgree(trace, n - 1);
      var before := if n == 1 then trace[0].now else trace[n - 2].now;
      SweepAgrees(After(trace, n - 1, true), After(trace, n - 1, false), before, trace[n - 1]);
    }
  }

  /** With windows of at most a day, the sweep never changes a decision. */
  lemma SweepIsInvisible(trace: seq<Request>, n: nat)
    requires ClockRuns(trace) && n < |trace| && ShortWindows(trace)
    ensures Decision(trace, n, true) == Decision(trace, n, false)
  {
    RowsAgree(trace, n);
    if n > 0 {
      SweepAgrees(After(trace, n, true), After(trace, n, false), trace[n - 1].now, trace[n]);
    }
  }

  function LongTrace(window: int): seq<Request> {
    [Request("k", 0, 2, window), Request("k", DAY + 1, 2, window), Request("k", DAY + 1, 2, window)]
  }

  /** With any longer window it does: the day-old window is dropped while it is still open. */
  lemma SweepShowsBeyondADay(window: int)
    requires window > DAY + 1
    ensures ClockRuns(LongTrace(window))
    ensures Decision(LongTrace(window), 2, true) && !Decision(LongTrace(window), 2, false)
  {
    var trace := LongTrace(window);
    assert After(trace, 1, true) == map["k" := Window(0, 1)];
    assert After(trace, 1, false) == map["k" := Window(0, 1)];
    assert "k" !in After(trace, 2, true);
    assert After(trace, 2, false)["k"] == Window(0, 2);
  }

  // ---- windows ---------------------------------------------------------------------------------

  /** The n-th request starts a window of its key. */
  predicate OpensWindow(trace: seq<Request>, n: nat, sweeping: bool)
    requires n < |trace|
  {
    var (rows, r) := (After(trace, n, sweeping), trace[n]);
    r.key !in rows || Expired(rows[r.key], r.now, r.window)
  }

  lemma SweepOpensNothing(trace: seq<Request>, n: nat)
    requires ClockRuns(trace) && n < |trace| && ShortWindows(trace)
    ensures OpensWindow(trace, n, true) == OpensWindow(trace, n, false)
  {
    RowsAgree(trace, n);
    assert n > 0 ==> trace[n - 1].now <= trace[n].now;
  }

  lemma {:induction false} StartsMoveOn(trace: seq<Request>, i: nat, n: nat)
    requires ClockRuns(trace) && i < n <= |trace| && OpensWindow(trace, i, false)
    ensures trace[i].key in After(trace, n, false) && trace[i].now <= After(trace, n, false)[trace[i].key].start
    decreases n
  {
    if i + 1 < n {
      StartsMoveOn(trace, i, n - 1);
    }
  }

  /** Two windows of a key start at least a window length apart. */
  lemma WindowsStartApart(trace: seq<Request>, key: string, limit: int, window: int, i: nat, j: nat)
    requires ClockRuns(trace) && Uniform(trace, key, limit, window)
    requires ShortWindows(trace)
    requires i < j < |trace| && trace[i].key == trace[j].key == key
    requires OpensWindow(trace, i, true) && OpensWindow(trace, j, true)
    ensures trace[j].now - trace[i].now >= window
  {
    SweepOpensNothing(trace, i);
    SweepOpensNothing(trace, j);
    StartsMoveOn(trace, i, j);
  }

  // ---- what an interval can admit ----------------------------------------------------------------

  /** Requests of one key all use one limit and one window length. */
  ghost predicate Uniform(trace: seq<Request>, key: string, limit: int, window: int) {
    forall i :: 0 <= i < |trace| && trace[i].key == key ==> trace[i].limit == limit && trace[i].window == window
  }

  predicate Counts(r: Request, key: string, from: int, to: int) {
    r.key == key && from <= r.now < to
  }

  /** Requests of the key allowed in [from, to) among the first n. */
  function Admitted(trace: seq<Request>, n: nat, key: string, from: int, to: int, sweeping: bool): nat
    requires n <= |trace|
  {
    if n == 0 then 0
    else
      Admitted(trace, n - 1, key, from, to, sweeping)
      + if Counts(trace[n - 1], key, from, to) && Decision(trace, n - 1, sweeping) then 1 else 0
  }

  function Min(a: int, b: int): int {
    if a < b then a else b
  }

  /** What the open window says about the requests admitted so far. */
  ghost predicate WindowPays(rows: Rows, key: string, admitted: nat, limit: int, from: int) {
    if key !in rows then admitted == 0
    else if rows[key].start < from then admitted <= Min(rows[key].attempts, limit) - 1
    else admitted <= limit - 1 + Min(rows[key].attempts, limit)
  }

  ghost predicate Paid(trace: seq<Request>, n: nat, key: string, limit: int, window: int, from: int)
    requires n <= |trace|
  {
    var (rows, admitted) := (After(trace, n, false), Admitted(trace, n, key, from, from + window, false));
    && admitted <= 2 * limit - 1
    && (n > 0 && trace[n - 1].now < from + window ==> WindowPays(rows, key, admitted, limit, from))
    && (n == 0 || trace[n - 1].now < from ==> admitted == 0)
    && (key in rows ==> rows[key].attempts >= 1 && n > 0 && rows[key].start <= trace[n - 1].now)
  }

  lemma OneMorePaid(trace: seq<Request>, n: nat, key: string, limit: int, window: int, from: int)
    requires ClockRuns(trace) && Uniform(trace, key, limit, window) && n < |trace| && limit >= 1 && window >= 0
    requires Paid(trace, n, key, limit, window, from)
    ensures Paid(trace, n + 1, key, limit, window, from)
  {
  }

  lemma {:induction false} AllPaid(trace: seq<Request>, n: nat, key: string, limit: int, window: int, from: int)
    requires ClockRuns(trace) && Uniform(trace, key, limit, window) && n <= |trace| && limit >= 1 && window >= 0
    ensures Paid(trace, n, key, limit, window, from)
  {
    if n > 0 {
      AllPaid(trace, n - 1, key, limit, window, from);
      OneMorePaid(trace, n - 1, key, limit, window, from);
    }
  }

  lemma {:induction false} SweepKeepsCount(trace: seq<Request>, n: nat, key: string, from: int, to: int)
    requires ClockRuns(trace) && n <= |trace| && ShortWindows(trace)
    ensures Admitted(trace, n, key, from, to, true) == Admitted(trace, n, key, from, to, false)
  {
    if n > 0 {
      SweepKeepsCount(trace, n - 1, key, from, to);
      SweepIsInvisible(trace, n - 1);
    }
  }

  /**
   * Whatever the trace and whatever other keys do, no interval as long as the window admits more
   * than 2 * limit - 1 requests of a key: the request that opened the earlier window lies outside.
   */
  lemma IntervalAdmitsFewerThanTwoLimits(trace: seq<Request>, key: string, limit: int, window: int, from: int)
    requires ClockRuns(trace) && Uniform(trace, key, limit, window) && limit >= 1 && window >= 0
    requires ShortWindows(trace)
    ensures Admitted(trace, |trace|, key, from, from + window, true) <= 2 * limit - 1
  {
    SweepKeepsCount(trace, |trace|, key, from, from + window);
    AllPaid(trace, |trace|, key, limit, window, from);
  }

  /** A limit below one admits nothing. */
  lemma {:induction false} NothingBelowOne(
    trace: seq<Request>, n: nat, key: string, limit: int, window: int, from: int, to: int)
    requires Uniform(trace, key, limit, window) && n <= |trace| && limit < 1
    ensures Admitted(trace, n, key, from, to, true) == 0
    ensures forall k :: k in After(trace, n, true) ==> After(trace, n, true)[k].attempts >= 1
  {
    if n > 0 {
      NothingBelowOne(trace, n - 1, key, limit, window, from, to);
    }
  }

  // ---- the bound is attained ------------------------------------------------------------------------

  /** One request at 0, the rest of its allowance just before the window ends, a full one just after. */
  function WorstTrace(limit: nat, window: nat): seq<Request>
    requires limit >= 1
  {
    seq(2 * limit, i requires 0 <= i < 2 * limit =>
      Request("k", if i == 0 then 0 else if i < limit then window - 1 else window, limit, window))
  }

  lemma WorstShape(limit: nat, window: nat)
    requires limit >= 1 && 2 <= window <= DAY + 1
    ensures var trace := WorstTrace(limit, window);
            ClockRuns(trace) && ShortWindows(trace) && Uniform(trace, "k", limit, window)
  {
  }

  lemma {:induction false} WorstRun(limit: nat, window: nat, n: nat)
    requires limit >= 1 && 2 <= window <= DAY + 1 && n <= 2 * limit
    ensures var trace := WorstTrace(limit, window);
            var rows := After(trace, n, false);
            && (0 < n <= limit ==> "k" in rows && rows["k"] == Window(0, n))
            && (limit < n ==> "k" in rows && rows["k"] == Window(window, n - limit))
            && Admitted(trace, n, "k", window - 1, 2 * window - 1, false) == if n == 0 then 0 else n - 1
  {
    if n > 0 {
      WorstRun(limit, window, n - 1);
    }
  }

  /** Every limit has a trace that gets 2 * limit - 1 requests through within one window length. */
  lemma BoundIsAttained(limit: nat, window: nat)
    requires limit >= 1 && 2 <= window <= DAY + 1
    ensures var trace := WorstTrace(limit, window);
            && ClockRuns(trace) && Uniform(trace, "k", limit, window)
            && Admitted(trace, |trace|, "k", window - 1, 2 * window - 1, true) == 2 * limit - 1
  {
    WorstShape(limit, window);
    WorstRun(limit, window, 2 * limit);
    SweepKeepsCount(WorstTrace(limit, window), 2 * limit, "k", window - 1, 2 * window - 1);
  }
}
