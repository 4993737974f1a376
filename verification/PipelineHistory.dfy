/**
 * What holds along every run of the pipeline: the history of completed steps, the agreement of
 * outputs and totals with it, and the bound on the work one run can do.
 */
module PipelineHistory {
  import opened JsonValues
  import opened PlanSchema
  import opened PlanRepair
  import opened PlanParse
  import opened Pipeline
  import opened Wrappers

  // ---- revisions keep history ------------------------------------------------

  /** What must never change once a step is completed. */
  ghost predicate SameDone(a: Step, b: Step) {
    && a.status.Completed? && b.status.Completed?
    && a.spec.index == b.spec.index && a.spec.agentId == b.spec.agentId && a.spec.inputsFrom == b.spec.inputsFrom
    && a.output == b.output && a.usage == b.usage
  }

  ghost predicate KeepsHistory(p: seq<Step>, q: seq<Step>) {
    forall i :: IsDone(p, i) ==> IsDone(q, i) && SameDone(p[i - 1], q[i - 1])
  }

  lemma {:induction false} UndisturbedIff(current: seq<Step>, revised: seq<PlanStep>)
    ensures DisturbedSteps(current, revised) == [] <==>
              forall s :: s in current && s.status.Completed? ==>
                var c := AtIndex(revised, s.spec.index);
                c.Some? && c.value.agentId == s.spec.agentId && c.value.inputsFrom == s.spec.inputsFrom
  {
    if current != [] {
      UndisturbedIff(current[1..], revised);
      assert current == [current[0]] + current[1..];
    }
  }

  lemma {:induction false} AtIndexOfShaped(specs: seq<PlanStep>, index: int)
    requires WellShaped(specs)
    ensures AtIndex(specs, index) == if 1 <= index <= |specs| then Some(specs[index - 1]) else None
  {
    if specs != [] {
      AtIndexOfShaped(specs[..|specs| - 1], index);
    }
  }

  lemma {:induction false} CompletedAtOfShaped(plan: seq<Step>, index: int)
    requires WellShaped(Specs(plan))
    ensures CompletedAt(plan, index) == if IsDone(plan, index) then Some(plan[index - 1]) else None
  {
    if plan != [] {
      assert Specs(plan)[|plan| - 1] == plan[|plan| - 1].spec;
      assert Specs(plan[..|plan| - 1]) == Specs(plan)[..|plan| - 1];
      CompletedAtOfShaped(plan[..|plan| - 1], index);
    }
  }

  lemma CarryKeepsHistory(plan: seq<Step>, revised: seq<PlanStep>)
    requires WellShaped(Specs(plan)) && WellShaped(revised) && DisturbedSteps(plan, revised) == []
    ensures KeepsHistory(plan, CarryAll(plan, revised))
  {
    var next := CarryAll(plan, revised);
    UndisturbedIff(plan, revised);
    forall i | IsDone(plan, i) ensures IsDone(next, i) && SameDone(plan[i - 1], next[i - 1]) {
      assert plan[i - 1] in plan && Specs(plan)[i - 1].index == i;
      AtIndexOfShaped(revised, i);
      CompletedAtOfShaped(plan, i);
      assert revised[i - 1].index == i;
    }
  }

  lemma CarryCompletesNothing(plan: seq<Step>, revised: seq<PlanStep>)
    requires WellShaped(Specs(plan)) && WellShaped(revised) && DisturbedSteps(plan, revised) == []
    ensures var next := CarryAll(plan, revised);
            && KeepsHistory(next, plan)
            && forall k :: 0 <= k < |next| ==> next[k].status.Pending? || next[k].status.Completed?
  {
    var next := CarryAll(plan, revised);
    CarryKeepsHistory(plan, revised);
    forall k | 0 <= k < |next|
      ensures next[k].status.Pending? || next[k].status.Completed?
      ensures next[k].status.Completed? ==> IsDone(plan, k + 1)
    {
      assert revised[k].index == k + 1;
      CompletedAtOfShaped(plan, k + 1);
    }
    forall i | IsDone(next, i) ensures IsDone(plan, i) && SameDone(next[i - 1], plan[i - 1]) {
      assert next[i - 1].status.Completed?;
    }
  }

  /**
   * An accepted revision keeps every completed step with its label, edges and output, and
   * completes nothing: the completed steps before and after are the same.
   */
  lemma RevisionKeepsHistory(plan: seq<Step>, reply: Option<Json>, py: Builtins)
    requires WellShaped(Specs(plan)) && MaybeRevise(plan, reply, py).Some?
    ensures var next := MaybeRevise(plan, reply, py).value;
            && KeepsHistory(plan, next) && KeepsHistory(next, plan)
            && WellShaped(Specs(next)) && next != []
            && forall k :: 0 <= k < |next| ==> next[k].status.Pending? || next[k].status.Completed?
  {
    var revised := CoercePlanPayload(reply.value, py).value;
    SalvagedRevision(reply.value, py);
    CarryKeepsHistory(plan, revised);
    CarryCompletesNothing(plan, revised);
    assert Specs(CarryAll(plan, revised)) == revised;
  }

  lemma ExecuteKeepsHistory(e: Exec, r: StepResult)
    requires e.index < |e.plan| && e.plan[e.index].status.Pending?
    ensures KeepsHistory(e.plan, ExecuteStep(e, r).plan)
  {
  }

  lemma KeepsTransitive(p: seq<Step>, q: seq<Step>, r: seq<Step>)
    requires KeepsHistory(p, q) && KeepsHistory(q, r)
    ensures KeepsHistory(p, r)
  {
  }

  // ---- outputs and totals ------------------------------------------------------

  ghost predicate OutputsAgree(e: Exec) {
    e.outputs == OutputsOf(e.plan)
  }

  lemma {:induction false} UsageAgrees(p: seq<Step>, q: seq<Step>, n: nat)
    requires forall k :: 0 <= k < n ==> UsageAt(p, k) == UsageAt(q, k)
    ensures UsageOf(p, n) == UsageOf(q, n)
  {
    if n > 0 { UsageAgrees(p, q, n - 1); }
  }

  lemma AddNothing(u: Usage)
    ensures Add(u, NO_USAGE) == u
  {
  }

  lemma {:induction false} UsageBeyond(p: seq<Step>, n: nat)
    requires n >= |p|
    ensures UsageOf(p, n) == UsageOf(p, |p|)
  {
    if n > |p| {
      UsageBeyond(p, n - 1);
      assert UsageAt(p, n - 1) == NO_USAGE;
      AddNothing(UsageOf(p, n - 1));
    }
  }

  lemma {:induction false} UsageAfterUpdate(p: seq<Step>, k: nat, s: Step, n: nat)
    requires k < |p| && !p[k].status.Completed? && s.status.Completed?
    ensures UsageOf(p[k := s], n) == if k < n then Add(UsageOf(p, n), s.usage) else UsageOf(p, n)
  {
    if n > 0 { UsageAfterUpdate(p, k, s, n - 1); }
  }

  function TotalOf(plan: seq<Step>): Usage {
    UsageOf(plan, |plan|)
  }

  lemma HistoryFixesTotals(p: seq<Step>, q: seq<Step>)
    requires KeepsHistory(p, q) && KeepsHistory(q, p)
    ensures TotalOf(p) == TotalOf(q) && OutputsOf(p) == OutputsOf(q)
  {
    var n := if |p| > |q| then |p| else |q|;
    forall k | 0 <= k < n ensures UsageAt(p, k) == UsageAt(q, k) {
      assert IsDone(p, k + 1) <==> IsDone(q, k + 1);
    }
    UsageAgrees(p, q, n);
    UsageBeyond(p, n);
    UsageBeyond(q, n);
    forall i | 1 <= i <= n ensures i in OutputsOf(p) <==> i in OutputsOf(q)
                           ensures i in OutputsOf(p) ==> OutputsOf(p)[i] == OutputsOf(q)[i] {
      assert IsDone(p, i) <==> IsDone(q, i);
    }
    assert OutputsOf(p).Keys == OutputsOf(q).Keys;
  }

  /** The tokens of a step whose answer was counted although the step is recorded as failed. */
  function LateUsageOf(r: StepResult): Usage {
    if r.LateFailure? then r.lateUsage else NO_USAGE
  }

  lemma ExecuteTotals(e: Exec, r: StepResult)
    requires e.index < |e.plan| && e.plan[e.index].status.Pending?
    ensures ExecuteStep(e, r).totals.prompt - TotalOf(ExecuteStep(e, r).plan).prompt
         == e.totals.prompt - TotalOf(e.plan).prompt + LateUsageOf(r).prompt
    ensures ExecuteStep(e, r).totals.completion - TotalOf(ExecuteStep(e, r).plan).completion
         == e.totals.completion - TotalOf(e.plan).completion + LateUsageOf(r).completion
    ensures ExecuteStep(e, r).totals.cost - TotalOf(ExecuteStep(e, r).plan).cost
         == e.totals.cost - TotalOf(e.plan).cost + LateUsageOf(r).cost
  {
    var n := |e.plan|;
    var q := ExecuteStep(e, r).plan;
    if r.Answered? {
      UsageAfterUpdate(e.plan, e.index, q[e.index], n);
    } else {
      UsageAgrees(e.plan, q, n);
    }
  }

  /**
   * While outputs agree with the completed steps, executing one more step keeps the agreement
   * unless, and only unless, the sub-agent had answered and its checkpoint or event write raised.
   */
  lemma OutputsAgreeExactly(e: Exec, r: StepResult)
    requires Runnable(e) && e.index < |e.plan| && e.plan[e.index].status.Pending? && OutputsAgree(e)
    ensures OutputsAgree(ExecuteStep(e, r)) <==> !r.LateFailure?
  {
    var i := e.index + 1;
    var next := ExecuteStep(e, r);
    assert Specs(e.plan)[e.index].index == i;
    assert i !in OutputsOf(e.plan);
    match r {
      case Answered(text, usage) =>
        assert OutputsOf(next.plan).Keys == OutputsOf(e.plan).Keys + {i};
        assert OutputsOf(next.plan) == OutputsOf(e.plan)[i := text];
      case RunnerFailed =>
        assert OutputsOf(next.plan).Keys == OutputsOf(e.plan).Keys;
        assert OutputsOf(next.plan) == OutputsOf(e.plan);
      case LateFailure(text, usage) =>
        assert i in next.outputs && i !in OutputsOf(next.plan);
    }
  }

  /** The same for the totals, which a late failure disturbs only if the answer used anything. */
  lemma TotalsAgreeExactly(e: Exec, r: StepResult)
    requires Runnable(e) && e.index < |e.plan| && e.plan[e.index].status.Pending? && e.totals == TotalOf(e.plan)
    ensures ExecuteStep(e, r).totals == TotalOf(ExecuteStep(e, r).plan) <==> LateUsageOf(r) == NO_USAGE
  {
    ExecuteTotals(e, r);
  }

  lemma ReviseKeeps(e: Exec, reply: Option<Json>, py: Builtins)
    requires Runnable(e) && e.index < |e.plan|
    ensures var next := ReviseAfter(e, reply, py);
            && KeepsHistory(e.plan, next.plan) && KeepsHistory(next.plan, e.plan)
            && next.outputs == e.outputs && next.totals == e.totals
            && TotalOf(next.plan) == TotalOf(e.plan) && OutputsOf(next.plan) == OutputsOf(e.plan)
  {
    var revised := if ShouldRevise(e) then MaybeRevise(e.plan, reply, py) else None;
    if revised.Some? {
      RevisionKeepsHistory(e.plan, reply, py);
      HistoryFixesTotals(e.plan, revised.value);
    }
  }

  // ---- along whole runs -----------------------------------------------------------

  function Executions(ops: seq<Op>): nat {
    if ops == [] then 0 else (if ops[0] == ExecuteOp then 1 else 0) + Executions(ops[1..])
  }

  lemma OneTurn(rest: seq<Op>)
    ensures Executions([SelectOp, ExecuteOp, ReviseOp] + rest) == 1 + Executions(rest)
  {
    var ops := [SelectOp, ExecuteOp, ReviseOp] + rest;
    var a, b := [ExecuteOp, ReviseOp] + rest, [ReviseOp] + rest;
    assert ops[1..] == a && a[1..] == b && b[1..] == rest;
    assert Executions(ops) == Executions(a) && Executions(a) == 1 + Executions(b) && Executions(b) == Executions(rest);
  }

  lemma LastTurn()
    ensures Executions([SelectOp, FinishOp]) == 0
  {
    assert [SelectOp, FinishOp][1..] == [FinishOp];
  }

  /** The drift of the totals over the executions n, n+1, ..., n+m-1. */
  function LateUsage(w: World, n: nat, m: nat): Usage
    decreases m
  {
    if m == 0 then NO_USAGE else Add(LateUsageOf(w.result(n)), LateUsage(w, n + 1, m - 1))
  }

  function Minus(a: Usage, b: Usage): Usage {
    Usage(a.prompt - b.prompt, a.completion - b.completion, a.cost - b.cost)
  }

  /** How far the running totals are from the sum over the completed steps. */
  function Drift(e: Exec): Usage {
    Minus(e.totals, TotalOf(e.plan))
  }

  /** One turn of the run: where it leads from a state that has a step to execute, or how it ends. */
  lemma DriveTurn(e: Exec, w: World, n: nat) returns (s: Exec, found: bool, next: Exec)
    requires Runnable(e)
    ensures Runnable(s) && s == e.(index := s.index, cancelled := s.cancelled)
    ensures (s, found) == SelectNext(e, w.cancelled(n))
    ensures !found ==> Drive(e, w, n) == (s, [SelectOp, FinishOp])
    ensures found ==>
              && s.index < |s.plan| && s.plan[s.index].status.Pending?
              && next == ReviseAfter(ExecuteStep(s, w.result(n)), w.reply(n), w.py)
              && Runnable(next) && 0 < Fuel(e) && Fuel(next) < Fuel(e)
              && Drive(e, w, n) == (Drive(next, w, n + 1).0, [SelectOp, ExecuteOp, ReviseOp] + Drive(next, w, n + 1).1)
  {
    SelectFinds(e, w.cancelled(n));
    s, found, next := SelectNext(e, w.cancelled(n)).0, SelectNext(e, w.cancelled(n)).1, e;
    assert |Specs(s.plan)| == |s.plan|;
    if found {
      ExecuteKeepsRunnable(s, w.result(n));
      ReviseMakesProgress(ExecuteStep(s, w.result(n)), w.reply(n), w.py);
      next := ReviseAfter(ExecuteStep(s, w.result(n)), w.reply(n), w.py);
    }
  }

  lemma TurnKeepsHistory(s: Exec, w: World, n: nat)
    requires Runnable(s) && s.index < |s.plan| && s.plan[s.index].status.Pending?
    ensures var next := ReviseAfter(ExecuteStep(s, w.result(n)), w.reply(n), w.py);
            KeepsHistory(s.plan, next.plan) && Drift(next) == Add(Drift(s), LateUsageOf(w.result(n)))
  {
    ExecuteKeepsRunnable(s, w.result(n));
    ExecuteKeepsHistory(s, w.result(n));
    ExecuteTotals(s, w.result(n));
    var done := ExecuteStep(s, w.result(n));
    ReviseKeeps(done, w.reply(n), w.py);
    KeepsTransitive(s.plan, done.plan, ReviseAfter(done, w.reply(n), w.py).plan);
  }

  lemma AddAssociates(a: Usage, b: Usage, c: Usage)
    ensures Add(Add(a, b), c) == Add(a, Add(b, c))
  {
  }

  /**
   * Every run, whatever the sub-agents and the planner answer: completed steps stay as they are,
   * and the plan stays bounded and acyclic.
   */
  lemma {:induction false} RunKeepsHistory(e: Exec, w: World, n: nat)
    requires Runnable(e)
    ensures KeepsHistory(e.plan, Drive(e, w, n).0.plan) && Runnable(Drive(e, w, n).0)
    decreases Fuel(e)
  {
    var s, found, next := DriveTurn(e, w, n);
    if found {
      TurnKeepsHistory(s, w, n);
      RunKeepsHistory(next, w, n + 1);
      KeepsTransitive(e.plan, next.plan, Drive(next, w, n + 1).0.plan);
    }
  }

  /** And the totals are the sum over the completed steps plus exactly what late failures had already added. */
  lemma {:induction false} RunKeepsTotals(e: Exec, w: World, n: nat)
    requires Runnable(e)
    ensures Drift(Drive(e, w, n).0) == Add(Drift(e), LateUsage(w, n, Executions(Drive(e, w, n).1)))
    decreases Fuel(e)
  {
    var s, found, next := DriveTurn(e, w, n);
    if found {
      var (last, ops) := Drive(next, w, n + 1);
      TurnKeepsHistory(s, w, n);
      RunKeepsTotals(next, w, n + 1);
      OneTurn(ops);
      AddAssociates(Drift(e), LateUsageOf(w.result(n)), LateUsage(w, n + 1, Executions(ops)));
    } else {
      LastTurn();
    }
  }

  /** Without late failures, what later steps read is exactly what the completed steps wrote. */
  lemma {:induction false} RunKeepsOutputs(e: Exec, w: World, n: nat)
    requires Runnable(e) && OutputsAgree(e)
    requires forall k :: n <= k < n + Executions(Drive(e, w, n).1) ==> !w.result(k).LateFailure?
    ensures OutputsAgree(Drive(e, w, n).0)
    decreases Fuel(e)
  {
    var s, found, next := DriveTurn(e, w, n);
    if found {
      OneTurn(Drive(next, w, n + 1).1);
      OutputsAgreeExactly(s, w.result(n));
      ExecuteKeepsRunnable(s, w.result(n));
      ReviseKeeps(ExecuteStep(s, w.result(n)), w.reply(n), w.py);
      RunKeepsOutputs(next, w, n + 1);
    }
  }

  // ---- the bound on the work -----------------------------------------------------------

  const GRAPH_RECURSION_LIMIT := 3 * MAX_STEPS * (MAX_REVISIONS + 1) + 4

  /** Every run executes at most its fuel, and visits three nodes per execution and two more. */
  lemma {:induction false} RunIsBounded(e: Exec, w: World, n: nat)
    requires Runnable(e)
    ensures Executions(Drive(e, w, n).1) <= Fuel(e)
    ensures |Drive(e, w, n).1| == 3 * Executions(Drive(e, w, n).1) + 2
    decreases Fuel(e)
  {
    var s, found, next := DriveTurn(e, w, n);
    if found {
      RunIsBounded(next, w, n + 1);
      OneTurn(Drive(next, w, n + 1).1);
    } else {
      LastTurn();
    }
  }

  /** A run, fresh or resumed, executes at most 24 steps; with prepare it visits at most 75 nodes. */
  lemma RunFitsRecursionLimit(plan: seq<Step>, revisions: nat, w: World)
    requires WellShaped(Specs(plan)) && revisions <= MAX_REVISIONS
    ensures Executions(Drive(Prepare(plan, revisions), w, 0).1) <= MAX_STEPS * (MAX_REVISIONS + 1) == 24
    ensures 1 + |Drive(Prepare(plan, revisions), w, 0).1| <= 75 < GRAPH_RECURSION_LIMIT == 76
  {
    RunIsBounded(Prepare(plan, revisions), w, 0);
  }

  // ---- and the bound is reached ----------------------------------------------------------

  const EIGHT: seq<PlanStep> := seq(8, k requires 0 <= k < 8 => PlanStep(k + 1, "writer", "d", "", []))

  lemma EightIsClean()
    ensures Clean(EIGHT) && forall s :: s in EIGHT ==> Stripped(s)
  {
    assert IsSpace('d') == false;
    assert LeftStrip("d") == "d" && RightStrip("d") == "d";
    assert LeftStrip("") == "" && RightStrip("") == "";
  }

  lemma EightSurvives(py: Builtins)
    ensures CoercePlanPayload(Arr(StepItems(EIGHT)), py) == Some(EIGHT)
  {
    EightIsClean();
    var items := StepItems(EIGHT);
    assert items[0..] == items && EIGHT[..0] == [];
    SalvageAllOfSteps(EIGHT, 0, py);
    SortOfSorted(EIGHT);
    RenumberOfClean(EIGHT);
  }

  /** Every sub-agent fails; the planner revises after the eighth and the sixteenth failure. */
  function FailingWorld(py: Builtins): World {
    World(
      (n: nat) => RunnerFailed,
      (n: nat) => if n == 7 || n == 15 then Some(Arr(StepItems(EIGHT))) else None,
      (n: nat) => false,
      py)
  }

  ghost predicate AllFails(w: World) {
    && (forall n: nat :: w.result(n) == RunnerFailed)
    && (forall n: nat :: !w.cancelled(n))
    && (forall n: nat :: w.reply(n) == if n == 7 || n == 15 then Some(Arr(StepItems(EIGHT))) else None)
  }

  /** Eight steps of which the first i have failed. */
  function FailedUpTo(i: nat): seq<Step> {
    seq(8, k requires 0 <= k < 8 => if k < i then Fresh(EIGHT[k]).(status := Failed) else Fresh(EIGHT[k]))
  }

  ghost predicate InEpoch(e: Exec, i: nat, r: nat) {
    e.plan == FailedUpTo(i) && e.index == i <= 8 && e.revisions == r <= 2 && (i == 8 ==> r == 2)
  }

  lemma EpochRunnable(e: Exec, i: nat, r: nat)
    requires InEpoch(e, i, r)
    ensures Runnable(e)
  {
    EightIsClean();
    assert Specs(e.plan) == EIGHT;
  }

  /** Nothing is completed, so the planner's eight steps are taken as they are. */
  lemma EightReplaces(plan: seq<Step>, py: Builtins)
    requires plan == FailedUpTo(8)
    ensures MaybeRevise(plan, Some(Arr(StepItems(EIGHT))), py) == Some(FailedUpTo(0))
  {
    EightSurvives(py);
    EightIsClean();
    UndisturbedIff(plan, EIGHT);
    assert Specs(plan) == EIGHT;
    forall k | 0 <= k < 8 ensures CarryForward(plan, EIGHT[k]) == FailedUpTo(0)[k] {
      CompletedAtOfShaped(plan, EIGHT[k].index);
    }
    assert CarryAll(plan, EIGHT) == FailedUpTo(0);
  }

  /** The state after a failing turn from (i, r). */
  lemma FailingTurn(e: Exec, i: nat, r: nat, w: World)
    requires InEpoch(e, i, r) && i < 8 && AllFails(w)
    ensures SelectNext(e, false) == (e.(cancelled := false), true)
    ensures var done := ExecuteStep(e.(cancelled := false), RunnerFailed);
            var next := ReviseAfter(done, w.reply(8 * r + i), w.py);
            if i == 7 && r < 2 then InEpoch(next, 0, r + 1) else InEpoch(next, i + 1, r)
  {
    EpochRunnable(e, i, r);
    assert e.plan[i].status.Pending?;
    var done := ExecuteStep(e.(cancelled := false), RunnerFailed);
    assert done.plan == FailedUpTo(i + 1);
    if i == 7 && r < 2 {
      EightReplaces(done.plan, w.py);
      assert ShouldRevise(done);
    } else {
      assert w.reply(8 * r + i) == None || r == 2;
    }
  }

  lemma FailingEnd(e: Exec, w: World, n: nat)
    requires InEpoch(e, 8, 2)
    ensures Runnable(e) && Executions(Drive(e, w, n).1) == 0
  {
    EpochRunnable(e, 8, 2);
    LastTurn();
  }

  lemma FailingStep(e: Exec, i: nat, r: nat, w: World, n: nat) returns (next: Exec)
    requires InEpoch(e, i, r) && i < 8 && AllFails(w) && n == 8 * r + i
    ensures if i == 7 && r < 2 then InEpoch(next, 0, r + 1) else InEpoch(next, i + 1, r)
    ensures Runnable(e) && Runnable(next)
    ensures Executions(Drive(e, w, n).1) == 1 + Executions(Drive(next, w, n + 1).1)
  {
    EpochRunnable(e, i, r);
    FailingTurn(e, i, r, w);
    var s, found;
    s, found, next := DriveTurn(e, w, n);
    OneTurn(Drive(next, w, n + 1).1);
  }

  lemma {:induction false} FailingRun(e: Exec, i: nat, r: nat, w: World, n: nat)
    requires InEpoch(e, i, r) && AllFails(w) && n == 8 * r + i
    ensures Runnable(e) && Executions(Drive(e, w, n).1) == 24 - n
    decreases 24 - n
  {
    if i == 8 {
      FailingEnd(e, w, n);
    } else {
      var next := FailingStep(e, i, r, w, n);
      if i == 7 && r < 2 {
        FailingRun(next, 0, r + 1, w, n + 1);
      } else {
        FailingRun(next, i + 1, r, w, n + 1);
      }
    }
  }

  /** Some run does reach 24 executions. */
  lemma BoundIsReached(py: Builtins)
    ensures Runnable(Prepare(FreshPlan(EIGHT), 0))
    ensures Executions(Drive(Prepare(FreshPlan(EIGHT), 0), FailingWorld(py), 0).1) == 24
  {
    var e := Prepare(FreshPlan(EIGHT), 0);
    assert e.plan == FailedUpTo(0);
    FailingRun(e, 0, 0, FailingWorld(py), 0);
  }
}
