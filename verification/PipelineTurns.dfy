/**
 * A run of the pipeline told turn by turn: which step a turn executes, when the planner is asked to
 * revise, what an accepted revision is, and what ends the run.
 */
module PipelineTurns {
  import opened JsonValues
  import opened PlanSchema
  import opened PlanParse
  import opened Pipeline
  import opened PipelineHistory
  import opened Wrappers

  // ---- selecting ------------------------------------------------------------

  /** A step the run may still execute: pending, and among the first eight. */
  ghost predicate PendingAt(plan: seq<Step>, k: nat) {
    k < |plan| && k < 8 && plan[k].status == Pending
  }

  ghost predicate NonePendingFrom(plan: seq<Step>, i: nat) {
    forall k :: i <= k ==> !PendingAt(plan, k)
  }

  ghost predicate FirstFrom(plan: seq<Step>, i: nat, k: nat) {
    i <= k && PendingAt(plan, k) && forall j :: i <= j < k ==> !PendingAt(plan, j)
  }

  /** What selecting leaves: only the position moves, and the cancellation seen at a pending step is noted. */
  ghost predicate Selected(e: Exec, s: Exec, cancelledNow: bool) {
    && s == e.(index := s.index, cancelled := s.cancelled)
    && if NonePendingFrom(e.plan, e.index)
       then s.cancelled == e.cancelled && s.index >= e.index && NonePendingFrom(e.plan, s.index)
       else FirstFrom(e.plan, e.index, s.index) && s.cancelled == cancelledNow
  }

  /** A step is found if and only if one is pending from here on and the run is not cancelled; it is the first. */
  lemma {:induction false} SelectIff(e: Exec, cancelledNow: bool)
    ensures Selected(e, SelectNext(e, cancelledNow).0, cancelledNow)
    ensures SelectNext(e, cancelledNow).1 <==> !NonePendingFrom(e.plan, e.index) && !cancelledNow
    decreases MAX_STEPS - e.index
  {
    if e.index < |e.plan| && e.index < MAX_STEPS {
      if e.plan[e.index].status.Pending? {
        assert PendingAt(e.plan, e.index);
      } else {
        SelectIff(e.(index := e.index + 1), cancelledNow);
      }
    }
  }

  // ---- revising ---------------------------------------------------------------

  /** The planner is asked again: by a reviewing step or a failed one, at most twice in a run. */
  ghost predicate Asked(agent: string, r: StepResult, revisions: nat) {
    revisions < 2 && (agent == "reviewer" || !r.Answered?)
  }

  /** The revision leaves every completed step its place, its agent and its edges. */
  ghost predicate LeavesDone(plan: seq<Step>, revised: seq<PlanStep>) {
    forall i :: IsDone(plan, i) ==>
      && i <= |revised|
      && revised[i - 1].agentId == plan[i - 1].spec.agentId
      && revised[i - 1].inputsFrom == plan[i - 1].spec.inputsFrom
  }

  /** The revised plan: completed steps with their results, every other step fresh. */
  ghost predicate Carried(plan: seq<Step>, revised: seq<PlanStep>, next: seq<Step>) {
    && |next| == |revised|
    && forall k :: 0 <= k < |next| ==> CarriedAt(plan, revised[k], next[k], k)
  }

  ghost predicate CarriedAt(plan: seq<Step>, spec: PlanStep, s: Step, k: nat) {
    if IsDone(plan, k + 1) then s == Step(spec, Completed, plan[k].output, plan[k].usage)
    else s == Step(spec, Pending, "", Usage(0, 0, 0.0))
  }

  /** The plan an answer of the planner offers: none, when it declines or coercing it raises. */
  function Offered(reply: Option<Json>, py: Builtins): Option<seq<PlanStep>> {
    if reply.Some? && reply.value != Null then CoercePlanPayload(reply.value, py) else None
  }

  /** An offer that is taken: some plan that leaves the completed steps alone. */
  ghost predicate Taken(plan: seq<Step>, offer: Option<seq<PlanStep>>) {
    offer.Some? && offer.value != [] && LeavesDone(plan, offer.value)
  }

  lemma UndisturbedLeaves(plan: seq<Step>, revised: seq<PlanStep>)
    requires WellShaped(Specs(plan)) && WellShaped(revised)
    ensures DisturbedSteps(plan, revised) == [] <==> LeavesDone(plan, revised)
  {
    UndisturbedIff(plan, revised);
    forall i | IsDone(plan, i)
      ensures plan[i - 1] in plan && plan[i - 1].spec.index == i
      ensures AtIndex(revised, i) == if i <= |revised| then Some(revised[i - 1]) else None
    {
      assert Specs(plan)[i - 1].index == i;
      AtIndexOfShaped(revised, i);
    }
    if LeavesDone(plan, revised) {
      forall s | s in plan && s.status.Completed?
        ensures var c := AtIndex(revised, s.spec.index);
                c.Some? && c.value.agentId == s.spec.agentId && c.value.inputsFrom == s.spec.inputsFrom
      {
        var k :| 0 <= k < |plan| && plan[k] == s;
        assert IsDone(plan, k + 1) && Specs(plan)[k].index == k + 1;
      }
    }
  }

  lemma CarryCarries(plan: seq<Step>, revised: seq<PlanStep>)
    requires WellShaped(Specs(plan)) && WellShaped(revised)
    ensures Carried(plan, revised, CarryAll(plan, revised))
  {
    forall k | 0 <= k < |revised| ensures CarriedAt(plan, revised[k], CarryAll(plan, revised)[k], k) {
      assert revised[k].index == k + 1;
      CompletedAtOfShaped(plan, k + 1);
    }
  }

  /** A revision is accepted if and only if the plan offered is taken; then this is the new plan. */
  lemma RevisionIff(plan: seq<Step>, reply: Option<Json>, py: Builtins)
    requires WellShaped(Specs(plan))
    ensures MaybeRevise(plan, reply, py).Some? <==> Taken(plan, Offered(reply, py))
    ensures MaybeRevise(plan, reply, py).Some? ==>
              Carried(plan, Offered(reply, py).value, MaybeRevise(plan, reply, py).value)
  {
    if reply.Some? && CoercePlanPayload(reply.value, py).Some? {
      var revised := CoercePlanPayload(reply.value, py).value;
      SalvagedRevision(reply.value, py);
      UndisturbedLeaves(plan, revised);
      CarryCarries(plan, revised);
    }
  }

  // ---- chains ---------------------------------------------------------------------

  /** Each element is linked to the one after it, the links numbered from n. */
  ghost predicate Chain<T(!new)>(link: (T, T, nat) -> bool, xs: seq<T>, n: nat) {
    forall t :: 0 <= t < |xs| - 1 ==> LinkAt(link, xs, n, t)
  }

  ghost predicate LinkAt<T(!new)>(link: (T, T, nat) -> bool, xs: seq<T>, n: nat, t: nat)
    requires t + 1 < |xs|
  {
    link(xs[t], xs[t + 1], n + t)
  }

  lemma ChainPrepended<T(!new)>(link: (T, T, nat) -> bool, x: T, xs: seq<T>, n: nat)
    requires xs != [] && Chain(link, xs, n + 1) && link(x, xs[0], n)
    ensures Chain(link, [x] + xs, n)
  {
    forall t | 0 <= t < |xs| ensures LinkAt(link, [x] + xs, n, t) {
      assert t > 0 ==> LinkAt(link, xs, n + 1, t - 1);
    }
  }

  lemma {:induction false} ChainKeeps<T(!new)>(
      link: (T, T, nat) -> bool, inv: T -> bool, xs: seq<T>, n: nat, t: nat)
    requires Chain(link, xs, n) && t < |xs| && inv(xs[0])
    requires forall a, b, m :: inv(a) && link(a, b, m) ==> inv(b)
    ensures inv(xs[t])
  {
    if t > 0 {
      ChainKeeps(link, inv, xs, n, t - 1);
      assert LinkAt(link, xs, n, t - 1);
    }
  }

  // ---- one turn -----------------------------------------------------------------

  /** The step after its work ended this way. */
  ghost predicate Worked(s: Step, r: StepResult, t: Step) {
    && t.spec == s.spec
    && match r
       case Answered(text, usage) => t.status == Completed && t.output == text && t.usage == usage
       case RunnerFailed => t.status == Failed && t.output == s.output && t.usage == s.usage
       case LateFailure(text, usage) => t.status == Failed && t.output == text && t.usage == usage
  }

  /** What the run has read and spent after the work: an answer counts even when its writing failed. */
  ghost predicate Recorded(a: Exec, index: int, r: StepResult, b: Exec) {
    && b.stepSucceeded == r.Answered?
    && match r
       case RunnerFailed => b.outputs == a.outputs && b.totals == a.totals
       case Answered(text, usage) => b.outputs == a.outputs[index := text] && b.totals == Add(a.totals, usage)
       case LateFailure(text, usage) => b.outputs == a.outputs[index := text] && b.totals == Add(a.totals, usage)
  }

  /** Where the run goes on: with a revised plan at its first pending step, or with the next step. */
  ghost predicate GoesOn(
      plan: seq<Step>, k: nat, a: Exec, b: Exec, r: StepResult, offer: Option<seq<PlanStep>>)
    requires k < |plan|
  {
    if Asked(plan[k].spec.agentId, r, a.revisions) && Taken(plan, offer) then
      && Carried(plan, offer.value, b.plan) && b.revisions == a.revisions + 1
      && (if NonePendingFrom(b.plan, 0) then b.index == |b.plan| else FirstFrom(b.plan, 0, b.index))
    else
      b.plan == plan && b.revisions == a.revisions && b.index == k + 1
  }

  /** A turn takes the run from a to b: it executes the first pending step, k, with this result. */
  ghost predicate TurnAt(a: Exec, b: Exec, k: nat, r: StepResult, offer: Option<seq<PlanStep>>) {
    && FirstFrom(a.plan, a.index, k) && !b.cancelled
    && Recorded(a, a.plan[k].spec.index, r, b)
    && exists t :: Worked(a.plan[k], r, t) && GoesOn(a.plan[k := t], k, a, b, r, offer)
  }

  /** Turn n of the run, which saw nothing cancelled. */
  ghost predicate Turned(a: Exec, b: Exec, w: World, n: nat) {
    !w.cancelled(n) && exists k :: TurnAt(a, b, k, w.result(n), Offered(w.reply(n), w.py))
  }

  /** The run ends at turn n: cancelled before a pending step, or with no step pending from here on. */
  ghost predicate EndsAt(a: Exec, last: Exec, w: World, n: nat) {
    && Selected(a, last, w.cancelled(n))
    && (NonePendingFrom(a.plan, a.index) || w.cancelled(n))
  }

  /** Every turn of a run, and its end. */
  ghost predicate RunOf(es: seq<Exec>, last: Exec, w: World, n: nat) {
    && es != []
    && Chain((a, b, m) => Turned(a, b, w, m), es, n)
    && EndsAt(es[|es| - 1], last, w, n + |es| - 1)
  }

  lemma FirstPendingFirst(plan: seq<Step>)
    requires |plan| <= 8
    ensures if NonePendingFrom(plan, 0) then FirstPending(plan) == |plan| else FirstFrom(plan, 0, FirstPending(plan))
  {
    var k := FirstPending(plan);
    assert k < |plan| ==> PendingAt(plan, k);
  }

  lemma TurnIs(e: Exec, s: Exec, w: World, n: nat)
    requires Runnable(e) && Selected(e, s, false) && !NonePendingFrom(e.plan, e.index) && !w.cancelled(n)
    requires Runnable(s) && s.index < |s.plan|
    ensures Turned(e, ReviseAfter(ExecuteStep(s, w.result(n)), w.reply(n), w.py), w, n)
  {
    var k, r := s.index, w.result(n);
    var done := ExecuteStep(s, r);
    ExecuteKeepsRunnable(s, r);
    GoesOnAfter(done, e, r, w.reply(n), w.py);
    assert Worked(e.plan[k], r, done.plan[k]) && done.plan == e.plan[k := done.plan[k]];
    assert TurnAt(e, ReviseAfter(done, w.reply(n), w.py), k, r, Offered(w.reply(n), w.py));
  }

  lemma GoesOnAfter(done: Exec, a: Exec, r: StepResult, reply: Option<Json>, py: Builtins)
    requires Runnable(done) && done.index < |done.plan| && done.revisions == a.revisions
    requires done.stepSucceeded == r.Answered?
    ensures GoesOn(done.plan, done.index, a, ReviseAfter(done, reply, py), r, Offered(reply, py))
    ensures var next := ReviseAfter(done, reply, py);
            next.outputs == done.outputs && next.totals == done.totals
            && next.cancelled == done.cancelled && next.stepSucceeded == done.stepSucceeded
  {
    RevisionIff(done.plan, reply, py);
    if ShouldRevise(done) && MaybeRevise(done.plan, reply, py).Some? {
      var next := ReviseAfter(done, reply, py);
      RevisionWellShaped(done.plan, reply, py);
      assert |Specs(next.plan)| == |next.plan|;
      FirstPendingFirst(next.plan);
    }
  }

  // ---- the run ----------------------------------------------------------------------

  /** The operations of a run of m executions, in order. */
  function TurnOps(m: nat): seq<Op> {
    if m == 0 then [SelectOp, FinishOp] else [SelectOp, ExecuteOp, ReviseOp] + TurnOps(m - 1)
  }

  /** The run of these states, with its operations and its last state. */
  ghost predicate ToldBy(es: seq<Exec>, d: (Exec, seq<Op>), w: World, n: nat) {
    RunOf(es, d.0, w, n) && d.1 == TurnOps(|es| - 1) && Executions(d.1) == |es| - 1
  }

  /** Every run of the pipeline is such a sequence of turns. */
  lemma {:induction false} DriveIsARun(e: Exec, w: World, n: nat) returns (es: seq<Exec>)
    requires Runnable(e)
    ensures ToldBy(es, Drive(e, w, n), w, n) && es[0] == e
    decreases Fuel(e)
  {
    var s, found, next := OneTurnOf(e, w, n);
    if found {
      var rest := DriveIsARun(next, w, n + 1);
      es := [e] + rest;
      TurnPrepended(e, rest, Drive(next, w, n + 1), w, n);
    } else {
      es := [e];
      LastTurn();
      RunOfOne(e, s, w, n);
    }
  }

  lemma TurnPrepended(e: Exec, rest: seq<Exec>, d: (Exec, seq<Op>), w: World, n: nat)
    requires ToldBy(rest, d, w, n + 1) && Turned(e, rest[0], w, n)
    ensures ToldBy([e] + rest, (d.0, [SelectOp, ExecuteOp, ReviseOp] + d.1), w, n)
  {
    RunPrepended(e, rest, d.0, w, n);
    OneTurn(d.1);
  }

  /** The next turn of the run, or its end. */
  lemma OneTurnOf(e: Exec, w: World, n: nat) returns (s: Exec, found: bool, next: Exec)
    requires Runnable(e)
    ensures !found ==> Drive(e, w, n) == (s, [SelectOp, FinishOp]) && EndsAt(e, s, w, n)
    ensures found ==>
              && Turned(e, next, w, n) && Runnable(next) && 0 < Fuel(e) && Fuel(next) < Fuel(e)
              && Drive(e, w, n) == (Drive(next, w, n + 1).0, [SelectOp, ExecuteOp, ReviseOp] + Drive(next, w, n + 1).1)
  {
    s, found, next := DriveTurn(e, w, n);
    SelectIff(e, w.cancelled(n));
    if found {
      TurnIs(e, s, w, n);
    }
  }

  lemma RunOfOne(e: Exec, last: Exec, w: World, n: nat)
    requires EndsAt(e, last, w, n)
    ensures RunOf([e], last, w, n)
  {
  }

  lemma RunPrepended(e: Exec, rest: seq<Exec>, last: Exec, w: World, n: nat)
    requires RunOf(rest, last, w, n + 1) && Turned(e, rest[0], w, n)
    ensures RunOf([e] + rest, last, w, n)
  {
    ChainPrepended((a, b, m) => Turned(a, b, w, m), e, rest, n);
    assert ([e] + rest)[|rest|] == rest[|rest| - 1];
  }

  // ---- what follows for whole runs ------------------------------------------------

  /** No step is executed at a turn that saw the run cancelled. */
  lemma {:induction false} CancelledTurnsExecuteNothing(e: Exec, w: World, n: nat, t: nat)
    requires Runnable(e) && n <= t < n + Executions(Drive(e, w, n).1)
    ensures !w.cancelled(t)
    decreases t - n
  {
    var s, found, next := DriveTurn(e, w, n);
    SelectIff(e, w.cancelled(n));
    if found {
      OneTurn(Drive(next, w, n + 1).1);
      if t > n {
        CancelledTurnsExecuteNothing(next, w, n + 1, t);
      }
    } else {
      LastTurn();
    }
  }

  ghost predicate NoneLeftBehind(e: Exec) {
    !e.cancelled && forall k :: 0 <= k < e.index ==> !PendingAt(e.plan, k)
  }

  lemma TurnLeavesNoneBehind(a: Exec, b: Exec, k: nat, r: StepResult, offer: Option<seq<PlanStep>>)
    requires TurnAt(a, b, k, r, offer) && NoneLeftBehind(a)
    ensures NoneLeftBehind(b)
  {
    var t :| Worked(a.plan[k], r, t) && GoesOn(a.plan[k := t], k, a, b, r, offer);
    var done := a.plan[k := t];
    forall j | 0 <= j < k + 1 ensures !PendingAt(done, j) {
      assert j < k ==> !PendingAt(a.plan, j);
    }
  }

  lemma RunLeavesNoneBehind(es: seq<Exec>, last: Exec, w: World, n: nat)
    requires RunOf(es, last, w, n) && NoneLeftBehind(es[0])
    ensures NoneLeftBehind(es[|es| - 1])
  {
    forall a, b, m: nat | NoneLeftBehind(a) && Turned(a, b, w, m) ensures NoneLeftBehind(b) {
      var k :| TurnAt(a, b, k, w.result(m), Offered(w.reply(m), w.py));
      TurnLeavesNoneBehind(a, b, k, w.result(m), Offered(w.reply(m), w.py));
    }
    ChainKeeps((a, b, m) => Turned(a, b, w, m), e => NoneLeftBehind(e), es, n, |es| - 1);
  }

  /**
   * A run ends cancelled, having seen the cancellation at its last turn, or with no pending step
   * anywhere in its plan, whatever the sub-agents and the planner answered.
   */
  lemma RunEndsDoneOrCancelled(plan: seq<Step>, revisions: nat, w: World)
    requires Runnable(Prepare(plan, revisions))
    ensures var (last, ops) := Drive(Prepare(plan, revisions), w, 0);
            && (last.cancelled ==> w.cancelled(Executions(ops)) && PendingAt(last.plan, last.index))
            && (!last.cancelled ==> forall s :: s in last.plan ==> s.status != Pending)
  {
    var e := Prepare(plan, revisions);
    var es := DriveIsARun(e, w, 0);
    var last := Drive(e, w, 0).0;
    RunLeavesNoneBehind(es, last, w, 0);
    RunKeepsHistory(e, w, 0);
    assert |Specs(last.plan)| == |last.plan|;
    if !last.cancelled {
      forall s | s in last.plan ensures s.status != Pending {
        var k :| 0 <= k < |last.plan| && last.plan[k] == s;
        assert !PendingAt(last.plan, k);
      }
    }
  }
}
