/**
 * Executing a plan: select a pending step, execute it, maybe revise the rest of the plan.
 * The functions give one move each on a value; `PipelineExecution` below is the mutable state
 * the program keeps, and its methods are proved to make exactly these moves.
 */
module Pipeline {
  import opened JsonValues
  import P = PlanParse
  import opened PlanSchema
  import opened Wrappers

  const MAX_REVISIONS: nat := 2

  datatype Status = Pending | Running | Completed | Failed

  datatype Usage = Usage(prompt: int, completion: int, cost: real)

  const NO_USAGE := Usage(0, 0, 0.0)

  function Add(a: Usage, b: Usage): Usage {
    Usage(a.prompt + b.prompt, a.completion + b.completion, a.cost + b.cost)
  }

  /** A plan step with its runtime fields. */
  datatype Step = Step(spec: PlanStep, status: Status, output: string, usage: Usage)

  function Fresh(spec: PlanStep): Step {
    Step(spec, Pending, "", NO_USAGE)
  }

  function FreshPlan(specs: seq<PlanStep>): seq<Step> {
    seq(|specs|, i requires 0 <= i < |specs| => Fresh(specs[i]))
  }

  function Specs(plan: seq<Step>): seq<PlanStep> {
    seq(|plan|, i requires 0 <= i < |plan| => plan[i].spec)
  }

  datatype Exec = Exec(
    plan: seq<Step>, outputs: map<int, string>, revisions: nat, index: nat,
    totals: Usage, cancelled: bool, stepSucceeded: bool)

  /** How the work of one step ended. */
  datatype StepResult =
    | Answered(text: string, usage: Usage)
      // the sub-agent answered; checkpoint and event were written
    | RunnerFailed
      // the sub-agent raised
    | LateFailure(lateText: string, lateUsage: Usage)
      // the sub-agent answered, but writing the checkpoint or the event raised

  // ---- prepare -------------------------------------------------------------

  /** {s.index: s.output for s in plan if completed}; steps are numbered by position. */
  function OutputsOf(plan: seq<Step>): map<int, string> {
    map i: int | 1 <= i <= |plan| && IsDone(plan, i) :: plan[i - 1].output
  }

  /** Whether the step numbered i is completed. */
  predicate IsDone(plan: seq<Step>, i: int) {
    1 <= i <= |plan| && plan[i - 1].status.Completed?
  }

  function UsageAt(plan: seq<Step>, k: nat): Usage {
    if k < |plan| && plan[k].status.Completed? then plan[k].usage else NO_USAGE
  }

  /** The sum over the completed steps among the first n. */
  function UsageOf(plan: seq<Step>, n: nat): Usage {
    if n == 0 then NO_USAGE else Add(UsageOf(plan, n - 1), UsageAt(plan, n - 1))
  }

  function Prepare(plan: seq<Step>, revisions: nat): Exec {
    Exec(plan, OutputsOf(plan), revisions, 0, UsageOf(plan, |plan|), false, true)
  }

  // ---- select --------------------------------------------------------------

  function SelectNext(e: Exec, cancelledNow: bool): (Exec, bool)
    decreases MAX_STEPS - e.index
  {
    if e.index < |e.plan| && e.index < MAX_STEPS then
      if e.plan[e.index].status.Pending? then (e.(cancelled := cancelledNow), !cancelledNow)
      else SelectNext(e.(index := e.index + 1), cancelledNow)
    else (e, false)
  }

  // ---- execute -------------------------------------------------------------

  function ExecuteStep(e: Exec, r: StepResult): Exec
    requires e.index < |e.plan|
  {
    var step := e.plan[e.index];
    match r
    case Answered(text, usage) =>
      e.(plan := e.plan[e.index := Step(step.spec, Completed, text, usage)],
         outputs := e.outputs[step.spec.index := text],
         totals := Add(e.totals, usage), stepSucceeded := true)
    case RunnerFailed =>
      e.(plan := e.plan[e.index := step.(status := Failed)], stepSucceeded := false)
    case LateFailure(text, usage) =>
      e.(plan := e.plan[e.index := Step(step.spec, Failed, text, usage)],
         outputs := e.outputs[step.spec.index := text],
         totals := Add(e.totals, usage), stepSucceeded := false)
  }

  // ---- revise --------------------------------------------------------------

  datatype RevisionViolation = StepRemoved(index: int) | AgentChanged(index: int) | InputsChanged(index: int)

  /** The step of a revision that carries an index. */
  function AtIndex(specs: seq<PlanStep>, index: int): Option<PlanStep> {
    if specs == [] then None
    else if specs[|specs| - 1].index == index then Some(specs[|specs| - 1])
    else AtIndex(specs[..|specs| - 1], index)
  }

  /** The ways a revision disturbs steps that are already completed. */
  function DisturbedSteps(current: seq<Step>, revised: seq<PlanStep>): seq<RevisionViolation> {
    if current == [] then []
    else
      var s := current[0];
      var here :=
        if !s.status.Completed? then []
        else
          match AtIndex(revised, s.spec.index)
          case None => [StepRemoved(s.spec.index)]
          case Some(c) =>
            (if c.agentId != s.spec.agentId then [AgentChanged(s.spec.index)] else [])
            + (if c.inputsFrom != s.spec.inputsFrom then [InputsChanged(s.spec.index)] else []);
      here + DisturbedSteps(current[1..], revised)
  }

  /** The completed step of the current plan with this index. */
  function CompletedAt(plan: seq<Step>, index: int): Option<Step> {
    if plan == [] then None
    else if plan[|plan| - 1].spec.index == index && plan[|plan| - 1].status.Completed? then Some(plan[|plan| - 1])
    else CompletedAt(plan[..|plan| - 1], index)
  }

  function CarryForward(plan: seq<Step>, spec: PlanStep): Step {
    match CompletedAt(plan, spec.index)
    case None => Fresh(spec)
    case Some(done) => Step(spec, done.status, done.output, done.usage)
  }

  function CarryAll(plan: seq<Step>, revised: seq<PlanStep>): seq<Step> {
    seq(|revised|, i requires 0 <= i < |revised| => CarryForward(plan, revised[i]))
  }

  /** The planner's answer as a new plan; None when it declines, is unusable or disturbs history. */
  function MaybeRevise(plan: seq<Step>, reply: Option<Json>, py: Builtins): Option<seq<Step>> {
    if reply.None? || reply.value == Null then None
    else
      match CoercePlanPayload(reply.value, py)
      case None => None
      case Some(revised) =>
        if revised == [] || DisturbedSteps(plan, revised) != [] then None else Some(CarryAll(plan, revised))
  }

  function FirstPending(plan: seq<Step>): (k: nat)
    ensures k <= |plan|
    ensures forall i :: 0 <= i < k ==> !plan[i].status.Pending?
    ensures k < |plan| ==> plan[k].status.Pending?
  {
    if plan == [] || plan[0].status.Pending? then 0 else 1 + FirstPending(plan[1..])
  }

  predicate ShouldRevise(e: Exec)
    requires e.index < |e.plan|
  {
    e.revisions < MAX_REVISIONS && (e.plan[e.index].spec.agentId == "reviewer" || !e.stepSucceeded)
  }

  function ReviseAfter(e: Exec, reply: Option<Json>, py: Builtins): Exec
    requires e.index < |e.plan|
  {
    Adopt(e, if ShouldRevise(e) then MaybeRevise(e.plan, reply, py) else None)
  }

  function Adopt(e: Exec, revised: Option<seq<Step>>): Exec {
    match revised
    case None => e.(index := e.index + 1)
    case Some(plan) => e.(plan := plan, revisions := e.revisions + 1, index := FirstPending(plan))
  }

  // ---- the run -------------------------------------------------------------

  /** What the outside answers: the n-th execution, the planner after it, cancellation before it. */
  datatype World = World(
    result: nat -> StepResult, reply: nat -> Option<Json>, cancelled: nat -> bool, py: Builtins)

  datatype Op = SelectOp | ExecuteOp | ReviseOp | FinishOp

  /** A state the loop can go on from. */
  ghost predicate Runnable(e: Exec) {
    WellShaped(Specs(e.plan)) && e.revisions <= MAX_REVISIONS && e.index <= |e.plan|
  }

  /** An upper bound on the executions still possible: what is left of this epoch, and two more. */
  function Fuel(e: Exec): int {
    (MAX_REVISIONS - e.revisions) * MAX_STEPS + (MAX_STEPS - e.index)
  }

  lemma SelectFinds(e: Exec, cancelledNow: bool)
    requires Runnable(e)
    ensures Runnable(SelectNext(e, cancelledNow).0)
    ensures e.index <= SelectNext(e, cancelledNow).0.index
    ensures SelectNext(e, cancelledNow).0.(index := e.index, cancelled := e.cancelled) == e
    ensures SelectNext(e, cancelledNow).1 ==>
              var s := SelectNext(e, cancelledNow).0;
              s.index < |s.plan| && s.plan[s.index].status.Pending?
    decreases MAX_STEPS - e.index
  {
    assert |Specs(e.plan)| == |e.plan|;
  }

  lemma ExecuteKeepsRunnable(e: Exec, r: StepResult)
    requires Runnable(e) && e.index < |e.plan|
    ensures Runnable(ExecuteStep(e, r)) && Specs(ExecuteStep(e, r).plan) == Specs(e.plan)
    ensures ExecuteStep(e, r).index == e.index && ExecuteStep(e, r).revisions == e.revisions
  {
    assert Specs(ExecuteStep(e, r).plan) == Specs(e.plan);
  }

  lemma RevisionWellShaped(plan: seq<Step>, reply: Option<Json>, py: Builtins)
    requires MaybeRevise(plan, reply, py).Some?
    ensures WellShaped(Specs(MaybeRevise(plan, reply, py).value))
  {
    PlanParseShape(reply.value, py);
    var revised := CoercePlanPayload(reply.value, py).value;
    assert Specs(CarryAll(plan, revised)) == revised;
  }

  lemma PlanParseShape(payload: Json, py: Builtins)
    ensures CoercePlanPayload(payload, py).Some? ==> WellShaped(CoercePlanPayload(payload, py).value)
  {
    P.SalvagedRevision(payload, py);
  }

  lemma ReviseMakesProgress(e: Exec, reply: Option<Json>, py: Builtins)
    requires Runnable(e) && e.index < |e.plan|
    ensures Runnable(ReviseAfter(e, reply, py)) && Fuel(ReviseAfter(e, reply, py)) < Fuel(e)
  {
    var revised := if ShouldRevise(e) then MaybeRevise(e.plan, reply, py) else None;
    assert |Specs(e.plan)| == |e.plan|;
    if revised.Some? {
      RevisionWellShaped(e.plan, reply, py);
      assert |Specs(revised.value)| == |revised.value|;
    }
  }

  /** The whole run from a state on, and the order of its operations. */
  function Drive(e: Exec, w: World, n: nat): (Exec, seq<Op>)
    requires Runnable(e)
    decreases Fuel(e)
  {
    SelectFinds(e, w.cancelled(n));
    var (s, found) := SelectNext(e, w.cancelled(n));
    assert |Specs(s.plan)| == |s.plan|;
    if !found then (s, [SelectOp, FinishOp])
    else
      ExecuteKeepsRunnable(s, w.result(n));
      var done := ExecuteStep(s, w.result(n));
      ReviseMakesProgress(done, w.reply(n), w.py);
      var (last, ops) := Drive(ReviseAfter(done, w.reply(n), w.py), w, n + 1);
      (last, [SelectOp, ExecuteOp, ReviseOp] + ops)
  }

  // ---- the mutable state ------------------------------------------------------

  datatype Node = SelectNode | ExecuteNode | ReviseNode | FinishNode | End

  /** next((i for i, s in enumerate(plan) if pending), len(plan)) */
  method NextPending(plan: seq<Step>) returns (k: nat)
    ensures k == FirstPending(plan)
  {
    k := 0;
    while k < |plan| && !plan[k].status.Pending?
      invariant k <= |plan|
      invariant FirstPending(plan) == k + FirstPending(plan[k..])
    {
      k := k + 1;
    }
  }

  class PipelineExecution {
    var plan: seq<Step>
    var outputs: map<int, string>
    var revisions: nat
    var index: nat
    var totals: Usage
    var cancelled: bool
    var stepSucceeded: bool

    ghost function Snapshot(): Exec
      reads this
    {
      Exec(plan, outputs, revisions, index, totals, cancelled, stepSucceeded)
    }

    constructor (plan: seq<Step>, revisions: nat)
      ensures Snapshot() == Prepare(plan, revisions)
    {
      this.plan := plan;
      this.outputs := OutputsOf(plan);
      this.revisions := revisions;
      this.index := 0;
      this.totals := UsageOf(plan, |plan|);
      this.cancelled := false;
      this.stepSucceeded := true;
    }

    method SelectNextStep(cancelledNow: bool) returns (found: bool)
      modifies this
      ensures (Snapshot(), found) == SelectNext(old(Snapshot()), cancelledNow)
    {
      while index < |plan| && index < MAX_STEPS
        invariant Snapshot() == old(Snapshot()).(index := index)
        invariant SelectNext(Snapshot(), cancelledNow) == SelectNext(old(Snapshot()), cancelledNow)
      {
        if plan[index].status.Pending? {
          cancelled := cancelledNow;
          return !cancelled;
        }
        index := index + 1;
      }
      return false;
    }

    method ExecuteCurrent(r: StepResult)
      requires index < |plan|
      modifies this
      ensures Snapshot() == ExecuteStep(old(Snapshot()), r)
    {
      var step := plan[index];
      plan := plan[index := step.(status := Running)];
      match r {
        case RunnerFailed =>
          plan := plan[index := step.(status := Failed)];
        case Answered(text, usage) =>
          plan := plan[index := Step(step.spec, Completed, text, usage)];
          outputs := outputs[step.spec.index := text];
          totals := Add(totals, usage);
        case LateFailure(text, usage) =>
          plan := plan[index := Step(step.spec, Completed, text, usage)];
          outputs := outputs[step.spec.index := text];
          totals := Add(totals, usage);
          plan := plan[index := plan[index].(status := Failed)];
      }
      stepSucceeded := r.Answered?;
    }

    method ReviseAfterStep(reply: Option<Json>, py: Builtins)
      requires index < |plan|
      modifies this
      ensures Snapshot() == ReviseAfter(old(Snapshot()), reply, py)
    {
      var revised: Option<seq<Step>> := None;
      if revisions < MAX_REVISIONS && (plan[index].spec.agentId == "reviewer" || !stepSucceeded) {
        revised := MaybeRevise(plan, reply, py);
      }
      GoOnWith(revised);
    }

    method GoOnWith(revised: Option<seq<Step>>)
      modifies this
      ensures Snapshot() == Adopt(old(Snapshot()), revised)
    {
      if revised.Some? {
        plan := revised.value;
        revisions := revisions + 1;
        index := NextPending(plan);
      } else {
        index := index + 1;
      }
    }

    /** The original engine: one while loop. */
    method RunLoop(w: World) returns (ops: seq<Op>)
      requires Runnable(Snapshot())
      modifies this
      ensures (Snapshot(), ops) == Drive(old(Snapshot()), w, 0)
    {
      var n := 0;
      ops := [];
      ghost var start := Drive(Snapshot(), w, 0);
      assert ops + start.1 == start.1;
      while true
        invariant AtNode(SelectNode, Snapshot())
        invariant Leads(start, ops, Remaining(SelectNode, Snapshot(), w, n))
        decreases Fuel(Snapshot())
      {
        var found := Turn(SelectNode, ops, start, w, n);
        ops := ops + [SelectOp];
        if !found {
          RemainingStep(FinishNode, Snapshot(), w, n);
          LeadsOn(start, ops + [FinishOp], Remaining(FinishNode, Snapshot(), w, n), (Snapshot(), []));
          break;
        }
        found := Turn(ExecuteNode, ops, start, w, n);
        ops := ops + [ExecuteOp];
        found := Turn(ReviseNode, ops, start, w, n);
        ops := ops + [ReviseOp];
        n := n + 1;
      }
      ops := ops + [FinishOp];
      assert ops + [] == ops;
    }

    /** One call of the loop body, with what it leaves of the run. */
    method Turn(node: Node, ghost ops: seq<Op>, ghost start: (Exec, seq<Op>), w: World, n: nat) returns (found: bool)
      requires node in {SelectNode, ExecuteNode, ReviseNode} && AtNode(node, Snapshot())
      requires Leads(start, ops, Remaining(node, Snapshot(), w, n))
      modifies this
      ensures match node
              case SelectNode => (Snapshot(), found) == SelectNext(old(Snapshot()), w.cancelled(n))
              case ExecuteNode => Snapshot() == ExecuteStep(old(Snapshot()), w.result(n))
              case ReviseNode => Snapshot() == ReviseAfter(old(Snapshot()), w.reply(n), w.py)
              case _ => true
      ensures node == SelectNode ==> Fuel(Snapshot()) <= Fuel(old(Snapshot()))
      ensures node == ExecuteNode ==> Fuel(Snapshot()) == Fuel(old(Snapshot()))
      ensures node == ReviseNode ==> Fuel(Snapshot()) < Fuel(old(Snapshot()))
      ensures var next := NextNode(node, found);
              && AtNode(next, Snapshot())
              && Leads(start, ops + [OpOf(node)],
                       Remaining(next, Snapshot(), w, if node == ReviseNode then n + 1 else n))
    {
      RemainingStep(node, Snapshot(), w, n);
      ghost var before := Remaining(node, Snapshot(), w, n);
      found := true;
      match node {
        case SelectNode => found := SelectNextStep(w.cancelled(n));
        case ExecuteNode => ExecuteCurrent(w.result(n));
        case ReviseNode => ReviseAfterStep(w.reply(n), w.py);
      }
      assert (ops + [OpOf(node)])[..|ops|] == ops;
      LeadsOn(start, ops + [OpOf(node)], before,
              Remaining(NextNode(node, found), Snapshot(), w, if node == ReviseNode then n + 1 else n));
    }

    /** The graph engine: one node at a time, the edge out of `select` chosen by its answer. */
    method RunGraph(w: World) returns (ops: seq<Op>)
      requires Runnable(Snapshot())
      modifies this
      ensures (Snapshot(), ops) == Drive(old(Snapshot()), w, 0)
    {
      var n := 0;
      var node := SelectNode;
      ops := [];
      ghost var start := Drive(Snapshot(), w, 0);
      assert ops + start.1 == start.1;
      while node != End
        invariant AtNode(node, Snapshot())
        invariant Leads(start, ops, Remaining(node, Snapshot(), w, n))
        decreases node != End, node != FinishNode, Fuel(Snapshot()), Rank(node)
      {
        if node == FinishNode {
          RemainingStep(node, Snapshot(), w, n);
          LeadsOn(start, ops + [FinishOp], Remaining(node, Snapshot(), w, n), (Snapshot(), []));
          ops := ops + [FinishOp];
          node := End;
        } else {
          var found := Turn(node, ops, start, w, n);
          ops := ops + [OpOf(node)];
          n := if node == ReviseNode then n + 1 else n;
          node := NextNode(node, found);
        }
      }
      assert ops + [] == ops;
    }
  }

  /** The edges of the graph. */
  function NextNode(node: Node, found: bool): Node {
    match node
    case SelectNode => if found then ExecuteNode else FinishNode
    case ExecuteNode => ReviseNode
    case ReviseNode => SelectNode
    case _ => End
  }

  function Rank(node: Node): nat {
    match node
    case SelectNode => 2
    case ExecuteNode => 1
    case _ => 0
  }

  // ---- one node of the graph against the run -------------------------------

  ghost predicate AtNode(node: Node, e: Exec) {
    Runnable(e) && (node in {ExecuteNode, ReviseNode} ==> e.index < |e.plan|)
  }

  /** What the graph still does from a node on, while the n-th step is the next or current one. */
  ghost function Remaining(node: Node, e: Exec, w: World, n: nat): (Exec, seq<Op>)
    requires AtNode(node, e)
  {
    match node
    case SelectNode => Drive(e, w, n)
    case ExecuteNode =>
      ExecuteKeepsRunnable(e, w.result(n));
      var rest := AfterExecute(ExecuteStep(e, w.result(n)), w, n);
      (rest.0, [ExecuteOp] + rest.1)
    case ReviseNode => AfterExecute(e, w, n)
    case FinishNode => (e, [FinishOp])
    case End => (e, [])
  }

  /** What follows the execution of the n-th step. */
  ghost function AfterExecute(e: Exec, w: World, n: nat): (Exec, seq<Op>)
    requires Runnable(e) && e.index < |e.plan|
  {
    ReviseMakesProgress(e, w.reply(n), w.py);
    var rest := Drive(ReviseAfter(e, w.reply(n), w.py), w, n + 1);
    (rest.0, [ReviseOp] + rest.1)
  }

  function OpOf(node: Node): Op {
    match node
    case SelectNode => SelectOp
    case ExecuteNode => ExecuteOp
    case ReviseNode => ReviseOp
    case _ => FinishOp
  }

  /** Each node does its own operation and leaves the rest to the node its edge leads to. */
  lemma RemainingStep(node: Node, e: Exec, w: World, n: nat)
    requires AtNode(node, e) && node != End
    ensures match node
            case SelectNode =>
              var (s, found) := SelectNext(e, w.cancelled(n));
              && AtNode(if found then ExecuteNode else FinishNode, s)
              && e.index <= s.index && s.revisions == e.revisions
              && Follows(node, Remaining(node, e, w, n), Remaining(if found then ExecuteNode else FinishNode, s, w, n))
            case ExecuteNode =>
              var done := ExecuteStep(e, w.result(n));
              && AtNode(ReviseNode, done) && Fuel(done) == Fuel(e)
              && Follows(node, Remaining(node, e, w, n), Remaining(ReviseNode, done, w, n))
            case ReviseNode =>
              var next := ReviseAfter(e, w.reply(n), w.py);
              && AtNode(SelectNode, next) && Fuel(next) < Fuel(e)
              && Follows(node, Remaining(node, e, w, n), Remaining(SelectNode, next, w, n + 1))
            case FinishNode => Follows(node, Remaining(node, e, w, n), Remaining(End, e, w, n))
            case End => true
  {
    match node {
      case SelectNode => SelectRemains(e, w, n);
      case ExecuteNode => ExecuteKeepsRunnable(e, w.result(n));
      case ReviseNode => ReviseMakesProgress(e, w.reply(n), w.py);
      case FinishNode => assert [FinishOp] == [FinishOp] + [];
    }
  }

  lemma SelectRemains(e: Exec, w: World, n: nat)
    requires Runnable(e)
    ensures var (s, found) := SelectNext(e, w.cancelled(n));
            && AtNode(if found then ExecuteNode else FinishNode, s)
            && e.index <= s.index && s.revisions == e.revisions
            && Follows(SelectNode, Drive(e, w, n), Remaining(if found then ExecuteNode else FinishNode, s, w, n))
  {
    SelectFinds(e, w.cancelled(n));
    var (s, found) := SelectNext(e, w.cancelled(n));
    if found {
      ExecuteKeepsRunnable(s, w.result(n));
      var done := ExecuteStep(s, w.result(n));
      ReviseMakesProgress(done, w.reply(n), w.py);
      OpsInTurn(Drive(ReviseAfter(done, w.reply(n), w.py), w, n + 1).1);
    } else {
      assert [SelectOp, FinishOp] == [SelectOp] + [FinishOp];
    }
  }

  lemma OpsInTurn(rest: seq<Op>)
    ensures [SelectOp, ExecuteOp, ReviseOp] + rest == [SelectOp] + ([ExecuteOp] + ([ReviseOp] + rest))
  {
  }

  ghost predicate Follows(node: Node, before: (Exec, seq<Op>), after: (Exec, seq<Op>)) {
    before == (after.0, [OpOf(node)] + after.1)
  }

  /** The whole run is what was done so far followed by what remains. */
  ghost predicate Leads(whole: (Exec, seq<Op>), done: seq<Op>, rest: (Exec, seq<Op>)) {
    whole == (rest.0, done + rest.1)
  }

  lemma LeadsOn(whole: (Exec, seq<Op>), done: seq<Op>, before: (Exec, seq<Op>), after: (Exec, seq<Op>))
    requires done != [] && Leads(whole, done[..|done| - 1], before)
    requires before == (after.0, [done[|done| - 1]] + after.1)
    ensures Leads(whole, done, after)
  {
    assert done[..|done| - 1] + ([done[|done| - 1]] + after.1) == done + after.1;
  }
}
