/**
 * Crash and resume: many attempts at one run over one durable row. An attempt may die between any
 * two durable writes, its lease may run out while it goes on working, and the run may be resumed
 * under a new attempt. Every write is fenced by the lease: the row's owner, its lease and its
 * status are checked in the transaction that writes.
 */
module PipelineRecovery {
  import opened JsonValues
  import opened PlanSchema
  import opened PlanRepair
  import opened Pipeline
  import opened PipelineHistory
  import opened Wrappers

  type Worker = nat

  datatype RunStatus = IsRunning | IsFailed | IsCompleted | IsCancelled

  /** A saved step. `inputsFrom` is history: the edges the step had when it ran. */
  datatype Checkpoint = Checkpoint(agentId: string, inputsFrom: seq<int>, text: string, usage: Usage)

  /** The durable state of a run: the row and its checkpoints. No plan is an empty list of steps. */
  datatype Row = Row(
    status: RunStatus, owner: Option<Worker>, leaseLive: bool,
    specs: seq<PlanStep>, revisions: nat, checkpoints: map<int, Checkpoint>)

  /** Where an attempt is, with the memory it dies with. */
  datatype Attempt =
    | Booting
    | Planned(specs: seq<PlanStep>)                            // a fresh plan, not yet written
    | Ready(e: Exec)                                           // between two steps
    | Working(e: Exec)                                         // the step at e.index has started
    | HasAnswer(e: Exec, text: string, usage: Usage)           // answered, checkpoint not written
    | Saved(e: Exec)                                           // checkpoint written, event not
    | Stepped(e: Exec)                                         // the step is over
    | Revising(e: Exec, next: Exec)                            // a revision accepted, not yet written

  datatype State = State(row: Row, attempts: map<Worker, Attempt>, used: set<Worker>)

  /** The write fence: this attempt still owns the running row under a live lease. */
  predicate Fenced(row: Row, w: Worker) {
    row.status == IsRunning && row.owner == Some(w) && row.leaseLive
  }

  predicate Durable(row: Row, i: int) {
    i in row.checkpoints && row.checkpoints[i].text != ""
  }

  // ---- restoring --------------------------------------------------------------

  /** A checkpoint counts when it carries the name of the step and some output. */
  function RestoreStep(spec: PlanStep, checkpoints: map<int, Checkpoint>): Step {
    if spec.index in checkpoints && checkpoints[spec.index].agentId == spec.agentId
       && checkpoints[spec.index].text != ""
    then Step(spec, Completed, checkpoints[spec.index].text, checkpoints[spec.index].usage)
    else Fresh(spec)
  }

  function RestorePlan(row: Row): seq<Step> {
    seq(|row.specs|, i requires 0 <= i < |row.specs| => RestoreStep(row.specs[i], row.checkpoints))
  }

  // ---- the moves ----------------------------------------------------------------

  datatype Move =
    | Acquire(w: Worker)
    | Boot(w: Worker)
    | MakePlan(w: Worker, specs: seq<PlanStep>)
    | WritePlan(w: Worker)
    | StartStep(w: Worker)
    | Answer(w: Worker, text: string, usage: Usage)
    | SaveCheckpoint(w: Worker)
    | EmitComplete(w: Worker)
    | EmitFailed(w: Worker)
    | Revise(w: Worker, reply: Option<Json>, py: Builtins)
    | WriteRevision(w: Worker)
    | Complete(w: Worker)
    | FailOwned(w: Worker)
    | ClearCheckpoints(w: Worker)
    | Crash(w: Worker)
    | Stray(w: Worker, any: Attempt)   // an attempt that lost the run: its memory is no longer our concern
    | ExpireLease
    | FailExpired
    | Resume
    | Cancel

  function At(s: State, w: Worker): Attempt
    requires w in s.attempts
  {
    s.attempts[w]
  }

  predicate Enabled(s: State, m: Move) {
    match m
    case Acquire(w) => s.row.status == IsRunning && s.row.owner == None && s.row.leaseLive && w !in s.used
    case Boot(w) => w in s.attempts && At(s, w).Booting? && Fenced(s.row, w) && s.row.specs != []
    case MakePlan(w, specs) =>
      w in s.attempts && At(s, w).Booting? && Fenced(s.row, w) && s.row.specs == [] && CheckInvariants(specs) == []
    case WritePlan(w) => w in s.attempts && At(s, w).Planned? && Fenced(s.row, w)
    case StartStep(w) =>
      w in s.attempts && At(s, w).Ready? && Fenced(s.row, w) && SelectNext(At(s, w).e, false).1
    case Answer(w, _, _) => w in s.attempts && At(s, w).Working? && Fenced(s.row, w)
    case SaveCheckpoint(w) =>
      w in s.attempts && At(s, w).HasAnswer? && Fenced(s.row, w) && At(s, w).e.index < |At(s, w).e.plan|
    case EmitComplete(w) => w in s.attempts && At(s, w).Saved? && Fenced(s.row, w)
    case EmitFailed(w) =>
      w in s.attempts && At(s, w).Working? && Fenced(s.row, w) && At(s, w).e.index < |At(s, w).e.plan|
    case Revise(w, _, _) =>
      w in s.attempts && At(s, w).Stepped? && Fenced(s.row, w) && At(s, w).e.index < |At(s, w).e.plan|
    case WriteRevision(w) => w in s.attempts && At(s, w).Revising? && Fenced(s.row, w)
    case Complete(w) =>
      w in s.attempts && At(s, w).Ready? && Fenced(s.row, w) && !SelectNext(At(s, w).e, false).1
    case FailOwned(w) => Fenced(s.row, w)
    case ClearCheckpoints(w) => s.row.owner == Some(w) && s.row.status == IsCompleted
    case Crash(w) => w in s.attempts
    case Stray(w, _) => w in s.attempts && !Fenced(s.row, w)
    case ExpireLease => s.row.leaseLive
    case FailExpired => s.row.status == IsRunning && !s.row.leaseLive
    case Resume => s.row.status == IsFailed
    case Cancel => s.row.status == IsRunning
  }

  function Become(s: State, w: Worker, a: Attempt): State {
    s.(attempts := s.attempts[w := a])
  }

  function Apply(s: State, m: Move): State
    requires Enabled(s, m)
  {
    match m
    case Acquire(w) => Become(s, w, Booting).(row := s.row.(owner := Some(w)), used := s.used + {w})
    case Boot(w) => Become(s, w, Ready(Prepare(RestorePlan(s.row), s.row.revisions)))
    case MakePlan(w, specs) => Become(s, w, Planned(specs))
    case WritePlan(w) =>
      var specs := At(s, w).specs;
      Become(s, w, Ready(Prepare(FreshPlan(specs), 0))).(row := s.row.(specs := specs))
    case StartStep(w) => Become(s, w, Working(SelectNext(At(s, w).e, false).0))
    case Answer(w, text, usage) => Become(s, w, HasAnswer(At(s, w).e, text, usage))
    case SaveCheckpoint(w) =>
      var HasAnswer(e, text, usage) := At(s, w);
      var spec := e.plan[e.index].spec;
      var saved := Checkpoint(spec.agentId, spec.inputsFrom, text, usage);
      Become(s, w, Saved(ExecuteStep(e, Answered(text, usage))))
        .(row := s.row.(checkpoints := s.row.checkpoints[spec.index := saved]))
    case EmitComplete(w) => Become(s, w, Stepped(At(s, w).e))
    case EmitFailed(w) => Become(s, w, Stepped(ExecuteStep(At(s, w).e, RunnerFailed)))
    case Revise(w, reply, py) =>
      var e := At(s, w).e;
      var next := ReviseAfter(e, reply, py);
      Become(s, w, if next.revisions == e.revisions then Ready(next) else Revising(e, next))
    case WriteRevision(w) =>
      var next := At(s, w).next;
      Become(s, w, Ready(next)).(row := s.row.(specs := Specs(next.plan), revisions := next.revisions))
    case Complete(w) => s.(row := s.row.(status := IsCompleted, leaseLive := false))
    case FailOwned(w) => s.(row := s.row.(status := IsFailed, leaseLive := false))
    case ClearCheckpoints(w) => s.(row := s.row.(checkpoints := map[]))
    case Crash(w) => s.(attempts := s.attempts - {w})
    case Stray(w, any) => Become(s, w, any)
    case ExpireLease => s.(row := s.row.(leaseLive := false))
    case FailExpired => s.(row := s.row.(status := IsFailed))
    case Resume => s.(row := s.row.(status := IsRunning, owner := None, leaseLive := true))
    case Cancel => s.(row := s.row.(status := IsCancelled, leaseLive := false, checkpoints := map[]))
  }

  const START := State(Row(IsRunning, None, true, [], 0, map[]), map[], {})

  // ---- the invariant --------------------------------------------------------------

  /** The checkpoint carries the step number, the agent and the edges of a step of the durable plan. */
  ghost predicate Labelled(row: Row, i: int)
    requires i in row.checkpoints
  {
    && 1 <= i <= |row.specs|
    && row.checkpoints[i].agentId == row.specs[i - 1].agentId
    && row.checkpoints[i].inputsFrom == row.specs[i - 1].inputsFrom
  }

  /** Every checkpoint with an output belongs to the step the durable plan has at its index. */
  ghost predicate CheckpointsMatch(row: Row) {
    forall i :: Durable(row, i) ==> Labelled(row, i)
  }

  ghost predicate RowOk(row: Row) {
    && WellShaped(row.specs) && row.revisions <= MAX_REVISIONS
    && (row.specs == [] ==> row.checkpoints == map[] && row.revisions == 0)
    && (row.status == IsRunning || row.status == IsFailed ==> CheckpointsMatch(row))
  }

  /** An attempt's memory says exactly what the row and its checkpoints say. */
  ghost predicate Synced(row: Row, e: Exec) {
    && Specs(e.plan) == row.specs && e.revisions == row.revisions && Runnable(e) && OutputsAgree(e)
    && e.totals == TotalOf(e.plan)
    && (forall i :: Durable(row, i) ==>
          IsDone(e.plan, i) && e.plan[i - 1].output == row.checkpoints[i].text
          && e.plan[i - 1].usage == row.checkpoints[i].usage)
    && (forall i :: IsDone(e.plan, i) && e.plan[i - 1].output != "" ==> Durable(row, i))
  }

  ghost predicate AtPending(e: Exec) {
    e.index < |e.plan| && e.plan[e.index].status.Pending?
  }

  ghost predicate AttemptOk(row: Row, a: Attempt) {
    match a
    case Booting => true
    case Planned(specs) => row.specs == [] && WellShaped(specs) && specs != []
    case Ready(e) => Synced(row, e) && row.specs != []
    case Working(e) => Synced(row, e) && AtPending(e)
    case HasAnswer(e, _, _) => Synced(row, e) && AtPending(e)
    case Saved(e) => Synced(row, e) && e.index < |e.plan|
    case Stepped(e) => Synced(row, e) && e.index < |e.plan|
    case Revising(e, next) =>
      && Synced(row, e) && Runnable(next) && OutputsAgree(next) && next.totals == TotalOf(next.plan) && next.plan != []
      && KeepsHistory(e.plan, next.plan) && KeepsHistory(next.plan, e.plan)
  }

  ghost predicate Inv(s: State) {
    && RowOk(s.row)
    && s.attempts.Keys <= s.used
    && (s.row.owner.Some? ==> s.row.owner.value in s.used)
    && forall w :: w in s.attempts && Fenced(s.row, w) ==> AttemptOk(s.row, s.attempts[w])
  }

  lemma StartOk()
    ensures Inv(START)
  {
  }

  lemma RestoreSyncs(row: Row)
    requires RowOk(row) && row.specs != [] && CheckpointsMatch(row)
    ensures Synced(row, Prepare(RestorePlan(row), row.revisions))
  {
    var plan := RestorePlan(row);
    assert Specs(plan) == row.specs;
    forall i | Durable(row, i) ensures IsDone(plan, i) && plan[i - 1].output == row.checkpoints[i].text
                                       && plan[i - 1].usage == row.checkpoints[i].usage {
      assert row.specs[i - 1].index == i;
    }
    forall i | IsDone(plan, i) ensures Durable(row, i) {
      assert row.specs[i - 1].index == i;
    }
  }

  lemma FreshSyncs(row: Row, specs: seq<PlanStep>)
    requires row.specs == specs && WellShaped(specs) && row.checkpoints == map[] && row.revisions == 0
    ensures Synced(row, Prepare(FreshPlan(specs), 0))
  {
    assert Specs(FreshPlan(specs)) == specs;
  }

  lemma SaveSyncs(row: Row, e: Exec, text: string, usage: Usage)
    requires RowOk(row) && CheckpointsMatch(row) && Synced(row, e) && AtPending(e)
    ensures var spec := e.plan[e.index].spec;
            var saved := Checkpoint(spec.agentId, spec.inputsFrom, text, usage);
            var row' := row.(checkpoints := row.checkpoints[spec.index := saved]);
            && CheckpointsMatch(row') && spec.index == e.index + 1
            && Synced(row', ExecuteStep(e, Answered(text, usage)))
  {
    var spec := e.plan[e.index].spec;
    assert Specs(e.plan)[e.index] == spec && row.specs[e.index] == spec && spec.index == e.index + 1;
    var saved := Checkpoint(spec.agentId, spec.inputsFrom, text, usage);
    var row' := row.(checkpoints := row.checkpoints[spec.index := saved]);
    var next := ExecuteStep(e, Answered(text, usage));
    ExecuteKeepsRunnable(e, Answered(text, usage));
    OutputsAgreeExactly(e, Answered(text, usage));
    TotalsAgreeExactly(e, Answered(text, usage));
    forall i | Durable(row', i) ensures IsDone(next.plan, i) && next.plan[i - 1].output == row'.checkpoints[i].text
                                        && next.plan[i - 1].usage == row'.checkpoints[i].usage {
      if i != spec.index {
        assert Durable(row, i) && IsDone(e.plan, i);
      }
    }
    forall i | IsDone(next.plan, i) && next.plan[i - 1].output != "" ensures Durable(row', i) {
      if i != spec.index {
        assert IsDone(e.plan, i);
      }
    }
    forall i | Durable(row', i)
      ensures 1 <= i <= |row'.specs| && row'.checkpoints[i].agentId == row'.specs[i - 1].agentId
              && row'.checkpoints[i].inputsFrom == row'.specs[i - 1].inputsFrom
    {
      if i != spec.index {
        assert Durable(row, i);
      }
    }
  }

  lemma FailSyncs(row: Row, e: Exec)
    requires Synced(row, e) && AtPending(e)
    ensures Synced(row, ExecuteStep(e, RunnerFailed))
  {
    var next := ExecuteStep(e, RunnerFailed);
    ExecuteKeepsRunnable(e, RunnerFailed);
    OutputsAgreeExactly(e, RunnerFailed);
    TotalsAgreeExactly(e, RunnerFailed);
    forall i | IsDone(next.plan, i) ensures IsDone(e.plan, i) && e.plan[i - 1] == next.plan[i - 1] {
    }
    forall i | Durable(row, i) ensures IsDone(next.plan, i) && e.plan[i - 1] == next.plan[i - 1] {
      assert IsDone(e.plan, i);
    }
  }

  lemma SelectSyncs(row: Row, e: Exec)
    requires Synced(row, e) && SelectNext(e, false).1
    ensures Synced(row, SelectNext(e, false).0) && AtPending(SelectNext(e, false).0)
  {
    SelectFinds(e, false);
  }

  lemma RevisionSyncs(row: Row, e: Exec, next: Exec)
    requires RowOk(row) && CheckpointsMatch(row) && AttemptOk(row, Revising(e, next))
    ensures var row' := row.(specs := Specs(next.plan), revisions := next.revisions);
            CheckpointsMatch(row') && Synced(row', next)
  {
    var row' := row.(specs := Specs(next.plan), revisions := next.revisions);
    forall i | Durable(row', i)
      ensures && IsDone(next.plan, i) && SameDone(e.plan[i - 1], next.plan[i - 1])
              && next.plan[i - 1].output == row'.checkpoints[i].text
              && 1 <= i <= |row'.specs| && row'.checkpoints[i].agentId == row'.specs[i - 1].agentId
              && row'.checkpoints[i].inputsFrom == row'.specs[i - 1].inputsFrom
    {
      assert Durable(row, i) && IsDone(e.plan, i);
      assert Specs(e.plan)[i - 1] == row.specs[i - 1];
    }
    forall i | IsDone(next.plan, i) && next.plan[i - 1].output != "" ensures Durable(row', i) {
      assert IsDone(e.plan, i);
    }
  }

  lemma ReviseSyncs(row: Row, e: Exec, reply: Option<Json>, py: Builtins)
    requires Synced(row, e) && e.index < |e.plan|
    ensures var next := ReviseAfter(e, reply, py);
            if next.revisions == e.revisions then Synced(row, next) else AttemptOk(row, Revising(e, next))
  {
    ReviseMakesProgress(e, reply, py);
    ReviseKeeps(e, reply, py);
    var next := ReviseAfter(e, reply, py);
    assert |Specs(e.plan)| == |e.plan|;
    if next.revisions != e.revisions {
      RevisionKeepsHistory(e.plan, reply, py);
    } else {
      assert next.plan == e.plan;
    }
  }

  /** The attempt that owns the run goes on, and may have written to the row. */
  lemma OwnerBecomes(s: State, w: Worker, a: Attempt, row: Row)
    requires Inv(s) && w in s.attempts && Fenced(s.row, w) && row.owner == s.row.owner
    requires RowOk(row) && AttemptOk(row, a)
    ensures Inv(Become(s, w, a).(row := row))
  {
  }

  predicate ByOwner(m: Move) {
    m.Boot? || m.MakePlan? || m.StartStep? || m.Answer? || m.EmitComplete? || m.EmitFailed? || m.Revise?
  }

  predicate WritesRow(m: Move) {
    m.WritePlan? || m.SaveCheckpoint? || m.WriteRevision?
  }

  lemma OwnerKeepsInv(s: State, m: Move)
    requires Inv(s) && Enabled(s, m) && ByOwner(m)
    ensures Inv(Apply(s, m))
  {
    match m {
      case Boot(w) => RestoreSyncs(s.row);
      case MakePlan(w, specs) => NoViolationIffValid(specs);
      case StartStep(w) => SelectSyncs(s.row, At(s, w).e);
      case EmitFailed(w) =>
        FailSyncs(s.row, At(s, w).e);
        ExecuteKeepsRunnable(At(s, w).e, RunnerFailed);
      case Revise(w, reply, py) => ReviseSyncs(s.row, At(s, w).e, reply, py);
      case Answer(_, _, _) =>
      case EmitComplete(_) =>
    }
    OwnerBecomes(s, m.w, Apply(s, m).attempts[m.w], s.row);
  }

  lemma RowWriteKeepsInv(s: State, m: Move)
    requires Inv(s) && Enabled(s, m) && WritesRow(m)
    ensures Inv(Apply(s, m))
  {
    var t := Apply(s, m);
    match m {
      case WritePlan(w) => FreshSyncs(t.row, At(s, w).specs);
      case SaveCheckpoint(w) => SaveSyncs(s.row, At(s, w).e, At(s, w).text, At(s, w).usage);
      case WriteRevision(w) => RevisionSyncs(s.row, At(s, w).e, At(s, w).next);
    }
    OwnerBecomes(s, m.w, t.attempts[m.w], t.row);
  }

  /** Every move of every attempt, and of the world around them, keeps the invariant. */
  lemma MovesKeepInv(s: State, m: Move)
    requires Inv(s) && Enabled(s, m)
    ensures Inv(Apply(s, m))
  {
    if ByOwner(m) {
      OwnerKeepsInv(s, m);
    } else if WritesRow(m) {
      RowWriteKeepsInv(s, m);
    } else {
      var row := Apply(s, m).row;
      forall i | CheckpointsMatch(s.row) && Durable(row, i) ensures Labelled(row, i) {
        assert Durable(s.row, i) && Labelled(s.row, i);
      }
    }
  }

  // ---- whole runs -------------------------------------------------------------------

  ghost predicate IsRun(states: seq<State>, moves: seq<Move>) {
    && |states| == |moves| + 1 && states[0] == START
    && forall t :: 0 <= t < |moves| ==> Enabled(states[t], moves[t]) && states[t + 1] == Apply(states[t], moves[t])
  }

  lemma {:induction false} RunInv(states: seq<State>, moves: seq<Move>, t: nat)
    requires IsRun(states, moves) && t < |states|
    ensures Inv(states[t])
  {
    if t == 0 {
      StartOk();
    } else {
      RunInv(states, moves, t - 1);
      MovesKeepInv(states[t - 1], moves[t - 1]);
    }
  }

  /** The output saved under i is this text, or the run is over for good. */
  ghost predicate StillSaved(row: Row, i: int, text: string) {
    || row.status == IsCancelled || row.status == IsCompleted
    || (Durable(row, i) && row.checkpoints[i].text == text)
  }

  lemma MoveKeepsSaved(s: State, m: Move, i: int, text: string)
    requires Inv(s) && Enabled(s, m) && StillSaved(s.row, i, text)
    ensures StillSaved(Apply(s, m).row, i, text)
  {
    if m.SaveCheckpoint? && Durable(s.row, i) {
      var e := At(s, m.w).e;
      assert Specs(e.plan)[e.index].index == e.index + 1;
      assert IsDone(e.plan, i) && !IsDone(e.plan, e.index + 1);
    }
  }

  lemma {:induction false} SavedOutputsPersist(states: seq<State>, moves: seq<Move>, t: nat, u: nat, i: int)
    requires IsRun(states, moves) && t <= u < |states| && Durable(states[t].row, i)
    ensures StillSaved(states[u].row, i, states[t].row.checkpoints[i].text)
    decreases u - t
  {
    if t < u {
      SavedOutputsPersist(states, moves, t, u - 1, i);
      RunInv(states, moves, u - 1);
      MoveKeepsSaved(states[u - 1], moves[u - 1], i, states[t].row.checkpoints[i].text);
    }
  }

  /**
   * Over any number of crashes, expiries and resumes: once a step's output is saved, no attempt
   * ever starts that step again, and every attempt that starts another step holds, under the
   * saved step's number, exactly the saved text.
   */
  lemma SavedStepsNeverRunAgain(states: seq<State>, moves: seq<Move>, t: nat, u: nat, i: int)
    requires IsRun(states, moves) && t <= u < |moves|
    requires Durable(states[t].row, i) && moves[u].StartStep?
    ensures var e := SelectNext(states[u].attempts[moves[u].w].e, false).0;
            && e.index < |e.plan| && e.plan[e.index].spec.index != i
            && i in e.outputs && e.outputs[i] == states[t].row.checkpoints[i].text
  {
    RunInv(states, moves, u);
    SavedOutputsPersist(states, moves, t, u, i);
    var row := states[u].row;
    var before := states[u].attempts[moves[u].w].e;
    SelectSyncs(row, before);
    var e := SelectNext(before, false).0;
    assert IsDone(e.plan, i);
    assert Specs(e.plan)[e.index].index == e.index + 1;
  }

  /** In every reachable state of a run that is not over, every saved output sits at its own step. */
  lemma SavedOutputsStayLabelled(states: seq<State>, moves: seq<Move>, t: nat)
    requires IsRun(states, moves) && t < |states|
    requires states[t].row.status == IsRunning || states[t].row.status == IsFailed
    ensures CheckpointsMatch(states[t].row) && WellShaped(states[t].row.specs)
  {
    RunInv(states, moves, t);
  }

  /**
   * And the tokens the attempt that owns the run has counted, resumed or not, are those of its
   * completed steps, each with an output as it was saved: a resume bills nothing twice.
   */
  lemma TotalsAreSaved(states: seq<State>, moves: seq<Move>, t: nat, w: Worker)
    requires IsRun(states, moves) && t < |states|
    requires w in states[t].attempts && Fenced(states[t].row, w)
    requires !states[t].attempts[w].Booting? && !states[t].attempts[w].Planned?
    ensures var (row, e) := (states[t].row, states[t].attempts[w].e);
            && e.totals == TotalOf(e.plan)
            && forall i :: Durable(row, i) ==> IsDone(e.plan, i) && e.plan[i - 1].usage == row.checkpoints[i].usage
  {
    RunInv(states, moves, t);
    assert AttemptOk(states[t].row, states[t].attempts[w]);
  }

  // ---- the condition on outputs is needed ----------------------------------------------

  function One(agent: string): PlanStep {
    PlanStep(1, agent, "d", "", [])
  }

  lemma OneSurvives(py: Builtins)
    ensures CoercePlanPayload(Arr(StepItems([One("editor")])), py) == Some([One("editor")])
  {
    var steps := [One("editor")];
    EightIsClean();
    assert EIGHT[0] in EIGHT;
    var items := StepItems(steps);
    assert items[0..] == items && steps[..0] == [];
    SalvageAllOfSteps(steps, 0, py);
    SortOfSorted(steps);
    RenumberOfClean(steps);
  }

  const WRITER: seq<PlanStep> := [One("writer")]
  const EDITOR: seq<PlanStep> := [One("editor")]
  const EMPTY_ANSWER: map<int, Checkpoint> := map[1 := Checkpoint("writer", [], "", NO_USAGE)]

  ghost function Begin(plan: seq<PlanStep>): Exec {
    Prepare(FreshPlan(plan), 0)
  }

  /** Some moves lead from one state to the other. */
  ghost predicate Leads(s: State, moves: seq<Move>, t: State)
    decreases |moves|
  {
    if moves == [] then s == t else Enabled(s, moves[0]) && Leads(Apply(s, moves[0]), moves[1..], t)
  }

  lemma {:induction false} LeadsConcat(s: State, a: seq<Move>, t: State, b: seq<Move>, u: State)
    requires Leads(s, a, t) && Leads(t, b, u)
    ensures Leads(s, a + b, u)
    decreases |a|
  {
    if a == [] {
      assert a + b == b;
    } else {
      assert (a + b)[1..] == a[1..] + b;
      LeadsConcat(Apply(s, a[0]), a[1..], t, b, u);
    }
  }

  lemma Leads1(s: State, m: Move, t: State)
    requires Enabled(s, m) && Apply(s, m) == t
    ensures Leads(s, [m], t)
  {
  }

  lemma Leads2(s: State, m: Move, t: State, n: Move, u: State)
    requires Enabled(s, m) && Apply(s, m) == t && Enabled(t, n) && Apply(t, n) == u
    ensures Leads(s, [m, n], u)
  {
    Leads1(s, m, t);
    Leads1(t, n, u);
    LeadsConcat(s, [m], t, [n], u);
    assert [m] + [n] == [m, n];
  }

  const PLANNING: seq<Move> := [Acquire(0), MakePlan(0, WRITER)] + [WritePlan(0), StartStep(0)]
  const SAVING: seq<Move> := [Answer(0, "", NO_USAGE), SaveCheckpoint(0)] + [Crash(0), ExpireLease]
  const RESUMING: seq<Move> := [FailExpired, Resume] + [Acquire(1), Boot(1)]

  ghost function RowOf(owner: Option<Worker>, live: bool, specs: seq<PlanStep>, saved: map<int, Checkpoint>): Row {
    Row(IsRunning, owner, live, specs, 0, saved)
  }

  lemma PlanningRuns()
    ensures Leads(START, PLANNING, State(RowOf(Some(0), true, WRITER, map[]), map[0 := Working(Begin(WRITER))], {0}))
  {
    var s1 := State(RowOf(Some(0), true, [], map[]), map[0 := Booting], {0});
    var s2 := State(RowOf(Some(0), true, [], map[]), map[0 := Planned(WRITER)], {0});
    var s3 := State(RowOf(Some(0), true, WRITER, map[]), map[0 := Ready(Begin(WRITER))], {0});
    var s4 := State(RowOf(Some(0), true, WRITER, map[]), map[0 := Working(Begin(WRITER))], {0});
    assert CheckInvariants(WRITER) == [];
    assert Apply(START, Acquire(0)) == s1;
    Leads2(START, Acquire(0), s1, MakePlan(0, WRITER), s2);
    assert SelectNext(Begin(WRITER), false) == (Begin(WRITER), true);
    Leads2(s2, WritePlan(0), s3, StartStep(0), s4);
    LeadsConcat(START, [Acquire(0), MakePlan(0, WRITER)], s2, [WritePlan(0), StartStep(0)], s4);
  }

  lemma SavingRuns()
    ensures Leads(State(RowOf(Some(0), true, WRITER, map[]), map[0 := Working(Begin(WRITER))], {0}), SAVING,
                  State(RowOf(Some(0), false, WRITER, EMPTY_ANSWER), map[], {0}))
  {
    var e := Begin(WRITER);
    var s0 := State(RowOf(Some(0), true, WRITER, map[]), map[0 := Working(e)], {0});
    var s1 := State(RowOf(Some(0), true, WRITER, map[]), map[0 := HasAnswer(e, "", NO_USAGE)], {0});
    var s2 := State(RowOf(Some(0), true, WRITER, EMPTY_ANSWER),
                    map[0 := Saved(ExecuteStep(e, Answered("", NO_USAGE)))], {0});
    var s4 := State(RowOf(Some(0), false, WRITER, EMPTY_ANSWER), map[], {0});
    Leads2(s0, Answer(0, "", NO_USAGE), s1, SaveCheckpoint(0), s2);
    DiesAndExpires(s2, s4);
    LeadsConcat(s0, [Answer(0, "", NO_USAGE), SaveCheckpoint(0)], s2, [Crash(0), ExpireLease], s4);
  }

  lemma DiesAndExpires(s: State, t: State)
    requires s.attempts.Keys == {0} && s.row.leaseLive
    requires t == s.(row := s.row.(leaseLive := false), attempts := map[])
    ensures Leads(s, [Crash(0), ExpireLease], t)
  {
    assert s.attempts - {0} == map[];
    Leads2(s, Crash(0), s.(attempts := map[]), ExpireLease, t);
  }

  /** The resumed attempt takes the empty answer for no answer: the step is pending again. */
  lemma ResumingRuns()
    ensures Leads(State(RowOf(Some(0), false, WRITER, EMPTY_ANSWER), map[], {0}), RESUMING,
                  State(RowOf(Some(1), true, WRITER, EMPTY_ANSWER), map[1 := Ready(Begin(WRITER))], {0, 1}))
  {
    var s0 := State(RowOf(Some(0), false, WRITER, EMPTY_ANSWER), map[], {0});
    var s1 := State(RowOf(Some(0), false, WRITER, EMPTY_ANSWER).(status := IsFailed), map[], {0});
    var s2 := State(RowOf(None, true, WRITER, EMPTY_ANSWER), map[], {0});
    var s3 := State(RowOf(Some(1), true, WRITER, EMPTY_ANSWER), map[1 := Booting], {0, 1});
    var s4 := State(RowOf(Some(1), true, WRITER, EMPTY_ANSWER), map[1 := Ready(Begin(WRITER))], {0, 1});
    Leads2(s0, FailExpired, s1, Resume, s2);
    assert {0} + {1} == {0, 1};
    assert RestorePlan(s3.row) == FreshPlan(WRITER);
    Leads2(s2, Acquire(1), s3, Boot(1), s4);
    LeadsConcat(s0, [FailExpired, Resume], s2, [Acquire(1), Boot(1)], s4);
  }

  function Reply(): Option<Json> {
    Some(Arr(StepItems(EDITOR)))
  }

  function Relabelling(py: Builtins): seq<Move> {
    [StartStep(1), EmitFailed(1)] + [Revise(1, Reply(), py), WriteRevision(1)]
  }

  lemma RevisingRuns(s: State, e: Exec, reply: Option<Json>, py: Builtins, next: Exec) returns (t: State)
    requires s.attempts == map[1 := Stepped(e)] && Fenced(s.row, 1) && e.index < |e.plan|
    requires next == ReviseAfter(e, reply, py) && next.revisions != e.revisions
    ensures Leads(s, [Revise(1, reply, py), WriteRevision(1)], t)
    ensures t.row == s.row.(specs := Specs(next.plan), revisions := next.revisions)
  {
    var m, n := Revise(1, reply, py), WriteRevision(1);
    assert Enabled(s, m);
    var r := Apply(s, m);
    assert r == Become(s, 1, Revising(e, next));
    assert Enabled(r, n);
    t := Apply(r, n);
    Leads2(s, m, r, n, t);
  }

  lemma RelabellingRuns(py: Builtins) returns (t: State)
    ensures Leads(State(RowOf(Some(1), true, WRITER, EMPTY_ANSWER), map[1 := Ready(Begin(WRITER))], {0, 1}),
                  Relabelling(py), t)
    ensures t.row.specs == EDITOR && t.row.checkpoints == EMPTY_ANSWER && t.row.status == IsRunning
  {
    var e := Begin(WRITER);
    var failed := ExecuteStep(e, RunnerFailed);
    var s0 := State(RowOf(Some(1), true, WRITER, EMPTY_ANSWER), map[1 := Ready(e)], {0, 1});
    var s1 := s0.(attempts := map[1 := Working(e)]);
    var s2 := s0.(attempts := map[1 := Stepped(failed)]);
    StartAndFail(s0, s1, s2);
    RenamingAccepted(failed, py);
    t := RevisingRuns(s2, failed, Reply(), py, ReviseAfter(failed, Reply(), py));
    LeadsConcat(s0, [StartStep(1), EmitFailed(1)], s2, [Revise(1, Reply(), py), WriteRevision(1)], t);
  }

  lemma StartAndFail(s0: State, s1: State, s2: State)
    requires s0.attempts == map[1 := Ready(Begin(WRITER))] && Fenced(s0.row, 1)
    requires s1 == s0.(attempts := map[1 := Working(Begin(WRITER))])
    requires s2 == s0.(attempts := map[1 := Stepped(ExecuteStep(Begin(WRITER), RunnerFailed))])
    ensures Leads(s0, [StartStep(1), EmitFailed(1)], s2)
  {
    assert SelectNext(Begin(WRITER), false) == (Begin(WRITER), true);
    Leads2(s0, StartStep(1), s1, EmitFailed(1), s2);
  }

  lemma RenamingAccepted(failed: Exec, py: Builtins)
    requires failed == ExecuteStep(Begin(WRITER), RunnerFailed)
    ensures ReviseAfter(failed, Reply(), py).revisions == 1 && Specs(ReviseAfter(failed, Reply(), py).plan) == EDITOR
  {
    OneSurvives(py);
    UndisturbedIff(failed.plan, EDITOR);
    assert ShouldRevise(failed);
    assert MaybeRevise(failed.plan, Reply(), py) == Some(CarryAll(failed.plan, EDITOR));
    assert Specs(CarryAll(failed.plan, EDITOR)) == EDITOR;
  }

  /**
   * The condition on outputs is needed: an answer that was empty is saved but not trusted by a
   * resume, so a revision may still rename its step, and the checkpoint then carries the name of
   * an agent the durable plan no longer has.
   */
  lemma EmptyAnswerMayBeRelabelled(py: Builtins) returns (t: State)
    ensures Leads(START, ((PLANNING + SAVING) + RESUMING) + Relabelling(py), t)
    ensures t.row.status == IsRunning && 1 in t.row.checkpoints
    ensures t.row.specs == EDITOR && t.row.checkpoints[1].agentId == "writer" && t.row.checkpoints[1].text == ""
  {
    var a := State(RowOf(Some(0), true, WRITER, map[]), map[0 := Working(Begin(WRITER))], {0});
    var b := State(RowOf(Some(0), false, WRITER, EMPTY_ANSWER), map[], {0});
    var c := State(RowOf(Some(1), true, WRITER, EMPTY_ANSWER), map[1 := Ready(Begin(WRITER))], {0, 1});
    PlanningRuns();
    SavingRuns();
    ResumingRuns();
    t := RelabellingRuns(py);
    LeadsConcat(START, PLANNING, a, SAVING, b);
    LeadsConcat(START, PLANNING + SAVING, b, RESUMING, c);
    LeadsConcat(START, (PLANNING + SAVING) + RESUMING, c, Relabelling(py), t);
  }

  lemma {:induction false} LeadsIsRun(s: State, moves: seq<Move>, t: State) returns (states: seq<State>)
    requires Leads(s, moves, t)
    ensures |states| == |moves| + 1 && states[0] == s && states[|moves|] == t
    ensures forall k :: 0 <= k < |moves| ==> Enabled(states[k], moves[k]) && states[k + 1] == Apply(states[k], moves[k])
    decreases |moves|
  {
    if moves == [] {
      states := [s];
    } else {
      var rest := LeadsIsRun(Apply(s, moves[0]), moves[1..], t);
      states := [s] + rest;
    }
  }

  /** In this state every checkpoint with this text sits at its own step, unless the run is over. */
  ghost predicate KeepsLabel(s: State, text: string) {
    (s.row.status == IsRunning || s.row.status == IsFailed) ==>
      forall i :: i in s.row.checkpoints && s.row.checkpoints[i].text == text ==> Labelled(s.row, i)
  }

  /** Over all runs, the checkpoints of a text stay at their own steps if and only if the text is not empty. */
  lemma LabelledIff(text: string, py: Builtins)
    ensures (forall states, moves, t: nat :: IsRun(states, moves) && t < |states| ==> KeepsLabel(states[t], text))
       <==> text != ""
  {
    if text == "" {
      var t := EmptyAnswerMayBeRelabelled(py);
      var moves := ((PLANNING + SAVING) + RESUMING) + Relabelling(py);
      var states := LeadsIsRun(START, moves, t);
      assert IsRun(states, moves) && states[|moves|] == t;
      assert !Labelled(t.row, 1) && !KeepsLabel(states[|moves|], text);
    } else {
      forall states, moves, t: nat | IsRun(states, moves) && t < |states| ensures KeepsLabel(states[t], text) {
        KeepsLabelInRun(states, moves, t, text);
      }
    }
  }

  lemma KeepsLabelInRun(states: seq<State>, moves: seq<Move>, t: nat, text: string)
    requires IsRun(states, moves) && t < |states| && text != ""
    ensures KeepsLabel(states[t], text)
  {
    if states[t].row.status == IsRunning || states[t].row.status == IsFailed {
      SavedOutputsStayLabelled(states, moves, t);
      forall i | i in states[t].row.checkpoints && states[t].row.checkpoints[i].text == text
        ensures Labelled(states[t].row, i)
      {
        assert Durable(states[t].row, i);
      }
    }
  }
}
