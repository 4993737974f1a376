/**
 * What an attempt may write, what a resume restores, and that a run goes on: a resumed attempt
 * starts at the first step without a saved output, and a step that is answered gets saved.
 */
module PipelineResumes {
  import opened JsonValues
  import opened PlanSchema
  import opened PlanRepair
  import opened Pipeline
  import opened PipelineHistory
  import opened PipelineTurns
  import opened PipelineRecovery
  import opened Wrappers

  // ---- the fence ----------------------------------------------------------------

  ghost predicate OwnsRun(row: Row, w: Worker) {
    row.status == IsRunning && row.owner == Some(w) && row.leaseLive
  }

  /** The attempt a move belongs to. */
  ghost function Mover(m: Move): Option<Worker> {
    match m
    case ExpireLease => None
    case FailExpired => None
    case Resume => None
    case Cancel => None
    case _ => Some(m.w)
  }

  /**
   * An attempt that does not own the running run under a live lease writes nothing to its row: it
   * can only take a run nobody owns, or clear what a run it completed left behind.
   */
  lemma FencedOutWritesNothing(s: State, m: Move)
    requires Enabled(s, m) && Mover(m).Some? && !OwnsRun(s.row, Mover(m).value)
    ensures Apply(s, m).row == s.row || m.Acquire? || m.ClearCheckpoints?
    ensures m.Acquire? ==>
              && s.row.status == IsRunning && s.row.owner == None && s.row.leaseLive
              && Apply(s, m).row == s.row.(owner := Some(m.w))
    ensures m.ClearCheckpoints? ==>
              && s.row.status == IsCompleted && s.row.owner == Some(m.w)
              && Apply(s, m).row == s.row.(checkpoints := map[])
  {
  }

  /** Each move of an attempt comes from its own place, and all but four need the run to be its own. */
  lemma EachInItsPlace(s: State, m: Move)
    requires Enabled(s, m) && Mover(m).Some?
    ensures m.Acquire? || m.ClearCheckpoints? || m.Crash? || m.Stray? || OwnsRun(s.row, Mover(m).value)
    ensures m.Acquire? ==> m.w !in s.used
    ensures m.Stray? ==> !OwnsRun(s.row, m.w)
    ensures !m.Acquire? && !m.FailOwned? && !m.ClearCheckpoints? ==>
              && m.w in s.attempts
              && match m
                 case Boot(w) => s.attempts[w] == Booting && s.row.specs != []
                 case MakePlan(w, specs) => s.attempts[w] == Booting && s.row.specs == [] && ValidPlan(specs)
                 case WritePlan(w) => s.attempts[w].Planned?
                 case StartStep(w) => s.attempts[w].Ready?
                 case Complete(w) => s.attempts[w].Ready?
                 case Answer(w, _, _) => s.attempts[w].Working?
                 case EmitFailed(w) => s.attempts[w].Working?
                 case SaveCheckpoint(w) => s.attempts[w].HasAnswer?
                 case EmitComplete(w) => s.attempts[w].Saved?
                 case Revise(w, _, _) => s.attempts[w].Stepped?
                 case WriteRevision(w) => s.attempts[w].Revising?
                 case _ => true
  {
    if m.MakePlan? {
      NoViolationIffValid(m.specs);
    }
  }

  /** The status of a run, and exactly the moves that set it. */
  lemma RunStatusIff(s: State, m: Move)
    requires Enabled(s, m)
    ensures var (old_, new_) := (s.row.status, Apply(s, m).row.status);
            && (new_ == IsCompleted <==> old_ == IsCompleted || m.Complete?)
            && (new_ == IsCancelled <==> old_ == IsCancelled || m.Cancel?)
            && (new_ == IsFailed <==> (old_ == IsFailed && !m.Resume?) || m.FailOwned? || m.FailExpired?)
            && (new_ == IsRunning <==>
                  || m.Resume?
                  || (old_ == IsRunning && !m.Complete? && !m.Cancel? && !m.FailOwned? && !m.FailExpired?))
    ensures m.Complete? ==>
              && OwnsRun(s.row, m.w) && m.w in s.attempts && s.attempts[m.w].Ready?
              && NonePendingFrom(s.attempts[m.w].e.plan, s.attempts[m.w].e.index)
    ensures m.FailOwned? ==> OwnsRun(s.row, m.w)
    ensures m.FailExpired? ==> s.row.status == IsRunning && !s.row.leaseLive
    ensures m.Resume? ==> s.row.status == IsFailed
    ensures m.Cancel? ==> s.row.status == IsRunning
  {
    if m.Complete? {
      SelectIff(s.attempts[m.w].e, false);
    }
  }

  /** A finished or failed run has no lease; a resumed one waits for an owner under a new one. */
  lemma LeaseIff(s: State, m: Move)
    requires Enabled(s, m)
    ensures Apply(s, m).row.leaseLive <==>
              || m.Resume?
              || (s.row.leaseLive && !m.ExpireLease? && !m.Complete? && !m.FailOwned? && !m.Cancel?)
    ensures Apply(s, m).row.owner
         == if m.Acquire? then Some(m.w) else if m.Resume? then None else s.row.owner
  {
  }

  /** What the durable plan and the checkpoints are after a move. */
  lemma RecordsIff(s: State, m: Move)
    requires Inv(s) && Enabled(s, m)
    ensures var (row, next) := (s.row, Apply(s, m).row);
            match m
            case WritePlan(w) =>
              && s.attempts[w].Planned? && next.specs == s.attempts[w].specs
              && next.revisions == row.revisions && next.checkpoints == row.checkpoints
            case WriteRevision(w) =>
              && s.attempts[w].Revising? && next.specs == Specs(s.attempts[w].next.plan)
              && next.revisions == s.attempts[w].next.revisions && next.checkpoints == row.checkpoints
            case SaveCheckpoint(w) =>
              && s.attempts[w].HasAnswer?
              && next.specs == row.specs && next.revisions == row.revisions
              && var (e, text, usage) := (s.attempts[w].e, s.attempts[w].text, s.attempts[w].usage);
                 && e.index < |row.specs|
                 && var spec := row.specs[e.index];
                    next.checkpoints
                    == row.checkpoints[e.index + 1 := Checkpoint(spec.agentId, spec.inputsFrom, text, usage)]
            case Cancel => next.specs == row.specs && next.revisions == row.revisions && next.checkpoints == map[]
            case ClearCheckpoints(_) =>
              next.specs == row.specs && next.revisions == row.revisions && next.checkpoints == map[]
            case _ =>
              next.specs == row.specs && next.revisions == row.revisions && next.checkpoints == row.checkpoints
  {
    if m.SaveCheckpoint? {
      var e := s.attempts[m.w].e;
      assert AttemptOk(s.row, s.attempts[m.w]);
      assert Specs(e.plan)[e.index] == e.plan[e.index].spec;
      assert |Specs(e.plan)| == |e.plan| && s.row.specs[e.index].index == e.index + 1;
    }
  }

  // ---- what a resume restores -------------------------------------------------------

  /** A step comes back completed if and only if a checkpoint under its number carries its agent and some output. */
  lemma RestoredIff(row: Row, k: nat)
    requires RowOk(row) && k < |row.specs|
    ensures |RestorePlan(row)| == |row.specs|
    ensures var (s, i) := (RestorePlan(row)[k], k + 1);
            && s.spec == row.specs[k]
            && (s.status == Completed <==>
                  && i in row.checkpoints && row.checkpoints[i].agentId == row.specs[k].agentId
                  && row.checkpoints[i].text != "")
            && (s.status == Completed ==> s.output == row.checkpoints[i].text && s.usage == row.checkpoints[i].usage)
            && (s.status != Completed ==> s == Step(row.specs[k], Pending, "", Usage(0, 0, 0.0)))
  {
    assert row.specs[k].index == k + 1;
  }

  ghost predicate SavedAt(row: Row, i: int) {
    i in row.checkpoints && row.checkpoints[i].text != ""
  }

  /** The first step of the durable plan that has no saved output. */
  ghost predicate FirstUnsaved(row: Row, i: int) {
    1 <= i <= |row.specs| && !SavedAt(row, i) && forall j :: 1 <= j < i ==> SavedAt(row, j)
  }

  ghost predicate AllSaved(row: Row) {
    forall i :: 1 <= i <= |row.specs| ==> SavedAt(row, i)
  }

  lemma RestoredPending(row: Row)
    requires RowOk(row) && CheckpointsMatch(row)
    ensures forall k: nat :: PendingAt(RestorePlan(row), k) <==> k < |row.specs| && !SavedAt(row, k + 1)
  {
    forall k: nat ensures PendingAt(RestorePlan(row), k) <==> k < |row.specs| && !SavedAt(row, k + 1) {
      if k < |row.specs| {
        RestoredIff(row, k);
        if SavedAt(row, k + 1) {
          assert Durable(row, k + 1) && Labelled(row, k + 1);
        }
      }
    }
  }

  /** The moves by which a fresh attempt takes over a failed run. */
  ghost predicate TakesOver(s: State, w: Worker, t: State) {
    && Enabled(s, Resume)
    && var a := Apply(s, Resume);
       && Enabled(a, Acquire(w))
       && var b := Apply(a, Acquire(w));
          Enabled(b, Boot(w)) && t == Apply(b, Boot(w))
  }

  /**
   * A failed run that has a plan can always be resumed, and the new attempt goes on at exactly the
   * first step without a saved output; if every output is saved it may only complete the run.
   */
  lemma ResumeGoesOn(s: State, w: Worker) returns (t: State)
    requires Inv(s) && s.row.status == IsFailed && s.row.specs != [] && w !in s.used
    ensures TakesOver(s, w, t) && Inv(t) && OwnsRun(t.row, w)
    ensures t.row.specs == s.row.specs && t.row.checkpoints == s.row.checkpoints
    ensures Enabled(t, StartStep(w)) <==> !AllSaved(s.row)
    ensures Enabled(t, Complete(w)) <==> AllSaved(s.row)
    ensures !AllSaved(s.row) ==>
              var u := Apply(t, StartStep(w));
              w in u.attempts && u.attempts[w].Working? && FirstUnsaved(s.row, u.attempts[w].e.index + 1)
  {
    var b, e;
    t, b, e := TakeOver(s, w);
    SameSaved(b.row, s.row);
    ReadyGoesOn(t, w);
  }

  /** An attempt that has just restored the run starts its first unsaved step, or may complete it. */
  lemma ReadyGoesOn(t: State, w: Worker)
    requires RowOk(t.row) && CheckpointsMatch(t.row) && OwnsRun(t.row, w) && w in t.attempts
    requires t.attempts[w] == Ready(Prepare(RestorePlan(t.row), t.row.revisions))
    ensures Enabled(t, StartStep(w)) <==> !AllSaved(t.row)
    ensures Enabled(t, Complete(w)) <==> AllSaved(t.row)
    ensures !AllSaved(t.row) ==>
              var u := Apply(t, StartStep(w));
              w in u.attempts && u.attempts[w].Working? && FirstUnsaved(t.row, u.attempts[w].e.index + 1)
  {
    StartsFirst(t.row, t.attempts[w].e);
  }

  /** A restored attempt selects the first unsaved step, if there is one. */
  lemma StartsFirst(row: Row, e: Exec)
    requires RowOk(row) && CheckpointsMatch(row) && e == Prepare(RestorePlan(row), row.revisions)
    ensures SelectNext(e, false).1 <==> !AllSaved(row)
    ensures SelectNext(e, false).1 ==> FirstUnsaved(row, SelectNext(e, false).0.index + 1)
  {
    RestoredPending(row);
    SelectIff(e, false);
    FirstUnsavedIs(row, e);
  }

  lemma SameSaved(a: Row, b: Row)
    requires a.checkpoints == b.checkpoints && a.specs == b.specs
    ensures AllSaved(a) <==> AllSaved(b)
    ensures forall i :: FirstUnsaved(a, i) <==> FirstUnsaved(b, i)
  {
    assert forall i :: SavedAt(a, i) <==> SavedAt(b, i);
  }

  /** The takeover itself: the new owner stands ready with the restored plan. */
  lemma TakeOver(s: State, w: Worker) returns (t: State, b: State, e: Exec)
    requires Inv(s) && s.row.status == IsFailed && s.row.specs != [] && w !in s.used
    ensures TakesOver(s, w, t) && Inv(t) && OwnsRun(t.row, w) && t.row == b.row
    ensures b.row.specs == s.row.specs && b.row.checkpoints == s.row.checkpoints
    ensures RowOk(b.row) && CheckpointsMatch(b.row)
    ensures e == Prepare(RestorePlan(b.row), b.row.revisions) && w in t.attempts && t.attempts[w] == Ready(e)
  {
    var a := Apply(s, Resume);
    b := Apply(a, Acquire(w));
    t := Apply(b, Boot(w));
    MovesKeepInv(s, Resume);
    MovesKeepInv(a, Acquire(w));
    MovesKeepInv(b, Boot(w));
    e := Prepare(RestorePlan(b.row), b.row.revisions);
  }

  lemma FirstUnsavedIs(row: Row, e: Exec)
    requires e.index == 0
    requires forall k: nat :: PendingAt(e.plan, k) <==> k < |row.specs| && !SavedAt(row, k + 1)
    ensures NonePendingFrom(e.plan, 0) <==> AllSaved(row)
    ensures forall k: nat :: FirstFrom(e.plan, 0, k) ==> FirstUnsaved(row, k + 1)
  {
    forall i | NonePendingFrom(e.plan, 0) && 1 <= i <= |row.specs| ensures SavedAt(row, i) {
      assert !PendingAt(e.plan, i - 1);
    }
    forall k: nat | FirstFrom(e.plan, 0, k) ensures FirstUnsaved(row, k + 1) {
      forall j | 1 <= j < k + 1 ensures SavedAt(row, j) {
        assert !PendingAt(e.plan, j - 1);
      }
    }
  }

  // ---- a step gets saved ---------------------------------------------------------------

  /** An owner at work on a step whose sub-agent answers can save the answer, and the step is over. */
  lemma AnsweredStepIsSaved(s: State, w: Worker, text: string, usage: Usage, reply: Option<Json>, py: Builtins)
      returns (t: State)
    requires Inv(s) && w in s.attempts && OwnsRun(s.row, w) && s.attempts[w].Working?
    ensures Enabled(s, Answer(w, text, usage))
    ensures var a := Apply(s, Answer(w, text, usage));
            && Enabled(a, SaveCheckpoint(w))
            && var b := Apply(a, SaveCheckpoint(w));
               Enabled(b, EmitComplete(w)) && t == Apply(b, EmitComplete(w))
    ensures var (i, spec) := (s.attempts[w].e.index + 1, s.attempts[w].e.plan[s.attempts[w].e.index].spec);
            && t.row == s.row.(checkpoints := s.row.checkpoints[
                 i := Checkpoint(spec.agentId, spec.inputsFrom, text, usage)])
            && w in t.attempts && t.attempts[w].Stepped? && OwnsRun(t.row, w)
            && Enabled(t, Revise(w, reply, py))
  {
    assert AttemptOk(s.row, s.attempts[w]);
    var a := Apply(s, Answer(w, text, usage));
    MovesKeepInv(s, Answer(w, text, usage));
    t := SavedStep(a, w, reply, py);
    var e := s.attempts[w].e;
    assert Specs(e.plan)[e.index] == e.plan[e.index].spec;
  }

  lemma SavedStep(a: State, w: Worker, reply: Option<Json>, py: Builtins) returns (t: State)
    requires Inv(a) && w in a.attempts && OwnsRun(a.row, w) && a.attempts[w].HasAnswer?
    ensures Enabled(a, SaveCheckpoint(w))
    ensures var b := Apply(a, SaveCheckpoint(w));
            Enabled(b, EmitComplete(w)) && t == Apply(b, EmitComplete(w))
    ensures var (e, text, usage) := (a.attempts[w].e, a.attempts[w].text, a.attempts[w].usage);
            && e.index < |a.row.specs|
            && var spec := a.row.specs[e.index];
               t.row == a.row.(checkpoints := a.row.checkpoints[
                 e.index + 1 := Checkpoint(spec.agentId, spec.inputsFrom, text, usage)])
    ensures w in t.attempts && t.attempts[w].Stepped? && OwnsRun(t.row, w) && Enabled(t, Revise(w, reply, py))
  {
    assert AttemptOk(a.row, a.attempts[w]);
    RecordsIff(a, SaveCheckpoint(w));
    var b := Apply(a, SaveCheckpoint(w));
    t := Apply(b, EmitComplete(w));
  }
}
