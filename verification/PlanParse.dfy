/** The staged parse as a whole: which plans come out, and exactly when nothing does. */
module PlanParse {
  import opened JsonValues
  import opened JsonBlock
  import opened PlanSchema
  import opened PlanRepair
  import opened Wrappers

  // ---- pass 3 on a coerced plan -------------------------------------------------

  lemma StepEndsFinal(steps: seq<PlanStep>)
    requires steps != []
    ensures EndsFinal(StepItems(steps)) <==> steps[|steps| - 1].agentId in FINAL_AGENTS
  {
    StepFields(steps[|steps| - 1]);
  }

  lemma {:induction false} TrimOfItems(steps: seq<PlanStep>)
    ensures TrimToFinal(StepItems(steps)) == StepItems(TrimSteps(steps))
    ensures TrimSteps(steps) <= steps
    ensures TrimSteps(steps) != [] ==> TrimSteps(steps)[|TrimSteps(steps)| - 1].agentId in FINAL_AGENTS
    ensures TrimSteps(steps) == [] <==> NoFinal(steps)
  {
    if steps != [] {
      StepEndsFinal(steps);
      var init := steps[..|steps| - 1];
      assert StepItems(steps)[..|steps| - 1] == StepItems(init);
      TrimOfItems(init);
      assert steps == init + [steps[|steps| - 1]];
      if steps[|steps| - 1].agentId in FINAL_AGENTS {
        assert steps[|steps| - 1] in steps;
      }
    }
  }

  ghost predicate NoFinal(steps: seq<PlanStep>) {
    forall s :: s in steps ==> s.agentId !in FINAL_AGENTS
  }

  lemma {:induction false} IndexRefsOfItems(steps: seq<PlanStep>)
    ensures IndexRefs(StepItems(steps)) == IntItems(seq(|steps|, i requires 0 <= i < |steps| => steps[i].index))
  {
    if steps != [] {
      StepFields(steps[0]);
      IndexRefsOfItems(steps[1..]);
      assert StepItems(steps)[1..] == StepItems(steps[1..]);
    }
  }

  lemma AppendOfClean(steps: seq<PlanStep>, py: Builtins)
    requires Clean(steps) && steps != []
    requires steps[|steps| - 1].agentId !in FINAL_AGENTS && |steps| < MAX_STEPS
    ensures StructurePass(Arr(StepItems(steps)), py) == Repaired(Arr(StepItems(Structured(steps))))
  {
    var items, n := StepItems(steps), |steps|;
    StepEndsFinal(steps);
    LastIndexOfItems(steps, py);
    assert AllDicts(items);
    assert StructurePass(Arr(items), py) == Repaired(Arr(WithWriter(items, n)));
    IndexRefsOfItems(steps);
    AppendedItems(steps, Structured(steps)[n]);
  }

  lemma LastIndexOfItems(steps: seq<PlanStep>, py: Builtins)
    requires Clean(steps) && steps != []
    ensures LastIndex(StepItems(steps), py) == Some(|steps|)
  {
    StepFields(steps[|steps| - 1]);
    assert steps[|steps| - 1].index == |steps|;
  }

  lemma AppendedItems(steps: seq<PlanStep>, added: PlanStep)
    ensures StepItems(steps + [added]) == StepItems(steps) + [StepJson(added)]
  {
  }

  /** On a coerced plan, pass 3 does what `Structured` says, and never raises. */
  lemma StructurePassOfClean(steps: seq<PlanStep>, py: Builtins)
    requires Clean(steps) && steps != []
    ensures StructurePass(Arr(StepItems(steps)), py)
         == if Structured(steps) == steps then Nothing else Repaired(Arr(StepItems(Structured(steps))))
  {
    if steps[|steps| - 1].agentId !in FINAL_AGENTS && |steps| < MAX_STEPS {
      AppendOfClean(steps, py);
      assert |Structured(steps)| == |steps| + 1;
    } else {
      StepEndsFinal(steps);
      TrimOfItems(steps);
      assert AllDicts(StepItems(steps));
    }
  }

  lemma StructuredIsValid(steps: seq<PlanStep>)
    requires Clean(steps) && steps != []
    ensures Clean(Structured(steps)) && Structured(steps) != []
    ensures ValidPlan(Structured(steps)) <==> !(|steps| == MAX_STEPS && NoFinal(steps))
    ensures !ValidPlan(Structured(steps)) ==> Structured(steps) == steps
  {
    var last := steps[|steps| - 1];
    assert last in steps;
    if last.agentId !in FINAL_AGENTS {
      if |steps| < MAX_STEPS {
        AppendIsValid(steps);
      } else {
        TrimIsValid(steps);
      }
    }
  }

  lemma AppendIsValid(steps: seq<PlanStep>)
    requires Clean(steps) && steps != [] && steps[|steps| - 1].agentId !in FINAL_AGENTS && |steps| < MAX_STEPS
    ensures Clean(Structured(steps)) && ValidPlan(Structured(steps))
  {
    var added := Structured(steps)[|steps|];
    assert Structured(steps) == steps + [added];
    assert Ascending(added.inputsFrom);
    forall r | r in added.inputsFrom ensures 1 <= r < added.index {
    }
  }

  lemma TrimIsValid(steps: seq<PlanStep>)
    requires Clean(steps) && steps != [] && steps[|steps| - 1].agentId !in FINAL_AGENTS && |steps| == MAX_STEPS
    ensures Clean(Structured(steps)) && Structured(steps) != []
    ensures ValidPlan(Structured(steps)) <==> !NoFinal(steps)
    ensures NoFinal(steps) ==> Structured(steps) == steps
  {
    TrimOfItems(steps);
    var trimmed := TrimSteps(steps);
    assert forall s :: s in trimmed ==> s in steps;
  }

  // ---- soundness ------------------------------------------------------------------

  ghost predicate SoundOutcome(r: Outcome) {
    && (r.mode.FallbackMode? <==> r.steps == [])
    && (r.mode.FallbackMode? <==> r.violations != [])
    && (!r.mode.FallbackMode? ==> ValidPlan(r.steps))
    && r.repairAttempts == |r.applied|
    && (r.mode.StrictMode? ==> r.applied == [])
    && (r.mode.RepairedMode? ==> r.applied != [])
  }

  lemma PassRepairs(
      p: nat, applied: seq<Pass>, payload: Json, violations: seq<Violation>, cleaned: string, cap: nat, py: Builtins,
      next: Json)
    requires p < |PASSES| && |applied| < cap && RunPass(PASSES[p], cleaned, payload, py) == Repaired(next)
    ensures var ((steps, found), done) := (Validate(next, py), applied + [PASSES[p]]);
            RunPasses(p, applied, payload, violations, cleaned, cap, py)
            == if found == [] then Outcome(steps, RepairedMode, |done|, [], done, HasResearchStep(steps))
               else RunPasses(p + 1, done, next, found, cleaned, cap, py)
  {
  }

  lemma {:induction false} RunPassesSound(
      p: nat, applied: seq<Pass>, payload: Json, violations: seq<Violation>, cleaned: string, cap: nat, py: Builtins)
    requires p <= |PASSES| && violations != [] && |applied| <= cap
    ensures SoundOutcome(RunPasses(p, applied, payload, violations, cleaned, cap, py))
    ensures RunPasses(p, applied, payload, violations, cleaned, cap, py).repairAttempts <= cap
    decreases |PASSES| - p
  {
    if p < |PASSES| && |applied| < cap {
      match RunPass(PASSES[p], cleaned, payload, py) {
        case Repaired(next) =>
          PassRepairs(p, applied, payload, violations, cleaned, cap, py, next);
          var (steps, found) := Validate(next, py);
          if found != [] {
            RunPassesSound(p + 1, applied + [PASSES[p]], next, found, cleaned, cap, py);
          }
        case _ => RunPassesSound(p + 1, applied, payload, violations, cleaned, cap, py);
      }
    }
  }

  /**
   * Parsing raises if and only if the first reading of the text raises something other than a
   * syntax error; otherwise an actionable outcome comes out: a valid plan within the budget, or an
   * empty fallback. The same error in the block found later is swallowed.
   */
  lemma ParseIsSound(cleaned: string, maxRepairs: int, py: Builtins)
    ensures Parse(cleaned, maxRepairs, py).ParseRaised? <==> py.loads(cleaned).Unreadable?
    ensures var r := Parse(cleaned, maxRepairs, py);
            r.Resolved? ==>
              && SoundOutcome(r.outcome)
              && r.outcome.repairAttempts <= if maxRepairs < 0 then 0 else maxRepairs
  {
    var cap := if maxRepairs < 0 then 0 else maxRepairs;
    var payload := Loaded(cleaned, py);
    var (steps, found) := if payload == Null then ([], [PayloadShape]) else Validate(payload, py);
    if found != [] {
      RunPassesSound(0, [], payload, found, cleaned, cap, py);
    }
  }

  // ---- completeness -----------------------------------------------------------------

  /** The payload the repair passes work on: what the text parses to, or the block found in it. */
  function StepSource(cleaned: string, py: Builtins): Json {
    var loaded := Loaded(cleaned, py);
    if loaded != Null then loaded
    else
      match ExtractPass(cleaned, Null, py)
      case Repaired(v) => v
      case _ => Null
  }

  /** Too many steps to append a writer to, and none of them produces a draft. */
  ghost predicate NoRoomForDraft(kept: seq<PlanStep>) {
    |kept| == MAX_STEPS && NoFinal(kept)
  }

  lemma AgentsAreKept(payload: Json, py: Builtins)
    requires CoerceSteps(payload, py).Kept?
    ensures NoFinal(CoerceSteps(payload, py).steps) <==> NoFinal(Survivors(payload, py).value)
  {
    var kept := Survivors(payload, py).value;
    var sorted := SortByIndex(kept);
    var steps := CoerceSteps(payload, py).steps;
    SurvivorsShape(payload, py);
    SameMultisetSameMembers(sorted, kept);
    forall i | 0 <= i < |sorted|
      ensures steps[i] in steps && sorted[i] in sorted && steps[i].agentId == sorted[i].agentId
    {
    }
  }

  /** Pass 3 and after, on a coerced plan that still ends on no draft. */
  lemma StructuredOutcome(applied: seq<Pass>, steps: seq<PlanStep>, cleaned: string, cap: nat, py: Builtins)
    requires ReadsIntegers(py) && Clean(steps) && steps != [] && CheckInvariants(steps) != [] && |applied| < cap
    ensures RunPasses(2, applied, Arr(StepItems(steps)), CheckInvariants(steps), cleaned, cap, py).mode.FallbackMode?
       <==> NoRoomForDraft(steps)
  {
    var payload := Arr(StepItems(steps));
    NoViolationIffValid(steps);
    StructuredIsValid(steps);
    StructurePassOfClean(steps, py);
    assert RunPass(PASSES[2], cleaned, payload, py) == StructurePass(payload, py);
    if Structured(steps) != steps {
      PassRepairs(2, applied, payload, CheckInvariants(steps), cleaned, cap, py, Arr(StepItems(Structured(steps))));
      ValidateReadsBack(Structured(steps), py);
      NoViolationIffValid(Structured(steps));
    }
  }

  /** From pass 2 on, once the payload coerces to something. */
  lemma CoercedOutcome(
      applied: seq<Pass>, payload: Json, violations: seq<Violation>, cleaned: string, cap: nat, py: Builtins)
    requires ReadsIntegers(py) && CoerceSteps(payload, py).Kept? && |applied| + 2 <= cap
    ensures RunPasses(1, applied, payload, violations, cleaned, cap, py).mode.FallbackMode?
       <==> NoRoomForDraft(Survivors(payload, py).value)
  {
    var steps := CoerceSteps(payload, py).steps;
    var next, found := Arr(StepItems(steps)), CheckInvariants(steps);
    KeptIsClean(payload, py);
    AgentsAreKept(payload, py);
    ValidateReadsBack(steps, py);
    NoViolationIffValid(steps);
    assert PASSES[1] == CoerceEntries && RunPass(CoerceEntries, cleaned, payload, py) == Repaired(next);
    assert steps[|steps| - 1] in steps;
    PassRepairs(1, applied, payload, violations, cleaned, cap, py, next);
    if found != [] {
      StructuredOutcome(applied + [CoerceEntries], steps, cleaned, cap, py);
    }
  }

  /**
   * With the default budget, once a step list is found and coercion keeps something, the planner's
   * answer is lost exactly when its text cannot be read, or it was not valid as it stood, eight steps
   * survived, and none of the eight writes a draft.
   */
  lemma FallbackExactly(cleaned: string, maxRepairs: int, py: Builtins)
    requires ReadsIntegers(py) && maxRepairs >= |PASSES|
    requires CoerceSteps(StepSource(cleaned, py), py).Kept?
    ensures var r := Parse(cleaned, maxRepairs, py);
            r.ParseRaised? || r.outcome.mode.FallbackMode? <==>
              || py.loads(cleaned).Unreadable?
              || (&& !ValidPlan(Validate(StepSource(cleaned, py), py).0)
                  && NoRoomForDraft(Survivors(StepSource(cleaned, py), py).value))
  {
    var source := StepSource(cleaned, py);
    var loaded := Loaded(cleaned, py);
    var (steps, found) := Validate(source, py);
    assert source != Null;
    if found != [] {
      if loaded != Null {
        assert RunPasses(0, [], loaded, found, cleaned, maxRepairs, py)
            == RunPasses(1, [], loaded, found, cleaned, maxRepairs, py);
        CoercedOutcome([], source, found, cleaned, maxRepairs, py);
      } else {
        assert RunPasses(0, [], Null, [PayloadShape], cleaned, maxRepairs, py)
            == RunPasses(1, [] + [ExtractJson], source, found, cleaned, maxRepairs, py);
        CoercedOutcome([] + [ExtractJson], source, found, cleaned, maxRepairs, py);
      }
    }
  }

  // ---- a good plan comes back unchanged -------------------------------------------------

  /** A valid plan that is serialised and read back is accepted as it is, without repair. */
  lemma StrictRoundTrip(steps: seq<PlanStep>, cleaned: string, maxRepairs: int, py: Builtins)
    requires ReadsIntegers(py) && ValidPlan(steps) && Clean(steps)
    requires py.loads(cleaned) == Read(Arr(StepItems(steps)))
    ensures Parse(cleaned, maxRepairs, py) == Resolved(Outcome(steps, StrictMode, 0, [], [], HasResearchStep(steps)))
  {
    ValidateReadsBack(steps, py);
    NoViolationIffValid(steps);
  }

  /** The same plan printed into the middle of prose costs one repair pass and nothing else. */
  lemma ProseRoundTrip(
      steps: seq<PlanStep>, prefix: string, st: Style, suffix: string, maxRepairs: int, py: Builtins)
    requires ReadsIntegers(py) && ValidPlan(steps) && Clean(steps) && PlainStyle(st) && maxRepairs >= 1
    requires forall i :: 0 <= i < |prefix| ==> !Opens(prefix[i])
    requires var plan := Arr(StepItems(steps));
             && py.loads(Print(plan, st)) == Read(plan)
             && py.loads(prefix + Print(plan, st) + suffix) == NotJson
    ensures Parse(prefix + Print(Arr(StepItems(steps)), st) + suffix, maxRepairs, py)
         == Resolved(Outcome(steps, RepairedMode, 1, [], [ExtractJson], HasResearchStep(steps)))
  {
    var plan := Arr(StepItems(steps));
    var text := prefix + Print(plan, st) + suffix;
    ExtractionUndoesPrinting(prefix, plan, st, suffix);
    ValidateReadsBack(steps, py);
    NoViolationIffValid(steps);
    assert PASSES[0] == ExtractJson;
    assert RunPass(ExtractJson, text, Null, py) == Repaired(plan);
    PassRepairs(0, [], Null, [PayloadShape], text, maxRepairs, py, plan);
    assert [] + [PASSES[0]] == [ExtractJson];
  }

  // ---- the lenient path the revisions take ------------------------------------------------

  /** A salvaged revision is numbered, bounded and acyclic; only the draft at its end may be missing. */
  lemma SalvagedRevision(payload: Json, py: Builtins)
    ensures match CoercePlanPayload(payload, py)
            case None => true
            case Some(steps) =>
              && WellShaped(steps)
              && (steps != [] ==>
                    CoerceSteps(payload, py).Kept? &&
                    (ValidPlan(steps) <==> !NoRoomForDraft(Survivors(payload, py).value)))
  {
    if CoerceSteps(payload, py).Kept? {
      KeptIsClean(payload, py);
      AgentsAreKept(payload, py);
      StructuredIsValid(CoerceSteps(payload, py).steps);
    }
  }
}
