/** The repair passes as a run: which were applied, to what, and what ended it. */
module PlanRuns {
  import opened JsonValues
  import opened JsonBlock
  import opened PlanSchema
  import opened Wrappers

  /** The order the passes are tried in. */
  function Turn(pass: Pass): nat {
    match pass
    case ExtractJson => 0
    case CoerceEntries => 1
    case EnforceStructure => 2
  }

  /** What a pass does to a payload, each pass by its name. */
  ghost predicate Repairs(pass: Pass, cleaned: string, payload: Json, next: Json, py: Builtins) {
    match pass
    case ExtractJson => ExtractPass(cleaned, payload, py) == Repaired(next)
    case CoerceEntries => CoerceSteps(payload, py).Kept? && next == Arr(StepItems(CoerceSteps(payload, py).steps))
    case EnforceStructure => StructurePass(payload, py) == Repaired(next)
  }

  /** Extraction reads a block only where nothing was read, and makes of it whatever value it reads as. */
  lemma ExtractIff(cleaned: string, payload: Json, py: Builtins)
    ensures forall v :: ExtractPass(cleaned, payload, py) == Repaired(v) <==>
              && payload == Null && v != Null
              && Block(cleaned).Some? && py.loads(Block(cleaned).value) == Read(v)
    ensures ExtractPass(cleaned, payload, py) == Raised <==>
              payload == Null && Block(cleaned).Some? && py.loads(Block(cleaned).value) == Unreadable
  {
  }

  /** What the passes can do to a payload, on this text. */
  ghost function Fixing(cleaned: string, py: Builtins): (Pass, Json, Json) -> bool {
    (pass: Pass, payload: Json, next: Json) => Repairs(pass, cleaned, payload, next, py)
  }

  /** The k-th applied pass led from one payload to the next. */
  ghost predicate AppliedAt(payloads: seq<Json>, applied: seq<Pass>, k: nat, fix: (Pass, Json, Json) -> bool) {
    k < |applied| && k + 1 < |payloads| && fix(applied[k], payloads[k], payloads[k + 1])
  }

  /** When its turn came, after the first m applied passes, this pass had nothing to repair. */
  ghost predicate SkippedAfter(
      m: nat, pass: Pass, payloads: seq<Json>, applied: seq<Pass>, fix: (Pass, Json, Json) -> bool)
  {
    && m <= |applied| && m < |payloads|
    && (forall k :: 0 <= k < m ==> Turn(applied[k]) < Turn(pass))
    && (forall k :: m <= k < |applied| ==> Turn(pass) < Turn(applied[k]))
    && forall next :: !fix(pass, payloads[m], next)
  }

  /** The passes of the first turns: applied one to the outcome of the other, or skipped. */
  ghost predicate Trail(turns: nat, payloads: seq<Json>, applied: seq<Pass>, fix: (Pass, Json, Json) -> bool) {
    && |payloads| == |applied| + 1
    && (forall k :: 0 <= k < |applied| ==> Turn(applied[k]) < turns && AppliedAt(payloads, applied, k, fix))
    && (forall k, l :: 0 <= k < l < |applied| ==> Turn(applied[k]) < Turn(applied[l]))
    && forall pass :: Turn(pass) < turns && pass !in applied ==>
         exists m :: SkippedAfter(m, pass, payloads, applied, fix)
  }

  /** No pass was applied to a valid plan. */
  ghost predicate NoneWasValid(payloads: seq<Json>, n: nat, py: Builtins) {
    n <= |payloads| && forall k :: 0 <= k < n ==> Validate(payloads[k], py).1 != []
  }

  /** The outcome of passes started on `start`: the plan the last one left, or nothing once turns or budget ran out. */
  ghost predicate RunsTo(o: Outcome, cleaned: string, start: Json, cap: nat, py: Builtins) {
    exists turns, payloads :: RunsAlong(o, turns, payloads, cleaned, start, cap, py)
  }

  ghost predicate RunsAlong(
      o: Outcome, turns: nat, payloads: seq<Json>, cleaned: string, start: Json, cap: nat, py: Builtins)
  {
    && turns <= 3 && Trail(turns, payloads, o.applied, Fixing(cleaned, py)) && payloads[0] == start
    && NoneWasValid(payloads, |o.applied|, py)
    && o.repairAttempts == |o.applied| <= cap
    && var (steps, found) := Validate(payloads[|o.applied|], py);
       match o.mode
       case StrictMode => false
       case RepairedMode =>
         && o.applied != [] && Turn(o.applied[|o.applied| - 1]) == turns - 1
         && found == o.violations == [] && o.steps == steps && (o.hasResearch <==> Researched(steps))
       case FallbackMode =>
         && found == o.violations != [] && o.steps == [] && !o.hasResearch
         && (turns == 3 || |o.applied| == cap)
  }

  ghost predicate Researched(steps: seq<PlanStep>) {
    exists s :: s in steps && s.agentId in {"researcher", "fact_checker"}
  }

  lemma ResearchedIff(steps: seq<PlanStep>)
    ensures HasResearchStep(steps) <==> Researched(steps)
  {
    if s :| s in steps && s.agentId in {"researcher", "fact_checker"} {
      var i :| 0 <= i < |steps| && steps[i] == s;
      assert steps[i].agentId in RESEARCH_AGENTS;
    }
  }

  lemma TrailApplies(
      turns: nat, payloads: seq<Json>, applied: seq<Pass>, pass: Pass, next: Json, fix: (Pass, Json, Json) -> bool)
    requires Trail(turns, payloads, applied, fix) && Turn(pass) == turns && fix(pass, payloads[|applied|], next)
    ensures Trail(turns + 1, payloads + [next], applied + [pass], fix)
  {
    var longer, done := payloads + [next], applied + [pass];
    forall k | 0 <= k < |done| ensures Turn(done[k]) < turns + 1 && AppliedAt(longer, done, k, fix) {
      assert k < |applied| ==> AppliedAt(payloads, applied, k, fix);
    }
    forall q | Turn(q) < turns + 1 && q !in done ensures exists m :: SkippedAfter(m, q, longer, done, fix) {
      NotLast(applied, pass, q);
      var m :| SkippedAfter(m, q, payloads, applied, fix);
      assert SkippedAfter(m, q, longer, done, fix);
    }
  }

  lemma NotLast(applied: seq<Pass>, pass: Pass, q: Pass)
    requires q !in applied + [pass]
    ensures q !in applied && q != pass && Turn(q) != Turn(pass)
  {
    assert (applied + [pass])[|applied|] == pass;
  }

  lemma TrailSkips(
      turns: nat, payloads: seq<Json>, applied: seq<Pass>, pass: Pass, fix: (Pass, Json, Json) -> bool)
    requires Trail(turns, payloads, applied, fix) && Turn(pass) == turns
    requires forall next :: !fix(pass, payloads[|applied|], next)
    ensures Trail(turns + 1, payloads, applied, fix)
  {
    assert SkippedAfter(|applied|, pass, payloads, applied, fix);
    forall q | Turn(q) < turns + 1 && q !in applied ensures exists m :: SkippedAfter(m, q, payloads, applied, fix) {
      assert Turn(q) == turns ==> q == pass;
    }
  }

  lemma PassOfTurn(p: nat, cleaned: string, payload: Json, py: Builtins)
    requires p < |PASSES|
    ensures Turn(PASSES[p]) == p
    ensures forall next :: Fixing(cleaned, py)(PASSES[p], payload, next) <==>
              RunPass(PASSES[p], cleaned, payload, py) == Repaired(next)
  {
  }

  /** A run under way: the passes of p turns are done, and no plan has been valid so far. */
  ghost predicate UnderWay(p: nat, applied: seq<Pass>, payloads: seq<Json>, cleaned: string, py: Builtins) {
    Trail(p, payloads, applied, Fixing(cleaned, py)) && NoneWasValid(payloads, |payloads|, py)
  }

  lemma {:induction false} RunHasTrail(
      p: nat, applied: seq<Pass>, payloads: seq<Json>, cleaned: string, cap: nat, py: Builtins)
    requires p <= |PASSES| && UnderWay(p, applied, payloads, cleaned, py) && |applied| <= cap
    ensures var (payload, violations) := (payloads[|applied|], Validate(payloads[|applied|], py).1);
            RunsTo(RunPasses(p, applied, payload, violations, cleaned, cap, py), cleaned, payloads[0], cap, py)
    decreases |PASSES| - p
  {
    if p == |PASSES| || |applied| >= cap {
      RunStops(p, applied, payloads, cleaned, cap, py);
    } else {
      match RunPass(PASSES[p], cleaned, payloads[|applied|], py) {
        case Repaired(next) =>
          RunRepairs(p, applied, payloads, next, cleaned, cap, py);
          if Validate(next, py).1 != [] {
            RunHasTrail(p + 1, applied + [PASSES[p]], payloads + [next], cleaned, cap, py);
          }
        case _ =>
          RunSkips(p, applied, payloads, cleaned, cap, py);
          RunHasTrail(p + 1, applied, payloads, cleaned, cap, py);
      }
    }
  }

  lemma RunStops(p: nat, applied: seq<Pass>, payloads: seq<Json>, cleaned: string, cap: nat, py: Builtins)
    requires p <= |PASSES| && UnderWay(p, applied, payloads, cleaned, py) && |applied| <= cap
    requires p == |PASSES| || |applied| >= cap
    ensures var (payload, violations) := (payloads[|applied|], Validate(payloads[|applied|], py).1);
            RunsTo(RunPasses(p, applied, payload, violations, cleaned, cap, py), cleaned, payloads[0], cap, py)
  {
    var o := Outcome([], FallbackMode, |applied|, Validate(payloads[|applied|], py).1, applied, false);
    assert RunsAlong(o, p, payloads, cleaned, payloads[0], cap, py);
  }

  lemma RunSkips(p: nat, applied: seq<Pass>, payloads: seq<Json>, cleaned: string, cap: nat, py: Builtins)
    requires p < |PASSES| && UnderWay(p, applied, payloads, cleaned, py) && |applied| < cap
    requires !RunPass(PASSES[p], cleaned, payloads[|applied|], py).Repaired?
    ensures UnderWay(p + 1, applied, payloads, cleaned, py)
    ensures var (payload, violations) := (payloads[|applied|], Validate(payloads[|applied|], py).1);
            RunPasses(p, applied, payload, violations, cleaned, cap, py)
            == RunPasses(p + 1, applied, payload, violations, cleaned, cap, py)
  {
    PassOfTurn(p, cleaned, payloads[|applied|], py);
    TrailSkips(p, payloads, applied, PASSES[p], Fixing(cleaned, py));
  }

  lemma RunRepairs(
      p: nat, applied: seq<Pass>, payloads: seq<Json>, next: Json, cleaned: string, cap: nat, py: Builtins)
    requires p < |PASSES| && UnderWay(p, applied, payloads, cleaned, py) && |applied| < cap
    requires RunPass(PASSES[p], cleaned, payloads[|applied|], py) == Repaired(next)
    ensures var (done, longer) := (applied + [PASSES[p]], payloads + [next]);
            var o := RunPasses(
              p, applied, payloads[|applied|], Validate(payloads[|applied|], py).1, cleaned, cap, py);
            if Validate(next, py).1 == [] then RunsTo(o, cleaned, payloads[0], cap, py)
            else
              && UnderWay(p + 1, done, longer, cleaned, py)
              && o == RunPasses(p + 1, done, next, Validate(next, py).1, cleaned, cap, py)
  {
    var (steps, found) := Validate(next, py);
    var (done, longer) := (applied + [PASSES[p]], payloads + [next]);
    PassOfTurn(p, cleaned, payloads[|applied|], py);
    TrailApplies(p, payloads, applied, PASSES[p], next, Fixing(cleaned, py));
    if found == [] {
      var o := Outcome(steps, RepairedMode, |done|, [], done, HasResearchStep(steps));
      ResearchedIff(steps);
      assert longer[|done|] == next && longer[0] == payloads[0];
      assert RunsAlong(o, p + 1, longer, cleaned, payloads[0], cap, py);
    }
  }

  /**
   * The parse as a whole. Text that reads as a valid plan is answered with that plan; any other is
   * answered with what the passes make of it, started on the value read, or on null.
   */
  lemma ParseRuns(cleaned: string, maxRepairs: int, py: Builtins)
    requires !py.loads(cleaned).Unreadable?
    ensures var start := if py.loads(cleaned).Read? then py.loads(cleaned).value else Null;
            var (steps, found) := Validate(start, py);
            var r := Parse(cleaned, maxRepairs, py);
            && r.Resolved?
            && if found == [] then
                 && r.outcome.mode == StrictMode && r.outcome.steps == steps && r.outcome.violations == []
                 && r.outcome.applied == [] && r.outcome.repairAttempts == 0
                 && (r.outcome.hasResearch <==> Researched(steps))
               else RunsTo(r.outcome, cleaned, start, if maxRepairs < 0 then 0 else maxRepairs, py)
  {
    var cap := if maxRepairs < 0 then 0 else maxRepairs;
    var start := Loaded(cleaned, py);
    var (steps, found) := Validate(start, py);
    ResearchedIff(steps);
    if found != [] {
      assert UnderWay(0, [], [start], cleaned, py);
      RunHasTrail(0, [], [start], cleaned, cap, py);
    }
  }
}
