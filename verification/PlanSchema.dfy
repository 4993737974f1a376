/**
 * Turning planner text into a plan: schema validation, three staged repair passes under a
 * budget, and the structural invariants of a plan.
 */
module PlanSchema {
  import opened JsonValues
  import opened JsonBlock
  import opened Wrappers

  const MAX_STEPS := 8
  const AGENT_IDS: set<string> := {"strategy", "writer", "editor", "reviewer", "researcher", "fact_checker"}
  const FINAL_AGENTS: set<string> := {"writer", "editor"}
  const RESEARCH_AGENTS: set<string> := {"researcher", "fact_checker"}

  datatype PlanStep = PlanStep(
    index: int, agentId: string, description: string, instruction: string, inputsFrom: seq<int>)

  datatype Violation =
    PayloadShape | SchemaValidation | StepCount | ContiguousIndices | KnownAgents | BackwardEdges | FinalAgent

  /** json.loads: a value, text that is no JSON, or an error of another kind (too deep, an integer too long). */
  datatype Reading = Read(value: Json) | NotJson | Unreadable

  /**
   * The library calls whose answers the passes branch on: Python's int() and str.isdigit() on
   * text, str() of a value that is no text, the schema library's reading of a value as an
   * integer, and json.loads. Everything proved here holds for all of them.
   */
  datatype Builtins = Builtins(
    intOf: string -> Option<int>,
    isDigit: string -> bool,
    strOf: Json -> string,
    schemaInt: Json -> Option<int>,
    loads: string -> Reading)

  ghost predicate ReadsIntegers(py: Builtins) {
    forall n :: py.schemaInt(Int(n)) == Some(n)
  }

  // ---- invariants of a plan -----------------------------------------------

  function CheckInvariants(steps: seq<PlanStep>): seq<Violation> {
    if steps == [] then [StepCount]
    else
      (if |steps| > MAX_STEPS then [StepCount] else [])
      + (if exists i :: 0 <= i < |steps| && steps[i].index != i + 1 then [ContiguousIndices] else [])
      + (if exists i :: 0 <= i < |steps| && steps[i].agentId !in AGENT_IDS then [KnownAgents] else [])
      + (if exists i :: 0 <= i < |steps| && !EdgesBackward(steps[i]) then [BackwardEdges] else [])
      + (if steps[|steps| - 1].agentId !in FINAL_AGENTS then [FinalAgent] else [])
  }

  predicate EdgesBackward(s: PlanStep) {
    forall r :: r in s.inputsFrom ==> 1 <= r < s.index
  }

  /** A bounded, acyclic plan: numbered 1..n in order, every edge to an earlier step. */
  ghost predicate WellShaped(steps: seq<PlanStep>) {
    && |steps| <= MAX_STEPS
    && forall i :: 0 <= i < |steps| ==>
         && steps[i].index == i + 1
         && steps[i].agentId in AGENT_IDS
         && EdgesBackward(steps[i])
  }

  ghost predicate ValidPlan(steps: seq<PlanStep>) {
    steps != [] && WellShaped(steps) && steps[|steps| - 1].agentId in FINAL_AGENTS
  }

  lemma NoViolationIffValid(steps: seq<PlanStep>)
    ensures CheckInvariants(steps) == [] <==> ValidPlan(steps)
  {
  }

  predicate HasResearchStep(steps: seq<PlanStep>) {
    exists i :: 0 <= i < |steps| && steps[i].agentId in RESEARCH_AGENTS
  }

  // ---- sorting ------------------------------------------------------------

  /** sorted(steps, key=index): stable. */
  function SortByIndex(steps: seq<PlanStep>): seq<PlanStep> {
    if steps == [] then [] else InsertByIndex(steps[0], SortByIndex(steps[1..]))
  }

  function InsertByIndex(s: PlanStep, sorted: seq<PlanStep>): seq<PlanStep> {
    if sorted == [] || s.index <= sorted[0].index then [s] + sorted
    else [sorted[0]] + InsertByIndex(s, sorted[1..])
  }

  /** sorted(set(ns)). */
  function SortedSet(ns: seq<int>): (r: seq<int>)
    ensures forall n :: n in r <==> n in ns
    ensures Ascending(r)
  {
    if ns == [] then []
    else
      assert ns == [ns[0]] + ns[1..];
      InsertUnique(ns[0], SortedSet(ns[1..]))
  }

  predicate Ascending(ns: seq<int>) {
    forall i, j :: 0 <= i < j < |ns| ==> ns[i] < ns[j]
  }

  lemma AllAbove(sorted: seq<int>, n: int, rest: seq<int>)
    requires Ascending(sorted) && sorted != [] && sorted[0] < n && Ascending(rest)
    requires forall m :: m in rest ==> m == n || m in sorted[1..]
    ensures Ascending([sorted[0]] + rest)
  {
    forall i | 0 <= i < |rest| ensures sorted[0] < rest[i] {
      assert rest[i] in rest;
      if rest[i] != n {
        var k :| 0 <= k < |sorted| - 1 && sorted[1..][k] == rest[i];
        assert sorted[k + 1] == rest[i];
      }
    }
  }

  function InsertUnique(n: int, sorted: seq<int>): (r: seq<int>)
    requires Ascending(sorted)
    ensures Ascending(r)
    ensures forall m :: m in r <==> m == n || m in sorted
  {
    if sorted == [] || n < sorted[0] then [n] + sorted
    else if n == sorted[0] then sorted
    else
      assert sorted == [sorted[0]] + sorted[1..];
      var rest := InsertUnique(n, sorted[1..]);
      AllAbove(sorted, n, rest);
      [sorted[0]] + rest
  }

  lemma {:induction false} SortedSetOfAscending(ns: seq<int>)
    requires Ascending(ns)
    ensures SortedSet(ns) == ns
  {
    if ns != [] {
      SortedSetOfAscending(ns[1..]);
      assert ns == [ns[0]] + ns[1..];
    }
  }

  // ---- dicts --------------------------------------------------------------

  /** dict.get: None both for a missing key and for a null value. */
  function Get(ms: seq<Member>, key: string): Json {
    if ms == [] then Null else if ms[0].key == key then ms[0].value else Get(ms[1..], key)
  }

  predicate Has(ms: seq<Member>, key: string) {
    exists i :: 0 <= i < |ms| && ms[i].key == key
  }

  function UnwrapEnvelope(payload: Json): Json {
    if payload.Obj? && Get(payload.members, "steps").Arr? then Get(payload.members, "steps")
    else if payload.Obj? && Get(payload.members, "plan").Arr? then Get(payload.members, "plan")
    else payload
  }

  /** The dict a repaired step is held in between two passes. */
  function StepJson(s: PlanStep): Json {
    Obj([
      Member("index", Int(s.index)),
      Member("agent_id", Str(s.agentId)),
      Member("description", Str(s.description)),
      Member("instruction", Str(s.instruction)),
      Member("inputs_from", Arr(IntItems(s.inputsFrom)))
    ])
  }

  function IntItems(ns: seq<int>): seq<Json> {
    seq(|ns|, i requires 0 <= i < |ns| => Int(ns[i]))
  }

  function StepItems(steps: seq<PlanStep>): seq<Json> {
    seq(|steps|, i requires 0 <= i < |steps| => StepJson(steps[i]))
  }

  // ---- schema validation ----------------------------------------------------

  const DRAFT_FIELDS: set<string> := {"index", "agent_id", "description", "instruction", "inputs_from"}

  /** One planner-emitted step: shape and types only, unknown fields forbidden. */
  function Draft(entry: Json, py: Builtins): Option<PlanStep> {
    if !entry.Obj? || exists i :: 0 <= i < |entry.members| && entry.members[i].key !in DRAFT_FIELDS then None
    else
      var ms := entry.members;
      var index := py.schemaInt(Get(ms, "index"));
      var agent, description := Get(ms, "agent_id"), Get(ms, "description");
      var instruction := if Has(ms, "instruction") then Get(ms, "instruction") else Str("");
      var inputs := if Has(ms, "inputs_from") then Get(ms, "inputs_from") else Arr([]);
      if !Has(ms, "index") || index.None? || index.value < 1 then None
      else if !agent.Str? || agent.s !in AGENT_IDS then None
      else if !description.Str? || description.s == "" || !instruction.Str? || !inputs.Arr? then None
      else
        match SchemaInts(inputs.items, py)
        case None => None
        case Some(refs) => Some(PlanStep(index.value, agent.s, description.s, instruction.s, refs))
  }

  function SchemaInts(xs: seq<Json>, py: Builtins): Option<seq<int>> {
    if xs == [] then Some([])
    else
      match (py.schemaInt(xs[0]), SchemaInts(xs[1..], py))
      case (Some(n), Some(rest)) => Some([n] + rest)
      case _ => None
  }

  function Drafts(entries: seq<Json>, py: Builtins): Option<seq<PlanStep>> {
    if entries == [] then Some([])
    else
      match (Draft(entries[0], py), Drafts(entries[1..], py))
      case (Some(d), Some(rest)) => Some([d] + rest)
      case _ => None
  }

  function ToRuntime(drafts: seq<PlanStep>): seq<PlanStep> {
    var ordered := SortByIndex(drafts);
    seq(|ordered|, i requires 0 <= i < |ordered| =>
      ordered[i].(inputsFrom := SortedSet(ordered[i].inputsFrom)))
  }

  function Validate(payload: Json, py: Builtins): (r: (seq<PlanStep>, seq<Violation>))
    ensures r.1 == [] <==> ValidPlan(r.0)
  {
    var list := UnwrapEnvelope(payload);
    if !list.Arr? then ([], [PayloadShape])
    else if list.items == [] then ([], [SchemaValidation])
    else
      match Drafts(list.items, py)
      case None => ([], [SchemaValidation])
      case Some(drafts) =>
        NoViolationIffValid(ToRuntime(drafts));
        (ToRuntime(drafts), CheckInvariants(ToRuntime(drafts)))
  }

  // ---- pass 1: extraction -----------------------------------------------------

  /** What a repair pass did: it may also raise, which only some callers survive. */
  datatype PassResult = Raised | Nothing | Repaired(payload: Json)

  function ExtractPass(cleaned: string, payload: Json, py: Builtins): PassResult {
    if payload != Null then Nothing
    else
      match Block(cleaned)
      case None => Nothing
      case Some(block) =>
        match py.loads(block)
        case Unreadable => Raised
        case NotJson => Nothing
        case Read(v) => if v == Null then Nothing else Repaired(v)
  }

  // ---- pass 2: coercion ---------------------------------------------------------

  predicate Truthy(v: Json) {
    match v
    case Null => false
    case Bool(b) => b
    case Int(n) => n != 0
    case Str(s) => s != ""
    case Arr(xs) => xs != []
    case Obj(ms) => ms != []
  }

  /** int(v): None where Python raises TypeError or ValueError. */
  function PyInt(v: Json, py: Builtins): Option<int> {
    match v
    case Int(n) => Some(n)
    case Bool(b) => Some(if b then 1 else 0)
    case Str(s) => py.intOf(s)
    case _ => None
  }

  predicate IsSpace(c: char) {
    c in {' ', '\t', '\n', '\r'} || c as int in {
      0x0b, 0x0c, 0x1c, 0x1d, 0x1e, 0x1f, 0x85, 0xa0, 0x1680, 0x2028, 0x2029, 0x202f, 0x205f, 0x3000
    } || 0x2000 <= c as int <= 0x200a
  }

  function LeftStrip(s: string): string {
    if s != [] && IsSpace(s[0]) then LeftStrip(s[1..]) else s
  }

  function RightStrip(s: string): string {
    if s != [] && IsSpace(s[|s| - 1]) then RightStrip(s[..|s| - 1]) else s
  }

  function Strip(s: string): string {
    RightStrip(LeftStrip(s))
  }

  /** str(v or "").strip() */
  function FieldText(v: Json, py: Builtins): string {
    Strip(if !Truthy(v) then "" else if v.Str? then v.s else py.strOf(v))
  }

  datatype Salvage = Unsalvageable | Raises | Salvaged(step: PlanStep)

  /** The references one entry names, in order; None where the comprehension raises. */
  function NamedRefs(inputs: Json, py: Builtins): Option<seq<int>> {
    if !Truthy(inputs) then Some([])
    else
      match inputs
      case Arr(xs) => RefItems(xs, py)
      case Str(s) => RefItems(seq(|s|, i requires 0 <= i < |s| => Str([s[i]])), py)
      case Obj(ms) => RefItems(seq(|ms|, i requires 0 <= i < |ms| => Str(ms[i].key)), py)
      case _ => None
  }

  function RefItems(xs: seq<Json>, py: Builtins): Option<seq<int>> {
    if xs == [] then Some([])
    else if xs[0].Int? then Prepend(xs[0].n, RefItems(xs[1..], py))
    else if xs[0].Str? && py.isDigit(xs[0].s) then
      match py.intOf(xs[0].s)
      case None => None
      case Some(n) => Prepend(n, RefItems(xs[1..], py))
    else RefItems(xs[1..], py)
  }

  function Prepend(n: int, r: Option<seq<int>>): Option<seq<int>> {
    match r
    case None => None
    case Some(ns) => Some([n] + ns)
  }

  function Below(refs: seq<int>, bound: int): (r: seq<int>)
    ensures forall n :: n in r <==> n in refs && n < bound
  {
    if refs == [] then []
    else
      assert refs == [refs[0]] + refs[1..];
      if refs[0] < bound then [refs[0]] + Below(refs[1..], bound) else Below(refs[1..], bound)
  }

  function Indices(steps: seq<PlanStep>): set<int> {
    set i | 0 <= i < |steps| :: steps[i].index
  }

  function SalvageEntry(entry: Json, kept: seq<PlanStep>, py: Builtins): Salvage {
    if !entry.Obj? then Unsalvageable
    else
      var ms := entry.members;
      var agent := Get(ms, "agent_id");
      if agent.Arr? || agent.Obj? then Raises
      else if !agent.Str? || agent.s !in AGENT_IDS then Unsalvageable
      else
        var rawIndex := Get(ms, "index");
        match PyInt(if Truthy(rawIndex) then rawIndex else Int(|kept| + 1), py)
        case None => Unsalvageable
        case Some(index) =>
          if index in Indices(kept) then Unsalvageable
          else
            match NamedRefs(Get(ms, "inputs_from"), py)
            case None => Raises
            case Some(refs) =>
              var description := FieldText(Get(ms, "description"), py);
              Salvaged(PlanStep(
                index, agent.s,
                if description != "" then description else agent.s + " step",
                FieldText(Get(ms, "instruction"), py),
                Below(refs, index)))
  }

  /** The salvageable entries in payload order; None if salvaging one of them raised. */
  function SalvageAll(entries: seq<Json>, kept: seq<PlanStep>, py: Builtins): Option<seq<PlanStep>> {
    if entries == [] then Some(kept)
    else
      match SalvageEntry(entries[0], kept, py)
      case Raises => None
      case Unsalvageable => SalvageAll(entries[1..], kept, py)
      case Salvaged(s) => SalvageAll(entries[1..], kept + [s], py)
  }

  /** The new number of old index `ref`: its position among the sorted survivors. */
  function NewIndex(sorted: seq<PlanStep>, ref: int): Option<int> {
    if sorted == [] then None
    else if sorted[|sorted| - 1].index == ref then Some(|sorted|)
    else NewIndex(sorted[..|sorted| - 1], ref)
  }

  function Remap(sorted: seq<PlanStep>, refs: seq<int>, bound: int): seq<int> {
    if refs == [] then []
    else
      match NewIndex(sorted, refs[0])
      case Some(n) =>
        if n < bound then [n] + Remap(sorted, refs[1..], bound) else Remap(sorted, refs[1..], bound)
      case None => Remap(sorted, refs[1..], bound)
  }

  function RenumberAt(sorted: seq<PlanStep>, i: nat): PlanStep
    requires i < |sorted|
  {
    sorted[i].(index := i + 1, inputsFrom := SortedSet(Remap(sorted, sorted[i].inputsFrom, i + 1)))
  }

  function Renumber(sorted: seq<PlanStep>): seq<PlanStep> {
    seq(|sorted|, i requires 0 <= i < |sorted| => RenumberAt(sorted, i))
  }

  datatype Coerced = CoerceRaised | CoerceNothing | Kept(steps: seq<PlanStep>)

  function FirstEntries(xs: seq<Json>): seq<Json> {
    if |xs| > MAX_STEPS then xs[..MAX_STEPS] else xs
  }

  /** The entries coercion keeps, before they are sorted and renumbered. */
  function Survivors(payload: Json, py: Builtins): Option<seq<PlanStep>>
    requires UnwrapEnvelope(payload).Arr?
  {
    SalvageAll(FirstEntries(UnwrapEnvelope(payload).items), [], py)
  }

  function CoerceSteps(payload: Json, py: Builtins): Coerced {
    if !UnwrapEnvelope(payload).Arr? then CoerceNothing
    else
      match Survivors(payload, py)
      case None => CoerceRaised
      case Some(kept) => if kept == [] then CoerceNothing else Kept(Renumber(SortByIndex(kept)))
  }

  method RepairCoerceSteps(payload: Json, py: Builtins) returns (r: Coerced)
    ensures r == CoerceSteps(payload, py)
  {
    var list := UnwrapEnvelope(payload);
    if !list.Arr? {
      return CoerceNothing;
    }
    var entries := FirstEntries(list.items);
    var coerced: seq<PlanStep> := [];
    var i := 0;
    while i < |entries|
      invariant i <= |entries|
      invariant Survivors(payload, py) == SalvageAll(entries[i..], coerced, py)
    {
      assert entries[i..][1..] == entries[i + 1..];
      match SalvageEntry(entries[i], coerced, py) {
        case Raises => return CoerceRaised;
        case Unsalvageable =>
        case Salvaged(s) => coerced := coerced + [s];
      }
      i := i + 1;
    }
    if coerced == [] {
      return CoerceNothing;
    }
    var numbered := NumberSteps(SortByIndex(coerced));
    return Kept(numbered);
  }

  method NumberSteps(sorted: seq<PlanStep>) returns (numbered: seq<PlanStep>)
    ensures numbered == Renumber(sorted)
  {
    numbered := [];
    for k := 0 to |sorted|
      invariant numbered == Renumber(sorted)[..k]
    {
      numbered := numbered + [RenumberAt(sorted, k)];
    }
  }

  function CoercePass(payload: Json, py: Builtins): PassResult {
    match CoerceSteps(payload, py)
    case CoerceRaised => Raised
    case CoerceNothing => Nothing
    case Kept(steps) => Repaired(Arr(StepItems(steps)))
  }

  // ---- pass 3: structure ----------------------------------------------------------

  predicate EndsFinal(entries: seq<Json>) {
    entries != [] && entries[|entries| - 1].Obj? &&
    var agent := Get(entries[|entries| - 1].members, "agent_id");
    agent.Str? && agent.s in FINAL_AGENTS
  }

  /** The longest prefix that ends on a writer or an editor. */
  function TrimToFinal(entries: seq<Json>): seq<Json> {
    if entries == [] || EndsFinal(entries) then entries else TrimToFinal(entries[..|entries| - 1])
  }

  function IndexRefs(entries: seq<Json>): seq<Json> {
    if entries == [] then []
    else
      var index := if entries[0].Obj? then Get(entries[0].members, "index") else Null;
      (if index.Int? then [index] else if index.Bool? then [Int(if index.b then 1 else 0)] else [])
      + IndexRefs(entries[1..])
  }

  function ClosingWriter(index: int, inputs: seq<Json>): Json {
    Obj([
      Member("index", Int(index)),
      Member("agent_id", Str("writer")),
      Member("description", Str("Compose the final draft using prior outputs.")),
      Member("instruction", Str("Write the final draft based on the strategy and any reviewer notes above.")),
      Member("inputs_from", Arr(inputs))
    ])
  }

  predicate AllDicts(entries: seq<Json>) {
    forall i :: 0 <= i < |entries| ==> entries[i].Obj?
  }

  function StructurePass(payload: Json, py: Builtins): PassResult {
    var list := UnwrapEnvelope(payload);
    if !list.Arr? || list.items == [] then Nothing
    else
      var entries := list.items;
      if !AllDicts(entries) then Nothing
      else if EndsFinal(entries) then Nothing
      else if |entries| >= MAX_STEPS then
        if TrimToFinal(entries) == [] then Nothing else Repaired(Arr(TrimToFinal(entries)))
      else
        match LastIndex(entries, py)
        case None => Raised
        case Some(n) => Repaired(Arr(WithWriter(entries, n)))
  }

  /** int(entries[-1].get("index") or len(entries)) */
  function LastIndex(entries: seq<Json>, py: Builtins): Option<int>
    requires entries != [] && entries[|entries| - 1].Obj?
  {
    var last := Get(entries[|entries| - 1].members, "index");
    PyInt(if Truthy(last) then last else Int(|entries|), py)
  }

  function WithWriter(entries: seq<Json>, lastIndex: int): seq<Json> {
    entries + [ClosingWriter(lastIndex + 1, IndexRefs(entries))]
  }

  // ---- the staged parse -------------------------------------------------------------

  datatype Pass = ExtractJson | CoerceEntries | EnforceStructure

  const PASSES: seq<Pass> := [ExtractJson, CoerceEntries, EnforceStructure]

  function RunPass(pass: Pass, cleaned: string, payload: Json, py: Builtins): PassResult {
    match pass
    case ExtractJson => ExtractPass(cleaned, payload, py)
    case CoerceEntries => CoercePass(payload, py)
    case EnforceStructure => StructurePass(payload, py)
  }

  datatype Mode = StrictMode | RepairedMode | FallbackMode

  datatype Outcome = Outcome(
    steps: seq<PlanStep>, mode: Mode, repairAttempts: nat,
    violations: seq<Violation>, applied: seq<Pass>, hasResearch: bool)

  /** The passes from number `p` on, a raising pass counting as one that did nothing. */
  function RunPasses(
      p: nat, applied: seq<Pass>, payload: Json, violations: seq<Violation>,
      cleaned: string, cap: nat, py: Builtins): Outcome
    requires p <= |PASSES|
    decreases |PASSES| - p
  {
    if p == |PASSES| || |applied| >= cap then
      Outcome([], FallbackMode, |applied|, violations, applied, false)
    else
      match RunPass(PASSES[p], cleaned, payload, py)
      case Repaired(next) =>
        var (steps, found) := Validate(next, py);
        var done := applied + [PASSES[p]];
        if steps != [] && found == [] then
          Outcome(steps, RepairedMode, |done|, [], done, HasResearchStep(steps))
        else RunPasses(p + 1, done, next, found, cleaned, cap, py)
      case _ => RunPasses(p + 1, applied, payload, violations, cleaned, cap, py)
  }

  /** The payload the text itself parses to: null when it does not parse. */
  function Loaded(cleaned: string, py: Builtins): Json {
    match py.loads(cleaned)
    case Read(v) => v
    case _ => Null
  }

  /** The first json.loads is guarded against text that is no JSON, and against nothing else. */
  datatype Parsed = ParseRaised | Resolved(outcome: Outcome)

  function Parse(cleaned: string, maxRepairs: int, py: Builtins): Parsed {
    if py.loads(cleaned).Unreadable? then ParseRaised else Resolved(ParseLoaded(cleaned, maxRepairs, py))
  }

  function ParseLoaded(cleaned: string, maxRepairs: int, py: Builtins): Outcome {
    var cap := if maxRepairs < 0 then 0 else maxRepairs;
    var payload := Loaded(cleaned, py);
    var (steps, found) := if payload == Null then ([], [PayloadShape]) else Validate(payload, py);
    if steps != [] && found == [] then Outcome(steps, StrictMode, 0, [], [], HasResearchStep(steps))
    else RunPasses(0, [], payload, found, cleaned, cap, py)
  }

  /** The pass loop, within the budget. */
  method Repair(cleaned: string, loaded: Json, found: seq<Violation>, cap: nat, py: Builtins) returns (o: Outcome)
    ensures o == RunPasses(0, [], loaded, found, cleaned, cap, py)
  {
    var payload, violations := loaded, found;
    var attempts := 0;
    var applied: seq<Pass> := [];
    var p := 0;
    while p < |PASSES|
      invariant p <= |PASSES| && attempts == |applied|
      invariant RunPasses(0, [], loaded, found, cleaned, cap, py)
             == RunPasses(p, applied, payload, violations, cleaned, cap, py)
    {
      if attempts >= cap {
        break;
      }
      var repaired := RunPass(PASSES[p], cleaned, payload, py);
      if repaired.Repaired? {
        attempts := attempts + 1;
        applied := applied + [PASSES[p]];
        payload := repaired.payload;
        var (steps, now) := Validate(payload, py);
        violations := now;
        if steps != [] && violations == [] {
          return Outcome(steps, RepairedMode, attempts, [], applied, HasResearchStep(steps));
        }
      }
      p := p + 1;
    }
    return Outcome([], FallbackMode, attempts, violations, applied, false);
  }

  method ParsePlannerOutput(cleaned: string, maxRepairs: int, py: Builtins) returns (r: Parsed)
    ensures r == Parse(cleaned, maxRepairs, py)
  {
    var cap := if maxRepairs < 0 then 0 else maxRepairs;
    var payload := Null;
    match py.loads(cleaned) {
      case Read(v) => payload := v;
      case NotJson =>
      case Unreadable => return ParseRaised;
    }
    var violations := [PayloadShape];
    if payload != Null {
      var (steps, found) := Validate(payload, py);
      violations := found;
      if steps != [] && violations == [] {
        return Resolved(Outcome(steps, StrictMode, 0, [], [], HasResearchStep(steps)));
      }
    }
    var o := Repair(cleaned, payload, violations, cap, py);
    return Resolved(o);
  }

  /** coerce_plan_payload: passes 2 and 3 without a budget; None where coercion raises. */
  function CoercePlanPayload(payload: Json, py: Builtins): Option<seq<PlanStep>> {
    match CoerceSteps(payload, py)
    case CoerceRaised => None
    case CoerceNothing => Some([])
    case Kept(steps) => Some(Structured(steps))
  }

  /** What pass 3 makes of a coerced plan. */
  function Structured(steps: seq<PlanStep>): seq<PlanStep>
    requires steps != []
  {
    if steps[|steps| - 1].agentId in FINAL_AGENTS then steps
    else if |steps| >= MAX_STEPS then
      var trimmed := TrimSteps(steps);
      if trimmed == [] then steps else trimmed
    else
      steps + [PlanStep(
        steps[|steps| - 1].index + 1, "writer", "Compose the final draft using prior outputs.",
        "Write the final draft based on the strategy and any reviewer notes above.",
        seq(|steps|, i requires 0 <= i < |steps| => steps[i].index))]
  }

  function TrimSteps(steps: seq<PlanStep>): seq<PlanStep> {
    if steps == [] || steps[|steps| - 1].agentId in FINAL_AGENTS then steps else TrimSteps(steps[..|steps| - 1])
  }
}
