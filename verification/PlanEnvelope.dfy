/** Which list a planner's answer carries, and what strict validation reads off the JSON in it. */
module PlanEnvelope {
  import opened JsonValues
  import opened PlanSchema
  import opened PlanRepair
  import opened PlanParse
  import opened Wrappers

  // ---- members of a dict ------------------------------------------------------

  ghost predicate Holds(ms: seq<Member>, key: string, v: Json) {
    exists i :: 0 <= i < |ms| && HoldsAt(ms, i, key, v)
  }

  ghost predicate HoldsAt(ms: seq<Member>, i: nat, key: string, v: Json)
    requires i < |ms|
  {
    ms[i] == Member(key, v) && forall j :: 0 <= j < i ==> ms[j].key != key
  }

  ghost predicate Lacks(ms: seq<Member>, key: string) {
    forall i :: 0 <= i < |ms| ==> ms[i].key != key
  }

  /** What the dict answers for the key: a missing one reads as null. */
  ghost predicate FieldIs(ms: seq<Member>, key: string, v: Json) {
    Holds(ms, key, v) || (v == Null && Lacks(ms, key))
  }

  lemma {:induction false} GetReads(ms: seq<Member>, key: string)
    ensures Has(ms, key) ==> Holds(ms, key, Get(ms, key))
    ensures Has(ms, key) <==> !Lacks(ms, key)
    ensures Lacks(ms, key) ==> Get(ms, key) == Null
  {
    if ms != [] {
      if ms[0].key == key {
        assert HoldsAt(ms, 0, key, ms[0].value);
      } else {
        GetReads(ms[1..], key);
        if Has(ms, key) {
          var h :| 0 <= h < |ms| && ms[h].key == key;
          assert ms[1..][h - 1].key == key;
          var i :| 0 <= i < |ms| - 1 && HoldsAt(ms[1..], i, key, Get(ms, key));
          assert forall j :: 0 < j < i + 1 ==> ms[j] == ms[1..][j - 1];
          assert HoldsAt(ms, i + 1, key, Get(ms, key));
        }
      }
    }
  }

  lemma HeldOnce(ms: seq<Member>, key: string, v: Json, w: Json)
    requires Holds(ms, key, v) && Holds(ms, key, w)
    ensures v == w
  {
    var i :| 0 <= i < |ms| && HoldsAt(ms, i, key, v);
    var j :| 0 <= j < |ms| && HoldsAt(ms, j, key, w);
    assert i == j;
  }

  lemma FieldIsGet(ms: seq<Member>, key: string)
    ensures forall v :: FieldIs(ms, key, v) <==> v == Get(ms, key)
    ensures forall v :: Holds(ms, key, v) <==> Has(ms, key) && v == Get(ms, key)
  {
    GetReads(ms, key);
    forall v | Holds(ms, key, v) ensures Has(ms, key) && v == Get(ms, key) {
      var i :| 0 <= i < |ms| && HoldsAt(ms, i, key, v);
      assert ms[i].key == key;
      HeldOnce(ms, key, v, Get(ms, key));
    }
  }

  // ---- the envelope -------------------------------------------------------------

  ghost predicate HoldsNoList(ms: seq<Member>, key: string) {
    forall v :: Holds(ms, key, v) ==> !v.Arr?
  }

  /** The list a payload carries: itself, the one under "steps", or else the one under "plan". */
  ghost predicate Carries(payload: Json, xs: seq<Json>) {
    match payload
    case Arr(items) => items == xs
    case Obj(ms) => Holds(ms, "steps", Arr(xs)) || (HoldsNoList(ms, "steps") && Holds(ms, "plan", Arr(xs)))
    case _ => false
  }

  ghost predicate CarriesNothing(payload: Json) {
    forall xs :: !Carries(payload, xs)
  }

  lemma UnwrapFinds(payload: Json)
    ensures forall xs :: Carries(payload, xs) <==> UnwrapEnvelope(payload) == Arr(xs)
  {
    if payload.Obj? {
      var ms := payload.members;
      FieldIsGet(ms, "steps");
      FieldIsGet(ms, "plan");
      GetReads(ms, "steps");
      GetReads(ms, "plan");
    }
  }

  lemma CoercionSeesTheList(payload: Json, xs: seq<Json>, py: Builtins)
    requires Carries(payload, xs)
    ensures CoerceSteps(payload, py) == CoerceSteps(Arr(xs), py)
  {
    UnwrapFinds(payload);
    assert UnwrapEnvelope(payload) == UnwrapEnvelope(Arr(xs)) == Arr(xs);
  }

  lemma ClosingSeesTheList(payload: Json, xs: seq<Json>, py: Builtins)
    requires Carries(payload, xs)
    ensures StructurePass(payload, py) == StructurePass(Arr(xs), py)
  {
    UnwrapFinds(payload);
    assert UnwrapEnvelope(payload) == UnwrapEnvelope(Arr(xs)) == Arr(xs);
  }

  lemma ValidationSeesTheList(payload: Json, xs: seq<Json>, py: Builtins)
    requires Carries(payload, xs)
    ensures Validate(payload, py) == Validate(Arr(xs), py)
  {
    UnwrapFinds(payload);
    assert UnwrapEnvelope(payload) == UnwrapEnvelope(Arr(xs)) == Arr(xs);
  }

  /** Whatever else the dict holds, an envelope is read as the bare list in it. */
  lemma EnvelopeIsInvisible(payload: Json, xs: seq<Json>, py: Builtins)
    requires Carries(payload, xs)
    ensures Validate(payload, py) == Validate(Arr(xs), py)
    ensures CoerceSteps(payload, py) == CoerceSteps(Arr(xs), py)
    ensures StructurePass(payload, py) == StructurePass(Arr(xs), py)
    ensures CoercePlanPayload(payload, py) == CoercePlanPayload(Arr(xs), py)
  {
    ValidationSeesTheList(payload, xs, py);
    CoercionSeesTheList(payload, xs, py);
    ClosingSeesTheList(payload, xs, py);
  }

  lemma {:induction false} PassesSeeTheList(
      p: nat, applied: seq<Pass>, payload: Json, xs: seq<Json>, violations: seq<Violation>,
      cleaned: string, bare: string, cap: nat, py: Builtins)
    requires p <= |PASSES| && Carries(payload, xs)
    ensures RunPasses(p, applied, payload, violations, cleaned, cap, py)
         == RunPasses(p, applied, Arr(xs), violations, bare, cap, py)
    decreases |PASSES| - p
  {
    if p < |PASSES| && |applied| < cap {
      var result := RunPass(PASSES[p], bare, Arr(xs), py);
      PassSeesTheList(p, payload, xs, cleaned, bare, py);
      OnePass(p, applied, payload, violations, cleaned, cap, py);
      OnePass(p, applied, Arr(xs), violations, bare, cap, py);
      match result {
        case Repaired(next) =>
          PassesIgnoreText(p + 1, applied + [PASSES[p]], next, Validate(next, py).1, cleaned, bare, cap, py);
        case _ => PassesSeeTheList(p + 1, applied, payload, xs, violations, cleaned, bare, cap, py);
      }
    }
  }

  lemma PassSeesTheList(p: nat, payload: Json, xs: seq<Json>, cleaned: string, bare: string, py: Builtins)
    requires p < |PASSES| && Carries(payload, xs)
    ensures RunPass(PASSES[p], cleaned, payload, py) == RunPass(PASSES[p], bare, Arr(xs), py)
    ensures RunPass(PASSES[p], bare, Arr(xs), py) != Repaired(Null)
  {
    match PASSES[p] {
      case ExtractJson => assert payload != Null;
      case CoerceEntries => CoercionSeesTheList(payload, xs, py);
      case EnforceStructure => ClosingSeesTheList(payload, xs, py);
    }
  }

  /** What follows one pass. */
  ghost predicate GoesOn(
      o: Outcome, p: nat, applied: seq<Pass>, payload: Json, violations: seq<Violation>, result: PassResult,
      cleaned: string, cap: nat, py: Builtins)
    requires p < |PASSES|
  {
    match result
    case Repaired(next) =>
      var ((steps, found), done) := (Validate(next, py), applied + [PASSES[p]]);
      o == if steps != [] && found == [] then
             Outcome(steps, RepairedMode, |done|, [], done, HasResearchStep(steps))
           else RunPasses(p + 1, done, next, found, cleaned, cap, py)
    case _ => o == RunPasses(p + 1, applied, payload, violations, cleaned, cap, py)
  }

  lemma OnePass(
      p: nat, applied: seq<Pass>, payload: Json, violations: seq<Violation>, cleaned: string, cap: nat, py: Builtins)
    requires p < |PASSES| && |applied| < cap
    ensures GoesOn(RunPasses(p, applied, payload, violations, cleaned, cap, py),
                   p, applied, payload, violations, RunPass(PASSES[p], cleaned, payload, py), cleaned, cap, py)
  {
  }

  /** Only the first pass reads the text, and only while nothing has been read. */
  lemma {:induction false} PassesIgnoreText(
      p: nat, applied: seq<Pass>, payload: Json, violations: seq<Violation>,
      cleaned: string, bare: string, cap: nat, py: Builtins)
    requires p <= |PASSES| && payload != Null
    ensures RunPasses(p, applied, payload, violations, cleaned, cap, py)
         == RunPasses(p, applied, payload, violations, bare, cap, py)
    decreases |PASSES| - p
  {
    if p < |PASSES| && |applied| < cap {
      PassIgnoresText(p, payload, cleaned, bare, py);
      OnePass(p, applied, payload, violations, cleaned, cap, py);
      OnePass(p, applied, payload, violations, bare, cap, py);
      match RunPass(PASSES[p], bare, payload, py) {
        case Repaired(next) =>
          PassesIgnoreText(p + 1, applied + [PASSES[p]], next, Validate(next, py).1, cleaned, bare, cap, py);
        case _ => PassesIgnoreText(p + 1, applied, payload, violations, cleaned, bare, cap, py);
      }
    }
  }

  lemma PassIgnoresText(p: nat, payload: Json, cleaned: string, bare: string, py: Builtins)
    requires p < |PASSES| && payload != Null
    ensures RunPass(PASSES[p], cleaned, payload, py) == RunPass(PASSES[p], bare, payload, py)
    ensures RunPass(PASSES[p], bare, payload, py) != Repaired(Null)
  {
  }

  /** A text that reads as an envelope is answered as one that reads as the bare list. */
  lemma EnvelopeParses(cleaned: string, bare: string, payload: Json, xs: seq<Json>, maxRepairs: int, py: Builtins)
    requires py.loads(cleaned) == Read(payload) && py.loads(bare) == Read(Arr(xs)) && Carries(payload, xs)
    ensures Parse(cleaned, maxRepairs, py) == Parse(bare, maxRepairs, py)
  {
    var cap := if maxRepairs < 0 then 0 else maxRepairs;
    ValidationSeesTheList(payload, xs, py);
    PassesSeeTheList(0, [], payload, xs, Validate(payload, py).1, cleaned, bare, cap, py);
  }

  lemma ListIsCarried(payload: Json)
    ensures CarriesNothing(payload) <==> !UnwrapEnvelope(payload).Arr?
  {
    UnwrapFinds(payload);
    match UnwrapEnvelope(payload) {
      case Arr(xs) => assert Carries(payload, xs);
      case _ =>
    }
  }

  /** A value that carries no list is answered with nothing but the violation of its shape. */
  lemma NoListNoPlan(payload: Json, py: Builtins)
    requires CarriesNothing(payload)
    ensures Validate(payload, py) == ([], [PayloadShape])
    ensures CoerceSteps(payload, py) == CoerceNothing && CoercePlanPayload(payload, py) == Some([])
    ensures StructurePass(payload, py) == Nothing
  {
    ListIsCarried(payload);
  }

  lemma NoListParses(cleaned: string, payload: Json, maxRepairs: int, py: Builtins)
    requires py.loads(cleaned) == Read(payload) && payload != Null && CarriesNothing(payload)
    ensures Parse(cleaned, maxRepairs, py) == Resolved(Outcome([], FallbackMode, 0, [PayloadShape], [], false))
  {
    var cap := if maxRepairs < 0 then 0 else maxRepairs;
    NoListNoPlan(payload, py);
    var found := [PayloadShape];
    if cap > 0 {
      PassDoesNothing(0, payload, found, cleaned, cap, py);
      PassDoesNothing(1, payload, found, cleaned, cap, py);
      PassDoesNothing(2, payload, found, cleaned, cap, py);
    }
  }

  lemma PassDoesNothing(p: nat, payload: Json, found: seq<Violation>, cleaned: string, cap: nat, py: Builtins)
    requires p < |PASSES| && cap > 0 && !RunPass(PASSES[p], cleaned, payload, py).Repaired?
    ensures RunPasses(p, [], payload, found, cleaned, cap, py) == RunPasses(p + 1, [], payload, found, cleaned, cap, py)
  {
  }

  /** A valid plan that is serialised into an envelope of any form is accepted as it is. */
  lemma EnvelopeRoundTrip(steps: seq<PlanStep>, payload: Json, cleaned: string, maxRepairs: int, py: Builtins)
    requires ReadsIntegers(py) && ValidPlan(steps) && Clean(steps)
    requires py.loads(cleaned) == Read(payload) && Carries(payload, StepItems(steps))
    ensures Parse(cleaned, maxRepairs, py) == Resolved(Outcome(steps, StrictMode, 0, [], [], HasResearchStep(steps)))
  {
    ValidationSeesTheList(payload, StepItems(steps), py);
    ValidateReadsBack(steps, py);
    NoViolationIffValid(steps);
    AcceptedAsItIs(steps, payload, cleaned, maxRepairs, py);
  }

  lemma AcceptedAsItIs(steps: seq<PlanStep>, payload: Json, cleaned: string, maxRepairs: int, py: Builtins)
    requires py.loads(cleaned) == Read(payload) && payload != Null
    requires Validate(payload, py) == (steps, []) && steps != []
    ensures Parse(cleaned, maxRepairs, py) == Resolved(Outcome(steps, StrictMode, 0, [], [], HasResearchStep(steps)))
  {
  }

  /** The two envelopes by name, with any other members behind or, for "plan", before. */
  lemma EnvelopesCarry(xs: seq<Json>, other: Json, more: seq<Member>)
    ensures Carries(Obj([Member("steps", Arr(xs))] + more), xs)
    ensures !other.Arr? ==> Carries(Obj([Member("steps", other), Member("plan", Arr(xs))] + more), xs)
    ensures Lacks(more, "steps") ==> Carries(Obj([Member("plan", Arr(xs))] + more), xs)
  {
    var one, two, three := [Member("steps", Arr(xs))] + more,
      [Member("steps", other), Member("plan", Arr(xs))] + more, [Member("plan", Arr(xs))] + more;
    assert HoldsAt(one, 0, "steps", Arr(xs));
    assert HoldsAt(two, 0, "steps", other) && HoldsAt(two, 1, "plan", Arr(xs));
    assert HoldsAt(three, 0, "plan", Arr(xs));
    if !other.Arr? {
      forall v | Holds(two, "steps", v) ensures !v.Arr? {
        HeldOnce(two, "steps", v, other);
      }
    }
    if Lacks(more, "steps") {
      assert forall i :: 0 < i < |three| ==> three[i] == more[i - 1];
      assert Lacks(three, "steps");
    }
  }

  // ---- what the schema accepts -----------------------------------------------------

  /** An entry the schema takes, and the step it stands for: these fields, these types, no others. */
  ghost predicate Drafted(entry: Json, s: PlanStep, py: Builtins) {
    && entry.Obj?
    && OnlyStepFields(entry.members)
    && (exists v :: Holds(entry.members, "index", v) && py.schemaInt(v) == Some(s.index)) && s.index >= 1
    && Holds(entry.members, "agent_id", Str(s.agentId))
    && s.agentId in {"strategy", "writer", "editor", "reviewer", "researcher", "fact_checker"}
    && Holds(entry.members, "description", Str(s.description)) && s.description != ""
    && InstructionIs(entry.members, s.instruction)
    && InputsAre(entry.members, s.inputsFrom, py)
  }

  ghost predicate OnlyStepFields(ms: seq<Member>) {
    forall i :: 0 <= i < |ms| ==> ms[i].key in {"index", "agent_id", "description", "instruction", "inputs_from"}
  }

  ghost predicate InstructionIs(ms: seq<Member>, text: string) {
    Holds(ms, "instruction", Str(text)) || (Lacks(ms, "instruction") && text == "")
  }

  ghost predicate InputsAre(ms: seq<Member>, ns: seq<int>, py: Builtins) {
    || (exists xs :: Holds(ms, "inputs_from", Arr(xs)) && ReadAs(xs, ns, py))
    || (Lacks(ms, "inputs_from") && ns == [])
  }

  /** Every item reads as an integer of the schema, in order. */
  ghost predicate ReadAs(xs: seq<Json>, ns: seq<int>, py: Builtins) {
    |xs| == |ns| && forall k :: 0 <= k < |xs| ==> py.schemaInt(xs[k]) == Some(ns[k])
  }

  lemma {:induction false} SchemaIntsRead(xs: seq<Json>, py: Builtins)
    ensures forall ns :: SchemaInts(xs, py) == Some(ns) <==> ReadAs(xs, ns, py)
  {
    if xs != [] {
      SchemaIntsRead(xs[1..], py);
      forall ns ensures SchemaInts(xs, py) == Some(ns) <==> ReadAs(xs, ns, py) {
        if SchemaInts(xs, py) == Some(ns) {
          assert ReadAs(xs[1..], ns[1..], py);
          assert forall k :: 1 <= k < |xs| ==> xs[k] == xs[1..][k - 1] && ns[k] == ns[1..][k - 1];
        }
        if ReadAs(xs, ns, py) {
          assert ReadAs(xs[1..], ns[1..], py);
          assert ns == [ns[0]] + ns[1..];
        }
      }
    }
  }

  function DraftInputs(ms: seq<Member>, py: Builtins): Option<seq<int>> {
    var inputs := if Has(ms, "inputs_from") then Get(ms, "inputs_from") else Arr([]);
    if inputs.Arr? then SchemaInts(inputs.items, py) else None
  }

  lemma InputsRead(ms: seq<Member>, ns: seq<int>, py: Builtins)
    ensures DraftInputs(ms, py) == Some(ns) <==> InputsAre(ms, ns, py)
  {
    var v := Get(ms, "inputs_from");
    FieldIsGet(ms, "inputs_from");
    GetReads(ms, "inputs_from");
    if v.Arr? {
      SchemaIntsRead(v.items, py);
    }
  }

  lemma InstructionReads(ms: seq<Member>, text: string)
    ensures InstructionIs(ms, text) <==>
              (if Has(ms, "instruction") then Get(ms, "instruction") else Str("")) == Str(text)
  {
    FieldIsGet(ms, "instruction");
    GetReads(ms, "instruction");
  }

  lemma IndexReads(ms: seq<Member>, n: int, py: Builtins)
    ensures (exists v :: Holds(ms, "index", v) && py.schemaInt(v) == Some(n)) <==>
              Has(ms, "index") && py.schemaInt(Get(ms, "index")) == Some(n)
  {
    FieldIsGet(ms, "index");
  }

  lemma TextReads(ms: seq<Member>, key: string, text: string)
    ensures Holds(ms, key, Str(text)) <==> Get(ms, key) == Str(text)
  {
    FieldIsGet(ms, key);
    GetReads(ms, key);
  }

  lemma DraftIff(entry: Json, s: PlanStep, py: Builtins)
    ensures Draft(entry, py) == Some(s) <==> Drafted(entry, s, py)
  {
    if entry.Obj? {
      var ms := entry.members;
      IndexReads(ms, s.index, py);
      TextReads(ms, "agent_id", s.agentId);
      TextReads(ms, "description", s.description);
      InstructionReads(ms, s.instruction);
      InputsRead(ms, s.inputsFrom, py);
      DraftByFields(entry, s, py);
    }
  }

  lemma DraftByFields(entry: Json, s: PlanStep, py: Builtins)
    requires entry.Obj?
    ensures Draft(entry, py) == Some(s) <==>
              && OnlyStepFields(entry.members)
              && Has(entry.members, "index")
              && py.schemaInt(Get(entry.members, "index")) == Some(s.index) && s.index >= 1
              && Get(entry.members, "agent_id") == Str(s.agentId) && s.agentId in AGENT_IDS
              && Get(entry.members, "description") == Str(s.description) && s.description != ""
              && (if Has(entry.members, "instruction") then Get(entry.members, "instruction") else Str(""))
                 == Str(s.instruction)
              && DraftInputs(entry.members, py) == Some(s.inputsFrom)
  {
    assert OnlyStepFields(entry.members) <==>
      !exists i :: 0 <= i < |entry.members| && entry.members[i].key !in DRAFT_FIELDS;
  }

  /** The steps in order of their index, those of one index as they came; `order` says where each came from. */
  ghost predicate StableOrder(drafts: seq<PlanStep>, order: seq<nat>, sorted: seq<PlanStep>) {
    && |order| == |drafts| == |sorted|
    && (forall k :: 0 <= k < |order| ==> order[k] < |drafts| && sorted[k] == drafts[order[k]])
    && (forall k, l :: 0 <= k < l < |order| ==> Earlier(drafts, order[k], order[l]))
  }

  ghost predicate Earlier(drafts: seq<PlanStep>, i: nat, j: nat) {
    && i < |drafts| && j < |drafts|
    && (drafts[i].index < drafts[j].index || (drafts[i].index == drafts[j].index && i < j))
  }

  lemma {:induction false} InsertsAt(s: PlanStep, sorted: seq<PlanStep>) returns (p: nat)
    requires SortedByIndex(sorted)
    ensures p <= |sorted| && InsertByIndex(s, sorted) == sorted[..p] + [s] + sorted[p..]
    ensures forall k :: 0 <= k < p ==> sorted[k].index < s.index
    ensures forall k :: p <= k < |sorted| ==> s.index <= sorted[k].index
  {
    if sorted == [] || s.index <= sorted[0].index {
      p := 0;
    } else {
      var q := InsertsAt(s, sorted[1..]);
      p := q + 1;
      assert sorted[1..][..q] == sorted[1..p] && sorted[1..][q..] == sorted[p..];
    }
  }

  lemma {:induction false} SortIsStable(drafts: seq<PlanStep>) returns (order: seq<nat>)
    ensures StableOrder(drafts, order, SortByIndex(drafts))
  {
    order := [];
    if drafts != [] {
      var rest := SortIsStable(drafts[1..]);
      var sorted := SortByIndex(drafts[1..]);
      SortSorts(drafts[1..]);
      var p := InsertsAt(drafts[0], sorted);
      var moved: seq<nat> := seq(|rest|, k requires 0 <= k < |rest| => rest[k] + 1);
      Shifted(drafts, rest, moved);
      order := moved[..p] + [0] + moved[p..];
      FirstComesIn(drafts, sorted, moved, p);
    }
  }

  lemma FirstComesIn(drafts: seq<PlanStep>, rest: seq<PlanStep>, moved: seq<nat>, p: nat)
    requires drafts != [] && |moved| == |rest| == |drafts| - 1 && p <= |rest|
    requires forall k :: 0 <= k < |moved| ==> 1 <= moved[k] < |drafts| && drafts[moved[k]] == rest[k]
    requires forall k, l :: 0 <= k < l < |moved| ==> Earlier(drafts, moved[k], moved[l])
    requires forall k :: 0 <= k < p ==> rest[k].index < drafts[0].index
    requires forall k :: p <= k < |rest| ==> drafts[0].index <= rest[k].index
    ensures StableOrder(drafts, moved[..p] + [0] + moved[p..], rest[..p] + [drafts[0]] + rest[p..])
  {
    var order := moved[..p] + [0] + moved[p..];
    var sorted := rest[..p] + [drafts[0]] + rest[p..];
    forall k | 0 <= k < |order| ensures order[k] < |drafts| && sorted[k] == drafts[order[k]] {
      assert k > p ==> order[k] == moved[k - 1] && sorted[k] == rest[k - 1];
    }
    forall k, l | 0 <= k < l < |order| ensures Earlier(drafts, order[k], order[l]) {
      FirstComesBetween(drafts, rest, moved, p, k, l);
    }
  }

  lemma FirstComesBetween(drafts: seq<PlanStep>, rest: seq<PlanStep>, moved: seq<nat>, p: nat, k: nat, l: nat)
    requires drafts != [] && |moved| == |rest| == |drafts| - 1 && p <= |rest| && k < l < |drafts|
    requires forall i :: 0 <= i < |moved| ==> 1 <= moved[i] < |drafts| && drafts[moved[i]] == rest[i]
    requires forall i, j :: 0 <= i < j < |moved| ==> Earlier(drafts, moved[i], moved[j])
    requires forall i :: 0 <= i < p ==> rest[i].index < drafts[0].index
    requires forall i :: p <= i < |rest| ==> drafts[0].index <= rest[i].index
    ensures var order := moved[..p] + [0] + moved[p..]; Earlier(drafts, order[k], order[l])
  {
    var order := moved[..p] + [0] + moved[p..];
    assert order[k] == (if k < p then moved[k] else if k == p then 0 else moved[k - 1]);
    assert order[l] == (if l < p then moved[l] else if l == p then 0 else moved[l - 1]);
  }

  lemma Shifted(drafts: seq<PlanStep>, rest: seq<nat>, moved: seq<nat>)
    requires drafts != [] && StableOrder(drafts[1..], rest, SortByIndex(drafts[1..]))
    requires |moved| == |rest| && forall k :: 0 <= k < |rest| ==> moved[k] == rest[k] + 1
    ensures forall k :: 0 <= k < |moved| ==>
              1 <= moved[k] < |drafts| && drafts[moved[k]] == SortByIndex(drafts[1..])[k]
    ensures forall k, l :: 0 <= k < l < |moved| ==> Earlier(drafts, moved[k], moved[l])
  {
    forall k, l | 0 <= k < l < |moved| ensures Earlier(drafts, moved[k], moved[l]) {
      assert Earlier(drafts[1..], rest[k], rest[l]);
    }
  }

  /** A draft as it is run: the same step, its edges in order and without repetition. */
  ghost predicate RunsAs(draft: PlanStep, s: PlanStep) {
    && s.index == draft.index && s.agentId == draft.agentId
    && s.description == draft.description && s.instruction == draft.instruction
    && Ascending(s.inputsFrom) && forall n :: n in s.inputsFrom <==> n in draft.inputsFrom
  }

  ghost predicate SchemaTakes(entry: Json, py: Builtins) {
    exists s :: Drafted(entry, s, py)
  }

  ghost predicate AllTaken(xs: seq<Json>, py: Builtins) {
    forall i :: 0 <= i < |xs| ==> SchemaTakes(xs[i], py)
  }

  ghost predicate AllDrafted(xs: seq<Json>, drafts: seq<PlanStep>, py: Builtins) {
    |drafts| == |xs| && forall i :: 0 <= i < |xs| ==> Drafted(xs[i], drafts[i], py)
  }

  /** The steps that a list of entries stands for. */
  ghost predicate StandsFor(xs: seq<Json>, drafts: seq<PlanStep>, order: seq<nat>, steps: seq<PlanStep>, py: Builtins) {
    && AllDrafted(xs, drafts, py) && |drafts| == |order| == |steps|
    && (forall k :: 0 <= k < |order| ==> order[k] < |drafts| && RunsAs(drafts[order[k]], steps[k]))
    && (forall k, l :: 0 <= k < l < |order| ==> Earlier(drafts, order[k], order[l]))
  }

  lemma {:induction false} DraftsIff(xs: seq<Json>, py: Builtins)
    ensures Drafts(xs, py).Some? <==> AllTaken(xs, py)
    ensures Drafts(xs, py).Some? ==> AllDrafted(xs, Drafts(xs, py).value, py)
  {
    if xs != [] {
      DraftsIff(xs[1..], py);
      OneDraft(xs[0], py);
      TakenNext(xs, py);
      DraftsOfHead(xs, py);
      match (Draft(xs[0], py), Drafts(xs[1..], py)) {
        case (Some(d), Some(rest)) => DraftedNext(xs, d, rest, py);
        case _ =>
      }
    }
  }

  lemma DraftsOfHead(xs: seq<Json>, py: Builtins)
    requires xs != []
    ensures Drafts(xs, py)
         == match (Draft(xs[0], py), Drafts(xs[1..], py))
            case (Some(d), Some(rest)) => Some([d] + rest)
            case _ => None
  {
  }

  lemma TakenNext(xs: seq<Json>, py: Builtins)
    requires xs != []
    ensures AllTaken(xs, py) <==> SchemaTakes(xs[0], py) && AllTaken(xs[1..], py)
  {
    assert forall i :: 1 <= i < |xs| ==> xs[i] == xs[1..][i - 1];
  }

  lemma DraftedNext(xs: seq<Json>, d: PlanStep, rest: seq<PlanStep>, py: Builtins)
    requires xs != [] && Drafted(xs[0], d, py) && AllDrafted(xs[1..], rest, py)
    ensures AllDrafted(xs, [d] + rest, py)
  {
    assert forall i :: 1 <= i < |xs| ==> xs[i] == xs[1..][i - 1];
  }

  lemma OneDraft(entry: Json, py: Builtins)
    ensures Draft(entry, py).Some? <==> SchemaTakes(entry, py)
    ensures Draft(entry, py).Some? ==> Drafted(entry, Draft(entry, py).value, py)
  {
    match Draft(entry, py) {
      case Some(s) => DraftIff(entry, s, py);
      case None =>
        forall s ensures !Drafted(entry, s, py) {
          DraftIff(entry, s, py);
        }
    }
  }

  /**
   * Strict validation of a list: an empty one, or one with an entry the schema does not take, is
   * refused as a whole; otherwise the steps are those the entries stand for, in order of index.
   */
  lemma ValidateReadsEntries(xs: seq<Json>, py: Builtins)
    ensures xs == [] || !AllTaken(xs, py) ==> Validate(Arr(xs), py) == ([], [SchemaValidation])
    ensures xs != [] && AllTaken(xs, py) ==>
              exists drafts: seq<PlanStep>, order: seq<nat> ::
                StandsFor(xs, drafts, order, Validate(Arr(xs), py).0, py)
  {
    DraftsIff(xs, py);
    if xs != [] && Drafts(xs, py).Some? {
      var drafts := Drafts(xs, py).value;
      var order := SortIsStable(drafts);
      assert Validate(Arr(xs), py).0 == ToRuntime(drafts);
      RuntimeStandsFor(xs, drafts, order, py);
    }
  }

  lemma RuntimeStandsFor(xs: seq<Json>, drafts: seq<PlanStep>, order: seq<nat>, py: Builtins)
    requires AllDrafted(xs, drafts, py)
    requires StableOrder(drafts, order, SortByIndex(drafts))
    ensures StandsFor(xs, drafts, order, ToRuntime(drafts), py)
  {
    var steps := ToRuntime(drafts);
    forall k | 0 <= k < |order| ensures RunsAs(drafts[order[k]], steps[k]) {
    }
  }

  ghost predicate MisnumberedAt(steps: seq<PlanStep>, i: nat) {
    i < |steps| && steps[i].index != i + 1
  }

  ghost predicate UnknownAt(steps: seq<PlanStep>, i: nat) {
    i < |steps| && steps[i].agentId !in {"strategy", "writer", "editor", "reviewer", "researcher", "fact_checker"}
  }

  /** An edge to the step itself, to a later one, or below the first. */
  ghost predicate WrongEdgeAt(steps: seq<PlanStep>, i: nat) {
    i < |steps| && exists r :: r in steps[i].inputsFrom && (r < 1 || r >= steps[i].index)
  }

  /** Which violations a list of steps is charged with. */
  lemma ViolationsIff(steps: seq<PlanStep>)
    ensures var found := CheckInvariants(steps);
            && (StepCount in found <==> steps == [] || |steps| > 8)
            && (ContiguousIndices in found <==> exists i :: MisnumberedAt(steps, i))
            && (KnownAgents in found <==> exists i :: UnknownAt(steps, i))
            && (BackwardEdges in found <==> exists i :: WrongEdgeAt(steps, i))
            && (FinalAgent in found <==> steps != [] && steps[|steps| - 1].agentId !in {"writer", "editor"})
            && PayloadShape !in found && SchemaValidation !in found
  {
    WhereCharged(steps);
    if steps != [] {
      Charged(
        |steps| > 8,
        exists i :: 0 <= i < |steps| && steps[i].index != i + 1,
        exists i :: 0 <= i < |steps| && steps[i].agentId !in AGENT_IDS,
        exists i :: 0 <= i < |steps| && !EdgesBackward(steps[i]),
        steps[|steps| - 1].agentId !in FINAL_AGENTS);
    }
  }

  lemma WhereCharged(steps: seq<PlanStep>)
    ensures (exists i :: 0 <= i < |steps| && steps[i].index != i + 1) <==> exists i :: MisnumberedAt(steps, i)
    ensures (exists i :: 0 <= i < |steps| && steps[i].agentId !in AGENT_IDS) <==> exists i :: UnknownAt(steps, i)
    ensures (exists i :: 0 <= i < |steps| && !EdgesBackward(steps[i])) <==> exists i :: WrongEdgeAt(steps, i)
  {
    forall i: nat
      ensures MisnumberedAt(steps, i) <==> i < |steps| && steps[i].index != i + 1
      ensures UnknownAt(steps, i) <==> i < |steps| && steps[i].agentId !in AGENT_IDS
      ensures WrongEdgeAt(steps, i) <==> i < |steps| && !EdgesBackward(steps[i])
    {
    }
    if i :| 0 <= i < |steps| && steps[i].index != i + 1 {
      assert MisnumberedAt(steps, i);
    }
    if i :| 0 <= i < |steps| && steps[i].agentId !in AGENT_IDS {
      assert UnknownAt(steps, i);
    }
    if i :| 0 <= i < |steps| && !EdgesBackward(steps[i]) {
      assert WrongEdgeAt(steps, i);
    }
  }

  lemma Charged(a: bool, b: bool, c: bool, d: bool, e: bool)
    ensures var found :=
              (if a then [StepCount] else []) + (if b then [ContiguousIndices] else [])
              + (if c then [KnownAgents] else []) + (if d then [BackwardEdges] else [])
              + (if e then [FinalAgent] else []);
            && (StepCount in found <==> a) && (ContiguousIndices in found <==> b) && (KnownAgents in found <==> c)
            && (BackwardEdges in found <==> d) && (FinalAgent in found <==> e)
            && PayloadShape !in found && SchemaValidation !in found
  {
    var (p, q) := (if a then [StepCount] else [], if b then [ContiguousIndices] else []);
    var (r, t) := (if c then [KnownAgents] else [], if d then [BackwardEdges] else []);
    var u := if e then [FinalAgent] else [];
    forall v ensures v in p + q + r + t + u <==> v in p || v in q || v in r || v in t || v in u {
      assert v in (p + q + r) + t + u <==> v in p + q + r || v in t || v in u;
    }
  }
}
