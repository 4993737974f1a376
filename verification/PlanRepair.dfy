/** What planner repair guarantees: soundness, completeness, the dependency graph, stability. */
module PlanRepair {
  import opened JsonValues
  import opened JsonBlock
  import opened PlanSchema
  import opened Wrappers

  // ---- sorting --------------------------------------------------------------

  ghost predicate SortedByIndex(steps: seq<PlanStep>) {
    forall i, j :: 0 <= i < j < |steps| ==> steps[i].index <= steps[j].index
  }

  ghost predicate DistinctIndices(steps: seq<PlanStep>) {
    forall i, j :: 0 <= i < j < |steps| ==> steps[i].index != steps[j].index
  }

  ghost predicate StrictlyAscending(steps: seq<PlanStep>) {
    forall i, j :: 0 <= i < j < |steps| ==> steps[i].index < steps[j].index
  }

  lemma {:induction false} InsertAdds(s: PlanStep, sorted: seq<PlanStep>)
    ensures multiset(InsertByIndex(s, sorted)) == multiset(sorted) + multiset{s}
  {
    if sorted != [] && s.index > sorted[0].index {
      InsertAdds(s, sorted[1..]);
      assert sorted == [sorted[0]] + sorted[1..];
    }
  }

  lemma {:induction false} InsertKeepsSorted(s: PlanStep, sorted: seq<PlanStep>)
    requires SortedByIndex(sorted)
    ensures SortedByIndex(InsertByIndex(s, sorted))
  {
    if sorted != [] && s.index > sorted[0].index {
      InsertKeepsSorted(s, sorted[1..]);
      InsertAdds(s, sorted[1..]);
      var rest := InsertByIndex(s, sorted[1..]);
      forall j | 0 <= j < |rest| ensures sorted[0].index <= rest[j].index {
        assert rest[j] in multiset(rest);
      }
    }
  }

  lemma {:induction false} SortSorts(steps: seq<PlanStep>)
    ensures SortedByIndex(SortByIndex(steps))
    ensures multiset(SortByIndex(steps)) == multiset(steps)
    ensures |SortByIndex(steps)| == |steps|
  {
    if steps != [] {
      SortSorts(steps[1..]);
      InsertKeepsSorted(steps[0], SortByIndex(steps[1..]));
      InsertAdds(steps[0], SortByIndex(steps[1..]));
      assert steps == [steps[0]] + steps[1..];
    }
    assert |multiset(SortByIndex(steps))| == |multiset(steps)|;
  }

  lemma {:induction false} SortOfSorted(steps: seq<PlanStep>)
    requires SortedByIndex(steps)
    ensures SortByIndex(steps) == steps
  {
    if steps != [] {
      SortOfSorted(steps[1..]);
      assert steps == [steps[0]] + steps[1..];
    }
  }

  lemma SameMultisetSameMembers(a: seq<PlanStep>, b: seq<PlanStep>)
    requires multiset(a) == multiset(b)
    ensures forall s :: s in a <==> s in b
  {
    forall s ensures s in a <==> s in b {
      assert s in a <==> s in multiset(a);
      assert s in b <==> s in multiset(b);
    }
  }

  /** Distinct indices stay distinct under sorting, so the order is strict. */
  lemma {:induction false} SortIsStrict(steps: seq<PlanStep>)
    requires DistinctIndices(steps)
    ensures StrictlyAscending(SortByIndex(steps))
  {
    if steps != [] {
      SortIsStrict(steps[1..]);
      SortSorts(steps[1..]);
      var rest := SortByIndex(steps[1..]);
      SameMultisetSameMembers(rest, steps[1..]);
      forall s | s in rest ensures s.index != steps[0].index {
        var k :| 0 <= k < |steps| - 1 && steps[1..][k] == s;
        assert steps[k + 1] == s;
      }
      InsertStrict(steps[0], rest);
    }
  }

  lemma {:induction false} InsertStrict(s: PlanStep, sorted: seq<PlanStep>)
    requires StrictlyAscending(sorted) && forall x :: x in sorted ==> x.index != s.index
    ensures StrictlyAscending(InsertByIndex(s, sorted))
  {
    if sorted != [] && s.index > sorted[0].index {
      InsertStrict(s, sorted[1..]);
      InsertAdds(s, sorted[1..]);
      var rest := InsertByIndex(s, sorted[1..]);
      forall j | 0 <= j < |rest| ensures sorted[0].index < rest[j].index {
        assert rest[j] in multiset(rest);
      }
    }
  }

  // ---- a repaired step survives the schema -------------------------------------

  lemma StepFields(s: PlanStep)
    ensures Get(StepJson(s).members, "index") == Int(s.index) && Has(StepJson(s).members, "index")
    ensures Get(StepJson(s).members, "agent_id") == Str(s.agentId)
    ensures Get(StepJson(s).members, "description") == Str(s.description)
    ensures Get(StepJson(s).members, "instruction") == Str(s.instruction) && Has(StepJson(s).members, "instruction")
    ensures Get(StepJson(s).members, "inputs_from") == Arr(IntItems(s.inputsFrom))
    ensures Has(StepJson(s).members, "inputs_from")
  {
    var ms := StepJson(s).members;
    assert ms[0].key == "index" && ms[3].key == "instruction" && ms[4].key == "inputs_from";
    assert ms[1..][0] == ms[1] && ms[1..][1..] == ms[2..];
    assert ms[2..][0] == ms[2] && ms[2..][1..] == ms[3..];
    assert ms[3..][0] == ms[3] && ms[3..][1..] == ms[4..];
    assert ms[4..][0] == ms[4];
    assert Get(ms[4..], "inputs_from") == ms[4].value;
    assert Get(ms[3..], "inputs_from") == ms[4].value && Get(ms[3..], "instruction") == ms[3].value;
    assert Get(ms[2..], "inputs_from") == ms[4].value && Get(ms[2..], "instruction") == ms[3].value;
    assert Get(ms[1..], "inputs_from") == ms[4].value && Get(ms[1..], "instruction") == ms[3].value;
    assert Get(ms[2..], "description") == ms[2].value;
    assert Get(ms[1..], "description") == ms[2].value;
  }

  lemma {:induction false} SchemaIntsOfInts(ns: seq<int>, py: Builtins)
    requires ReadsIntegers(py)
    ensures SchemaInts(IntItems(ns), py) == Some(ns)
  {
    if ns != [] {
      SchemaIntsOfInts(ns[1..], py);
      assert IntItems(ns)[1..] == IntItems(ns[1..]);
      assert ns == [ns[0]] + ns[1..];
    }
  }

  lemma DraftOfStep(s: PlanStep, py: Builtins)
    requires ReadsIntegers(py)
    requires s.index >= 1 && s.agentId in AGENT_IDS && s.description != ""
    ensures Draft(StepJson(s), py) == Some(s)
  {
    StepFields(s);
    SchemaIntsOfInts(s.inputsFrom, py);
  }

  lemma {:induction false} DraftsOfSteps(steps: seq<PlanStep>, py: Builtins)
    requires ReadsIntegers(py)
    requires forall s :: s in steps ==> s.index >= 1 && s.agentId in AGENT_IDS && s.description != ""
    ensures Drafts(StepItems(steps), py) == Some(steps)
  {
    if steps != [] {
      var (first, rest) := (steps[0], steps[1..]);
      assert steps == [first] + rest;
      DraftOfStep(first, py);
      DraftsOfSteps(rest, py);
      ItemsOfPlan(first, rest);
      DraftsNext(StepItems(steps), first, rest, py);
    }
  }

  lemma ItemsOfPlan(first: PlanStep, rest: seq<PlanStep>)
    ensures var items := StepItems([first] + rest);
            items != [] && items[0] == StepJson(first) && items[1..] == StepItems(rest)
  {
    assert ([first] + rest)[1..] == rest;
  }

  lemma DraftsNext(entries: seq<Json>, first: PlanStep, rest: seq<PlanStep>, py: Builtins)
    requires entries != [] && Draft(entries[0], py) == Some(first) && Drafts(entries[1..], py) == Some(rest)
    ensures Drafts(entries, py) == Some([first] + rest)
  {
  }

  /** A plan in the form repair leaves it in. */
  ghost predicate Clean(steps: seq<PlanStep>) {
    && WellShaped(steps)
    && forall s :: s in steps ==> s.description != "" && Ascending(s.inputsFrom)
  }

  /** Serialising a clean plan and validating it again changes nothing. */
  lemma ValidateReadsBack(steps: seq<PlanStep>, py: Builtins)
    requires ReadsIntegers(py) && Clean(steps) && steps != []
    ensures Validate(Arr(StepItems(steps)), py) == (steps, CheckInvariants(steps))
  {
    assert StepItems(steps) != [];
    DraftsOfSteps(steps, py);
    RuntimeOfClean(steps);
  }

  lemma RuntimeOfClean(steps: seq<PlanStep>)
    requires Clean(steps)
    ensures ToRuntime(steps) == steps
  {
    SortOfSorted(steps);
    forall i | 0 <= i < |steps| ensures SortedSet(steps[i].inputsFrom) == steps[i].inputsFrom {
      assert steps[i] in steps;
      SortedSetOfAscending(steps[i].inputsFrom);
    }
  }

  // ---- coercion -----------------------------------------------------------------

  lemma {:induction false} SalvageAllShape(entries: seq<Json>, kept: seq<PlanStep>, py: Builtins)
    requires DistinctIndices(kept)
    requires forall s :: s in kept ==> s.agentId in AGENT_IDS && s.description != ""
    requires forall s :: s in kept ==> forall r :: r in s.inputsFrom ==> r < s.index
    ensures SalvageAll(entries, kept, py).Some? ==>
              var all := SalvageAll(entries, kept, py).value;
              && kept <= all && |all| <= |kept| + |entries|
              && DistinctIndices(all)
              && (forall s :: s in all ==> s.agentId in AGENT_IDS && s.description != "")
              && forall s :: s in all ==> forall r :: r in s.inputsFrom ==> r < s.index
  {
    if entries != [] {
      match SalvageEntry(entries[0], kept, py) {
        case Raises =>
        case Unsalvageable => SalvageAllShape(entries[1..], kept, py);
        case Salvaged(s) =>
          assert s.index !in Indices(kept);
          assert |s.agentId + " step"| > 0;
          SalvageAllShape(entries[1..], kept + [s], py);
      }
    }
  }

  lemma {:induction false} NewIndexIsPosition(sorted: seq<PlanStep>, ref: int)
    requires StrictlyAscending(sorted)
    ensures match NewIndex(sorted, ref)
            case Some(n) => 1 <= n <= |sorted| && sorted[n - 1].index == ref
            case None => forall i :: 0 <= i < |sorted| ==> sorted[i].index != ref
  {
    if sorted != [] {
      NewIndexIsPosition(sorted[..|sorted| - 1], ref);
    }
  }

  lemma {:induction false} RemapMembers(sorted: seq<PlanStep>, refs: seq<int>, bound: int)
    requires StrictlyAscending(sorted)
    ensures forall n :: n in Remap(sorted, refs, bound) <==>
              1 <= n <= |sorted| && n < bound && sorted[n - 1].index in refs
  {
    if refs != [] {
      NewIndexIsPosition(sorted, refs[0]);
      RemapMembers(sorted, refs[1..], bound);
      assert refs == [refs[0]] + refs[1..];
    }
  }

  /**
   * The dependency graph survives: numbering the survivors by their original indices, step i
   * keeps an edge to step j exactly when i's entry named j's original index and j comes first.
   */
  lemma RenumberKeepsGraph(sorted: seq<PlanStep>, i: nat, j: nat)
    requires StrictlyAscending(sorted) && i < |sorted| && j < |sorted|
    requires forall r :: r in sorted[i].inputsFrom ==> r < sorted[i].index
    ensures j + 1 in Renumber(sorted)[i].inputsFrom <==>
              sorted[j].index in sorted[i].inputsFrom && sorted[j].index < sorted[i].index
  {
    RemapMembers(sorted, sorted[i].inputsFrom, i + 1);
  }

  lemma RenumberIsClean(sorted: seq<PlanStep>)
    requires StrictlyAscending(sorted) && |sorted| <= MAX_STEPS
    requires forall s :: s in sorted ==> s.agentId in AGENT_IDS && s.description != ""
    ensures Clean(Renumber(sorted))
  {
    forall i | 0 <= i < |sorted| ensures EdgesBackward(Renumber(sorted)[i]) {
      RemapMembers(sorted, sorted[i].inputsFrom, i + 1);
    }
  }

  /** What coercion keeps, sorted by the original index: distinct, known agents, named edges back. */
  lemma SurvivorsShape(payload: Json, py: Builtins)
    requires UnwrapEnvelope(payload).Arr? && Survivors(payload, py).Some?
    ensures var kept := Survivors(payload, py).value;
            var sorted := SortByIndex(kept);
            && |sorted| == |kept| <= MAX_STEPS
            && StrictlyAscending(sorted)
            && multiset(sorted) == multiset(kept)
            && (forall s :: s in sorted ==> s.agentId in AGENT_IDS && s.description != "")
            && forall s :: s in sorted ==> forall r :: r in s.inputsFrom ==> r < s.index
  {
    var entries := FirstEntries(UnwrapEnvelope(payload).items);
    SalvageAllShape(entries, [], py);
    var kept := Survivors(payload, py).value;
    SortSorts(kept);
    SortIsStrict(kept);
    SameMultisetSameMembers(SortByIndex(kept), kept);
  }

  lemma KeptIsClean(payload: Json, py: Builtins)
    requires CoerceSteps(payload, py).Kept?
    ensures Clean(CoerceSteps(payload, py).steps) && CoerceSteps(payload, py).steps != []
    ensures |CoerceSteps(payload, py).steps| == |Survivors(payload, py).value|
  {
    SurvivorsShape(payload, py);
    RenumberIsClean(SortByIndex(Survivors(payload, py).value));
  }

  /**
   * Coercion keeps the graph of the payload: with the survivors listed in order of their original
   * index, the new plan has an edge from i to j exactly when i's entry named j's original index
   * and that index is the smaller one.
   */
  lemma CoercionKeepsGraph(payload: Json, py: Builtins, i: nat, j: nat)
    requires CoerceSteps(payload, py).Kept?
    requires i < |CoerceSteps(payload, py).steps| && j < |CoerceSteps(payload, py).steps|
    ensures var sorted := SortByIndex(Survivors(payload, py).value);
            var steps := CoerceSteps(payload, py).steps;
            && |sorted| == |steps| && StrictlyAscending(sorted)
            && multiset(sorted) == multiset(Survivors(payload, py).value)
            && steps[i].agentId == sorted[i].agentId
            && steps[i].description == sorted[i].description
            && steps[i].instruction == sorted[i].instruction
            && (j + 1 in steps[i].inputsFrom <==>
                  sorted[j].index in sorted[i].inputsFrom && sorted[j].index < sorted[i].index)
  {
    SurvivorsShape(payload, py);
    var sorted := SortByIndex(Survivors(payload, py).value);
    assert sorted[i] in sorted;
    RenumberKeepsGraph(sorted, i, j);
  }

  /** Each survivor comes from one of the first eight entries, with exactly the edges it named. */
  lemma {:induction false} SurvivorsComeFromEntries(
      entries: seq<Json>, kept: seq<PlanStep>, py: Builtins, s: PlanStep)
    requires SalvageAll(entries, kept, py).Some? && s in SalvageAll(entries, kept, py).value && s !in kept
    ensures exists i :: 0 <= i < |entries| && ComesFrom(s, entries[i], py)
  {
    match SalvageEntry(entries[0], kept, py) {
      case Unsalvageable =>
        SurvivorsComeFromEntries(entries[1..], kept, py, s);
        var i :| 0 <= i < |entries| - 1 && ComesFrom(s, entries[1..][i], py);
        assert ComesFrom(s, entries[i + 1], py);
      case Salvaged(t) =>
        if s == t {
          assert ComesFrom(s, entries[0], py);
        } else {
          SurvivorsComeFromEntries(entries[1..], kept + [t], py, s);
          var i :| 0 <= i < |entries| - 1 && ComesFrom(s, entries[1..][i], py);
          assert ComesFrom(s, entries[i + 1], py);
        }
    }
  }

  ghost predicate ComesFrom(s: PlanStep, entry: Json, py: Builtins) {
    && entry.Obj?
    && Get(entry.members, "agent_id") == Str(s.agentId)
    && (Truthy(Get(entry.members, "index")) ==> PyInt(Get(entry.members, "index"), py) == Some(s.index))
    && NamedRefs(Get(entry.members, "inputs_from"), py).Some?
    && forall r :: r in s.inputsFrom <==> r in NamedRefs(Get(entry.members, "inputs_from"), py).value && r < s.index
  }

  // ---- coercion is stable -----------------------------------------------------------

  lemma {:induction false} RightStripStable(s: string)
    ensures RightStrip(RightStrip(s)) == RightStrip(s)
    ensures RightStrip(s) <= s
    ensures RightStrip(s) != [] ==> !IsSpace(RightStrip(s)[|RightStrip(s)| - 1])
  {
    if s != [] && IsSpace(s[|s| - 1]) {
      RightStripStable(s[..|s| - 1]);
    }
  }

  lemma {:induction false} LeftStripClean(s: string)
    ensures LeftStrip(s) != [] ==> !IsSpace(LeftStrip(s)[0])
  {
    if s != [] && IsSpace(s[0]) {
      LeftStripClean(s[1..]);
    }
  }

  lemma StripStable(s: string)
    ensures Strip(Strip(s)) == Strip(s)
  {
    LeftStripClean(s);
    RightStripStable(LeftStrip(s));
    assert Strip(s) != [] ==> Strip(s)[0] == LeftStrip(s)[0];
    assert LeftStrip(Strip(s)) == Strip(s);
  }

  ghost predicate Stripped(s: PlanStep) {
    Strip(s.description) == s.description && Strip(s.instruction) == s.instruction
  }

  lemma {:induction false} AgentStepStripped(agent: string)
    requires agent in AGENT_IDS
    ensures Strip(agent + " step") == agent + " step"
  {
    var t := agent + " step";
    assert agent != "" && !IsSpace(agent[0]);
    assert t[0] == agent[0] && t[|t| - 1] == 'p';
    assert LeftStrip(t) == t;
  }

  lemma {:induction false} SalvageAllStripped(entries: seq<Json>, kept: seq<PlanStep>, py: Builtins)
    requires forall s :: s in kept ==> Stripped(s)
    ensures SalvageAll(entries, kept, py).Some? ==>
              forall s :: s in SalvageAll(entries, kept, py).value ==> Stripped(s)
  {
    if entries != [] {
      match SalvageEntry(entries[0], kept, py) {
        case Raises =>
        case Unsalvageable => SalvageAllStripped(entries[1..], kept, py);
        case Salvaged(s) =>
          var ms := entries[0].members;
          var d, n := Get(ms, "description"), Get(ms, "instruction");
          StripStable(if !Truthy(d) then "" else if d.Str? then d.s else py.strOf(d));
          StripStable(if !Truthy(n) then "" else if n.Str? then n.s else py.strOf(n));
          AgentStepStripped(s.agentId);
          SalvageAllStripped(entries[1..], kept + [s], py);
      }
    }
  }

  lemma {:induction false} RefItemsOfInts(ns: seq<int>, py: Builtins)
    ensures RefItems(IntItems(ns), py) == Some(ns)
  {
    if ns != [] {
      RefItemsOfInts(ns[1..], py);
      assert IntItems(ns)[1..] == IntItems(ns[1..]);
      assert ns == [ns[0]] + ns[1..];
    }
  }

  lemma {:induction false} BelowAll(refs: seq<int>, bound: int)
    requires forall r :: r in refs ==> r < bound
    ensures Below(refs, bound) == refs
  {
    if refs != [] {
      assert refs == [refs[0]] + refs[1..];
      assert refs[0] in refs && forall r :: r in refs[1..] ==> r in refs;
      BelowAll(refs[1..], bound);
    }
  }

  lemma FieldTextOf(t: string, py: Builtins)
    ensures FieldText(Str(t), py) == Strip(t)
  {
  }

  lemma SalvageOfStep(s: PlanStep, kept: seq<PlanStep>, py: Builtins)
    requires s.index >= 1 && s.agentId in AGENT_IDS && s.description != "" && Stripped(s) && EdgesBackward(s)
    requires s.index !in Indices(kept)
    ensures SalvageEntry(StepJson(s), kept, py) == Salvaged(s)
  {
    StepFields(s);
    RefItemsOfInts(s.inputsFrom, py);
    BelowAll(s.inputsFrom, s.index);
    if s.inputsFrom == [] {
      assert IntItems(s.inputsFrom) == [];
    }
    FieldTextOf(s.description, py);
    FieldTextOf(s.instruction, py);
  }

  lemma {:induction false} SalvageAllOfSteps(steps: seq<PlanStep>, k: nat, py: Builtins)
    requires Clean(steps) && k <= |steps| && forall s :: s in steps ==> Stripped(s)
    ensures SalvageAll(StepItems(steps)[k..], steps[..k], py) == Some(steps)
    decreases |steps| - k
  {
    if k == |steps| {
      assert steps[..k] == steps && StepItems(steps)[k..] == [];
    } else {
      SalvageNext(steps, k, py);
      SalvageAllOfSteps(steps, k + 1, py);
    }
  }

  lemma SalvageNext(steps: seq<PlanStep>, k: nat, py: Builtins)
    requires Clean(steps) && k < |steps| && forall s :: s in steps ==> Stripped(s)
    ensures SalvageAll(StepItems(steps)[k..], steps[..k], py)
         == SalvageAll(StepItems(steps)[k + 1..], steps[..k + 1], py)
  {
    var items := StepItems(steps);
    assert items[k..][0] == StepJson(steps[k]) && items[k..][1..] == items[k + 1..];
    assert steps[k] in steps;
    assert steps[k].index !in Indices(steps[..k]);
    SalvageOfStep(steps[k], steps[..k], py);
    assert steps[..k] + [steps[k]] == steps[..k + 1];
    SalvagesOne(items[k..], steps[..k], steps[k], py);
  }

  lemma SalvagesOne(entries: seq<Json>, kept: seq<PlanStep>, s: PlanStep, py: Builtins)
    requires entries != [] && SalvageEntry(entries[0], kept, py) == Salvaged(s)
    ensures SalvageAll(entries, kept, py) == SalvageAll(entries[1..], kept + [s], py)
  {
  }

  lemma {:induction false} NewIndexOfClean(steps: seq<PlanStep>, ref: int)
    requires WellShaped(steps)
    ensures NewIndex(steps, ref) == if 1 <= ref <= |steps| then Some(ref) else None
  {
    if steps != [] {
      NewIndexOfClean(steps[..|steps| - 1], ref);
    }
  }

  lemma {:induction false} RemapOfClean(steps: seq<PlanStep>, refs: seq<int>, bound: int)
    requires WellShaped(steps) && bound <= |steps|
    requires forall r :: r in refs ==> 1 <= r < bound
    ensures Remap(steps, refs, bound) == refs
  {
    if refs != [] {
      assert refs == [refs[0]] + refs[1..];
      assert refs[0] in refs && forall r :: r in refs[1..] ==> r in refs;
      NewIndexOfClean(steps, refs[0]);
      RemapOfClean(steps, refs[1..], bound);
    }
  }

  lemma RenumberOfClean(steps: seq<PlanStep>)
    requires Clean(steps)
    ensures Renumber(steps) == steps
  {
    forall i | 0 <= i < |steps| ensures RenumberAt(steps, i) == steps[i] {
      assert steps[i] in steps;
      RemapOfClean(steps, steps[i].inputsFrom, i + 1);
      SortedSetOfAscending(steps[i].inputsFrom);
    }
  }

  /** Coercing a coerced plan again changes nothing. */
  lemma CoercionIdempotent(payload: Json, py: Builtins)
    requires CoerceSteps(payload, py).Kept?
    ensures CoerceSteps(Arr(StepItems(CoerceSteps(payload, py).steps)), py) == CoerceSteps(payload, py)
  {
    var steps := CoerceSteps(payload, py).steps;
    var sorted := SortByIndex(Survivors(payload, py).value);
    KeptIsClean(payload, py);
    SalvageAllStripped(FirstEntries(UnwrapEnvelope(payload).items), [], py);
    SurvivorsShape(payload, py);
    SameMultisetSameMembers(sorted, Survivors(payload, py).value);
    forall s | s in steps ensures Stripped(s) {
      var i :| 0 <= i < |steps| && steps[i] == s;
      assert sorted[i] in sorted;
    }
    var items := StepItems(steps);
    assert items[0..] == items && steps[..0] == [];
    SalvageAllOfSteps(steps, 0, py);
    SortOfSorted(steps);
    RenumberOfClean(steps);
  }
}
