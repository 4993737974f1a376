/** What closing a plan does to a list of entries, coerced or not. */
module PlanClosing {
  import opened JsonValues
  import opened PlanSchema
  import opened PlanRepair
  import opened PlanEnvelope
  import opened PlanEntries
  import opened Wrappers

  // ---- closing a plan -------------------------------------------------------------------

  /** The entry writes a draft. */
  ghost predicate WritesDraft(entry: Json) {
    entry.Obj? && exists a :: FieldIs(entry.members, "agent_id", Str(a)) && a in {"writer", "editor"}
  }

  /** An index that is an integer, true and false among them. */
  ghost predicate IntegerIndex(entry: Json, n: int) {
    && entry.Obj?
    && (|| FieldIs(entry.members, "index", Int(n))
        || (FieldIs(entry.members, "index", Bool(true)) && n == 1)
        || (FieldIs(entry.members, "index", Bool(false)) && n == 0))
  }

  /** The integer indices of the entries, in order; `at` says which entries have one. */
  ghost predicate ListsIndices(xs: seq<Json>, at: seq<nat>, ns: seq<int>) {
    && |at| == |ns|
    && (forall k :: 0 <= k < |at| ==> at[k] < |xs| && IntegerIndex(xs[at[k]], ns[k]))
    && (forall k, l :: 0 <= k < l < |at| ==> at[k] < at[l])
    && forall i :: 0 <= i < |xs| && i !in at ==> forall n :: !IntegerIndex(xs[i], n)
  }

  ghost predicate DraftTexts(description: Json, instruction: Json) {
    && description == Str("Compose the final draft using prior outputs.")
    && instruction == Str("Write the final draft based on the strategy and any reviewer notes above.")
  }

  /** The step that is put at the end of a plan without a draft: it reads all the others. */
  ghost predicate ClosesPlan(xs: seq<Json>, entry: Json, n: int) {
    && entry.Obj?
    && Holds(entry.members, "index", Int(n)) && Holds(entry.members, "agent_id", Str("writer"))
    && (exists d, i :: DraftTexts(d, i)
          && Holds(entry.members, "description", d) && Holds(entry.members, "instruction", i))
    && exists at, ns :: ListsIndices(xs, at, ns) && Holds(entry.members, "inputs_from", Arr(IntItems(ns)))
  }

  /** No room is left and some entry writes a draft: the entries up to the last such. */
  ghost predicate CutToDraft(xs: seq<Json>, ys: seq<Json>) {
    ys != [] && ys <= xs && WritesDraft(ys[|ys| - 1]) && forall i :: |ys| <= i < |xs| ==> !WritesDraft(xs[i])
  }

  lemma EndsFinalIff(xs: seq<Json>)
    requires xs != []
    ensures EndsFinal(xs) <==> WritesDraft(xs[|xs| - 1])
  {
    var last := xs[|xs| - 1];
    if last.Obj? {
      FieldIsGet(last.members, "agent_id");
    }
  }

  lemma {:induction false} TrimCuts(xs: seq<Json>)
    ensures TrimToFinal(xs) <= xs
    ensures TrimToFinal(xs) == [] <==> forall i :: 0 <= i < |xs| ==> !WritesDraft(xs[i])
    ensures TrimToFinal(xs) != [] ==> CutToDraft(xs, TrimToFinal(xs))
  {
    if xs != [] {
      var n := |xs| - 1;
      EndsFinalIff(xs);
      TrimCuts(xs[..n]);
      assert forall i :: 0 <= i < n ==> xs[..n][i] == xs[i];
    }
  }

  lemma {:induction false} IndexRefsLists(xs: seq<Json>) returns (at: seq<nat>, ns: seq<int>)
    ensures IndexRefs(xs) == IntItems(ns) && ListsIndices(xs, at, ns)
  {
    at, ns := [], [];
    if xs != [] {
      var rest, refs := IndexRefsLists(xs[1..]);
      var moved: seq<nat> := seq(|rest|, k requires 0 <= k < |rest| => rest[k] + 1);
      var found := HeadIndex(xs[0]);
      HeadRefs(xs);
      match found {
        case Some(n) =>
          at, ns := [0] + moved, [n] + refs;
          ListsWith(xs, n, rest, refs, at);
          FirstItem(n, refs);
        case None =>
          at, ns := moved, refs;
          ListsWithout(xs, rest, refs, at);
      }
    }
  }

  lemma FirstItem(n: int, ns: seq<int>)
    ensures IntItems([n] + ns) == [Int(n)] + IntItems(ns)
  {
  }

  lemma HeadRefs(xs: seq<Json>)
    requires xs != []
    ensures IndexRefs(xs) == IndexRefs([xs[0]]) + IndexRefs(xs[1..])
  {
    assert [xs[0]][1..] == [];
  }

  lemma HeadIndex(entry: Json) returns (r: Option<int>)
    ensures match r
            case Some(n) => IntegerIndex(entry, n) && IndexRefs([entry]) == [Int(n)]
            case None => IndexRefs([entry]) == [] && forall n :: !IntegerIndex(entry, n)
  {
    assert [entry][1..] == [];
    r := None;
    if entry.Obj? {
      FieldIsGet(entry.members, "index");
      match Get(entry.members, "index") {
        case Int(n) => r := Some(n);
        case Bool(b) => r := Some(if b then 1 else 0);
        case _ =>
      }
    }
  }

  lemma ListsWith(xs: seq<Json>, n: int, rest: seq<nat>, refs: seq<int>, at: seq<nat>)
    requires xs != [] && ListsIndices(xs[1..], rest, refs) && IntegerIndex(xs[0], n)
    requires |at| == |rest| + 1 && at[0] == 0 && forall k :: 0 < k < |at| ==> at[k] == rest[k - 1] + 1
    ensures ListsIndices(xs, at, [n] + refs)
  {
    forall k | 0 <= k < |at| ensures at[k] < |xs| && IntegerIndex(xs[at[k]], ([n] + refs)[k]) {
      if k > 0 {
        assert xs[1..][rest[k - 1]] == xs[at[k]];
      }
    }
    forall i | 0 <= i < |xs| && i !in at ensures forall m :: !IntegerIndex(xs[i], m) {
      assert at[0] == 0;
      assert forall k :: 0 <= k < |rest| ==> at[k + 1] == rest[k] + 1;
      assert i - 1 !in rest && xs[1..][i - 1] == xs[i];
    }
  }

  lemma ListsWithout(xs: seq<Json>, rest: seq<nat>, refs: seq<int>, at: seq<nat>)
    requires xs != [] && ListsIndices(xs[1..], rest, refs) && forall n :: !IntegerIndex(xs[0], n)
    requires |at| == |rest| && forall k :: 0 <= k < |at| ==> at[k] == rest[k] + 1
    ensures ListsIndices(xs, at, refs)
  {
    forall k | 0 <= k < |at| ensures at[k] < |xs| && IntegerIndex(xs[at[k]], refs[k]) {
      assert xs[1..][rest[k]] == xs[at[k]];
    }
    forall i | 0 <= i < |xs| && i !in at ensures forall m :: !IntegerIndex(xs[i], m) {
      if i > 0 {
        assert i - 1 !in rest && xs[1..][i - 1] == xs[i];
      }
    }
  }

  lemma ClosingWriterCloses(xs: seq<Json>, n: int)
    ensures ClosesPlan(xs, ClosingWriter(n, IndexRefs(xs)), n)
  {
    var at, ns := IndexRefsLists(xs);
    var ms := ClosingWriter(n, IndexRefs(xs)).members;
    FieldsOfStep(ms);
    assert DraftTexts(ms[2].value, ms[3].value);
    assert Holds(ms, "inputs_from", Arr(IntItems(ns)));
  }

  lemma FieldsOfStep(ms: seq<Member>)
    requires |ms| == 5 && ms[0].key == "index" && ms[1].key == "agent_id" && ms[2].key == "description"
    requires ms[3].key == "instruction" && ms[4].key == "inputs_from"
    ensures Holds(ms, "index", ms[0].value) && Holds(ms, "agent_id", ms[1].value)
    ensures Holds(ms, "description", ms[2].value) && Holds(ms, "instruction", ms[3].value)
    ensures Holds(ms, "inputs_from", ms[4].value)
  {
    HeldByPosition(ms, 0);
    HeldByPosition(ms, 1);
    HeldByPosition(ms, 2);
    HeldByPosition(ms, 3);
    HeldByPosition(ms, 4);
  }

  lemma HeldByPosition(ms: seq<Member>, i: nat)
    requires i < |ms| && forall j :: 0 <= j < i ==> ms[j].key != ms[i].key
    ensures Holds(ms, ms[i].key, ms[i].value)
  {
    assert HoldsAt(ms, i, ms[i].key, ms[i].value);
  }

  /** Nothing to do: no entries, one that is no dict, a draft at the end, or neither room for one nor any. */
  ghost predicate NothingToClose(xs: seq<Json>) {
    || xs == []
    || (exists i :: 0 <= i < |xs| && !xs[i].Obj?)
    || WritesDraft(xs[|xs| - 1])
    || (|xs| >= 8 && forall i :: 0 <= i < |xs| ==> !WritesDraft(xs[i]))
  }

  /** The number the last entry of a list goes by. */
  ghost predicate EndsAt(xs: seq<Json>, n: int, py: Builtins)
    requires xs != []
  {
    var last := xs[|xs| - 1];
    last.Obj? && exists v :: FieldIs(last.members, "index", v) && GoesBy(v, |xs|, n, py)
  }

  /** What closing does to a list. */
  ghost predicate ClosedAs(xs: seq<Json>, r: PassResult, py: Builtins) {
    match r
    case Nothing => NothingToClose(xs)
    case Raised => !NothingToClose(xs) && |xs| < 8 && forall n :: !EndsAt(xs, n, py)
    case Repaired(next) =>
      && !NothingToClose(xs)
      && if |xs| >= 8 then next.Arr? && CutToDraft(xs, next.items)
         else exists n, e :: EndsAt(xs, n, py) && next == Arr(xs + [e]) && ClosesPlan(xs, e, n + 1)
  }

  /** Any list of entries, coerced or not, however it is carried, is closed like this. */
  lemma StructureOfEntries(payload: Json, xs: seq<Json>, py: Builtins)
    requires Carries(payload, xs)
    ensures ClosedAs(xs, StructurePass(payload, py), py)
  {
    ClosingSeesTheList(payload, xs, py);
    if xs != [] {
      StructureByParts(xs, py);
      PartsClose(xs, StructurePass(payload, py), py);
    }
  }

  ghost function ByParts(xs: seq<Json>, py: Builtins): PassResult
    requires xs != []
  {
    if !AllDicts(xs) || EndsFinal(xs) then Nothing
    else if |xs| >= MAX_STEPS then
      if TrimToFinal(xs) == [] then Nothing else Repaired(Arr(TrimToFinal(xs)))
    else
      match LastIndex(xs, py)
      case None => Raised
      case Some(n) => Repaired(Arr(WithWriter(xs, n)))
  }

  lemma PartsClose(xs: seq<Json>, r: PassResult, py: Builtins)
    requires xs != [] && r == ByParts(xs, py)
    ensures ClosedAs(xs, r, py)
  {
    EndsFinalIff(xs);
    assert AllDicts(xs) <==> !exists i :: 0 <= i < |xs| && !xs[i].Obj?;
    if AllDicts(xs) && !WritesDraft(xs[|xs| - 1]) {
      if |xs| < 8 {
        OpenPlanCloses(xs, py);
      } else {
        TrimCuts(xs);
      }
    }
  }

  lemma OpenPlanCloses(xs: seq<Json>, py: Builtins)
    requires xs != [] && |xs| < 8 && AllDicts(xs) && !EndsFinal(xs) && !NothingToClose(xs)
    ensures ClosedAs(xs, ByParts(xs, py), py)
  {
    LastIndexIff(xs, py);
    match LastIndex(xs, py) {
      case Some(n) =>
        ClosingWriterCloses(xs, n + 1);
        AppendCloses(xs, ByParts(xs, py), n, ClosingWriter(n + 1, IndexRefs(xs)), py);
      case None =>
    }
  }

  lemma AppendCloses(xs: seq<Json>, r: PassResult, n: int, e: Json, py: Builtins)
    requires xs != [] && |xs| < 8 && !NothingToClose(xs) && EndsAt(xs, n, py) && ClosesPlan(xs, e, n + 1)
    requires r == Repaired(Arr(xs + [e]))
    ensures ClosedAs(xs, r, py)
  {
  }

  lemma StructureByParts(xs: seq<Json>, py: Builtins)
    requires xs != []
    ensures StructurePass(Arr(xs), py) == ByParts(xs, py)
  {
  }

  lemma LastIndexIff(xs: seq<Json>, py: Builtins)
    requires xs != [] && xs[|xs| - 1].Obj?
    ensures forall n :: LastIndex(xs, py) == Some(n) <==> EndsAt(xs, n, py)
  {
    var ms := xs[|xs| - 1].members;
    FieldIsGet(ms, "index");
    IndexGoesBy(Get(ms, "index"), |xs|, py);
    assert FieldIs(ms, "index", Get(ms, "index"));
  }
}
