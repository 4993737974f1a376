/** Which entries of a list coercion keeps, and what it makes of them, read off the JSON. */
module PlanEntries {
  import opened JsonValues
  import opened PlanSchema
  import opened PlanRepair
  import opened PlanEnvelope
  import opened Selections
  import opened Wrappers

  // ---- what coercion keeps -----------------------------------------------------------

  /** The index an entry goes by: its own, or the next number when it has none. */
  ghost predicate GoesBy(v: Json, next: int, n: int, py: Builtins) {
    match v
    case Null => n == next
    case Bool(b) => n == if b then 1 else next
    case Int(m) => n == if m == 0 then next else m
    case Str(t) => if t == "" then n == next else py.intOf(t) == Some(n)
    case Arr(xs) => xs == [] && n == next
    case Obj(ms) => ms == [] && n == next
  }

  /** What iterating over a field yields, an empty value counting as no field; some values do not iterate. */
  ghost predicate Iterates(v: Json, items: seq<Json>) {
    match v
    case Null => items == []
    case Bool(b) => !b && items == []
    case Int(n) => n == 0 && items == []
    case Str(t) => |items| == |t| && forall k :: 0 <= k < |t| ==> items[k] == Str([t[k]])
    case Arr(xs) => items == xs
    case Obj(ms) => |items| == |ms| && forall k :: 0 <= k < |ms| ==> items[k] == Str(ms[k].key)
  }

  /** An item that counts as a reference: an integer, or a text of digits that reads as one. */
  ghost predicate Refers(item: Json, r: int, py: Builtins) {
    item == Int(r) || (item.Str? && py.isDigit(item.s) && py.intOf(item.s) == Some(r))
  }

  /** A text of digits that int() does not read. */
  ghost predicate BreaksRefs(item: Json, py: Builtins) {
    item.Str? && py.isDigit(item.s) && py.intOf(item.s) == None
  }

  ghost predicate RefsReadable(v: Json, py: Builtins) {
    exists items :: Iterates(v, items) && forall item :: item in items ==> !BreaksRefs(item, py)
  }

  ghost predicate NamesRef(v: Json, r: int, py: Builtins) {
    exists items, item :: Iterates(v, items) && item in items && Refers(item, r, py)
  }

  /** The text a field is shown as, an empty value counting as no text. */
  function Shown(v: Json, py: Builtins): string {
    match v
    case Str(t) => t
    case Null => ""
    case Bool(b) => if b then py.strOf(v) else ""
    case Int(n) => if n != 0 then py.strOf(v) else ""
    case Arr(xs) => if |xs| > 0 then py.strOf(v) else ""
    case Obj(ms) => if |ms| > 0 then py.strOf(v) else ""
  }

  /** The text between its leading and its trailing white space. */
  ghost predicate Trims(text: string, r: string) {
    exists i, j :: 0 <= i <= j <= |text| && TrimsAt(text, i, j, r)
  }

  ghost predicate TrimsAt(text: string, i: nat, j: nat, r: string)
    requires i <= j <= |text|
  {
    && r == text[i..j]
    && (forall k :: 0 <= k < i ==> IsSpace(text[k]))
    && (forall k :: j <= k < |text| ==> IsSpace(text[k]))
    && (r != "" ==> !IsSpace(r[0]) && !IsSpace(r[|r| - 1]))
  }

  ghost predicate Taken(kept: seq<PlanStep>, n: int) {
    exists k :: 0 <= k < |kept| && kept[k].index == n
  }

  ghost predicate KnownAgent(a: string) {
    a in {"strategy", "writer", "editor", "reviewer", "researcher", "fact_checker"}
  }

  /** A dict of a known agent, with an index that no step kept so far goes by. */
  ghost predicate Numbered(entry: Json, kept: seq<PlanStep>, a: string, n: int, py: Builtins) {
    && entry.Obj? && FieldIs(entry.members, "agent_id", Str(a)) && KnownAgent(a)
    && (exists v :: FieldIs(entry.members, "index", v) && GoesBy(v, |kept| + 1, n, py))
    && !Taken(kept, n)
  }

  /** The entry is kept, as this step. */
  ghost predicate Becomes(entry: Json, kept: seq<PlanStep>, s: PlanStep, py: Builtins) {
    && Numbered(entry, kept, s.agentId, s.index, py)
    && (exists v :: FieldIs(entry.members, "inputs_from", v) && RefsReadable(v, py)
          && forall r :: r in s.inputsFrom <==> NamesRef(v, r, py) && r < s.index)
    && (exists v, t :: FieldIs(entry.members, "description", v) && Trims(Shown(v, py), t)
          && s.description == if t == "" then s.agentId + " step" else t)
    && (exists v :: FieldIs(entry.members, "instruction", v) && Trims(Shown(v, py), s.instruction))
  }

  /** The entry is worth a step: a known agent, a free index, references that can be read. */
  ghost predicate Worthy(entry: Json, kept: seq<PlanStep>, py: Builtins) {
    && (exists a, n :: Numbered(entry, kept, a, n, py))
    && exists v :: FieldIs(entry.members, "inputs_from", v) && RefsReadable(v, py)
  }

  /** Reading the entry raises: an agent that cannot be looked up, or references that cannot be read. */
  ghost predicate Breaks(entry: Json, kept: seq<PlanStep>, py: Builtins) {
    && entry.Obj?
    && (|| (exists v :: FieldIs(entry.members, "agent_id", v) && (v.Arr? || v.Obj?))
        || (&& (exists a, n :: Numbered(entry, kept, a, n, py))
            && exists v :: FieldIs(entry.members, "inputs_from", v) && !RefsReadable(v, py)))
  }

  lemma IndexGoesBy(v: Json, next: int, py: Builtins)
    ensures forall n :: PyInt(if Truthy(v) then v else Int(next), py) == Some(n) <==> GoesBy(v, next, n, py)
  {
  }

  lemma TextShown(v: Json, py: Builtins)
    ensures FieldText(v, py) == Strip(Shown(v, py))
  {
  }

  lemma {:induction false} LeftStripCuts(s: string) returns (i: nat)
    ensures i <= |s| && LeftStrip(s) == s[i..] && forall k :: 0 <= k < i ==> IsSpace(s[k])
  {
    i := 0;
    if s != [] && IsSpace(s[0]) {
      i := LeftStripCuts(s[1..]);
      assert s[1..][i..] == s[i + 1..];
      assert forall k :: 1 <= k < i + 1 ==> s[k] == s[1..][k - 1];
      i := i + 1;
    }
  }

  lemma {:induction false} RightStripCuts(s: string) returns (j: nat)
    ensures j <= |s| && RightStrip(s) == s[..j] && forall k :: j <= k < |s| ==> IsSpace(s[k])
  {
    j := |s|;
    if s != [] && IsSpace(s[|s| - 1]) {
      j := RightStripCuts(s[..|s| - 1]);
    }
  }

  lemma StripTrims(text: string)
    ensures forall r :: Trims(text, r) <==> r == Strip(text)
  {
    var i := LeftStripCuts(text);
    var rest := text[i..];
    var j := RightStripCuts(rest);
    LeftStripClean(text);
    RightStripStable(rest);
    assert forall k :: i + j <= k < |text| ==> text[k] == rest[k - i];
    assert text[i..i + j] == rest[..j];
    assert TrimsAt(text, i, i + j, Strip(text));
    forall r | Trims(text, r) ensures r == Strip(text) {
      TrimsOnce(text, r, Strip(text));
    }
  }

  lemma TrimsOnce(text: string, r: string, t: string)
    requires Trims(text, r) && Trims(text, t)
    ensures r == t
  {
    var i, j :| 0 <= i <= j <= |text| && TrimsAt(text, i, j, r);
    var k, l :| 0 <= k <= l <= |text| && TrimsAt(text, k, l, t);
    TrimWithin(text, i, j, r, k, l, t);
    TrimWithin(text, k, l, t, i, j, r);
  }

  /** What one trimming keeps lies within what any other keeps. */
  lemma TrimWithin(text: string, i: nat, j: nat, r: string, k: nat, l: nat, t: string)
    requires i <= j <= |text| && TrimsAt(text, i, j, r) && k <= l <= |text| && TrimsAt(text, k, l, t)
    ensures r != "" ==> k <= i && j <= l
  {
    if r != "" {
      assert r[0] == text[i] && r[|r| - 1] == text[j - 1];
    }
  }

  ghost predicate ReferredIn(xs: seq<Json>, r: int, py: Builtins) {
    exists k :: 0 <= k < |xs| && Refers(xs[k], r, py)
  }

  ghost predicate AllReadable(xs: seq<Json>, py: Builtins) {
    forall k :: 0 <= k < |xs| ==> !BreaksRefs(xs[k], py)
  }

  lemma {:induction false} RefItemsIff(xs: seq<Json>, py: Builtins)
    ensures RefItems(xs, py).Some? <==> AllReadable(xs, py)
    ensures RefItems(xs, py).Some? ==> forall r :: r in RefItems(xs, py).value <==> ReferredIn(xs, r, py)
  {
    if xs != [] {
      RefItemsIff(xs[1..], py);
      RestReadable(xs, py);
      forall r ensures ReferredIn(xs, r, py) <==> Refers(xs[0], r, py) || ReferredIn(xs[1..], r, py) {
        ReferredNext(xs, r, py);
      }
    }
  }

  lemma RestReadable(xs: seq<Json>, py: Builtins)
    requires xs != []
    ensures AllReadable(xs, py) <==> !BreaksRefs(xs[0], py) && AllReadable(xs[1..], py)
  {
    assert forall k :: 1 <= k < |xs| ==> xs[k] == xs[1..][k - 1];
  }

  lemma ReferredNext(xs: seq<Json>, r: int, py: Builtins)
    requires xs != []
    ensures ReferredIn(xs, r, py) <==> Refers(xs[0], r, py) || ReferredIn(xs[1..], r, py)
  {
    if k :| 0 <= k < |xs| && Refers(xs[k], r, py) {
      assert k > 0 ==> xs[k] == xs[1..][k - 1];
    }
    if k :| 0 <= k < |xs| - 1 && Refers(xs[1..][k], r, py) {
      assert xs[k + 1] == xs[1..][k];
    }
  }

  lemma IterateOnce(v: Json, a: seq<Json>, b: seq<Json>)
    requires Iterates(v, a) && Iterates(v, b)
    ensures a == b
  {
  }

  /** What the references of a field are read as. */
  lemma NamedRefsIff(v: Json, py: Builtins)
    ensures NamedRefs(v, py).Some? <==> RefsReadable(v, py)
    ensures NamedRefs(v, py).Some? ==> forall r :: r in NamedRefs(v, py).value <==> NamesRef(v, r, py)
  {
    if items :| Iterates(v, items) {
      assert NamedRefs(v, py) == RefItems(items, py) by {
        match v {
          case Str(t) => IterateOnce(v, items, seq(|t|, i requires 0 <= i < |t| => Str([t[i]])));
          case Obj(ms) => IterateOnce(v, items, seq(|ms|, i requires 0 <= i < |ms| => Str(ms[i].key)));
          case _ =>
        }
      }
      RefItemsIff(items, py);
      ItemsOnly(v, items, py);
    } else if NamedRefs(v, py).Some? {
      SomethingToIterate(v, py);
    }
  }

  lemma SomethingToIterate(v: Json, py: Builtins)
    requires NamedRefs(v, py).Some?
    ensures exists items :: Iterates(v, items)
  {
    var items: seq<Json> :=
      match v
      case Str(t) => seq(|t|, i requires 0 <= i < |t| => Str([t[i]]))
      case Arr(xs) => xs
      case Obj(ms) => seq(|ms|, i requires 0 <= i < |ms| => Str(ms[i].key))
      case _ => [];
    assert Iterates(v, items);
  }

  lemma ItemsOnly(v: Json, items: seq<Json>, py: Builtins)
    requires Iterates(v, items)
    ensures RefsReadable(v, py) <==> AllReadable(items, py)
    ensures forall r :: NamesRef(v, r, py) <==> ReferredIn(items, r, py)
  {
    if RefsReadable(v, py) {
      var xs :| Iterates(v, xs) && forall item :: item in xs ==> !BreaksRefs(item, py);
      IterateOnce(v, xs, items);
    }
    forall r ensures NamesRef(v, r, py) <==> ReferredIn(items, r, py) {
      if NamesRef(v, r, py) {
        var xs, item :| Iterates(v, xs) && item in xs && Refers(item, r, py);
        IterateOnce(v, xs, items);
      }
      if k :| 0 <= k < |items| && Refers(items[k], r, py) {
        assert items[k] in items;
      }
    }
  }

  function OwnIndex(ms: seq<Member>, kept: seq<PlanStep>, py: Builtins): Option<int> {
    PyInt(if Truthy(Get(ms, "index")) then Get(ms, "index") else Int(|kept| + 1), py)
  }

  lemma NumberedIff(entry: Json, kept: seq<PlanStep>, a: string, n: int, py: Builtins)
    requires entry.Obj?
    ensures Numbered(entry, kept, a, n, py) <==>
              && Get(entry.members, "agent_id") == Str(a) && a in AGENT_IDS
              && OwnIndex(entry.members, kept, py) == Some(n) && n !in Indices(kept)
  {
    var ms := entry.members;
    var v := Get(ms, "index");
    FieldIsGet(ms, "agent_id");
    FieldIsGet(ms, "index");
    IndexGoesBy(v, |kept| + 1, py);
    assert FieldIs(ms, "index", v);
    TakenIff(kept, n);
  }

  lemma TakenIff(kept: seq<PlanStep>, n: int)
    ensures Taken(kept, n) <==> n in Indices(kept)
  {
  }

  lemma SomeNumber(entry: Json, kept: seq<PlanStep>, py: Builtins)
    requires entry.Obj?
    ensures (exists a, n :: Numbered(entry, kept, a, n, py)) <==>
              && Get(entry.members, "agent_id").Str? && Get(entry.members, "agent_id").s in AGENT_IDS
              && OwnIndex(entry.members, kept, py).Some? && OwnIndex(entry.members, kept, py).value !in Indices(kept)
  {
    if a, n :| Numbered(entry, kept, a, n, py) {
      NumberedIff(entry, kept, a, n, py);
    }
    match (Get(entry.members, "agent_id"), OwnIndex(entry.members, kept, py)) {
      case (Str(a), Some(n)) => NumberedIff(entry, kept, a, n, py);
      case _ =>
    }
  }

  lemma RefsOfField(ms: seq<Member>, py: Builtins)
    ensures (exists v :: FieldIs(ms, "inputs_from", v) && RefsReadable(v, py)) <==>
              NamedRefs(Get(ms, "inputs_from"), py).Some?
    ensures (exists v :: FieldIs(ms, "inputs_from", v) && !RefsReadable(v, py)) <==>
              NamedRefs(Get(ms, "inputs_from"), py).None?
  {
    FieldIsGet(ms, "inputs_from");
    NamedRefsIff(Get(ms, "inputs_from"), py);
    assert FieldIs(ms, "inputs_from", Get(ms, "inputs_from"));
  }

  /** Whether an entry is kept, and whether reading it raises, said of its JSON. */
  lemma SalvageIff(entry: Json, kept: seq<PlanStep>, py: Builtins)
    ensures SalvageEntry(entry, kept, py).Salvaged? <==> entry.Obj? && Worthy(entry, kept, py)
    ensures SalvageEntry(entry, kept, py).Raises? <==> Breaks(entry, kept, py)
  {
    if entry.Obj? {
      var ms := entry.members;
      FieldIsGet(ms, "agent_id");
      SomeNumber(entry, kept, py);
      RefsOfField(ms, py);
      AgentLookup(ms);
    }
  }

  lemma AgentLookup(ms: seq<Member>)
    ensures (exists v :: FieldIs(ms, "agent_id", v) && (v.Arr? || v.Obj?)) <==>
              Get(ms, "agent_id").Arr? || Get(ms, "agent_id").Obj?
  {
    FieldIsGet(ms, "agent_id");
    assert FieldIs(ms, "agent_id", Get(ms, "agent_id"));
  }

  /** What a kept entry becomes. */
  lemma SalvagedBecomes(entry: Json, kept: seq<PlanStep>, s: PlanStep, py: Builtins)
    requires SalvageEntry(entry, kept, py) == Salvaged(s)
    ensures Becomes(entry, kept, s, py)
  {
    var ms := entry.members;
    NumberedIff(entry, kept, s.agentId, s.index, py);
    var inputs, description, instruction := Get(ms, "inputs_from"), Get(ms, "description"), Get(ms, "instruction");
    FieldIsGet(ms, "inputs_from");
    FieldIsGet(ms, "description");
    FieldIsGet(ms, "instruction");
    NamedRefsIff(inputs, py);
    TextShown(description, py);
    TextShown(instruction, py);
    StripTrims(Shown(description, py));
    StripTrims(Shown(instruction, py));
    assert FieldIs(ms, "inputs_from", inputs) && RefsReadable(inputs, py);
    assert FieldIs(ms, "description", description);
    assert Trims(Shown(description, py), Strip(Shown(description, py)));
    assert FieldIs(ms, "instruction", instruction) && Trims(Shown(instruction, py), s.instruction);
  }

  // ---- the run over the entries --------------------------------------------------------

  /** Reached with these steps kept, the entry is passed over. */
  ghost predicate PassedOver(entry: Json, kept: seq<PlanStep>, py: Builtins) {
    !(entry.Obj? && Worthy(entry, kept, py)) && !Breaks(entry, kept, py)
  }

  ghost function Becoming(py: Builtins): (Json, seq<PlanStep>, PlanStep) -> bool {
    (entry: Json, kept: seq<PlanStep>, s: PlanStep) => Becomes(entry, kept, s, py)
  }

  ghost function Passing(py: Builtins): (Json, seq<PlanStep>) -> bool {
    (entry: Json, kept: seq<PlanStep>) => PassedOver(entry, kept, py)
  }

  /** The entries at the positions `at`, and no others, are kept, and as these steps. */
  ghost predicate Selects(entries: seq<Json>, at: seq<nat>, kept: seq<PlanStep>, py: Builtins) {
    Picks(entries, at, kept, Becoming(py), Passing(py))
  }

  lemma SelectsOneMore(front: seq<Json>, e: Json, at: seq<nat>, kept: seq<PlanStep>, s: PlanStep, py: Builtins)
    requires Selects(front, at, kept, py) && SalvageEntry(e, kept, py) == Salvaged(s)
    ensures Selects(front + [e], at + [|front|], kept + [s], py)
  {
    SalvagedBecomes(e, kept, s, py);
    PicksOneMore(front, e, at, kept, s, Becoming(py), Passing(py));
  }

  lemma SelectsNoMore(front: seq<Json>, e: Json, at: seq<nat>, kept: seq<PlanStep>, py: Builtins)
    requires Selects(front, at, kept, py) && SalvageEntry(e, kept, py) == Unsalvageable
    ensures Selects(front + [e], at, kept, py)
  {
    SalvageIff(e, kept, py);
    PicksNoMore(front, e, at, kept, Becoming(py), Passing(py));
  }

  /** Salvaging stops at this entry: with the steps kept before it, reading it raises. */
  ghost predicate BreaksAt(entries: seq<Json>, i: nat, py: Builtins) {
    i < |entries| && exists at, kept :: Selects(entries[..i], at, kept, py) && Breaks(entries[i], kept, py)
  }

  /** What salvaging a list of entries comes to. */
  ghost predicate ComesTo(entries: seq<Json>, r: Option<seq<PlanStep>>, py: Builtins) {
    match r
    case Some(kept) => exists at :: Selects(entries, at, kept, py)
    case None => exists i :: BreaksAt(entries, i, py)
  }

  lemma {:induction false} SalvageRun(
      front: seq<Json>, entries: seq<Json>, at: seq<nat>, kept: seq<PlanStep>, py: Builtins)
    requires Selects(front, at, kept, py)
    ensures ComesTo(front + entries, SalvageAll(entries, kept, py), py)
    decreases |entries|
  {
    if entries == [] {
      assert front + entries == front;
    } else {
      var e := entries[0];
      assert front + entries == front + [e] + entries[1..];
      match SalvageEntry(e, kept, py) {
        case Raises =>
          SalvageIff(e, kept, py);
          assert (front + entries)[..|front|] == front;
          assert BreaksAt(front + entries, |front|, py);
        case Unsalvageable =>
          SelectsNoMore(front, e, at, kept, py);
          assert SalvageAll(entries, kept, py) == SalvageAll(entries[1..], kept, py);
          SalvageRun(front + [e], entries[1..], at, kept, py);
        case Salvaged(s) =>
          SelectsOneMore(front, e, at, kept, s, py);
          assert SalvageAll(entries, kept, py) == SalvageAll(entries[1..], kept + [s], py);
          SalvageRun(front + [e], entries[1..], at + [|front|], kept + [s], py);
      }
    }
  }

  /** The steps agree in everything but the order in which they list their references. */
  ghost predicate Alike(a: seq<PlanStep>, b: seq<PlanStep>) {
    |a| == |b| && forall k :: 0 <= k < |a| ==> AlikeSteps(a[k], b[k])
  }

  ghost predicate AlikeSteps(s: PlanStep, t: PlanStep) {
    && s.index == t.index && s.agentId == t.agentId
    && s.description == t.description && s.instruction == t.instruction
    && forall r :: r in s.inputsFrom <==> r in t.inputsFrom
  }

  /** What an entry becomes depends on the steps before it only through their indices. */
  lemma BecomesOnce(entry: Json, a: seq<PlanStep>, b: seq<PlanStep>, s: PlanStep, py: Builtins)
    requires Alike(a, b) && Becomes(entry, a, s, py)
    ensures SalvageEntry(entry, b, py).Salvaged? && AlikeSteps(s, SalvageEntry(entry, b, py).step)
  {
    SameNumber(entry, a, b, s.agentId, s.index, py);
    assert Worthy(entry, b, py);
    SalvageIff(entry, b, py);
    var t := SalvageEntry(entry, b, py).step;
    SalvagedBecomes(entry, b, t, py);
    NumberedIff(entry, b, t.agentId, t.index, py);
    NumberedIff(entry, b, s.agentId, s.index, py);
    SameFields(entry, a, b, s, t, py);
  }

  lemma SameNumber(
      entry: Json, a: seq<PlanStep>, b: seq<PlanStep>, agent: string, n: int, py: Builtins)
    requires Alike(a, b)
    ensures Numbered(entry, a, agent, n, py) <==> Numbered(entry, b, agent, n, py)
  {
    if k :| 0 <= k < |a| && a[k].index == n {
      assert AlikeSteps(a[k], b[k]);
    }
    if k :| 0 <= k < |b| && b[k].index == n {
      assert AlikeSteps(a[k], b[k]);
    }
    assert Taken(a, n) <==> Taken(b, n);
  }

  lemma SameFields(entry: Json, a: seq<PlanStep>, b: seq<PlanStep>, s: PlanStep, t: PlanStep, py: Builtins)
    requires Becomes(entry, a, s, py) && Becomes(entry, b, t, py)
    requires s.agentId == t.agentId && s.index == t.index
    ensures AlikeSteps(s, t)
  {
    var ms := entry.members;
    FieldIsGet(ms, "inputs_from");
    FieldIsGet(ms, "description");
    FieldIsGet(ms, "instruction");
    StripTrims(Shown(Get(ms, "description"), py));
    StripTrims(Shown(Get(ms, "instruction"), py));
  }

  lemma SameFate(entry: Json, a: seq<PlanStep>, b: seq<PlanStep>, py: Builtins)
    requires Alike(a, b)
    ensures Worthy(entry, a, py) <==> Worthy(entry, b, py)
    ensures Breaks(entry, a, py) <==> Breaks(entry, b, py)
  {
    if agent, n :| Numbered(entry, a, agent, n, py) {
      SameNumber(entry, a, b, agent, n, py);
    }
    if agent, n :| Numbered(entry, b, agent, n, py) {
      SameNumber(entry, a, b, agent, n, py);
    }
  }

  lemma {:induction false} SalvageAllSnoc(entries: seq<Json>, e: Json, kept: seq<PlanStep>, py: Builtins)
    ensures SalvageAll(entries + [e], kept, py)
         == match SalvageAll(entries, kept, py)
            case None => None
            case Some(all) =>
              (match SalvageEntry(e, all, py)
               case Raises => None
               case Unsalvageable => Some(all)
               case Salvaged(s) => Some(all + [s]))
  {
    if entries == [] {
      assert entries + [e] == [e] && [e][1..] == [];
    } else {
      assert (entries + [e])[0] == entries[0] && (entries + [e])[1..] == entries[1..] + [e];
      match SalvageEntry(entries[0], kept, py) {
        case Raises =>
        case Unsalvageable => SalvageAllSnoc(entries[1..], e, kept, py);
        case Salvaged(s) => SalvageAllSnoc(entries[1..], e, kept + [s], py);
      }
    }
  }

  ghost predicate Salvages(entries: seq<Json>, kept: seq<PlanStep>, py: Builtins) {
    SalvageAll(entries, [], py).Some? && Alike(kept, SalvageAll(entries, [], py).value)
  }

  /** However a selection is written down, salvaging the entries keeps those steps. */
  lemma {:induction false} SelectionIsSalvaged(entries: seq<Json>, at: seq<nat>, kept: seq<PlanStep>, py: Builtins)
    requires Selects(entries, at, kept, py)
    ensures Salvages(entries, kept, py)
    decreases |entries|
  {
    if entries == [] {
      NothingPicked(at, kept, Becoming(py), Passing(py));
    } else {
      var front, e := entries[..|entries| - 1], entries[|entries| - 1];
      assert entries == front + [e];
      var places, steps := LastPicked(front, e, at, kept, Becoming(py), Passing(py));
      SelectionIsSalvaged(front, places, steps, py);
      if steps == kept {
        LastIsPassedOver(front, e, steps, py);
      } else {
        LastIsKept(front, e, steps, kept[|steps|], py);
      }
    }
  }

  lemma LastIsKept(front: seq<Json>, e: Json, kept: seq<PlanStep>, s: PlanStep, py: Builtins)
    requires Salvages(front, kept, py)
    requires Becomes(e, kept, s, py)
    ensures Salvages(front + [e], kept + [s], py)
  {
    SalvageAllSnoc(front, e, [], py);
    BecomesOnce(e, kept, SalvageAll(front, [], py).value, s, py);
  }

  lemma LastIsPassedOver(front: seq<Json>, e: Json, kept: seq<PlanStep>, py: Builtins)
    requires Salvages(front, kept, py)
    requires PassedOver(e, kept, py)
    ensures Salvages(front + [e], kept, py)
  {
    var all := SalvageAll(front, [], py).value;
    SalvageAllSnoc(front, e, [], py);
    SameFate(e, kept, all, py);
    SalvageIff(e, all, py);
  }

  /** A break excludes every selection of the whole list. */
  lemma BreakEndsSalvage(entries: seq<Json>, i: nat, py: Builtins)
    requires BreaksAt(entries, i, py)
    ensures SalvageAll(entries, [], py) == None
  {
    var at, kept :| Selects(entries[..i], at, kept, py) && Breaks(entries[i], kept, py);
    SelectionIsSalvaged(entries[..i], at, kept, py);
    BreaksAfter(entries[..i], entries[i], kept, py);
    assert entries == entries[..i] + [entries[i]] + entries[i + 1..];
    NoneStaysNone(entries[..i] + [entries[i]], entries[i + 1..], [], py);
  }

  lemma BreaksAfter(front: seq<Json>, e: Json, kept: seq<PlanStep>, py: Builtins)
    requires Salvages(front, kept, py) && Breaks(e, kept, py)
    ensures SalvageAll(front + [e], [], py) == None
  {
    var all := SalvageAll(front, [], py).value;
    SameFate(e, kept, all, py);
    SalvageIff(e, all, py);
    SalvageAllSnoc(front, e, [], py);
  }

  lemma {:induction false} NoneStaysNone(entries: seq<Json>, more: seq<Json>, kept: seq<PlanStep>, py: Builtins)
    requires SalvageAll(entries, kept, py) == None
    ensures SalvageAll(entries + more, kept, py) == None
  {
    assert (entries + more)[0] == entries[0] && (entries + more)[1..] == entries[1..] + more;
    match SalvageEntry(entries[0], kept, py) {
      case Raises =>
      case Unsalvageable => NoneStaysNone(entries[1..], more, kept, py);
      case Salvaged(s) => NoneStaysNone(entries[1..], more, kept + [s], py);
    }
  }

  /**
   * The kept steps in order of their index, numbered from 1; `from` says where each was kept. A step
   * keeps an edge to exactly the steps whose old index it names.
   */
  ghost predicate Renumbered(kept: seq<PlanStep>, from: seq<nat>, steps: seq<PlanStep>) {
    && |from| == |kept| == |steps|
    && (forall i :: 0 <= i < |from| ==> RenumberedAt(kept, from, steps, i))
    && forall i, j :: 0 <= i < j < |from| ==> Earlier(kept, from[i], from[j])
  }

  ghost predicate RenumberedAt(kept: seq<PlanStep>, from: seq<nat>, steps: seq<PlanStep>, i: nat)
    requires i < |from| == |kept| == |steps|
  {
    && from[i] < |kept|
    && var (s, t) := (kept[from[i]], steps[i]);
    && t.index == i + 1 && t.agentId == s.agentId && t.description == s.description && t.instruction == s.instruction
    && Ascending(t.inputsFrom)
    && forall n :: n in t.inputsFrom <==> 1 <= n <= |from| && NamesPlace(kept, from, n - 1, s.inputsFrom)
  }

  ghost predicate NamesPlace(kept: seq<PlanStep>, from: seq<nat>, j: nat, refs: seq<int>)
    requires j < |from|
  {
    from[j] < |kept| && kept[from[j]].index in refs
  }

  lemma RenumberRenumbers(kept: seq<PlanStep>, from: seq<nat>)
    requires StableOrder(kept, from, SortByIndex(kept)) && StrictlyAscending(SortByIndex(kept))
    requires forall s :: s in SortByIndex(kept) ==> forall r :: r in s.inputsFrom ==> r < s.index
    ensures Renumbered(kept, from, Renumber(SortByIndex(kept)))
  {
    var sorted := SortByIndex(kept);
    var steps := Renumber(sorted);
    forall i | 0 <= i < |from| ensures RenumberedAt(kept, from, steps, i) {
      assert sorted[i] in sorted;
      RemapMembers(sorted, sorted[i].inputsFrom, i + 1);
    }
  }

  /**
   * What coercion makes of a list, said of its first eight entries: it raises exactly when one of
   * them breaks it, keeps nothing exactly when all are passed over, and otherwise numbers the steps
   * the selected entries become.
   */
  lemma CoercionOfEntries(payload: Json, xs: seq<Json>, py: Builtins)
    requires Carries(payload, xs)
    ensures var entries := if |xs| > 8 then xs[..8] else xs;
            && (CoerceSteps(payload, py).CoerceRaised? <==> exists i :: BreaksAt(entries, i, py))
            && (CoerceSteps(payload, py).CoerceNothing? <==> Selects(entries, [], [], py))
            && (CoerceSteps(payload, py).Kept? ==> exists at, kept, from ::
                  && kept != [] && Selects(entries, at, kept, py)
                  && Renumbered(kept, from, CoerceSteps(payload, py).steps))
  {
    var entries := FirstEntries(xs);
    UnwrapFinds(payload);
    assert Survivors(payload, py) == SalvageAll(entries, [], py);
    assert Selects([], [], [], py);
    SalvageRun([], entries, [], [], py);
    assert [] + entries == entries;
    if i :| BreaksAt(entries, i, py) {
      BreakEndsSalvage(entries, i, py);
    }
    if Selects(entries, [], [], py) {
      SelectionIsSalvaged(entries, [], [], py);
    }
    match SalvageAll(entries, [], py) {
      case None =>
      case Some(kept) =>
        var at :| Selects(entries, at, kept, py);
        if kept != [] {
          var from := SortIsStable(kept);
          SurvivorsShape(payload, py);
          RenumberRenumbers(kept, from);
        }
    }
  }
}
