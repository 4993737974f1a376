/**
 * Keyed writes: the ledger row is claimed before the write and completed after it, so a key whose
 * write has returned only ever replays. A write that raises gives its key back, whether or not it
 * took effect before. A key names a request, never its arguments; the stored hash of the arguments
 * is read as an injective function of their canonical text.
 */
module Idempotency {
  import opened Wrappers
  import opened JsonValues
  import opened CanonicalJson

  datatype Scope =
    | ContentCreate | ContentRefine | CalendarCommit | PublicationCreate | PublicationExecute | MemoryMutation

  datatype Key = Key(scope: Scope, key: string)

  datatype Status = InProgress | Completed | Failed

  datatype Record = Record(text: string, status: Status, result: Option<Json>)

  type Ledger = map<Key, Record>

  datatype Claim = Claimed | Replay(result: Option<Json>) | InFlight | Conflict

  // ---- the ledger ----------------------------------------------------------------------

  /** The insert under the unique constraint; the loser reads the surviving row. */
  function ClaimKey(ledger: Ledger, k: Key, text: string): (Claim, Ledger) {
    if k !in ledger then (Claimed, ledger[k := Record(text, InProgress, None)])
    else
      var r := ledger[k];
      if r.status != Failed && r.text != text then (Conflict, ledger)
      else match r.status
           case Completed => (Replay(r.result), ledger)
           case Failed => (Claimed, ledger[k := Record(text, InProgress, None)])
           case InProgress => (InFlight, ledger)
  }

  function CompleteKey(ledger: Ledger, k: Key, result: Json): Ledger {
    if k in ledger && ledger[k].status == InProgress
    then ledger[k := ledger[k].(status := Completed, result := Some(result))]
    else ledger
  }

  function FailKey(ledger: Ledger, k: Key): Ledger {
    if k in ledger && ledger[k].status == InProgress then ledger[k := ledger[k].(status := Failed)] else ledger
  }

  /** A reused key is refused exactly when the earlier request stands and asked for something else. */
  lemma ConflictIff(ledger: Ledger, k: Key, first: Args, args: Args)
    requires k in ledger && ledger[k].text == Canonical(first)
    ensures ClaimKey(ledger, k, Canonical(args)).0.Conflict? <==>
              ledger[k].status != Failed && Meaning(args) != Meaning(first)
  {
    CanonicalIffSameMeaning(args, first);
  }

  // ---- requests in flight -----------------------------------------------------------------

  datatype Pc =
    | Arrived
    | Writing                       // claimed, the write is running
    | Wrote(result: Json)           // the write returned, not completed yet
    | Raising(landed: bool)         // the write raised, after taking effect or not; not released yet
    | Returned(answer: Option<Json>)
    | Refused

  /** `k` is None for a request without a key, or with an empty one. */
  datatype Request = Request(k: Option<Key>, args: Args, text: string, pc: Pc)

  type CallId = nat

  /** A write that returned, under its key. */
  datatype Done = Done(k: Key, text: string, result: Json)

  /** `effects`: the keyed writes that took effect; `released`: the keys given back after an effect. */
  datatype World = World(
    ledger: Ledger, calls: map<CallId, Request>, done: seq<Done>, effects: multiset<Key>, released: multiset<Key>)

  datatype Move =
    | Arrive(c: CallId, k: Option<Key>, args: Args)
    | TakeKey(c: CallId)
    | WriteReturns(c: CallId, result: Json)
    | WriteRaises(c: CallId, landed: bool)
    | Complete(c: CallId)
    | Release(c: CallId)
    | Crash(c: CallId, landed: bool)

  predicate Enabled(w: World, m: Move) {
    match m
    case Arrive(c, k, _) => c !in w.calls && (k.Some? ==> k.value.key != "")
    case TakeKey(c) => c in w.calls && w.calls[c].pc.Arrived?
    case WriteReturns(c, _) => c in w.calls && w.calls[c].pc.Writing?
    case WriteRaises(c, _) => c in w.calls && w.calls[c].pc.Writing?
    case Complete(c) => c in w.calls && w.calls[c].pc.Wrote?
    case Release(c) => c in w.calls && w.calls[c].pc.Raising?
    case Crash(c, landed) => c in w.calls && (landed ==> w.calls[c].pc.Writing?)
  }

  /** The effects, with one more of a keyed request if its write has landed. */
  function Took(effects: multiset<Key>, r: Request, landed: bool): multiset<Key> {
    if landed && r.k.Some? then effects + multiset{r.k.value} else effects
  }

  function Go(w: World, c: CallId, pc: Pc): World
    requires c in w.calls
  {
    w.(calls := w.calls[c := w.calls[c].(pc := pc)])
  }

  function AfterClaim(claim: Claim): Pc {
    match claim
    case Claimed => Writing
    case Replay(result) => Returned(result)
    case InFlight => Refused
    case Conflict => Refused
  }

  function Apply(w: World, m: Move): World
    requires Enabled(w, m)
  {
    match m
    case Arrive(c, k, args) => w.(calls := w.calls[c := Request(k, args, Canonical(args), Arrived)])
    case TakeKey(c) =>
      if w.calls[c].k == None then Go(w, c, Writing)
      else
        var (claim, ledger) := ClaimKey(w.ledger, w.calls[c].k.value, w.calls[c].text);
        Go(w, c, AfterClaim(claim)).(ledger := ledger)
    case WriteReturns(c, result) =>
      if w.calls[c].k == None then Go(w, c, Returned(Some(result)))
      else Go(w, c, Wrote(result)).(done := w.done + [Done(w.calls[c].k.value, w.calls[c].text, result)],
                                    effects := Took(w.effects, w.calls[c], true))
    case WriteRaises(c, landed) =>
      if w.calls[c].k == None then Go(w, c, Refused)
      else Go(w, c, Raising(landed)).(effects := Took(w.effects, w.calls[c], landed))
    case Complete(c) =>
      if w.calls[c].k == None then w
      else Go(w, c, Returned(Some(w.calls[c].pc.result)))
             .(ledger := CompleteKey(w.ledger, w.calls[c].k.value, w.calls[c].pc.result))
    case Release(c) =>
      if w.calls[c].k == None then w
      else Go(w, c, Refused).(ledger := FailKey(w.ledger, w.calls[c].k.value),
                              released := Took(w.released, w.calls[c], w.calls[c].pc.landed))
    case Crash(c, landed) => w.(calls := w.calls - {c}, effects := Took(w.effects, w.calls[c], landed))
  }

  // ---- what every move keeps --------------------------------------------------------------

  predicate Holds(r: Request) {
    r.k.Some? && (r.pc.Writing? || r.pc.Wrote? || r.pc.Raising?)
  }

  /** A request between claim and completion owns its row, alone. */
  ghost predicate HoldersOk(w: World) {
    && (forall c :: c in w.calls && Holds(w.calls[c]) ==> OwnsRow(w.ledger, w.calls[c]))
    && (forall c, d :: c in w.calls && d in w.calls && c != d && Holds(w.calls[c]) && Holds(w.calls[d]) ==>
          w.calls[c].k != w.calls[d].k)
  }

  predicate OwnsRow(ledger: Ledger, r: Request)
    requires r.k.Some?
  {
    r.k.value in ledger && ledger[r.k.value].status == InProgress && ledger[r.k.value].text == r.text
  }

  ghost predicate Undone(done: seq<Done>, k: Key) {
    forall i :: 0 <= i < |done| ==> done[i].k != k
  }

  /** What has been written: one entry a key, under a row that is not open to another attempt. */
  ghost predicate WrittenOnce(w: World) {
    && (forall i, j :: 0 <= i < j < |w.done| ==> w.done[i].k != w.done[j].k)
    && (forall i :: 0 <= i < |w.done| ==> w.done[i].k in w.ledger && w.ledger[w.done[i].k].status != Failed)
  }

  ghost predicate CompletedOk(w: World) {
    forall k :: k in w.ledger && w.ledger[k].status == Completed ==>
      w.ledger[k].result.Some? && Done(k, w.ledger[k].text, w.ledger[k].result.value) in w.done
  }

  /** A holder has written exactly when it says so. */
  ghost predicate HoldersTell(w: World) {
    forall c :: c in w.calls && Holds(w.calls[c]) ==> Tells(w.done, w.calls[c])
  }

  ghost predicate Tells(done: seq<Done>, r: Request)
    requires r.k.Some?
  {
    if r.pc.Wrote? then Done(r.k.value, r.text, r.pc.result) in done else Undone(done, r.k.value)
  }

  ghost predicate DoneOk(w: World) {
    WrittenOnce(w) && CompletedOk(w) && HoldersTell(w)
  }

  /** Whoever got an answer under a key got the result of its one write, for the arguments of that write. */
  ghost predicate AnswersOk(w: World) {
    forall c :: c in w.calls && w.calls[c].k.Some? && w.calls[c].pc.Returned? ==> AnswerOk(w.done, w.calls[c])
  }

  ghost predicate AnswerOk(done: seq<Done>, r: Request)
    requires r.k.Some? && r.pc.Returned?
  {
    r.pc.answer.Some? && Done(r.k.value, r.text, r.pc.answer.value) in done
  }

  ghost predicate RequestsOk(w: World) {
    forall c :: c in w.calls ==> RequestOk(w.calls[c])
  }

  ghost predicate RequestOk(r: Request) {
    r.text == Canonical(r.args) && (r.k == None ==> !r.pc.Wrote? && !r.pc.Raising?)
  }

  predicate Free(ledger: Ledger, k: Key) {
    k !in ledger || ledger[k].status == Failed
  }

  /** The effects of a key: one for every time it was given back after an effect, and at most one more. */
  ghost predicate Accounted(w: World, k: Key) {
    && w.released[k] <= w.effects[k] <= w.released[k] + 1
    && (Free(w.ledger, k) ==> w.effects[k] == w.released[k])
    && (k in w.ledger && w.ledger[k].status == Completed ==> w.effects[k] == w.released[k] + 1)
  }

  /** A holder's own write has taken effect or not, as it knows itself. */
  ghost predicate HolderAccounted(w: World, r: Request)
    requires Holds(r)
  {
    w.effects[r.k.value] == w.released[r.k.value] + if HasLanded(r.pc) then 1 else 0
  }

  predicate HasLanded(pc: Pc) {
    pc.Wrote? || pc == Raising(true)
  }

  ghost predicate EffectsOk(w: World) {
    && (forall k :: Accounted(w, k))
    && (forall c :: c in w.calls && Holds(w.calls[c]) ==> HolderAccounted(w, w.calls[c]))
  }

  ghost predicate Inv(w: World) {
    RequestsOk(w) && HoldersOk(w) && DoneOk(w) && AnswersOk(w) && EffectsOk(w)
  }

  lemma MovesKeepRequests(w: World, m: Move)
    requires RequestsOk(w) && Enabled(w, m)
    ensures RequestsOk(Apply(w, m))
  {
    MovesAreLocal(w, m);
    forall c | c in Apply(w, m).calls ensures RequestOk(Apply(w, m).calls[c]) {
      if c == m.c && !m.Arrive? {
        assert RequestOk(w.calls[c]);
      }
    }
  }

  /** A move touches one request, and in the ledger at most that request's key. */
  ghost predicate Local(w: World, v: World, c: CallId) {
    && (forall d :: d != c ==> SameCall(w.calls, v.calls, d))
    && (forall k :: !(c in w.calls && w.calls[c].k == Some(k)) ==> SameRow(w.ledger, v.ledger, k))
  }

  ghost predicate SameCall(before: map<CallId, Request>, after: map<CallId, Request>, d: CallId) {
    (d in after <==> d in before) && (d in before ==> after[d] == before[d])
  }

  ghost predicate SameRow(before: Ledger, after: Ledger, k: Key) {
    (k in after <==> k in before) && (k in before ==> after[k] == before[k])
  }

  lemma MovesAreLocal(w: World, m: Move)
    requires Enabled(w, m)
    ensures Local(w, Apply(w, m), m.c)
  {
    var v := Apply(w, m);
    forall d | d != m.c ensures SameCall(w.calls, v.calls, d) {
    }
    forall k | !(m.c in w.calls && w.calls[m.c].k == Some(k)) ensures SameRow(w.ledger, v.ledger, k) {
    }
  }

  /** A request that holds its key after its own move held it before, or has just claimed a free one. */
  lemma MovingHolder(w: World, m: Move)
    requires HoldersOk(w) && Enabled(w, m) && m.c in Apply(w, m).calls && Holds(Apply(w, m).calls[m.c])
    ensures m.c in w.calls && Apply(w, m).calls[m.c].k == w.calls[m.c].k
    ensures OwnsRow(Apply(w, m).ledger, Apply(w, m).calls[m.c])
    ensures Holds(w.calls[m.c])
         || w.calls[m.c].k.value !in w.ledger || w.ledger[w.calls[m.c].k.value].status == Failed
  {
  }

  lemma MovesKeepHolders(w: World, m: Move)
    requires HoldersOk(w) && Enabled(w, m)
    ensures HoldersOk(Apply(w, m))
  {
    var v := Apply(w, m);
    forall c | c in v.calls && Holds(v.calls[c]) ensures OwnsRow(v.ledger, v.calls[c]) {
      HolderAfter(w, m, c);
    }
    forall c, d | c in v.calls && d in v.calls && c != d && Holds(v.calls[c]) && Holds(v.calls[d])
      ensures v.calls[c].k != v.calls[d].k
    {
      HolderAfter(w, m, c);
      HolderAfter(w, m, d);
    }
  }

  lemma HolderAfter(w: World, m: Move, c: CallId)
    requires HoldersOk(w) && Enabled(w, m) && c in Apply(w, m).calls && Holds(Apply(w, m).calls[c])
    ensures OwnsRow(Apply(w, m).ledger, Apply(w, m).calls[c])
    ensures c != m.c ==> c in w.calls && Apply(w, m).calls[c] == w.calls[c]
    ensures c != m.c && m.c in Apply(w, m).calls && Holds(Apply(w, m).calls[m.c]) ==>
              Apply(w, m).calls[m.c].k != Apply(w, m).calls[c].k
  {
    if c == m.c {
      MovingHolder(w, m);
    } else {
      MovesAreLocal(w, m);
      assert SameCall(w.calls, Apply(w, m).calls, c);
      OtherHolder(w, m, c);
    }
  }

  /** Nobody else can move a key while it is held. */
  lemma OtherHolder(w: World, m: Move, c: CallId)
    requires HoldersOk(w) && Enabled(w, m) && c != m.c && c in w.calls && Holds(w.calls[c])
    ensures OwnsRow(Apply(w, m).ledger, w.calls[c])
    ensures m.c in Apply(w, m).calls && Holds(Apply(w, m).calls[m.c]) ==> Apply(w, m).calls[m.c].k != w.calls[c].k
  {
    MovesAreLocal(w, m);
    if m.c in Apply(w, m).calls && Holds(Apply(w, m).calls[m.c]) {
      MovingHolder(w, m);
    }
  }

  lemma MovesWriteOnce(w: World, m: Move)
    requires HoldersOk(w) && DoneOk(w) && Enabled(w, m)
    ensures WrittenOnce(Apply(w, m))
  {
    var v := Apply(w, m);
    if m.WriteReturns? && w.calls[m.c].k.Some? {
      assert Tells(w.done, w.calls[m.c]) && OwnsRow(w.ledger, w.calls[m.c]);
    }
    forall i | 0 <= i < |v.done| ensures v.done[i].k in v.ledger && v.ledger[v.done[i].k].status != Failed {
      DoneRowStays(w, m, i);
    }
  }

  /** The row of a key that has been written is not given back. */
  lemma DoneRowStays(w: World, m: Move, i: nat)
    requires HoldersOk(w) && DoneOk(w) && Enabled(w, m) && i < |Apply(w, m).done|
    ensures var v := Apply(w, m); v.done[i].k in v.ledger && v.ledger[v.done[i].k].status != Failed
  {
    if m.c in w.calls && Holds(w.calls[m.c]) {
      assert OwnsRow(w.ledger, w.calls[m.c]) && Tells(w.done, w.calls[m.c]);
    }
  }

  lemma MovesKeepCompleted(w: World, m: Move)
    requires HoldersOk(w) && DoneOk(w) && Enabled(w, m)
    ensures CompletedOk(Apply(w, m))
  {
  }

  lemma MovesTell(w: World, m: Move)
    requires HoldersOk(w) && DoneOk(w) && Enabled(w, m)
    ensures HoldersTell(Apply(w, m))
  {
    var v := Apply(w, m);
    MovesAreLocal(w, m);
    forall c | c in v.calls && Holds(v.calls[c]) ensures Tells(v.done, v.calls[c]) {
      if c == m.c {
        MovingHolder(w, m);
      } else {
        OtherHolder(w, m, c);
      }
    }
  }

  lemma MovesKeepDone(w: World, m: Move)
    requires HoldersOk(w) && DoneOk(w) && Enabled(w, m)
    ensures DoneOk(Apply(w, m))
  {
    MovesWriteOnce(w, m);
    MovesKeepCompleted(w, m);
    MovesTell(w, m);
  }

  lemma MovesKeepAnswers(w: World, m: Move)
    requires HoldersOk(w) && DoneOk(w) && AnswersOk(w) && Enabled(w, m)
    ensures AnswersOk(Apply(w, m))
  {
    var v := Apply(w, m);
    MovesAreLocal(w, m);
    forall c | c in v.calls && v.calls[c].k.Some? && v.calls[c].pc.Returned? ensures AnswerOk(v.done, v.calls[c]) {
      if c == m.c {
        NewAnswer(w, m);
      } else {
        assert w.calls[c] == v.calls[c];
      }
    }
  }

  /** An answer just given is the result recorded for the key, or the one the holder has written. */
  lemma NewAnswer(w: World, m: Move)
    requires HoldersOk(w) && DoneOk(w) && AnswersOk(w) && Enabled(w, m) && m.c in Apply(w, m).calls
    requires Apply(w, m).calls[m.c].k.Some? && Apply(w, m).calls[m.c].pc.Returned?
    ensures AnswerOk(Apply(w, m).done, Apply(w, m).calls[m.c])
  {
  }

  /** A move adds effects and releases of the moving request's key only. */
  lemma CountsElsewhere(w: World, m: Move, k: Key)
    requires Enabled(w, m) && !(m.c in w.calls && w.calls[m.c].k == Some(k))
    ensures Apply(w, m).effects[k] == w.effects[k] && Apply(w, m).released[k] == w.released[k]
  {
  }

  /** While another request holds the key, a move leaves its counts alone. */
  lemma CountsOfHeld(w: World, m: Move, c: CallId)
    requires HoldersOk(w) && RequestsOk(w) && Enabled(w, m) && c != m.c && c in w.calls && Holds(w.calls[c])
    ensures Apply(w, m).effects[w.calls[c].k.value] == w.effects[w.calls[c].k.value]
    ensures Apply(w, m).released[w.calls[c].k.value] == w.released[w.calls[c].k.value]
  {
    if m.c in w.calls && w.calls[m.c].k == w.calls[c].k {
      assert RequestOk(w.calls[m.c]) && !Holds(w.calls[m.c]);
    } else {
      CountsElsewhere(w, m, w.calls[c].k.value);
    }
  }

  lemma MoverAccounted(w: World, m: Move, k: Key)
    requires HoldersOk(w) && RequestsOk(w) && EffectsOk(w) && Enabled(w, m)
    requires m.c in w.calls && w.calls[m.c].k == Some(k)
    ensures Accounted(Apply(w, m), k)
    ensures m.c in Apply(w, m).calls && Holds(Apply(w, m).calls[m.c]) ==>
              HolderAccounted(Apply(w, m), Apply(w, m).calls[m.c])
  {
    assert Accounted(w, k) && RequestOk(w.calls[m.c]);
    if Holds(w.calls[m.c]) {
      assert OwnsRow(w.ledger, w.calls[m.c]) && HolderAccounted(w, w.calls[m.c]);
    }
  }

  lemma MovesKeepEffects(w: World, m: Move)
    requires HoldersOk(w) && RequestsOk(w) && EffectsOk(w) && Enabled(w, m)
    ensures EffectsOk(Apply(w, m))
  {
    var v := Apply(w, m);
    MovesAreLocal(w, m);
    forall k ensures Accounted(v, k) {
      assert Accounted(w, k);
      if m.c in w.calls && w.calls[m.c].k == Some(k) {
        MoverAccounted(w, m, k);
      } else {
        CountsElsewhere(w, m, k);
        assert SameRow(w.ledger, v.ledger, k);
      }
    }
    forall c | c in v.calls && Holds(v.calls[c]) ensures HolderAccounted(v, v.calls[c]) {
      if c == m.c {
        MovingHolder(w, m);
        MoverAccounted(w, m, w.calls[c].k.value);
      } else {
        assert SameCall(w.calls, v.calls, c);
        CountsOfHeld(w, m, c);
      }
    }
  }

  lemma MovesKeepInv(w: World, m: Move)
    requires Inv(w) && Enabled(w, m)
    ensures Inv(Apply(w, m))
  {
    MovesKeepEffects(w, m);
    MovesKeepRequests(w, m);
    MovesKeepHolders(w, m);
    MovesKeepDone(w, m);
    MovesKeepAnswers(w, m);
  }

  // ---- runs -----------------------------------------------------------------------------------

  const EMPTY := World(map[], map[], [], multiset{}, multiset{})

  ghost predicate StepAt(worlds: seq<World>, moves: seq<Move>, k: nat)
    requires |worlds| == |moves| + 1 && k < |moves|
  {
    Enabled(worlds[k], moves[k]) && worlds[k + 1] == Apply(worlds[k], moves[k])
  }

  ghost predicate IsRunFrom(w: World, worlds: seq<World>, moves: seq<Move>) {
    && |worlds| == |moves| + 1 && worlds[0] == w
    && forall k :: 0 <= k < |moves| ==> StepAt(worlds, moves, k)
  }

  ghost predicate IsRun(worlds: seq<World>, moves: seq<Move>) {
    IsRunFrom(EMPTY, worlds, moves)
  }

  lemma {:induction false} RunInv(w: World, worlds: seq<World>, moves: seq<Move>, k: nat)
    requires Inv(w) && IsRunFrom(w, worlds, moves) && k < |worlds|
    ensures Inv(worlds[k])
  {
    if k > 0 {
      RunInv(w, worlds, moves, k - 1);
      assert StepAt(worlds, moves, k - 1);
      MovesKeepInv(worlds[k - 1], moves[k - 1]);
    }
  }

  lemma {:induction false} DoneGrows(worlds: seq<World>, moves: seq<Move>, k: nat, l: nat)
    requires IsRun(worlds, moves) && k <= l < |worlds|
    ensures worlds[k].done <= worlds[l].done
  {
    if k < l {
      DoneGrows(worlds, moves, k, l - 1);
      assert StepAt(worlds, moves, l - 1);
    }
  }

  /** Over every interleaving of retries, failures and crashes, a key's write returns at most once. */
  lemma WrittenAtMostOnce(worlds: seq<World>, moves: seq<Move>, k: nat, i: nat, j: nat)
    requires IsRun(worlds, moves) && k < |worlds| && i < |worlds[k].done| && j < |worlds[k].done|
    requires worlds[k].done[i].k == worlds[k].done[j].k
    ensures i == j
  {
    RunInv(EMPTY, worlds, moves, k);
  }

  /**
   * Any two requests answered under one key, however far apart, got the same result, and had
   * asked for the same thing.
   */
  lemma AnswersAgree(worlds: seq<World>, moves: seq<Move>, k: nat, l: nat, c: CallId, d: CallId)
    requires IsRun(worlds, moves) && k <= l < |worlds|
    requires c in worlds[k].calls && worlds[k].calls[c].pc.Returned? && worlds[k].calls[c].k.Some?
    requires d in worlds[l].calls && worlds[l].calls[d].pc.Returned? && worlds[l].calls[d].k == worlds[k].calls[c].k
    ensures worlds[l].calls[d].pc.answer == worlds[k].calls[c].pc.answer
    ensures Meaning(worlds[l].calls[d].args) == Meaning(worlds[k].calls[c].args)
  {
    RunInv(EMPTY, worlds, moves, k);
    RunInv(EMPTY, worlds, moves, l);
    DoneGrows(worlds, moves, k, l);
    var (first, second) := (worlds[k].calls[c], worlds[l].calls[d]);
    var (p, q) := (Done(first.k.value, Canonical(first.args), first.pc.answer.value),
                   Done(first.k.value, Canonical(second.args), second.pc.answer.value));
    assert p in worlds[k].done && q in worlds[l].done;
    var i :| 0 <= i < |worlds[k].done| && worlds[k].done[i] == p;
    var j :| 0 <= j < |worlds[l].done| && worlds[l].done[j] == q;
    assert worlds[l].done[i] == p;
    WrittenAtMostOnce(worlds, moves, l, i, j);
    CanonicalIffSameMeaning(first.args, second.args);
  }

  // ---- effects ----------------------------------------------------------------------------------

  /** The key is given back by a request whose write took effect before it raised. */
  predicate Leaks(w: World, m: Move, k: Key) {
    m.Release? && m.c in w.calls && w.calls[m.c].pc == Raising(true) && w.calls[m.c].k == Some(k)
  }

  ghost predicate NeverLeaks(worlds: seq<World>, moves: seq<Move>, k: Key)
    requires |worlds| == |moves| + 1
  {
    forall t :: 0 <= t < |moves| ==> !Leaks(worlds[t], moves[t], k)
  }

  lemma OnlyLeaksRelease(w: World, m: Move, k: Key)
    requires Inv(w) && Enabled(w, m)
    ensures Apply(w, m).released[k] == w.released[k] + if Leaks(w, m, k) then 1 else 0
  {
    if m.c in w.calls {
      assert RequestOk(w.calls[m.c]);
    }
  }

  lemma {:induction false} ReleasedStays(w: World, worlds: seq<World>, moves: seq<Move>, t: nat, k: Key)
    requires Inv(w) && IsRunFrom(w, worlds, moves) && NeverLeaks(worlds, moves, k) && t < |worlds|
    ensures worlds[t].released[k] == w.released[k]
  {
    if t > 0 {
      ReleasedStays(w, worlds, moves, t - 1, k);
      RunInv(w, worlds, moves, t - 1);
      assert StepAt(worlds, moves, t - 1);
      OnlyLeaksRelease(worlds[t - 1], moves[t - 1], k);
    }
  }

  /**
   * The write of a key takes effect at most once more than the key was given back after an effect;
   * so at most once, in a run that never gives it back like that.
   */
  lemma EffectAtMostOnce(worlds: seq<World>, moves: seq<Move>, t: nat, k: Key)
    requires IsRun(worlds, moves) && t < |worlds|
    ensures worlds[t].released[k] <= worlds[t].effects[k] <= worlds[t].released[k] + 1
    ensures NeverLeaks(worlds, moves, k) ==> worlds[t].effects[k] <= 1
  {
    RunInv(EMPTY, worlds, moves, t);
    assert Accounted(worlds[t], k);
    if NeverLeaks(worlds, moves, k) {
      ReleasedStays(EMPTY, worlds, moves, t, k);
    }
  }

  /** Nobody has the key, or somebody whose write has not taken effect and may run, now or after a release. */
  ghost predicate Continues(w: World, k: Key) {
    Free(w.ledger, k) || exists c :: Pursues(w, c, k)
  }

  predicate Pursues(w: World, c: CallId, k: Key) {
    c in w.calls && w.calls[c].k == Some(k) && Holds(w.calls[c]) && !HasLanded(w.calls[c].pc)
  }

  /** Giving a key back after an effect, and nothing else, lets an effect that has happened happen again. */
  lemma OnlyLeaksReopen(w: World, m: Move, k: Key)
    requires Inv(w) && Enabled(w, m) && !(w.effects[k] >= 1 && Continues(w, k))
    ensures var v := Apply(w, m); v.effects[k] >= 1 && Continues(v, k) <==> Leaks(w, m, k)
  {
    var v := Apply(w, m);
    MovesAreLocal(w, m);
    assert Accounted(w, k);
    if m.c in w.calls && w.calls[m.c].k == Some(k) {
      MoverReopens(w, m, k);
    } else {
      CountsElsewhere(w, m, k);
      assert SameRow(w.ledger, v.ledger, k);
      forall c | Pursues(v, c, k) ensures Pursues(w, c, k) {
        assert SameCall(w.calls, v.calls, c) || c == m.c;
      }
    }
  }

  lemma MoverReopens(w: World, m: Move, k: Key)
    requires Inv(w) && Enabled(w, m) && m.c in w.calls && w.calls[m.c].k == Some(k)
    requires !(w.effects[k] >= 1 && Continues(w, k))
    ensures var v := Apply(w, m); v.effects[k] >= 1 && Continues(v, k) <==> Leaks(w, m, k)
  {
    var (v, r) := (Apply(w, m), w.calls[m.c]);
    MovesAreLocal(w, m);
    assert Accounted(w, k) && RequestOk(r);
    if Holds(r) {
      assert OwnsRow(w.ledger, r) && HolderAccounted(w, r);
      assert !HasLanded(r.pc) ==> Pursues(w, m.c, k);
    }
    forall c | c != m.c && Pursues(v, c, k) ensures Pursues(w, c, k) && !Holds(r) {
      assert SameCall(w.calls, v.calls, c);
    }
  }

  /** Without that, a key that does not continue takes no effect any more. */
  lemma ClosedStays(w: World, m: Move, k: Key)
    requires Inv(w) && Enabled(w, m) && !Continues(w, k) && !Leaks(w, m, k)
    ensures !Continues(Apply(w, m), k) && Apply(w, m).effects[k] == w.effects[k]
  {
    var v := Apply(w, m);
    MovesAreLocal(w, m);
    forall c | c != m.c && Pursues(v, c, k) ensures Pursues(w, c, k) {
      assert SameCall(w.calls, v.calls, c);
    }
    if m.c in w.calls && w.calls[m.c].k == Some(k) {
      assert RequestOk(w.calls[m.c]) && !Pursues(w, m.c, k);
    } else {
      CountsElsewhere(w, m, k);
      assert SameRow(w.ledger, v.ledger, k);
    }
  }

  lemma {:induction false} ClosedStaysAlong(w: World, worlds: seq<World>, moves: seq<Move>, t: nat, k: Key)
    requires Inv(w) && IsRunFrom(w, worlds, moves) && NeverLeaks(worlds, moves, k) && t < |worlds|
    requires !Continues(w, k)
    ensures !Continues(worlds[t], k) && worlds[t].effects[k] == w.effects[k]
  {
    if t > 0 {
      ClosedStaysAlong(w, worlds, moves, t - 1, k);
      RunInv(w, worlds, moves, t - 1);
      assert StepAt(worlds, moves, t - 1);
      ClosedStays(worlds[t - 1], moves[t - 1], k);
    }
  }

  /** One more effect of the key, without giving it back after an effect on the way. */
  ghost predicate TakesEffectAgain(w: World, worlds: seq<World>, moves: seq<Move>, k: Key) {
    && IsRunFrom(w, worlds, moves) && NeverLeaks(worlds, moves, k)
    && worlds[|moves|].effects[k] > w.effects[k]
  }

  /** A request claims a free key, and its write returns. */
  lemma FreeTakesEffect(w: World, k: Key, c: CallId, args: Args) returns (worlds: seq<World>, moves: seq<Move>)
    requires Free(w.ledger, k) && c !in w.calls && k.key != ""
    ensures TakesEffectAgain(w, worlds, moves, k)
  {
    moves := [Arrive(c, Some(k), args), TakeKey(c), WriteReturns(c, Null)];
    var a := Apply(w, moves[0]);
    var b := Apply(a, moves[1]);
    assert b.calls[c].pc == Writing && b.calls[c].k == Some(k);
    var d := Apply(b, moves[2]);
    worlds := [w, a, b, d];
    assert StepAt(worlds, moves, 0) && StepAt(worlds, moves, 1) && StepAt(worlds, moves, 2);
  }

  lemma PursuitTakesEffect(w: World, k: Key, c: CallId, d: CallId, args: Args)
      returns (worlds: seq<World>, moves: seq<Move>)
    requires Inv(w) && Pursues(w, c, k) && d !in w.calls && k.key != ""
    ensures TakesEffectAgain(w, worlds, moves, k)
  {
    if w.calls[c].pc.Writing? {
      moves := [WriteReturns(c, Null)];
      worlds := [w, Apply(w, moves[0])];
      assert StepAt(worlds, moves, 0);
    } else {
      var v := Apply(w, Release(c));
      assert OwnsRow(w.ledger, w.calls[c]);
      var later, more := FreeTakesEffect(v, k, d, args);
      moves, worlds := [Release(c)] + more, [w] + later;
      forall t | 0 <= t < |moves| ensures StepAt(worlds, moves, t) && !Leaks(worlds[t], moves[t], k) {
        if t > 0 {
          assert StepAt(later, more, t - 1);
        }
      }
    }
  }

  /**
   * So an effect that has happened can happen again, with no further release after an effect,
   * exactly while the key is open or pursued: once it is, only such a release can have made it so.
   */
  lemma SecondEffectIff(w: World, k: Key, idle: CallId)
    requires Inv(w) && w.effects[k] >= 1 && k.key != "" && idle !in w.calls
    ensures Continues(w, k) <==>
              exists worlds: seq<World>, moves: seq<Move> :: TakesEffectAgain(w, worlds, moves, k)
    ensures Continues(w, k) ==> w.released[k] >= 1
  {
    assert Accounted(w, k);
    if Free(w.ledger, k) {
      var worlds, moves := FreeTakesEffect(w, k, idle, Obj([]));
    } else if Continues(w, k) {
      var c :| Pursues(w, c, k);
      assert HolderAccounted(w, w.calls[c]);
      var worlds, moves := PursuitTakesEffect(w, k, c, idle, Obj([]));
    } else {
      forall worlds: seq<World>, moves: seq<Move> | IsRunFrom(w, worlds, moves) && NeverLeaks(worlds, moves, k)
        ensures worlds[|moves|].effects[k] == w.effects[k]
      {
        ClosedStaysAlong(w, worlds, moves, |moves|, k);
      }
    }
  }

  // ---- one key per entry of a fan-out write ---------------------------------------------------

  function EntryKey(key: string, index: nat): string {
    key + ":" + IntText(index)
  }

  /** The last colon of an entry key is the one before the index. */
  lemma LastColon(k: string, a: string)
    requires forall c :: c in a ==> IsDigit(c)
    ensures var t := k + ":" + a;
            t[|k|] == ':' && forall p :: |k| < p < |t| ==> t[p] != ':'
  {
    var t := k + ":" + a;
    forall p | |k| < p < |t| ensures t[p] != ':' {
      assert t[p] == a[p - |k| - 1] && a[p - |k| - 1] in a;
    }
  }

  lemma SplitAtLastColon(k: string, l: string, a: string, b: string)
    requires k + ":" + a == l + ":" + b
    requires (forall c :: c in a ==> IsDigit(c)) && (forall c :: c in b ==> IsDigit(c))
    ensures k == l && a == b
  {
    LastColon(k, a);
    LastColon(l, b);
    var t := k + ":" + a;
    assert |k| == |l|;
    assert k == t[..|k|] == l;
    assert a == t[|k| + 1..] == b;
  }

  /** Distinct entries have distinct keys, even across batches and even when the batch key has colons. */
  lemma EntryKeyInjective(key: string, index: nat, other: string, at: nat)
    requires EntryKey(key, index) == EntryKey(other, at)
    ensures key == other && index == at
  {
    SplitAtLastColon(key, other, Digits(index), Digits(at));
    assert Digits(index) + [] == Digits(at) + [];
    DigitRun(index, at, [], []);
  }

  /**
   * However often a schedule commit is retried, the write of each position of a plan takes effect
   * at most once, unless its key is given back after an effect; no two positions share a key.
   */
  lemma OneRowPerEntry(worlds: seq<World>, moves: seq<Move>, t: nat, batch: string, index: nat, other: string, at: nat)
    requires IsRun(worlds, moves) && t < |worlds|
    requires NeverLeaks(worlds, moves, Key(CalendarCommit, EntryKey(batch, index)))
    ensures worlds[t].effects[Key(CalendarCommit, EntryKey(batch, index))] <= 1
    ensures EntryKey(batch, index) == EntryKey(other, at) <==> batch == other && index == at
  {
    EffectAtMostOnce(worlds, moves, t, Key(CalendarCommit, EntryKey(batch, index)));
    if EntryKey(batch, index) == EntryKey(other, at) {
      EntryKeyInjective(batch, index, other, at);
    }
  }
}
