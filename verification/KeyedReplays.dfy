/**
 * What a keyed request gets: which moves change the row of its key, how a claim is answered, and
 * that a write once completed is what every later request of its key and meaning is answered with.
 */
module KeyedReplays {
  import opened Wrappers
  import opened JsonValues
  import opened CanonicalJson
  import opened Idempotency

  // ---- a claim --------------------------------------------------------------------

  /** The key is there for the taking: never claimed, or given back. */
  ghost predicate Vacant(ledger: Ledger, k: Key) {
    k in ledger ==> ledger[k].status == Failed
  }

  /** How a claim is answered, said of what the two requests mean. */
  lemma ClaimIff(ledger: Ledger, k: Key, first: Args, args: Args)
    requires k in ledger ==> ledger[k].text == Canonical(first)
    ensures var claim := ClaimKey(ledger, k, Canonical(args)).0;
            && (claim == Claimed <==> Vacant(ledger, k))
            && (claim.Replay? <==> k in ledger && ledger[k].status == Completed && Meaning(args) == Meaning(first))
            && (claim == InFlight <==> k in ledger && ledger[k].status == InProgress && Meaning(args) == Meaning(first))
            && (claim == Conflict <==>
                  k in ledger && ledger[k].status in {InProgress, Completed} && Meaning(args) != Meaning(first))
            && (claim.Replay? ==> claim.result == ledger[k].result)
  {
    if k in ledger {
      CanonicalIffSameMeaning(args, first);
    }
  }

  /** Completing and giving back are conditional: they write to a row in progress and to no other. */
  lemma WritesInProgressOnly(ledger: Ledger, k: Key, result: Json)
    ensures CompleteKey(ledger, k, result)
         == if k in ledger && ledger[k].status == InProgress
            then ledger[k := Record(ledger[k].text, Completed, Some(result))] else ledger
    ensures FailKey(ledger, k)
         == if k in ledger && ledger[k].status == InProgress
            then ledger[k := Record(ledger[k].text, Failed, ledger[k].result)] else ledger
  {
  }

  // ---- one key under one move --------------------------------------------------------

  /** The move is of a request under this key. */
  ghost predicate Concerns(w: World, m: Move, k: Key) {
    m.c in w.calls && w.calls[m.c].k == Some(k)
  }

  ghost function RowThen(w: World, m: Move, k: Key): Option<Record> {
    var now := if k in w.ledger then Some(w.ledger[k]) else None;
    if !Concerns(w, m, k) then now
    else
      var r := w.calls[m.c];
      match m
      case TakeKey(_) => if Vacant(w.ledger, k) then Some(Record(Canonical(r.args), InProgress, None)) else now
      case Complete(_) =>
        if r.pc.Wrote? then Some(Record(Canonical(r.args), Completed, Some(r.pc.result))) else now
      case Release(_) => if now.Some? then Some(now.value.(status := Failed)) else now
      case _ => now
  }

  /** The row of every key after every move: claimed, completed with what was written, given back, or as it was. */
  lemma RowAfter(w: World, m: Move, k: Key)
    requires Inv(w) && Enabled(w, m)
    ensures RowThen(w, m, k) == if k in Apply(w, m).ledger then Some(Apply(w, m).ledger[k]) else None
  {
    if Concerns(w, m, k) {
      assert RequestOk(w.calls[m.c]);
      if Holds(w.calls[m.c]) {
        assert OwnsRow(w.ledger, w.calls[m.c]);
      }
    }
  }

  // ---- one request under its own move ---------------------------------------------------

  /** How a request goes on: it writes at once without a key, under a key it is answered as its claim is. */
  lemma RequestAfter(w: World, m: Move)
    requires Inv(w) && Enabled(w, m) && !m.Arrive? && !m.Crash?
    ensures m.c in Apply(w, m).calls
    ensures var (r, next) := (w.calls[m.c], Apply(w, m).calls[m.c]);
            && next.k == r.k && next.args == r.args
            && match m
               case TakeKey(_) =>
                 if r.k == None || Vacant(w.ledger, r.k.value) then next.pc == Writing
                 else if w.ledger[r.k.value].status == Completed && w.ledger[r.k.value].text == Canonical(r.args) then
                   next.pc == Returned(w.ledger[r.k.value].result)
                 else next.pc == Refused
               case WriteReturns(_, result) =>
                 next.pc == if r.k == None then Returned(Some(result)) else Wrote(result)
               case WriteRaises(_, landed) => next.pc == if r.k == None then Refused else Raising(landed)
               case Complete(_) => r.pc.Wrote? && next.pc == Returned(Some(r.pc.result))
               case Release(_) => next.pc == Refused
               case _ => true
  {
    assert RequestOk(w.calls[m.c]);
  }

  lemma ArrivedAs(w: World, c: CallId, k: Option<Key>, args: Args)
    requires Enabled(w, Arrive(c, k, args))
    ensures var v := Apply(w, Arrive(c, k, args));
            && c !in w.calls && c in v.calls && v.calls[c].k == k && v.calls[c].args == args && v.calls[c].pc == Arrived
            && v.ledger == w.ledger && v.done == w.done && v.effects == w.effects && v.released == w.released
  {
  }

  // ---- a completed write is replayed -------------------------------------------------------

  /** The key stands for this request and this result, for good. */
  ghost predicate Settled(w: World, k: Key, text: string, result: Json) {
    k in w.ledger && w.ledger[k] == Record(text, Completed, Some(result))
  }

  lemma CompletingSettles(w: World, c: CallId, k: Key)
    requires Inv(w) && Enabled(w, Complete(c)) && w.calls[c].k == Some(k)
    ensures w.calls[c].pc.Wrote?
    ensures Settled(Apply(w, Complete(c)), k, Canonical(w.calls[c].args), w.calls[c].pc.result)
  {
    RequestAfter(w, Complete(c));
    RowAfter(w, Complete(c), k);
  }

  lemma SettledStays(w: World, m: Move, k: Key, text: string, result: Json)
    requires Inv(w) && Enabled(w, m) && Settled(w, k, text, result)
    ensures Settled(Apply(w, m), k, text, result)
  {
    RowAfter(w, m, k);
    assert m.c in w.calls && Holds(w.calls[m.c]) ==> OwnsRow(w.ledger, w.calls[m.c]);
  }

  lemma {:induction false} SettledAlong(
      w: World, worlds: seq<World>, moves: seq<Move>, s: nat, t: nat, k: Key, text: string, result: Json)
    requires IsRunFrom(w, worlds, moves) && Inv(w) && s <= t < |worlds| && Settled(worlds[s], k, text, result)
    ensures Settled(worlds[t], k, text, result)
    decreases t - s
  {
    if s < t {
      SettledAlong(w, worlds, moves, s, t - 1, k, text, result);
      SettledStep(w, worlds, moves, t - 1, k, text, result);
    }
  }

  lemma SettledStep(
      w: World, worlds: seq<World>, moves: seq<Move>, t: nat, k: Key, text: string, result: Json)
    requires IsRunFrom(w, worlds, moves) && Inv(w) && t < |moves| && Settled(worlds[t], k, text, result)
    ensures Settled(worlds[t + 1], k, text, result)
  {
    InvInRun(w, worlds, moves, t);
    SettledStays(worlds[t], moves[t], k, text, result);
  }

  lemma InvInRun(w: World, worlds: seq<World>, moves: seq<Move>, t: nat)
    requires IsRunFrom(w, worlds, moves) && Inv(w) && t < |moves|
    ensures Inv(worlds[t]) && Enabled(worlds[t], moves[t]) && worlds[t + 1] == Apply(worlds[t], moves[t])
  {
    RunInv(w, worlds, moves, t);
    assert StepAt(worlds, moves, t);
  }

  /**
   * Over every interleaving: once a write under a key has been completed, every later request of
   * that key that means the same is answered with its result, and writes nothing; one that means
   * something else is refused.
   */
  lemma CompletedIsReplayed(
      w: World, worlds: seq<World>, moves: seq<Move>, s: nat, t: nat, c: CallId, d: CallId, k: Key)
    requires IsRunFrom(w, worlds, moves) && Inv(w) && s < t < |moves|
    requires moves[s] == Complete(c) && c in worlds[s].calls && worlds[s].calls[c].k == Some(k)
    requires moves[t] == TakeKey(d) && d in worlds[t].calls && worlds[t].calls[d].k == Some(k)
    ensures worlds[s].calls[c].pc.Wrote? && d in worlds[t + 1].calls
    ensures worlds[t + 1].calls[d].pc ==
              if Meaning(worlds[t].calls[d].args) == Meaning(worlds[s].calls[c].args)
              then Returned(Some(worlds[s].calls[c].pc.result)) else Refused
    ensures worlds[t + 1].ledger == worlds[t].ledger && worlds[t + 1].effects == worlds[t].effects
  {
    CompletedInRun(w, worlds, moves, s, c, k);
    var (args, result) := (worlds[s].calls[c].args, worlds[s].calls[c].pc.result);
    SettledAlong(w, worlds, moves, s + 1, t, k, Canonical(args), result);
    ReplayedInRun(w, worlds, moves, t, d, k, args, result);
  }

  lemma CompletedInRun(w: World, worlds: seq<World>, moves: seq<Move>, s: nat, c: CallId, k: Key)
    requires IsRunFrom(w, worlds, moves) && Inv(w) && s < |moves|
    requires moves[s] == Complete(c) && c in worlds[s].calls && worlds[s].calls[c].k == Some(k)
    ensures worlds[s].calls[c].pc.Wrote?
    ensures Settled(worlds[s + 1], k, Canonical(worlds[s].calls[c].args), worlds[s].calls[c].pc.result)
  {
    InvInRun(w, worlds, moves, s);
    CompletingSettles(worlds[s], c, k);
  }

  lemma ReplayedInRun(
      w: World, worlds: seq<World>, moves: seq<Move>, t: nat, d: CallId, k: Key, args: Args, result: Json)
    requires IsRunFrom(w, worlds, moves) && Inv(w) && t < |moves| && moves[t] == TakeKey(d)
    requires d in worlds[t].calls && worlds[t].calls[d].k == Some(k) && Settled(worlds[t], k, Canonical(args), result)
    ensures var (r, v) := (worlds[t].calls[d], worlds[t + 1]);
            && d in v.calls && v.ledger == worlds[t].ledger && v.effects == worlds[t].effects
            && v.calls[d].pc == if Meaning(r.args) == Meaning(args) then Returned(Some(result)) else Refused
  {
    InvInRun(w, worlds, moves, t);
    ReplayedAsSettled(worlds[t], d, k, args, result);
  }

  lemma ReplayedAsSettled(w: World, d: CallId, k: Key, args: Args, result: Json)
    requires Inv(w) && Enabled(w, TakeKey(d)) && w.calls[d].k == Some(k) && Settled(w, k, Canonical(args), result)
    ensures var v := Apply(w, TakeKey(d));
            && d in v.calls && v.ledger == w.ledger && v.effects == w.effects
            && v.calls[d].pc == if Meaning(w.calls[d].args) == Meaning(args) then Returned(Some(result)) else Refused
  {
    RequestAfter(w, TakeKey(d));
    CanonicalIffSameMeaning(w.calls[d].args, args);
    assert RequestOk(w.calls[d]);
  }
}
