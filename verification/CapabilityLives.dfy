/**
 * The life of a capability: which moves create a row, confirm it, use it up or end it otherwise,
 * and that a proposal which is confirmed in time does let the proposed call run.
 */
module CapabilityLives {
  import opened Wrappers
  import opened JsonValues
  import opened CanonicalJson
  import opened Capabilities

  /** A tool that changes something. */
  ghost predicate Writes(tool: Tool) {
    tool in {CreateContent, RefineContent, AddToCalendar, CommitSchedule, MemoryAdd, MemoryReplace, MemoryRemove}
  }

  // ---- one row under one move ---------------------------------------------------

  /** The turn confirms the row it chose. */
  ghost predicate Confirms(w: World, m: Move, id: ActionId) {
    m.ConfirmChosen? && m.t in w.turns && w.turns[m.t].Confirming? && w.turns[m.t].id == id
  }

  /** The turn asks for a write that its intent approves, against this row. */
  ghost predicate AsksFor(w: World, m: Move, id: ActionId) {
    && m.Request? && m.t in w.turns && w.turns[m.t].Open? && Writes(m.tool)
    && w.turns[m.t].thr.Some? && w.turns[m.t].intent_.Some?
    && w.turns[m.t].intent_.value.action == Some(id) && Approves(w.turns[m.t].intent_.value, m.tool, m.args)
  }

  ghost function RowThen(w: World, m: Move, id: ActionId): Action
    requires id in w.rows
  {
    var a := w.rows[id];
    match m
    case ConfirmChosen(_) =>
      if !Confirms(w, m, id) || a.status != Proposed then a
      else if w.now < a.expires then a.(status := Status.Confirmed, confirmed := Some(w.now))
      else a.(status := Expired)
    case Request(_, tool, args, _, _, _) =>
      if !AsksFor(w, m, id) || a.status != Status.Confirmed then a
      else if w.now >= a.expires then a.(status := Expired)
      else if a.tool == tool && Meaning(a.args) == Meaning(args) then
        a.(status := Consumed, consumed := Some(w.now))
      else a
    case CancelAction(cancelled) => if cancelled == id then a.(status := Status.Cancelled) else a
    case ExpireActions(overdue) => if id in overdue then a.(status := Expired) else a
    case _ => a
  }

  lemma ConsumeRow(rows: Rows, id: ActionId, tool: Tool, args: Args, now: int)
    requires Honest(rows) && id in rows
    ensures var a := rows[id];
            var (ok, after) := Consume(rows, id, tool, Canonical(args), now);
            && after == rows[id := after[id]]
            && after[id] ==
                 (if a.status != Status.Confirmed then a
                  else if now >= a.expires then a.(status := Expired)
                  else if a.tool == tool && Meaning(a.args) == Meaning(args) then
                    a.(status := Consumed, consumed := Some(now))
                  else a)
            && (ok <==> a.status == Status.Confirmed && Covers(a, tool, args, now))
  {
    CanonicalIffSameMeaning(rows[id].args, args);
    assert rows == rows[id := rows[id]];
  }

  /** What the gate does to the rows: it tries one, that of an intent which approves the write. */
  lemma AuthorizeTries(rows: Rows, tool: Tool, args: Args, intent: Option<Intent>, consumer: bool, now: int)
    ensures var after := Authorize(rows, tool, args, intent, consumer, now).1;
            after == if Writes(tool) && consumer && intent.Some? && Approves(intent.value, tool, args)
                        && intent.value.action.Some?
                     then Consume(rows, intent.value.action.value, tool, Canonical(args), now).1 else rows
  {
    if intent.Some? {
      ApprovalByText(intent.value, tool, args);
    }
  }

  /** Every row, and exactly what each move makes of it. */
  lemma RowAfter(w: World, m: Move, id: ActionId)
    requires Honest(w.rows) && Enabled(w, m) && id in w.rows
    ensures id in Apply(w, m).rows && Apply(w, m).rows[id] == RowThen(w, m, id)
  {
    match m {
      case Request(t, tool, args, ttl, new_, persisted) => RowAfterRequest(w, m, id);
      case _ =>
    }
  }

  lemma RowAfterRequest(w: World, m: Move, id: ActionId)
    requires Honest(w.rows) && Enabled(w, m) && m.Request? && id in w.rows
    ensures id in Apply(w, m).rows && Apply(w, m).rows[id] == RowThen(w, m, id)
  {
    var turn := w.turns[m.t];
    var intent := turn.intent_;
    AuthorizeTries(w.rows, m.tool, m.args, intent, turn.thr.Some?, w.now);
    var after := Authorize(w.rows, m.tool, m.args, intent, turn.thr.Some?, w.now).1;
    if intent.Some? && intent.value.action.Some? && intent.value.action.value in w.rows {
      ConsumeRow(w.rows, intent.value.action.value, m.tool, m.args, w.now);
    }
    assert Apply(w, m).rows[id] == after[id];
  }

  /** The turn asks for a write that needs approval, and the proposal can be stored. */
  ghost predicate Proposes(w: World, m: Move, id: ActionId) {
    && m.Request? && m.id == id && m.persisted && Writes(m.tool) && m.tool != CommitSchedule
    && m.t in w.turns && w.turns[m.t].Open? && w.turns[m.t].thr.Some? && w.turns[m.t].intent_.Some?
    && m.tool in w.turns[m.t].intent_.value.allowed && !w.turns[m.t].intent_.value.confirming
  }

  ghost predicate IsProposal(a: Action, thread: ThreadId, tool: Tool, args: Args, now: int, ttl: int) {
    && a.thread == thread && a.tool == tool && a.args == args && a.text == Canonical(args)
    && a.status == Proposed && a.created == now && a.confirmed == None && a.consumed == None
    && a.expires == now + (if ttl >= 1 then ttl else 1)
  }

  /** Rows are born as proposals: of a write that asks for approval, or of a schedule about to be confirmed. */
  lemma RowBorn(w: World, m: Move, id: ActionId)
    requires Enabled(w, m) && id !in w.rows
    ensures id in Apply(w, m).rows <==> Proposes(w, m, id) || (m.ChooseSchedule? && m.id == id)
    ensures Proposes(w, m, id) ==>
              IsProposal(Apply(w, m).rows[id], w.turns[m.t].thr.value, m.tool, m.args, w.now, m.ttl)
    ensures m.ChooseSchedule? && m.id == id ==>
              IsProposal(Apply(w, m).rows[id], m.thread, CommitSchedule, m.approval.args.value, w.now, m.ttl)
  {
    if m.Request? {
      var turn := w.turns[m.t];
      AuthorizeTries(w.rows, m.tool, m.args, turn.intent_, turn.thr.Some?, w.now);
      ApprovalRequiredIff(w.rows, m.tool, m.args, turn.intent_, turn.thr.Some?, w.now);
    }
  }

  // ---- one turn under one move ------------------------------------------------------

  /** The call may run: a registered read, or a write whose approved capability is there to be used. */
  ghost predicate MayRun(w: World, m: Move)
    requires m.Request? && m.t in w.turns && w.turns[m.t].Open?
  {
    || m.tool.ReadOnly?
    || (exists id :: AsksFor(w, m, id) && id in w.rows && Covers(w.rows[id], m.tool, m.args, w.now))
  }

  /** A requested call is cleared if and only if it may run; it is logged when it is invoked, and only then. */
  lemma ClearedIff(w: World, m: Move)
    requires Honest(w.rows) && Enabled(w, m) && m.Request?
    ensures var (turn, next) := (w.turns[m.t], Apply(w, m).turns[m.t]);
            && m.t in Apply(w, m).turns
            && (next.Cleared? <==> MayRun(w, m))
            && next ==
                 (if !MayRun(w, m) then turn
                  else Cleared(turn.thr, turn.intent_, m.tool, m.args,
                               if m.tool.ReadOnly? then None else turn.intent_.value.action))
            && Apply(w, m).log == w.log
  {
    var turn := w.turns[m.t];
    if Writes(m.tool) {
      GrantedIff(w.rows, m.tool, m.args, turn.intent_, turn.thr.Some?, w.now);
    }
    var verdict := Authorize(w.rows, m.tool, m.args, turn.intent_, turn.thr.Some?, w.now).0;
    assert verdict.Granted? <==> MayRun(w, m) by {
      if verdict.Granted? && Writes(m.tool) {
        assert AsksFor(w, m, turn.intent_.value.action.value);
      }
    }
  }

  // ---- choosing what to confirm -------------------------------------------------------

  /** A row the thread is waiting to have confirmed. */
  ghost predicate Awaits(a: Action, thread: ThreadId, tool: Tool, now: int) {
    a.thread == thread && a.tool == tool && a.status == Proposed && now < a.expires
  }

  ghost predicate Newest(rows: Rows, id: ActionId, thread: ThreadId, tool: Tool, now: int) {
    && id in rows && Awaits(rows[id], thread, tool, now)
    && forall k :: k in rows && Awaits(rows[k], thread, tool, now) ==> rows[k].created <= rows[id].created
  }

  /**
   * A confirmation goes to the row the user pointed at, if it belongs to the thread, and else to the
   * newest one waiting; either way the row is for the same tool with arguments of the same meaning.
   */
  lemma ChosenRow(w: World, t: TurnId, thread: ThreadId, approval: Intent, hint: Option<ActionId>, id: ActionId)
    requires Honest(w.rows)
    ensures Enabled(w, ChooseProposal(t, thread, approval, hint, id)) <==>
              && t !in w.turns && Binds(approval) && id in w.rows
              && w.rows[id].tool == approval.tool.value
              && Meaning(w.rows[id].args) == Meaning(approval.args.value)
              && (if exists h :: hint == Some(h) && h in w.rows && w.rows[h].thread == thread then hint == Some(id)
                  else Newest(w.rows, id, thread, approval.tool.value, w.now))
  {
    if Binds(approval) && id in w.rows {
      CanonicalIffSameMeaning(w.rows[id].args, approval.args.value);
    }
    if approval.tool.Some? {
      NewestIsLatest(w.rows, id, thread, approval.tool.value, w.now);
    }
  }

  lemma NewestIsLatest(rows: Rows, id: ActionId, thread: ThreadId, tool: Tool, now: int)
    ensures Newest(rows, id, thread, tool, now) <==> LatestPending(rows, id, thread, tool, now)
  {
    forall k | k in rows
      ensures Awaits(rows[k], thread, tool, now) <==> Pending(rows[k], thread, now) && rows[k].tool == tool
    {
    }
  }

  // ---- the capability works --------------------------------------------------------------

  /** The approval of a turn about to confirm fits the row it chose. */
  ghost predicate Fits(turn: Turn, a: Action) {
    && turn.Confirming? && Binds(turn.intent) && turn.intent.tool == Some(a.tool)
    && Meaning(turn.intent.args.value) == Meaning(a.args)
    && a.tool in turn.intent.allowed && (a.tool == CommitSchedule || turn.intent.confirming)
  }

  /**
   * Confirmed in time, a proposal lets its call run: the turn that confirmed it may ask for the call
   * with any arguments of the same meaning, is cleared with this row, and invoking it writes the
   * call into the log.
   */
  lemma ConfirmedProposalRuns(w: World, t: TurnId, args: Args, d: nat, ttl: int, spare: ActionId, persisted: bool)
    requires RowsOk(w) && t in w.turns && w.turns[t].Confirming? && w.turns[t].id in w.rows
    requires var a := w.rows[w.turns[t].id];
             && Fits(w.turns[t], a) && a.status == Proposed && w.now + d < a.expires
             && Meaning(args) == Meaning(a.args)
    requires spare !in w.rows
    ensures var id := w.turns[t].id;
            var tool := w.rows[id].tool;
            && Enabled(w, ConfirmChosen(t))
            && var w1 := Apply(Apply(w, ConfirmChosen(t)), Tick(d));
               && Enabled(w1, Request(t, tool, args, ttl, spare, persisted))
               && var w2 := Apply(w1, Request(t, tool, args, ttl, spare, persisted));
                  && Enabled(w2, Invoke(t))
                  && Apply(w2, Invoke(t)).log == w.log + [Call(tool, args, Some(id))]
                  && id in Apply(w2, Invoke(t)).rows && Apply(w2, Invoke(t)).rows[id].status == Consumed
  {
    ConfirmingArms(w, t, args, d, ttl, spare, persisted);
    ArmedCallRuns(Apply(Apply(w, ConfirmChosen(t)), Tick(d)), t, w.turns[t].id, args, ttl, spare, persisted);
  }

  /** The turn holds this capability and may use it for the call. */
  ghost predicate Armed(w: World, ask: Move, id: ActionId) {
    && ask.Request? && Enabled(w, ask) && AsksFor(w, ask, id)
    && id in w.rows && Covers(w.rows[id], ask.tool, ask.args, w.now)
  }

  lemma ConfirmingArms(w: World, t: TurnId, args: Args, d: nat, ttl: int, spare: ActionId, persisted: bool)
    requires RowsOk(w) && t in w.turns && w.turns[t].Confirming? && w.turns[t].id in w.rows
    requires var a := w.rows[w.turns[t].id];
             && Fits(w.turns[t], a) && a.status == Proposed && w.now + d < a.expires
             && Meaning(args) == Meaning(a.args)
    requires spare !in w.rows
    ensures Enabled(w, ConfirmChosen(t))
    ensures var w1 := Apply(Apply(w, ConfirmChosen(t)), Tick(d));
            && Honest(w1.rows) && w1.log == w.log
            && Armed(w1, Request(t, w.rows[w.turns[t].id].tool, args, ttl, spare, persisted), w.turns[t].id)
  {
    var id := w.turns[t].id;
    ConfirmedRow(w, t);
    MovesKeepRows(w, ConfirmChosen(t));
    var ask := Request(t, w.rows[id].tool, args, ttl, spare, persisted);
    ConfirmedIsArmed(w, Apply(Apply(w, ConfirmChosen(t)), Tick(d)), t, ask);
  }

  lemma ConfirmedIsArmed(w: World, v: World, t: TurnId, ask: Move)
    requires t in w.turns && w.turns[t].Confirming? && w.turns[t].id in w.rows
    requires var (turn, id) := (w.turns[t], w.turns[t].id);
             && Fits(turn, w.rows[id]) && w.rows[id].status == Proposed
             && v.rows == w.rows[id := w.rows[id].(status := Status.Confirmed, confirmed := Some(w.now))]
             && v.turns == w.turns[t := Open(Some(turn.thread), Some(turn.intent.(action := Some(id))))]
             && v.now < w.rows[id].expires
    requires ask.Request? && ask.t == t && ask.tool == w.rows[w.turns[t].id].tool && ask.id !in w.rows
    requires Meaning(ask.args) == Meaning(w.rows[w.turns[t].id].args)
    ensures Armed(v, ask, w.turns[t].id)
  {
  }

  lemma ConfirmedRow(w: World, t: TurnId)
    requires t in w.turns && w.turns[t].Confirming? && w.turns[t].id in w.rows
    requires w.rows[w.turns[t].id].status == Proposed && w.now < w.rows[w.turns[t].id].expires
    ensures var (turn, id, v) := (w.turns[t], w.turns[t].id, Apply(w, ConfirmChosen(t)));
            && v.rows == w.rows[id := w.rows[id].(status := Status.Confirmed, confirmed := Some(w.now))]
            && v.turns == w.turns[t := Open(Some(turn.thread), Some(turn.intent.(action := Some(id))))]
            && v.now == w.now && v.log == w.log
  {
  }

  lemma ArmedCallRuns(w: World, t: TurnId, id: ActionId, args: Args, ttl: int, spare: ActionId, persisted: bool)
    requires Honest(w.rows) && id in w.rows
    requires Armed(w, Request(t, w.rows[id].tool, args, ttl, spare, persisted), id)
    ensures var tool := w.rows[id].tool;
            var w2 := Apply(w, Request(t, tool, args, ttl, spare, persisted));
            && Enabled(w2, Invoke(t))
            && Apply(w2, Invoke(t)).log == w.log + [Call(tool, args, Some(id))]
            && id in Apply(w2, Invoke(t)).rows && Apply(w2, Invoke(t)).rows[id].status == Consumed
  {
    var ask := Request(t, w.rows[id].tool, args, ttl, spare, persisted);
    ClearedIff(w, ask);
    RowAfter(w, ask, id);
  }
}
