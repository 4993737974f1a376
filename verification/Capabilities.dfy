/**
 * Who may run a write tool: the policy gate in front of every tool call, the durable rows that
 * carry one-time capabilities, and all the chat turns that race for them.
 *
 * A row stores the canonical text of its arguments; the stored hash is read as an injective
 * function of that text, so comparing hashes is comparing texts.
 */
module Capabilities {
  import opened Wrappers
  import opened JsonValues
  import opened CanonicalJson

  datatype Tool =
    | CreateContent | RefineContent | AddToCalendar | CommitSchedule | MemoryAdd | MemoryReplace | MemoryRemove
    | ReadOnly(name: string)
    | Unregistered(name: string)

  predicate IsWrite(tool: Tool) {
    !tool.ReadOnly? && !tool.Unregistered?
  }

  type ActionId = nat
  type ThreadId = nat
  type TurnId = nat

  datatype Status = Proposed | Confirmed | Consumed | Expired | Cancelled

  datatype Action = Action(
    thread: ThreadId, tool: Tool, args: Args, text: string, status: Status,
    created: int, expires: int, confirmed: Option<int>, consumed: Option<int>)

  type Rows = map<ActionId, Action>

  /** The recognised intent of one turn with the approval the server bound to it. */
  datatype Intent = Intent(
    confirming: bool,             // its name is action_confirm
    allowed: set<Tool>,
    validated: bool,
    tool: Option<Tool>, args: Option<Args>, action: Option<ActionId>)

  // ---- the durable rows --------------------------------------------------------------

  function NewAction(thread: ThreadId, tool: Tool, args: Args, now: int, ttl: int): Action {
    Action(thread, tool, args, Canonical(args), Proposed, now, now + (if ttl < 1 then 1 else ttl), None, None)
  }

  predicate Pending(a: Action, thread: ThreadId, now: int) {
    a.thread == thread && a.status == Proposed && a.expires > now
  }

  ghost predicate LatestPending(rows: Rows, id: ActionId, thread: ThreadId, tool: Tool, now: int) {
    && id in rows && Pending(rows[id], thread, now) && rows[id].tool == tool
    && forall k :: k in rows && Pending(rows[k], thread, now) && rows[k].tool == tool ==>
         rows[k].created <= rows[id].created
  }

  function Confirm(rows: Rows, id: ActionId, now: int): (bool, Rows) {
    if id !in rows || rows[id].status != Proposed then (false, rows)
    else if rows[id].expires <= now then (false, rows[id := rows[id].(status := Expired)])
    else (true, rows[id := rows[id].(status := Confirmed, confirmed := Some(now))])
  }

  function Consume(rows: Rows, id: ActionId, tool: Tool, text: string, now: int): (bool, Rows) {
    if id !in rows || rows[id].status != Confirmed then (false, rows)
    else if rows[id].expires <= now then (false, rows[id := rows[id].(status := Expired)])
    else if rows[id].tool != tool || rows[id].text != text then (false, rows)
    else (true, rows[id := rows[id].(status := Consumed, consumed := Some(now))])
  }

  // ---- the gate ----------------------------------------------------------------------

  datatype Verdict = Granted(action: Option<ActionId>) | Denied | ApprovalRequired

  function ConsumeOrDeny(rows: Rows, tool: Tool, args: Args, intent: Intent, consumer: bool, now: int)
      : (Verdict, Rows)
  {
    if !consumer || intent.action == None then (Denied, rows)
    else
      var (ok, after) := Consume(rows, intent.action.value, tool, Canonical(args), now);
      (if ok then Granted(intent.action) else Denied, after)
  }

  /** `consumer`: the turn has a store and a thread to consume capabilities with. */
  function Authorize(
    rows: Rows, tool: Tool, args: Args, intent: Option<Intent>, consumer: bool, now: int): (Verdict, Rows)
  {
    if tool.Unregistered? then (Denied, rows)
    else if tool.ReadOnly? then (Granted(None), rows)
    else if intent == None || tool !in intent.value.allowed then (Denied, rows)
    else if tool == CommitSchedule then
      if intent.value.tool != Some(tool) || intent.value.args == None then (Denied, rows)
      else if !intent.value.validated then (Denied, rows)
      else if Canonical(args) != Canonical(intent.value.args.value) then (Denied, rows)
      else ConsumeOrDeny(rows, tool, args, intent.value, consumer, now)
    else if !intent.value.confirming then (ApprovalRequired, rows)
    else if !intent.value.validated then (Denied, rows)
    else if intent.value.tool != Some(tool) || intent.value.args == None then (Denied, rows)
    else if Canonical(args) != Canonical(intent.value.args.value) then (Denied, rows)
    else ConsumeOrDeny(rows, tool, args, intent.value, consumer, now)
  }

  /** Stored text and stored arguments agree. */
  ghost predicate Honest(rows: Rows) {
    forall id :: id in rows ==> rows[id].text == Canonical(rows[id].args)
  }

  /** The server validated a confirmation of this very call. */
  ghost predicate Approves(intent: Intent, tool: Tool, args: Args) {
    && tool in intent.allowed && intent.validated && (tool == CommitSchedule || intent.confirming)
    && intent.tool == Some(tool) && intent.args.Some? && Meaning(intent.args.value) == Meaning(args)
  }

  /** An unexpired, unused capability for this very call. */
  ghost predicate Covers(a: Action, tool: Tool, args: Args, now: int) {
    a.status == Confirmed && now < a.expires && a.tool == tool && Meaning(a.args) == Meaning(args)
  }

  /**
   * A write is granted exactly when the turn's intent approves this call, up to the meaning of
   * its arguments, and its action is an unused capability for it; granting uses it up.
   */
  lemma GrantedIff(rows: Rows, tool: Tool, args: Args, intent: Option<Intent>, consumer: bool, now: int)
    requires Honest(rows) && IsWrite(tool)
    ensures var (verdict, after) := Authorize(rows, tool, args, intent, consumer, now);
            && (verdict.Granted? <==>
                  && consumer && intent.Some? && Approves(intent.value, tool, args) && intent.value.action.Some?
                  && intent.value.action.value in rows && Covers(rows[intent.value.action.value], tool, args, now))
            && (verdict.Granted? ==>
                  var id := intent.value.action.value;
                  && verdict.action == Some(id)
                  && after == rows[id := rows[id].(status := Consumed, consumed := Some(now))])
  {
    GrantedByText(rows, tool, args, intent, consumer, now);
    if intent.Some? {
      ApprovalByText(intent.value, tool, args);
      if intent.value.action.Some? && intent.value.action.value in rows {
        CanonicalIffSameMeaning(rows[intent.value.action.value].args, args);
      }
    }
  }

  /** The same, up to the canonical text of the arguments. */
  predicate ApprovesText(intent: Intent, tool: Tool, args: Args) {
    && tool in intent.allowed && intent.validated && (tool == CommitSchedule || intent.confirming)
    && intent.tool == Some(tool) && intent.args.Some? && Canonical(intent.args.value) == Canonical(args)
  }

  predicate CoversText(a: Action, tool: Tool, args: Args, now: int) {
    a.status == Confirmed && now < a.expires && a.tool == tool && a.text == Canonical(args)
  }

  lemma GrantedByText(rows: Rows, tool: Tool, args: Args, intent: Option<Intent>, consumer: bool, now: int)
    requires IsWrite(tool)
    ensures var (verdict, after) := Authorize(rows, tool, args, intent, consumer, now);
            && (verdict.Granted? <==>
                  && consumer && intent.Some? && ApprovesText(intent.value, tool, args) && intent.value.action.Some?
                  && intent.value.action.value in rows && CoversText(rows[intent.value.action.value], tool, args, now))
            && (verdict.Granted? ==>
                  var id := intent.value.action.value;
                  && verdict.action == Some(id)
                  && after == rows[id := rows[id].(status := Consumed, consumed := Some(now))])
  {
  }

  lemma ApprovalByText(intent: Intent, tool: Tool, args: Args)
    ensures Approves(intent, tool, args) <==> ApprovesText(intent, tool, args)
  {
    if intent.args.Some? {
      CanonicalIffSameMeaning(intent.args.value, args);
    }
  }

  /** Approval is asked for exactly an allowed write, other than a schedule commit, outside a confirming turn. */
  lemma ApprovalRequiredIff(rows: Rows, tool: Tool, args: Args, intent: Option<Intent>, consumer: bool, now: int)
    ensures var (verdict, after) := Authorize(rows, tool, args, intent, consumer, now);
            && (verdict.ApprovalRequired? <==>
                  && IsWrite(tool) && tool != CommitSchedule && intent.Some?
                  && tool in intent.value.allowed && !intent.value.confirming)
            && (verdict.ApprovalRequired? ==> after == rows)
  {
  }

  // ---- turns -------------------------------------------------------------------------

  datatype Turn =
    | Confirming(thread: ThreadId, intent: Intent, id: ActionId)   // chose the row to confirm
    | Open(thr: Option<ThreadId>, intent_: Option<Intent>)         // in the tool loop
    | Cleared(thr: Option<ThreadId>, intent_: Option<Intent>, tool: Tool, args: Args, action: Option<ActionId>)

  /** One invocation of a tool. */
  datatype Call = Call(tool: Tool, args: Args, action: Option<ActionId>)

  datatype World = World(rows: Rows, now: int, turns: map<TurnId, Turn>, log: seq<Call>)

  datatype Move =
    | Begin(t: TurnId, thr: Option<ThreadId>, plain: Option<Intent>)
    | ChooseProposal(t: TurnId, thread: ThreadId, approval: Intent, hint: Option<ActionId>, id: ActionId)
    | ChooseSchedule(t: TurnId, thread: ThreadId, approval: Intent, ttl: int, id: ActionId)
    | ConfirmChosen(t: TurnId)
    | Request(t: TurnId, tool: Tool, args: Args, ttl: int, id: ActionId, persisted: bool)
    | Invoke(t: TurnId)
    | End(t: TurnId)
    | CancelAction(id: ActionId)
    | ExpireActions(overdue: set<ActionId>)
    | Tick(d: nat)

  /** The approval bound to a confirming turn, before it has its action. */
  predicate Binds(intent: Intent) {
    intent.validated && intent.tool.Some? && intent.args.Some? && intent.action == None && IsWrite(intent.tool.value)
  }

  /** A hint that is a row of the thread wins; otherwise the latest pending row for the tool. */
  ghost predicate Candidate(w: World, thread: ThreadId, tool: Tool, hint: Option<ActionId>, id: ActionId) {
    if hint.Some? && hint.value in w.rows && w.rows[hint.value].thread == thread then id == hint.value
    else LatestPending(w.rows, id, thread, tool, w.now)
  }

  ghost predicate SchedulePending(w: World, thread: ThreadId, args: Args, id: ActionId) {
    LatestPending(w.rows, id, thread, CommitSchedule, w.now) && w.rows[id].text == Canonical(args)
  }

  ghost predicate Enabled(w: World, m: Move) {
    match m
    case Begin(t, _, plain) => t !in w.turns && (plain.Some? ==> plain.value.action == None)
    case ChooseProposal(t, thread, approval, hint, id) =>
      && t !in w.turns && Binds(approval) && Candidate(w, thread, approval.tool.value, hint, id)
      && w.rows[id].tool == approval.tool.value && w.rows[id].text == Canonical(approval.args.value)
    case ChooseSchedule(t, thread, approval, _, id) =>
      && t !in w.turns && Binds(approval) && approval.tool.value == CommitSchedule
      && (SchedulePending(w, thread, approval.args.value, id) || id !in w.rows)
    case ConfirmChosen(t) => t in w.turns && w.turns[t].Confirming?
    case Request(t, tool, _, _, id, _) =>
      && t in w.turns && w.turns[t].Open? && id !in w.rows
      && (w.turns[t].intent_.Some? ==> tool in w.turns[t].intent_.value.allowed)
    case Invoke(t) => t in w.turns && w.turns[t].Cleared?
    case End(t) => t in w.turns
    case CancelAction(id) => id in w.rows && (w.rows[id].status == Proposed || w.rows[id].status == Confirmed)
    case ExpireActions(overdue) =>
      forall id :: id in overdue ==>
        id in w.rows && (w.rows[id].status == Proposed || w.rows[id].status == Confirmed) && w.rows[id].expires <= w.now
    case Tick(_) => true
  }

  function ApplyRequest(w: World, t: TurnId, tool: Tool, args: Args, ttl: int, id: ActionId, persisted: bool): World
    requires t in w.turns && w.turns[t].Open?
  {
    var turn := w.turns[t];
    var (verdict, after) := Authorize(w.rows, tool, args, turn.intent_, turn.thr.Some?, w.now);
    match verdict
    case Granted(action) =>
      w.(rows := after, turns := w.turns[t := Cleared(turn.thr, turn.intent_, tool, args, action)])
    case Denied => w.(rows := after)
    case ApprovalRequired =>
      if persisted && turn.thr.Some? then w.(rows := after[id := NewAction(turn.thr.value, tool, args, w.now, ttl)])
      else w.(rows := after)
  }

  function Apply(w: World, m: Move): World
    requires Enabled(w, m)
  {
    match m
    case Begin(t, thr, plain) => w.(turns := w.turns[t := Open(thr, plain)])
    case ChooseProposal(t, thread, approval, _, id) => w.(turns := w.turns[t := Confirming(thread, approval, id)])
    case ChooseSchedule(t, thread, approval, ttl, id) =>
      w.(turns := w.turns[t := Confirming(thread, approval, id)],
         rows := if id in w.rows then w.rows
                 else w.rows[id := NewAction(thread, CommitSchedule, approval.args.value, w.now, ttl)])
    case ConfirmChosen(t) =>
      var turn := w.turns[t];
      var (ok, after) := Confirm(w.rows, turn.id, w.now);
      w.(rows := after,
         turns := w.turns[
           t := Open(Some(turn.thread), Some(turn.intent.(action := if ok then Some(turn.id) else None)))])
    case Request(t, tool, args, ttl, id, persisted) => ApplyRequest(w, t, tool, args, ttl, id, persisted)
    case Invoke(t) =>
      var turn := w.turns[t];
      w.(turns := w.turns[t := Open(turn.thr, turn.intent_)], log := w.log + [Call(turn.tool, turn.args, turn.action)])
    case End(t) => w.(turns := w.turns - {t})
    case CancelAction(id) => w.(rows := w.rows[id := w.rows[id].(status := Cancelled)])
    case ExpireActions(overdue) =>
      w.(rows := map id | id in w.rows :: if id in overdue then w.rows[id].(status := Expired) else w.rows[id])
    case Tick(d) => w.(now := w.now + d)
  }

  // ---- what every move keeps ---------------------------------------------------------------

  /** What the row of a used capability shows: proposed, then confirmed, then used, all before it expired. */
  ghost predicate Used(rows: Rows, id: ActionId, tool: Tool, args: Args) {
    && id in rows && rows[id].status == Consumed
    && rows[id].tool == tool && rows[id].text == Canonical(args)
    && rows[id].confirmed.Some? && rows[id].consumed.Some?
    && rows[id].created <= rows[id].confirmed.value <= rows[id].consumed.value < rows[id].expires
  }

  ghost predicate Timely(a: Action, now: int) {
    && a.created <= now
    && (a.status == Confirmed ==> a.confirmed.Some? && a.created <= a.confirmed.value <= now)
  }

  ghost predicate RowsOk(w: World) {
    Honest(w.rows) && forall id :: id in w.rows ==> Timely(w.rows[id], w.now)
  }

  function Held(turn: Turn): Option<ActionId> {
    if turn.Confirming? || turn.intent_ == None then None else turn.intent_.value.action
  }

  /** A confirmation hands its capability to one turn only. */
  ghost predicate OneHolder(w: World) {
    && (forall t :: t in w.turns && w.turns[t].Confirming? ==> w.turns[t].id in w.rows)
    && (forall t :: t in w.turns && Held(w.turns[t]).Some? ==>
          Held(w.turns[t]).value in w.rows && w.rows[Held(w.turns[t]).value].status != Proposed)
    && (forall t, u :: t in w.turns && u in w.turns && t != u && Held(w.turns[t]).Some? ==>
          Held(w.turns[t]) != Held(w.turns[u]))
  }

  ghost predicate ClearedOk(w: World) {
    forall t :: t in w.turns && w.turns[t].Cleared? && IsWrite(w.turns[t].tool) ==>
      && w.turns[t].action.Some? && w.turns[t].action == Held(w.turns[t])
      && Used(w.rows, w.turns[t].action.value, w.turns[t].tool, w.turns[t].args)
      && forall i :: 0 <= i < |w.log| ==> w.log[i].action != w.turns[t].action
  }

  ghost predicate ReadsHoldNothing(w: World) {
    forall t :: t in w.turns && w.turns[t].Cleared? && !IsWrite(w.turns[t].tool) ==> w.turns[t].action == None
  }

  ghost predicate LogOk(w: World) {
    && (forall i :: 0 <= i < |w.log| && IsWrite(w.log[i].tool) ==>
          w.log[i].action.Some? && Used(w.rows, w.log[i].action.value, w.log[i].tool, w.log[i].args))
    && (forall i :: 0 <= i < |w.log| && !IsWrite(w.log[i].tool) ==> w.log[i].action == None)
    && (forall i, j :: 0 <= i < j < |w.log| && w.log[i].action.Some? ==> w.log[i].action != w.log[j].action)
  }

  ghost predicate Inv(w: World) {
    RowsOk(w) && OneHolder(w) && ClearedOk(w) && ReadsHoldNothing(w) && LogOk(w)
  }

  /** The life of one row, as one move at time `now` may continue it. */
  predicate Advances(a: Action, b: Action, now: int) {
    || b == a
    || (a.status == Proposed && now < a.expires && b == a.(status := Confirmed, confirmed := Some(now)))
    || (a.status == Confirmed && now < a.expires && b == a.(status := Consumed, consumed := Some(now)))
    || ((a.status == Proposed || a.status == Confirmed) && (b == a.(status := Expired) || b == a.(status := Cancelled)))
  }

  ghost predicate IsNew(a: Action, now: int) {
    a.status == Proposed && a.created == now && a.text == Canonical(a.args)
  }

  ghost predicate RowsAdvance(v: Rows, w: Rows, now: int) {
    && (forall id :: id in v ==> id in w && Advances(v[id], w[id], now))
    && (forall id :: id in w && id !in v ==> IsNew(w[id], now))
  }

  lemma ConsumeAdvances(rows: Rows, id: ActionId, tool: Tool, text: string, now: int)
    ensures var (ok, after) := Consume(rows, id, tool, text, now);
            && RowsAdvance(rows, after, now) && after.Keys == rows.Keys
            && (ok ==> id in rows && rows[id].status == Confirmed && rows[id].tool == tool && rows[id].text == text
                       && after[id] == rows[id].(status := Consumed, consumed := Some(now)) && now < rows[id].expires)
  {
  }

  /** What a verdict says about the rows, whatever the gate had to check for it. */
  lemma AuthorizeAdvances(rows: Rows, tool: Tool, args: Args, intent: Option<Intent>, consumer: bool, now: int)
    ensures var (verdict, after) := Authorize(rows, tool, args, intent, consumer, now);
            && RowsAdvance(rows, after, now) && after.Keys == rows.Keys
            && (verdict.Granted? && IsWrite(tool) ==> Takes(rows, after, tool, args, intent, verdict.action, now))
            && (verdict.Granted? && !IsWrite(tool) ==> verdict.action == None)
  {
    if intent.Some? && intent.value.action.Some? {
      ConsumeAdvances(rows, intent.value.action.value, tool, Canonical(args), now);
    }
  }

  ghost predicate Takes(
    rows: Rows, after: Rows, tool: Tool, args: Args, intent: Option<Intent>, action: Option<ActionId>, now: int)
  {
    && intent.Some? && action.Some? && intent.value.action == action && action.value in rows && action.value in after
    && rows[action.value].status == Confirmed && now < rows[action.value].expires
    && rows[action.value].tool == tool && rows[action.value].text == Canonical(args)
    && after[action.value] == rows[action.value].(status := Consumed, consumed := Some(now))
  }

  lemma RequestAdvances(w: World, t: TurnId, tool: Tool, args: Args, ttl: int, id: ActionId, persisted: bool)
    requires t in w.turns && w.turns[t].Open? && id !in w.rows
    ensures RowsAdvance(w.rows, ApplyRequest(w, t, tool, args, ttl, id, persisted).rows, w.now)
  {
    AuthorizeAdvances(w.rows, tool, args, w.turns[t].intent_, w.turns[t].thr.Some?, w.now);
  }

  lemma MovesAdvance(w: World, m: Move)
    requires Enabled(w, m)
    ensures RowsAdvance(w.rows, Apply(w, m).rows, w.now)
  {
    if m.Request? {
      RequestAdvances(w, m.t, m.tool, m.args, m.ttl, m.id, m.persisted);
    }
  }

  lemma AdvanceKeepsOk(v: Rows, w: Rows, now: int, later: int)
    requires RowsAdvance(v, w, now) && now <= later
    requires Honest(v) && forall id :: id in v ==> Timely(v[id], now)
    ensures Honest(w) && forall id :: id in w ==> Timely(w[id], later)
  {
    forall id | id in w ensures w[id].text == Canonical(w[id].args) && Timely(w[id], later) {
      if id in v {
        assert Advances(v[id], w[id], now);
      }
    }
  }

  lemma TimeMovesOn(w: World, m: Move)
    requires Enabled(w, m)
    ensures w.now <= Apply(w, m).now
  {
  }

  lemma MovesKeepRows(w: World, m: Move)
    requires RowsOk(w) && Enabled(w, m)
    ensures RowsOk(Apply(w, m))
  {
    MovesAdvance(w, m);
    TimeMovesOn(w, m);
    AdvanceKeepsOk(w.rows, Apply(w, m).rows, w.now, Apply(w, m).now);
  }

  /** No row is rewritten into another call, un-proposed twice, or used twice. */
  ghost predicate RowsKept(v: Rows, w: Rows) {
    forall id :: id in v ==> id in w && RowKept(v[id], w[id])
  }

  ghost predicate RowKept(a: Action, b: Action) {
    && b.thread == a.thread && b.tool == a.tool && b.args == a.args && b.text == a.text
    && b.created == a.created && b.expires == a.expires
    && (a.status != Proposed ==> b.status != Proposed)
    && (a.status != Proposed && a.status != Confirmed ==> b == a)
  }

  lemma AdvanceKeeps(v: Rows, w: Rows, now: int)
    requires RowsAdvance(v, w, now)
    ensures RowsKept(v, w)
  {
  }

  lemma UsedStays(v: Rows, w: Rows, id: ActionId, tool: Tool, args: Args)
    requires RowsKept(v, w) && Used(v, id, tool, args)
    ensures Used(w, id, tool, args)
  {
  }

  /** The turns other than the one that moves. */
  ghost predicate OnlyTurn(v: World, w: World, t: TurnId) {
    forall u :: u != t ==>
      (u in v.turns <==> u in w.turns) && (u in v.turns && u in w.turns ==> v.turns[u] == w.turns[u])
  }

  lemma MoveOfTurn(w: World, m: Move) returns (t: TurnId)
    requires Enabled(w, m)
    ensures OnlyTurn(w, Apply(w, m), t)
    ensures Apply(w, m).turns == w.turns || (t in Apply(w, m).turns && t == m.t)
         || (m.End? && t == m.t && t !in Apply(w, m).turns)
  {
    t := match m
      case CancelAction(_) => 0
      case ExpireActions(_) => 0
      case Tick(_) => 0
      case _ => m.t;
  }

  /** What the moving turn holds afterwards: what it held before, or a proposal it has just confirmed. */
  lemma MovesHold(w: World, m: Move, t: TurnId)
    requires Enabled(w, m) && t in Apply(w, m).turns && Held(Apply(w, m).turns[t]).Some?
    ensures var id := Held(Apply(w, m).turns[t]);
            || (t in w.turns && Held(w.turns[t]) == id)
            || (m == ConfirmChosen(t) && id.value in w.rows && w.rows[id.value].status == Proposed
                && Apply(w, m).rows[id.value].status == Confirmed)
  {
  }

  lemma HolderOk(w: World, m: Move, t: TurnId)
    requires OneHolder(w) && Enabled(w, m) && t in Apply(w, m).turns && Held(Apply(w, m).turns[t]).Some?
    ensures var (v, id) := (Apply(w, m), Held(Apply(w, m).turns[t]).value);
            id in v.rows && v.rows[id].status != Proposed
  {
    MovesHold(w, m, t);
    MovesKeepFacts(w, m);
  }

  lemma HoldersDiffer(w: World, m: Move, t: TurnId, u: TurnId)
    requires OneHolder(w) && Enabled(w, m) && t != u && t in Apply(w, m).turns && u in Apply(w, m).turns
    requires Held(Apply(w, m).turns[t]).Some?
    ensures Held(Apply(w, m).turns[t]) != Held(Apply(w, m).turns[u])
  {
    MovesHold(w, m, t);
    if Held(Apply(w, m).turns[u]).Some? {
      MovesHold(w, m, u);
    }
  }

  lemma ChosenRowsStay(w: World, m: Move)
    requires OneHolder(w) && Enabled(w, m)
    ensures forall t :: t in Apply(w, m).turns && Apply(w, m).turns[t].Confirming? ==>
              Apply(w, m).turns[t].id in Apply(w, m).rows
  {
    MovesKeepFacts(w, m);
  }

  lemma MovesKeepHolders(w: World, m: Move)
    requires Inv(w) && Enabled(w, m)
    ensures OneHolder(Apply(w, m))
  {
    var v := Apply(w, m);
    ChosenRowsStay(w, m);
    forall t | t in v.turns && Held(v.turns[t]).Some?
      ensures Held(v.turns[t]).value in v.rows && v.rows[Held(v.turns[t]).value].status != Proposed
    {
      HolderOk(w, m, t);
    }
    forall t, u | t in v.turns && u in v.turns && t != u && Held(v.turns[t]).Some?
      ensures Held(v.turns[t]) != Held(v.turns[u])
    {
      HoldersDiffer(w, m, t, u);
    }
  }

  lemma RequestClears(w: World, m: Move)
    requires Inv(w) && Enabled(w, m) && m.Request? && Apply(w, m).turns[m.t].Cleared?
    ensures var (v, turn) := (Apply(w, m), Apply(w, m).turns[m.t]);
            && turn.tool == m.tool && (!IsWrite(turn.tool) ==> turn.action == None)
            && (IsWrite(turn.tool) ==>
                  && turn.action.Some? && turn.action == Held(turn)
                  && Used(v.rows, turn.action.value, turn.tool, turn.args)
                  && forall i :: 0 <= i < |w.log| ==> w.log[i].action != turn.action)
  {
    var turn := w.turns[m.t];
    AuthorizeAdvances(w.rows, m.tool, m.args, turn.intent_, turn.thr.Some?, w.now);
    var (verdict, after) := Authorize(w.rows, m.tool, m.args, turn.intent_, turn.thr.Some?, w.now);
    RequestResult(w, m.t, m.tool, m.args, m.ttl, m.id, m.persisted, verdict, after);
    if IsWrite(m.tool) {
      TakenIsUsed(w, after, m.tool, m.args, turn.intent_, verdict.action);
    }
  }

  lemma RequestResult(w: World, t: TurnId, tool: Tool, args: Args, ttl: int, id: ActionId, persisted: bool,
                      verdict: Verdict, after: Rows)
    requires t in w.turns && w.turns[t].Open?
    requires (verdict, after) == Authorize(w.rows, tool, args, w.turns[t].intent_, w.turns[t].thr.Some?, w.now)
    ensures var v := ApplyRequest(w, t, tool, args, ttl, id, persisted);
            t in v.turns && (v.turns[t].Cleared? ==>
              && verdict.Granted? && v.rows == after
              && v.turns[t] == Cleared(w.turns[t].thr, w.turns[t].intent_, tool, args, verdict.action))
  {
  }

  /** A capability just taken shows a full life, and no earlier call had it. */
  lemma TakenIsUsed(w: World, after: Rows, tool: Tool, args: Args, intent: Option<Intent>, action: Option<ActionId>)
    requires RowsOk(w) && LogOk(w) && Takes(w.rows, after, tool, args, intent, action, w.now)
    ensures Used(after, action.value, tool, args)
    ensures forall i :: 0 <= i < |w.log| ==> w.log[i].action != action
  {
  }

  /** A turn other than the moving one stays cleared, and its call stays out of the log. */
  lemma OthersStayCleared(w: World, m: Move, t: TurnId)
    requires Inv(w) && Enabled(w, m) && t in w.turns && t in Apply(w, m).turns && w.turns[t] == Apply(w, m).turns[t]
    requires w.turns[t].Cleared? && IsWrite(w.turns[t].tool)
    ensures var v := Apply(w, m);
            && Used(v.rows, v.turns[t].action.value, v.turns[t].tool, v.turns[t].args)
            && forall i :: 0 <= i < |v.log| ==> v.log[i].action != v.turns[t].action
  {
    MovesAdvance(w, m);
    AdvanceKeeps(w.rows, Apply(w, m).rows, w.now);
    UsedStays(w.rows, Apply(w, m).rows, w.turns[t].action.value, w.turns[t].tool, w.turns[t].args);
    OthersStayUnlogged(w, m, t);
  }

  lemma OthersStayUnlogged(w: World, m: Move, t: TurnId)
    requires Inv(w) && Enabled(w, m) && t in w.turns && t in Apply(w, m).turns && w.turns[t] == Apply(w, m).turns[t]
    requires w.turns[t].Cleared? && IsWrite(w.turns[t].tool)
    ensures forall i :: 0 <= i < |Apply(w, m).log| ==> Apply(w, m).log[i].action != w.turns[t].action
  {
    LogAfter(w, m);
    if m.Invoke? {
      assert m.t != t;
      assert w.turns[m.t].action == None || w.turns[m.t].action == Held(w.turns[m.t]);
    }
  }

  lemma LogAfter(w: World, m: Move)
    requires Enabled(w, m)
    ensures !m.Invoke? ==> Apply(w, m).log == w.log
    ensures m.Invoke? ==> Apply(w, m).log == w.log + [Call(w.turns[m.t].tool, w.turns[m.t].args, w.turns[m.t].action)]
  {
  }

  lemma MovesKeepCleared(w: World, m: Move)
    requires Inv(w) && Enabled(w, m)
    ensures ClearedOk(Apply(w, m)) && ReadsHoldNothing(Apply(w, m))
  {
    var v := Apply(w, m);
    var moved := MoveOfTurn(w, m);
    forall t | t in v.turns && v.turns[t].Cleared?
      ensures IsWrite(v.turns[t].tool) ==>
                && v.turns[t].action.Some? && v.turns[t].action == Held(v.turns[t])
                && Used(v.rows, v.turns[t].action.value, v.turns[t].tool, v.turns[t].args)
                && forall i :: 0 <= i < |v.log| ==> v.log[i].action != v.turns[t].action
      ensures !IsWrite(v.turns[t].tool) ==> v.turns[t].action == None
    {
      if t in w.turns && w.turns[t] == v.turns[t] {
        if IsWrite(w.turns[t].tool) {
          OthersStayCleared(w, m, t);
        }
      } else {
        assert m.Request? && m.t == t;
        RequestClears(w, m);
      }
    }
  }

  lemma MovesKeepLog(w: World, m: Move)
    requires Inv(w) && Enabled(w, m)
    ensures LogOk(Apply(w, m))
  {
    MovesAdvance(w, m);
    AdvanceKeeps(w.rows, Apply(w, m).rows, w.now);
    LogAfter(w, m);
    LogStaysOk(w, Apply(w, m).rows, Apply(w, m).log, if m.Invoke? then m.t else 0, m.Invoke?);
  }

  lemma LogStaysOk(w: World, rows: Rows, log: seq<Call>, t: TurnId, invoked: bool)
    requires LogOk(w) && ClearedOk(w) && ReadsHoldNothing(w) && RowsKept(w.rows, rows)
    requires !invoked ==> log == w.log
    requires invoked ==> t in w.turns && w.turns[t].Cleared?
                         && log == w.log + [Call(w.turns[t].tool, w.turns[t].args, w.turns[t].action)]
    ensures LogOk(World(rows, w.now, w.turns, log))
  {
    forall i | 0 <= i < |log| && IsWrite(log[i].tool)
      ensures log[i].action.Some? && Used(rows, log[i].action.value, log[i].tool, log[i].args)
    {
      UsedStays(w.rows, rows, log[i].action.value, log[i].tool, log[i].args);
    }
  }

  lemma MovesKeepInv(w: World, m: Move)
    requires Inv(w) && Enabled(w, m)
    ensures Inv(Apply(w, m))
  {
    MovesKeepRows(w, m);
    MovesKeepHolders(w, m);
    MovesKeepCleared(w, m);
    MovesKeepLog(w, m);
  }

  // ---- runs ----------------------------------------------------------------------------------

  const QUIET := World(map[], 0, map[], [])

  ghost predicate StepAt(worlds: seq<World>, moves: seq<Move>, k: nat)
    requires |worlds| == |moves| + 1 && k < |moves|
  {
    Enabled(worlds[k], moves[k]) && worlds[k + 1] == Apply(worlds[k], moves[k])
  }

  ghost predicate IsRun(worlds: seq<World>, moves: seq<Move>) {
    && |worlds| == |moves| + 1 && worlds[0] == QUIET
    && forall k :: 0 <= k < |moves| ==> StepAt(worlds, moves, k)
  }

  lemma {:induction false} RunInv(worlds: seq<World>, moves: seq<Move>, k: nat)
    requires IsRun(worlds, moves) && k < |worlds|
    ensures Inv(worlds[k])
  {
    if k > 0 {
      RunInv(worlds, moves, k - 1);
      assert StepAt(worlds, moves, k - 1);
      MovesKeepInv(worlds[k - 1], moves[k - 1]);
    }
  }

  lemma MovesKeepFacts(w: World, m: Move)
    requires Enabled(w, m)
    ensures RowsKept(w.rows, Apply(w, m).rows)
  {
    MovesAdvance(w, m);
    AdvanceKeeps(w.rows, Apply(w, m).rows, w.now);
  }

  lemma KeptTransitive(u: Rows, v: Rows, w: Rows)
    requires RowsKept(u, v) && RowsKept(v, w)
    ensures RowsKept(u, w)
  {
  }

  lemma {:induction false} RowsKeptAlong(worlds: seq<World>, moves: seq<Move>, k: nat, l: nat)
    requires IsRun(worlds, moves) && k <= l < |worlds|
    ensures RowsKept(worlds[k].rows, worlds[l].rows)
  {
    if k < l {
      RowsKeptAlong(worlds, moves, k, l - 1);
      assert StepAt(worlds, moves, l - 1);
      MovesKeepFacts(worlds[l - 1], moves[l - 1]);
      KeptTransitive(worlds[k].rows, worlds[l - 1].rows, worlds[l].rows);
    }
  }

  /**
   * Over every interleaving of turns, confirmations, cancellations and crashes, a write tool runs
   * only with arguments that mean what its stored proposal meant, after that proposal was
   * confirmed and before it expired.
   */
  lemma WritesAreConfirmedProposals(worlds: seq<World>, moves: seq<Move>, k: nat, i: nat)
    requires IsRun(worlds, moves) && k < |worlds| && i < |worlds[k].log| && IsWrite(worlds[k].log[i].tool)
    ensures var (call, rows) := (worlds[k].log[i], worlds[k].rows);
            && call.action.Some? && call.action.value in rows
            && var a := rows[call.action.value];
               && a.status == Consumed && a.tool == call.tool && Meaning(a.args) == Meaning(call.args)
               && a.confirmed.Some? && a.consumed.Some?
               && a.created <= a.confirmed.value <= a.consumed.value < a.expires
  {
    RunInv(worlds, moves, k);
    var call := worlds[k].log[i];
    CanonicalIffSameMeaning(worlds[k].rows[call.action.value].args, call.args);
  }

  /** Each action pays for at most one invocation. */
  lemma OneInvocationPerAction(worlds: seq<World>, moves: seq<Move>, k: nat, i: nat, j: nat)
    requires IsRun(worlds, moves) && k < |worlds| && i < j < |worlds[k].log|
    requires IsWrite(worlds[k].log[i].tool)
    ensures worlds[k].log[i].action.Some? && worlds[k].log[i].action != worlds[k].log[j].action
  {
    RunInv(worlds, moves, k);
  }

  /** Of any number of turns confirming the same proposal, at most one leaves with its capability. */
  lemma DoubleConfirmIssuesOnce(worlds: seq<World>, moves: seq<Move>, k: nat, t: TurnId, u: TurnId)
    requires IsRun(worlds, moves) && k < |worlds| && t != u && t in worlds[k].turns && u in worlds[k].turns
    requires Held(worlds[k].turns[t]).Some?
    ensures Held(worlds[k].turns[t]) != Held(worlds[k].turns[u])
  {
    RunInv(worlds, moves, k);
  }
}
