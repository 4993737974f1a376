/**
 * What a call of a publishing tool comes to, reply by reply; when the REST server is asked; what an
 * attempt leaves behind; and exactly which errors are worth another attempt.
 */
module McpOutcomes {
  import opened Wrappers
  import opened McpPublish

  ghost predicate Publishes(tool: Tool) {
    tool in {PublishContent, PublishWithVideo}
  }

  // ---- which server is asked ----------------------------------------------------

  /** The MCP server gave no usable answer, in a way the client catches. */
  ghost predicate Unusable(rpc: Reply<RpcBody>) {
    match rpc
    case Answer(status, body) =>
      || !(200 <= status < 300)
      || body in {RpcBody.NotJson, RpcBody.NotDict, RpcError(true), RpcError(false), NoResult}
    case _ => true
  }

  /** The tool may have run: the connection broke after sending, or a server that got the call said nothing clear. */
  ghost predicate InDoubt(rpc: Reply<RpcBody>) {
    match rpc
    case NeverSent => false
    case Lost(_) => true
    case Answer(status, body) =>
      || status >= 500
      || (200 <= status < 300 && body in {RpcBody.NotJson, RpcBody.NotDict, RpcError(false), NoResult})
  }

  /** A declining answer is an unusable one that leaves no doubt, odd statuses aside. */
  lemma DeclinedIff(rpc: Reply<RpcBody>, rest: Reply<RestBody>)
    ensures RpcDeclined(rpc) <==> Unusable(rpc) && !InDoubt(rpc) && !(rpc.Answer? && Odd(rpc.status))
    ensures RestDeclined(rest) <==> rest.NeverSent? || (rest.Answer? && 400 <= rest.status <= 499)
  {
  }

  /**
   * The MCP server is asked whenever it is enabled and shakes hands. The REST server is asked after
   * a failed handshake or an unusable answer, but not by a publish whose first request may have
   * acted, and only for calls the REST interface has.
   */
  lemma AskedIff(tool: Tool, env: Env)
    ensures Call(tool, env).rpcSent <==> env.enabled && env.handshake == Fine
    ensures Call(tool, env).restSent <==>
              && env.enabled && tool != OtherTool && (Publishes(tool) ==> env.complete)
              && (|| env.handshake == Fails
                  || (env.handshake == Fine && Unusable(env.rpc) && !(Publishes(tool) && InDoubt(env.rpc))))
  {
  }

  // ---- what the caller gets -------------------------------------------------------

  ghost predicate RpcWorks(env: Env) {
    env.enabled && env.handshake == Fine && env.rpc.Answer? && 200 <= env.rpc.status < 300 && env.rpc.body == ToolOk
  }

  ghost predicate RestWorks(env: Env) {
    env.rest.Answer? && env.rest.status < 400 && env.rest.body.Verdict? && env.rest.body.success
  }

  /** A call succeeds exactly when the MCP tool says so, or the REST server is asked and says so. */
  lemma SucceedsIff(tool: Tool, env: Env)
    ensures Call(tool, env).result == Returned <==> RpcWorks(env) || (Call(tool, env).restSent && RestWorks(env))
  {
  }

  /** The error of a call that asks the REST server. */
  ghost predicate RestError(tool: Tool, rest: Reply<RestBody>, exc: Exc) {
    match rest
    case NeverSent => exc == ClientError({})
    case Lost(words) => exc == if Publishes(tool) then UNKNOWN else ClientError(words)
    case Answer(status, body) =>
      match body
      case RestNotUtf8 => exc == VALUE_ERROR
      case RestNotJson =>
        exc == if Publishes(tool) && (status < 400 || status >= 500) then UNKNOWN else ClientError({})
      case RestNotDict => exc == if status < 400 then ClientError({}) else ATTRIBUTE_ERROR
      case Verdict(success, reason) => (status >= 400 || !success) && exc == ClientError(reason)
  }

  /** The error of a call that stops at the MCP server. */
  ghost predicate StopsWith(tool: Tool, env: Env, exc: Exc) {
    || (!env.enabled && exc == ClientError({Unauthorized}))
    || (env.enabled && env.handshake == Breaks(exc))
    || (env.enabled && env.handshake == Fails && Unreachable(tool, env, exc))
    || (env.enabled && env.handshake == Fine && AnswerError(tool, env, exc))
  }

  /** The REST interface lacks the tool, or the publish lacks what it needs. */
  ghost predicate Unreachable(tool: Tool, env: Env, exc: Exc) {
    (tool == OtherTool && exc == ClientError({})) || (Publishes(tool) && !env.complete && exc == KEY_ERROR)
  }

  ghost predicate AnswerError(tool: Tool, env: Env, exc: Exc) {
    if Unusable(env.rpc) then
      if Publishes(tool) && InDoubt(env.rpc) then exc == UNKNOWN else Unreachable(tool, env, exc)
    else
      match env.rpc.body
      case NotUtf8 => exc == VALUE_ERROR
      case MalformedError => exc == ATTRIBUTE_ERROR
      case MalformedResult => exc == ATTRIBUTE_ERROR
      case ToolError(said) => exc == ClientError(said)
      case _ => false
  }

  lemma ErrorIff(tool: Tool, env: Env, exc: Exc)
    ensures Call(tool, env).result == Raised(exc) <==>
              if Call(tool, env).restSent then RestError(tool, env.rest, exc) else StopsWith(tool, env, exc)
  {
  }

  // ---- which errors are worth another attempt ---------------------------------------

  /** Ruled out whatever else the error says. */
  ghost predicate NeverAgain(e: Exc) {
    || e.cls in {OutcomeUnknown, Configuration, Validation}
    || ApiKey in e.words || e.isValueError || e.isLookupError
  }

  ghost predicate ClientStatus(e: Exc) {
    e.status.Some? && 400 <= e.status.value <= 499 && e.status.value != 429
  }

  ghost predicate ServerStatus(e: Exc) {
    e.status.Some? && (e.status.value == 429 || 500 <= e.status.value <= 599)
  }

  /** What the class decides when neither status nor message did. */
  ghost predicate ClassRetries(e: Exc) {
    && e.cls != Integrity
    && (e.cls == LlmGeneration ==> RateLimited in e.words || Unavailable in e.words || BadModel !in e.words)
    && (e.cls == McpClient ==> Unauthorized !in e.words)
    && (e.cls == PipelineExecution ==> BadPipeline !in e.words)
    && (e.cls == Operational ==> Connecting in e.words)
  }

  /** An error is retried exactly when it is transient and attempts are left. */
  lemma RetriedIff(e: Exc, attempts: nat, maxRetries: nat)
    ensures ShouldRetry(e, attempts, maxRetries) <==>
              && attempts < maxRetries && !NeverAgain(e) && !ClientStatus(e)
              && (|| ServerStatus(e)
                  || e.network || TimedOut in e.words || ConnectionBroken in e.words
                  || ClassRetries(e))
    ensures Transient(e) <==> ShouldRetry(e, 0, 1)
  {
  }

  /** Which of the errors a call ends with are worth another attempt. */
  lemma CallErrorsRetried(words: set<Word>, attempts: nat, maxRetries: nat)
    ensures !ShouldRetry(UNKNOWN, attempts, maxRetries)
    ensures !ShouldRetry(VALUE_ERROR, attempts, maxRetries) && !ShouldRetry(KEY_ERROR, attempts, maxRetries)
    ensures ShouldRetry(ATTRIBUTE_ERROR, attempts, maxRetries) <==> attempts < maxRetries
    ensures ShouldRetry(ClientError(words), attempts, maxRetries) <==>
              && attempts < maxRetries && ApiKey !in words
              && (TimedOut in words || ConnectionBroken in words || Unauthorized !in words)
  {
  }

  // ---- what an attempt leaves behind -------------------------------------------------

  /** The tool is called exactly by an attempt on an open publication whose claim and start go through. */
  lemma CalledIff(tool: Tool, pub: Pub, a: Attempt)
    ensures Attempting(tool, pub, a).called <==>
              && pub.status != Final && pub.row in {Unclaimed, Row.Released}
              && a.claim == Write.Ok && a.start == Write.Ok
  {
  }

  /** The call was made and returned, and so did every record after it. */
  ghost predicate AllRecorded(tool: Tool, a: Attempt) {
    !a.callDies && Call(tool, a.env).result == Returned && a.record == Write.Ok && a.after == Write.Ok
  }

  /** Some error reached the except block around the call. */
  ghost predicate Excepts(tool: Tool, a: Attempt, exc: Exc) {
    && !a.callDies
    && (|| Call(tool, a.env).result == Raised(exc)
        || (&& Call(tool, a.env).result == Returned
            && (|| (a.record.Throws? && a.record.exc == exc)
                || (a.record == Write.Ok && a.after.Throws? && a.after.exc == exc))))
  }

  ghost predicate Lands(w: Write) {
    match w
    case Ok => true
    case Throws(_, landed) => landed
    case Killed(landed) => landed
  }

  /** After a call: posted and kept as such, or failed, or left running by a death. */
  ghost predicate StatusAfter(tool: Tool, a: Attempt, status: Status) {
    var posted := !a.callDies && Call(tool, a.env).result == Returned && Lands(a.record);
    if (exists exc :: Excepts(tool, a, exc)) && Lands(a.mark) then status == Failed
    else status == if posted then Final else Status.Running
  }

  /** After a call: finished, given back, or still claimed. */
  ghost predicate RowAfter(tool: Tool, a: Attempt, row: Row) {
    if AllRecorded(tool, a) then row == if Lands(a.complete) then Row.Completed else InProgress
    else if (exists exc :: Excepts(tool, a, exc)) && !a.mark.Killed? then
      row == if Lands(a.release) then Row.Released else InProgress
    else row == InProgress
  }

  lemma ExceptsWhen(tool: Tool, a: Attempt)
    ensures (exists exc :: Excepts(tool, a, exc)) <==> Reason(tool, a).Some?
    ensures forall exc :: Excepts(tool, a, exc) <==> Reason(tool, a) == Some(exc)
  {
    if Reason(tool, a).Some? {
      assert Excepts(tool, a, Reason(tool, a).value);
    }
  }

  lemma AttemptLeaves(tool: Tool, pub: Pub, a: Attempt)
    requires Attempting(tool, pub, a).called
    ensures StatusAfter(tool, a, Attempting(tool, pub, a).pub.status)
    ensures RowAfter(tool, a, Attempting(tool, pub, a).pub.row)
  {
    ExceptsWhen(tool, a);
  }

  /** How an attempt that made its call ends. */
  ghost predicate EndAfter(tool: Tool, a: Attempt, end: End) {
    if AllRecorded(tool, a) then
      match a.complete
      case Ok => end == Ends(Returned)
      case Throws(exc, _) => end == Ends(Raised(exc))
      case Killed(_) => end == Cut
    else if exists exc :: Excepts(tool, a, exc) then
      if a.mark.Killed? || a.release.Killed? then end == Cut
      else
        exists exc :: Excepts(tool, a, exc) && end == Ends(Raised(
          if a.release.Throws? then a.release.exc else if a.mark.Throws? then a.mark.exc else exc))
    else end == Cut
  }

  lemma AttemptEnds(tool: Tool, pub: Pub, a: Attempt)
    requires Attempting(tool, pub, a).called
    ensures EndAfter(tool, a, Attempting(tool, pub, a).end)
  {
    ExceptsWhen(tool, a);
    if Reason(tool, a).Some? {
      assert Excepts(tool, a, Reason(tool, a).value);
    }
  }

  /** The end that follows from a write on which the attempt hangs. */
  ghost predicate EndsBy(w: Write, end: End, done: End) {
    match w
    case Ok => end == done
    case Throws(exc, _) => end == Ends(Raised(exc))
    case Killed(_) => end == Cut
  }

  /**
   * An attempt that makes no call leaves what it finds closed; a claim that fails leaves at most the
   * claim, and a start that fails gives the claim back.
   */
  lemma UncalledLeaves(tool: Tool, pub: Pub, a: Attempt)
    requires !Attempting(tool, pub, a).called
    ensures var r := Attempting(tool, pub, a);
            if pub.status == Final then r.pub == pub && r.end == Ends(Returned)
            else if pub.row == Row.Completed then r.pub == pub && EndsBy(a.claim, r.end, Ends(Returned))
            else if pub.row == InProgress then r.pub == pub && EndsBy(a.claim, r.end, Ends(Raised(IN_FLIGHT)))
            else if a.claim != Write.Ok then
              r.pub == Pub(pub.status, if Lands(a.claim) then InProgress else pub.row)
              && EndsBy(a.claim, r.end, Cut)
            else
              && r.pub.status == (if Lands(a.start) then Status.Running else pub.status)
              && r.pub.row == (if !a.start.Killed? && Lands(a.release) then Row.Released else InProgress)
              && if a.start.Killed? then r.end == Cut
                 else EndsBy(a.release, r.end, Ends(Raised(a.start.exc)))
  {
  }

  /** With nothing wrong on this side, a call that succeeds finishes the publication; one that fails reopens it. */
  lemma UndisturbedAttempt(tool: Tool, pub: Pub, env: Env)
    requires Open(pub)
    ensures var (r, result) := (Attempting(tool, pub, Undisturbed(env)), Call(tool, env).result);
            && r.called && r.end == Ends(result)
            && r.pub == if result == Returned then Pub(Final, Row.Completed) else Pub(Failed, Row.Released)
  {
  }
}
