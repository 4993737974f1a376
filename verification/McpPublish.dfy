/**
 * Publishing through the MCP server with a REST fallback, the status gate and the ledger row around
 * every attempt, and the job retries around those: a post on a real platform cannot be taken back,
 * so nothing may be sent again once it may have been accepted.
 */
module McpPublish {
  import opened Wrappers

  datatype Tool = PublishContent | PublishWithVideo | CheckLogin | OtherTool

  predicate NonIdempotent(tool: Tool) {
    tool.PublishContent? || tool.PublishWithVideo?
  }

  // ---- errors ----------------------------------------------------------------------------

  /** What class-name tests of the classifier can tell apart. */
  datatype Class =
    | OutcomeUnknown | Configuration | Validation | LlmGeneration | McpClient | PipelineExecution
    | Operational | Integrity | Permission | BusinessRule | OtherClass

  /** What message tests of the classifier look for. */
  datatype Word =
    | ApiKey | TimedOut | ConnectionBroken | RateLimited | Unavailable | BadModel | Unauthorized
    | BadPipeline | Connecting

  datatype Exc = Exc(
    cls: Class, isValueError: bool, isLookupError: bool, status: Option<nat>, network: bool, words: set<Word>)

  /** ErrorClassifier.classify == "transient" */
  predicate Transient(e: Exc) {
    if e.cls.OutcomeUnknown? || e.cls.Configuration? || ApiKey in e.words || e.cls.Validation? then false
    else if e.isValueError || e.isLookupError then false
    else if e.status.Some? && e.status.value in {429, 502, 503, 504} then true
    else if e.status.Some? && 400 <= e.status.value < 500 then false
    else if e.status.Some? && 500 <= e.status.value < 600 then true
    else if e.network || TimedOut in e.words || ConnectionBroken in e.words then true
    else
      match e.cls
      case LlmGeneration => RateLimited in e.words || Unavailable in e.words || BadModel !in e.words
      case McpClient => Unauthorized !in e.words
      case PipelineExecution => BadPipeline !in e.words
      case Operational => Connecting in e.words
      case Integrity => false
      case _ => true
  }

  /** Ruled out before any status, network or message test: configuration, validation, bad data, unknown outcome. */
  predicate PermanentOutright(e: Exc) {
    || e.cls.OutcomeUnknown? || e.cls.Configuration? || e.cls.Validation?
    || ApiKey in e.words || e.isValueError || e.isLookupError
  }

  /**
   * The classes the classifier documents: bad requests, bad data and configuration are permanent;
   * rate limits, gateway errors and network errors are transient. Integrity violations are
   * documented as permanent, and are so exactly when nothing in them reads like a network error.
   * Permission and business rule errors are documented as permanent too, and are so only when some
   * other rule makes them.
   */
  lemma VerdictsAsDocumented(e: Exc)
    ensures PermanentOutright(e) ==> !Transient(e)
    ensures e.status.Some? && 400 <= e.status.value < 500 && e.status.value != 429 ==> !Transient(e)
    ensures !PermanentOutright(e) && e.status.Some? && (e.status.value == 429 || 500 <= e.status.value < 600) ==>
              Transient(e)
    ensures !PermanentOutright(e) && e.status == None && e.network ==> Transient(e)
    ensures e.cls.Integrity? && e.status == None ==>
              (Transient(e) <==>
                 !PermanentOutright(e) && (e.network || TimedOut in e.words || ConnectionBroken in e.words))
    ensures (e.cls.Permission? || e.cls.BusinessRule?) && e.status == None ==>
              (Transient(e) <==> !PermanentOutright(e))
  {
  }

  predicate ShouldRetry(e: Exc, attempts: nat, maxRetries: nat) {
    attempts < maxRetries && Transient(e)
  }

  const UNKNOWN := Exc(OutcomeUnknown, false, false, None, false, {TimedOut})
  const VALUE_ERROR := Exc(OtherClass, true, false, None, false, {})
  const KEY_ERROR := Exc(OtherClass, false, true, None, false, {})
  const ATTRIBUTE_ERROR := Exc(OtherClass, false, false, None, false, {})

  function ClientError(words: set<Word>): Exc {
    Exc(McpClient, false, false, None, false, words)
  }

  // ---- what a server may answer --------------------------------------------------------------

  datatype Reply<B> =
    | NeverSent                         // refused or timed out connecting
    | Lost(words: set<Word>)            // any other transport failure
    | Answer(status: nat, body: B)

  datatype RpcBody =
    | NotUtf8 | NotJson | NotDict
    | RpcError(rejected: bool)          // rejected: one of the four codes
    | MalformedError                    // an error member that is no dict
    | NoResult
    | MalformedResult                   // no dict for a result or a content item, or a text that is no string
    | ToolError(said: set<Word>)        // isError
    | ToolOk

  datatype RestBody =
    | RestNotUtf8 | RestNotJson | RestNotDict
    | Verdict(success: bool, reason: set<Word>)

  /** How initialize and notifications/initialized went. */
  datatype Handshake = Fine | Fails | Breaks(exc: Exc)

  /** All the answers one call can meet; `complete`: the arguments have what the REST payload needs. */
  datatype Env = Env(enabled: bool, handshake: Handshake, rpc: Reply<RpcBody>, rest: Reply<RestBody>, complete: bool)

  datatype Result = Returned | Raised(exc: Exc)

  datatype Outcome = Outcome(result: Result, rpcSent: bool, restSent: bool)

  /** The server answered with a status that is neither a success nor an error. */
  predicate Odd(status: nat) {
    status < 200 || 300 <= status < 400
  }

  // ---- the call ----------------------------------------------------------------------------------

  datatype Cause = ConnectFailed | TransportLost | BadStatus(code: nat) | Rejected | BadReply

  predicate OutcomeIsUnknown(c: Cause) {
    match c
    case ConnectFailed => false
    case BadStatus(code) => code >= 500
    case Rejected => false
    case _ => true
  }

  /** What `_post` makes of the reply: caught by call_tool, or passing through it. */
  datatype Posted = Value | Caught(cause: Cause) | Escapes(exc: Exc)

  function Post(reply: Reply<RpcBody>): Posted {
    match reply
    case NeverSent => Caught(ConnectFailed)
    case Lost(_) => Caught(TransportLost)
    case Answer(status, body) =>
      if !(200 <= status < 300) then Caught(BadStatus(status))
      else match body
           case NotUtf8 => Escapes(VALUE_ERROR)
           case NotJson => Caught(BadReply)
           case NotDict => Caught(BadReply)
           case RpcError(rejected) => Caught(if rejected then Rejected else BadReply)
           case MalformedError => Escapes(ATTRIBUTE_ERROR)
           case NoResult => Caught(BadReply)
           case _ => Value
  }

  /** Reading the tool result, outside the try block. */
  function Normalize(reply: Reply<RpcBody>): Result {
    if reply.Answer? && reply.body.ToolError? then Raised(ClientError(reply.body.said))
    else if reply.Answer? && reply.body.MalformedResult? then Raised(ATTRIBUTE_ERROR)
    else Returned
  }

  function RestResult(tool: Tool, reply: Reply<RestBody>): Result {
    match reply
    case NeverSent => Raised(ClientError({}))
    case Lost(words) => Raised(if NonIdempotent(tool) then UNKNOWN else ClientError(words))
    case Answer(status, body) =>
      match body
      case RestNotUtf8 => Raised(VALUE_ERROR)
      case RestNotJson =>
        Raised(if NonIdempotent(tool) && !(400 <= status < 500) then UNKNOWN else ClientError({}))
      case RestNotDict => Raised(if status >= 400 then ATTRIBUTE_ERROR else ClientError({}))
      case Verdict(success, reason) => if status >= 400 || !success then Raised(ClientError(reason)) else Returned
  }

  function Fallback(tool: Tool, env: Env, rpcSent: bool): Outcome {
    if tool.OtherTool? then Outcome(Raised(ClientError({})), rpcSent, false)
    else if NonIdempotent(tool) && !env.complete then Outcome(Raised(KEY_ERROR), rpcSent, false)
    else Outcome(RestResult(tool, env.rest), rpcSent, true)
  }

  method CallTool(tool: Tool, env: Env) returns (o: Outcome)
    ensures o == Call(tool, env)
  {
    if !env.enabled {
      return Outcome(Raised(ClientError({Unauthorized})), false, false);
    }
    var dispatched := false;
    var failed: Option<Cause> := None;
    match env.handshake {
      case Breaks(exc) => return Outcome(Raised(exc), false, false);
      case Fails => failed := Some(BadReply);
      case Fine =>
        dispatched := true;
        match Post(env.rpc) {
          case Escapes(exc) => return Outcome(Raised(exc), true, false);
          case Caught(cause) => failed := Some(cause);
          case Value =>
        }
    }
    if failed.Some? {
      if dispatched && NonIdempotent(tool) && OutcomeIsUnknown(failed.value) {
        return Outcome(Raised(UNKNOWN), true, false);
      }
      return Fallback(tool, env, dispatched);
    }
    return Outcome(Normalize(env.rpc), true, false);
  }

  /** What a call comes to, told without the flag: by how far the handshake and the reply got. */
  function Call(tool: Tool, env: Env): Outcome {
    if !env.enabled then Outcome(Raised(ClientError({Unauthorized})), false, false)
    else if env.handshake.Breaks? then Outcome(Raised(env.handshake.exc), false, false)
    else if env.handshake.Fails? then Fallback(tool, env, false)
    else match Post(env.rpc)
         case Escapes(exc) => Outcome(Raised(exc), true, false)
         case Value => Outcome(Normalize(env.rpc), true, false)
         case Caught(cause) =>
           if NonIdempotent(tool) && OutcomeIsUnknown(cause) then Outcome(Raised(UNKNOWN), true, false)
           else Fallback(tool, env, true)
  }

  // ---- at most once per call ----------------------------------------------------------------------

  /**
   * Replies that, by assumption, mean the tool was not run: nothing was sent, a client error, or one
   * of the four codes. An isError result is a tool that ran, and may have posted.
   */
  predicate RpcDeclined(reply: Reply<RpcBody>) {
    match reply
    case NeverSent => true
    case Lost(_) => false
    case Answer(status, body) =>
      400 <= status < 500 || (200 <= status < 300 && body == RpcError(true))
  }

  predicate RestDeclined(reply: Reply<RestBody>) {
    match reply
    case NeverSent => true
    case Lost(_) => false
    case Answer(status, _) => 400 <= status < 500
  }

  /** Which of the two requests made the post; a declined one did not. */
  datatype Acts = Acts(rpc: bool, rest: bool)

  predicate Honest(env: Env, acts: Acts) {
    (RpcDeclined(env.rpc) ==> !acts.rpc) && (RestDeclined(env.rest) ==> !acts.rest)
  }

  function Posts(o: Outcome, acts: Acts): nat {
    (if o.rpcSent && acts.rpc then 1 else 0) + (if o.restSent && acts.rest then 1 else 0)
  }

  /** The fallback is taken after dispatch only when the server declined, or answered oddly. */
  lemma FallbackAfterDispatch(tool: Tool, env: Env)
    requires NonIdempotent(tool) && Call(tool, env).rpcSent && Call(tool, env).restSent
    ensures RpcDeclined(env.rpc) || (env.rpc.Answer? && Odd(env.rpc.status))
  {
  }

  /** The MCP server answered oddly, and REST was reached and may act. */
  predicate TwiceInOneCall(env: Env) {
    && env.enabled && env.handshake.Fine? && env.rpc.Answer? && Odd(env.rpc.status)
    && env.complete && !RestDeclined(env.rest)
  }

  /**
   * A publish call makes at most one post, whatever the servers did, exactly unless the MCP
   * server answered with a status outside 2xx, 4xx and 5xx and REST was reached and may act.
   */
  lemma PostedAtMostOnceIff(tool: Tool, env: Env)
    requires NonIdempotent(tool)
    ensures (forall acts :: Honest(env, acts) ==> Posts(Call(tool, env), acts) <= 1) <==> !TwiceInOneCall(env)
  {
    if env.rpc.Answer? && Odd(env.rpc.status) && !RestDeclined(env.rest) {
      assert Honest(env, Acts(true, true));
    }
    if Call(tool, env).rpcSent && Call(tool, env).restSent {
      FallbackAfterDispatch(tool, env);
    }
  }

  /** A lost request, or an answer nobody can read outside 4xx, ends in an error that is never retried. */
  lemma UnknownIsNeverRetried(tool: Tool, env: Env, attempts: nat, maxRetries: nat)
    requires NonIdempotent(tool)
    requires var o := Call(tool, env);
             || (o.restSent && (env.rest.Lost? || (env.rest.Answer? && !(400 <= env.rest.status < 500)
                                                   && (env.rest.body.RestNotJson? || env.rest.body.RestNotUtf8?))))
             || (o.rpcSent && (env.rpc.Lost? || (env.rpc.Answer? && env.rpc.status >= 500)
                               || (env.rpc.Answer? && 200 <= env.rpc.status < 300
                                   && (env.rpc.body.NotJson? || env.rpc.body.NotUtf8? || env.rpc.body.NotDict?))))
    ensures Call(tool, env).result.Raised? && !ShouldRetry(Call(tool, env).result.exc, attempts, maxRetries)
    ensures Call(tool, env).rpcSent && env.rpc.Lost? ==>
              Call(tool, env).result == Raised(UNKNOWN) && !Call(tool, env).restSent
  {
  }

  // ---- one attempt: the gate, the ledger row and the records ---------------------------------------------

  /** A write to the database: done, raising with or without having landed, or the process dies in it. */
  datatype Write = Ok | Throws(exc: Exc, landed: bool) | Killed(landed: bool)

  predicate Landed(w: Write) {
    w.Ok? || w.landed
  }

  datatype Status = Waiting | Running | Failed | Final     // Final: completed or scheduled

  datatype Row = Unclaimed | InProgress | Released | Completed

  /** The publication row, and its row in the ledger of keyed writes. */
  datatype Pub = Pub(status: Status, row: Row)

  /** All that one attempt can meet, in the order of the code; `survives`: its end reaches the job row. */
  datatype Attempt = Attempt(
    claim: Write, start: Write, env: Env, callDies: bool, record: Write, after: Write, complete: Write,
    mark: Write, release: Write, survives: bool)

  datatype End = Ends(result: Result) | Cut

  /** `called`: the publish tool was called. */
  datatype Attempted = Attempted(end: End, called: bool, pub: Pub)

  const IN_FLIGHT := Exc(OtherClass, false, false, None, false, {})

  function EndOf(w: Write, result: Result): End {
    match w
    case Ok => Ends(result)
    case Throws(exc, _) => Ends(Raised(exc))
    case Killed(_) => Cut
  }

  /** fail_idempotency_key, and the error goes on. */
  function ReleaseRow(pub: Pub, exc: Exc, a: Attempt): Attempted {
    Attempted(EndOf(a.release, Raised(exc)), false, if Landed(a.release) then pub.(row := Released) else pub)
  }

  /** The except block around the call and its records. */
  function MarkFailed(pub: Pub, exc: Exc, a: Attempt): Attempted {
    var marked := if Landed(a.mark) then pub.(status := Failed) else pub;
    match a.mark
    case Ok => ReleaseRow(marked, exc, a)
    case Throws(other, _) => ReleaseRow(marked, other, a)
    case Killed(_) => Attempted(Cut, false, marked)
  }

  /** After the call: the publication, then the content and the calendar, then the ledger row. */
  function RecordPost(pub: Pub, result: Result, a: Attempt): Attempted {
    if result.Raised? then MarkFailed(pub, result.exc, a)
    else
      var recorded := if Landed(a.record) then pub.(status := Final) else pub;
      if a.record.Killed? then Attempted(Cut, false, recorded)
      else if a.record.Throws? then MarkFailed(recorded, a.record.exc, a)
      else if a.after.Killed? then Attempted(Cut, false, recorded)
      else if a.after.Throws? then MarkFailed(recorded, a.after.exc, a)
      else
        Attempted(EndOf(a.complete, Returned), false,
                  if Landed(a.complete) then recorded.(row := Completed) else recorded)
  }

  /** The write under the key: a row that claims can be taken by. */
  function WriteOnce(tool: Tool, pub: Pub, a: Attempt): Attempted {
    var started := if Landed(a.start) then pub.(status := Running) else pub;
    match a.start
    case Killed(_) => Attempted(Cut, false, started)
    case Throws(exc, _) => ReleaseRow(started, exc, a)
    case Ok =>
      if a.callDies then Attempted(Cut, true, started)
      else RecordPost(started, Call(tool, a.env).result, a).(called := true)
  }

  /** A finished publication, or a row that is claimed or completed, lets no attempt through. */
  predicate Open(pub: Pub) {
    !pub.status.Final? && (pub.row.Unclaimed? || pub.row.Released?)
  }

  function Attempting(tool: Tool, pub: Pub, a: Attempt): Attempted {
    if pub.status.Final? then Attempted(Ends(Returned), false, pub)
    else if !Open(pub) then
      Attempted(EndOf(a.claim, if pub.row.Completed? then Returned else Raised(IN_FLIGHT)), false, pub)
    else
      var claimed := if Landed(a.claim) then pub.(row := InProgress) else pub;
      if a.claim.Ok? then WriteOnce(tool, claimed, a)
      else Attempted(EndOf(a.claim, Returned), false, claimed)
  }

  class Publication {
    var status: Status
    var row: Row

    function Value(): Pub
      reads this
    {
      Pub(status, row)
    }

    method ReleaseKey(exc: Exc, a: Attempt) returns (end: End)
      modifies this
      ensures Attempted(end, false, Value()) == ReleaseRow(old(Value()), exc, a)
    {
      if Landed(a.release) {
        row := Released;
      }
      end := EndOf(a.release, Raised(exc));
    }

    method Execute(tool: Tool, a: Attempt) returns (end: End, called: bool)
      modifies this
      ensures Attempted(end, called, Value()) == Attempting(tool, old(Value()), a)
    {
      called := false;
      if status.Final? {
        return Ends(Returned), called;
      }
      if row.InProgress? || row.Completed? {
        return EndOf(a.claim, if row.Completed? then Returned else Raised(IN_FLIGHT)), called;
      }
      if Landed(a.claim) {
        row := InProgress;
      }
      if !a.claim.Ok? {
        return EndOf(a.claim, Returned), called;
      }
      if Landed(a.start) {
        status := Running;
      }
      if a.start.Killed? {
        return Cut, called;
      }
      if a.start.Throws? {
        end := ReleaseKey(a.start.exc, a);
        return;
      }
      called := true;
      if a.callDies {
        return Cut, called;
      }
      var raised: Option<Exc> := None;
      var o := CallTool(tool, a.env);
      if o.result.Raised? {
        raised := Some(o.result.exc);
      } else {
        if Landed(a.record) {
          status := Final;
        }
        var failing := if a.record.Ok? then a.after else a.record;
        if failing.Killed? {
          return Cut, called;
        }
        if failing.Throws? {
          raised := Some(failing.exc);
        }
      }
      if raised == None {
        if Landed(a.complete) {
          row := Completed;
        }
        return EndOf(a.complete, Returned), called;
      }
      if Landed(a.mark) {
        status := Failed;
      }
      if a.mark.Killed? {
        return Cut, called;
      }
      end := ReleaseKey(if a.mark.Throws? then a.mark.exc else raised.value, a);
    }
  }

  // ---- which attempts leak ----------------------------------------------------------------------------------

  function AttemptPosts(tool: Tool, pub: Pub, a: Attempt, acts: Acts): nat {
    if Attempting(tool, pub, a).called then Posts(Call(tool, a.env), acts) else 0
  }

  /** The job asks for another attempt: on a transient error, or because its worker died. */
  predicate Asks(tool: Tool, pub: Pub, a: Attempt) {
    var end := Attempting(tool, pub, a).end;
    end.Cut? || !a.survives || (end.result.Raised? && Transient(end.result.exc))
  }

  /** Posting twice, or posting and leaving both the wish and the way to do so again. */
  predicate Bad(tool: Tool, pub: Pub, a: Attempt, acts: Acts) {
    var posts := AttemptPosts(tool, pub, a, acts);
    posts > 1 || (posts == 1 && Asks(tool, pub, a) && Open(Attempting(tool, pub, a).pub))
  }

  predicate MayHavePosted(tool: Tool, env: Env) {
    var o := Call(tool, env);
    (o.rpcSent && !RpcDeclined(env.rpc)) || (o.restSent && !RestDeclined(env.rest))
  }

  /** The error that reaches the except block, if one does. */
  function Reason(tool: Tool, a: Attempt): Option<Exc> {
    var result := Call(tool, a.env).result;
    if a.callDies then None
    else if result.Raised? then Some(result.exc)
    else if a.record.Throws? then Some(a.record.exc)
    else if a.record.Ok? && a.after.Throws? then Some(a.after.exc)
    else None
  }

  /** The publication does not stay marked as posted: it never was, or the except block unmarked it. */
  predicate MarkIsLost(tool: Tool, a: Attempt) {
    Call(tool, a.env).result.Raised? || !Landed(a.record) || Landed(a.mark)
  }

  /** The error the job layer sees: the last one raised. */
  function Surfacing(exc: Exc, a: Attempt): Exc {
    if a.release.Throws? then a.release.exc else if a.mark.Throws? then a.mark.exc else exc
  }

  /**
   * Exactly how an attempt leaks: it posts twice in one call; or the call may have posted, some
   * error reaches the except block, the publication is not left marked as posted, the ledger row
   * is given back, and the job sees a transient error or loses its worker before it sees any.
   */
  predicate Leaky(tool: Tool, a: Attempt) {
    && a.claim.Ok? && a.start.Ok?
    && (|| TwiceInOneCall(a.env)
        || (&& MayHavePosted(tool, a.env) && Reason(tool, a).Some? && MarkIsLost(tool, a)
            && !a.mark.Killed? && Landed(a.release)
            && (a.release.Killed? || !a.survives || Transient(Surfacing(Reason(tool, a).value, a)))))
  }

  /** Whatever was not declined did make a post. */
  function Worst(env: Env): Acts {
    Acts(!RpcDeclined(env.rpc), !RestDeclined(env.rest))
  }

  /** Once closed, a publication makes no call in any attempt, and stays closed. */
  lemma ClosedStaysClosed(tool: Tool, pub: Pub, a: Attempt)
    ensures !Open(pub) ==> !Attempting(tool, pub, a).called && Attempting(tool, pub, a).pub == pub
    ensures Attempting(tool, pub, a).called ==> a.claim.Ok? && a.start.Ok?
  {
  }

  lemma LeakyIsBad(tool: Tool, pub: Pub, a: Attempt)
    requires NonIdempotent(tool) && Open(pub) && Leaky(tool, a)
    ensures Bad(tool, pub, a, Worst(a.env))
  {
  }

  lemma NotLeakyIsSafe(tool: Tool, pub: Pub, a: Attempt, acts: Acts)
    requires NonIdempotent(tool) && !Leaky(tool, a) && Honest(a.env, acts)
    ensures !Bad(tool, pub, a, acts)
  {
  }

  /** An attempt on an open publication is safe, whatever the servers did, exactly when it is not leaky. */
  lemma SafeIffNotLeaky(tool: Tool, pub: Pub, a: Attempt)
    requires NonIdempotent(tool) && Open(pub)
    ensures (forall acts :: Honest(a.env, acts) ==> !Bad(tool, pub, a, acts)) <==> !Leaky(tool, a)
  {
    assert Honest(a.env, Worst(a.env));
    if Leaky(tool, a) {
      LeakyIsBad(tool, pub, a);
    } else {
      forall acts | Honest(a.env, acts) ensures !Bad(tool, pub, a, acts) {
        NotLeakyIsSafe(tool, pub, a, acts);
      }
    }
  }

  predicate ReachesRest(tool: Tool, env: Env) {
    Call(tool, env).restSent
  }

  /** An attempt in which every write to the database lands and the worker lives on. */
  function Undisturbed(env: Env): Attempt {
    Attempt(Ok, Ok, env, false, Ok, Ok, Ok, Ok, Ok, true)
  }

  lemma UndisturbedLeaks(tool: Tool, env: Env)
    requires NonIdempotent(tool)
    ensures Leaky(tool, Undisturbed(env)) <==>
              var result := Call(tool, env).result;
              TwiceInOneCall(env) || (MayHavePosted(tool, env) && result.Raised? && Transient(result.exc))
  {
  }

  /**
   * With nothing wrong on this side, the replies that leak: JSON of the wrong shape, a failure of
   * the tool that reads as transient, or a status outside 2xx, 4xx and 5xx.
   */
  lemma RepliesThatLeak(tool: Tool, env: Env)
    requires NonIdempotent(tool)
    ensures Leaky(tool, Undisturbed(env)) <==>
              var (rpc, rest) := (env.rpc, env.rest);
              || (env.enabled && env.handshake.Fine? && rpc.Answer? && 200 <= rpc.status < 300
                  && (|| rpc.body.MalformedError? || rpc.body.MalformedResult?
                      || (rpc.body.ToolError? && Transient(ClientError(rpc.body.said)))))
              || (ReachesRest(tool, env) && rest.Answer? && !RestDeclined(rest)
                  && (|| rest.body.RestNotDict?
                      || (rest.body.Verdict? && (rest.status >= 400 || !rest.body.success)
                          && Transient(ClientError(rest.body.reason)))))
              || (env.enabled && env.handshake.Fine? && rpc.Answer? && Odd(rpc.status) && ReachesRest(tool, env)
                  && (!RestDeclined(rest) || Transient(RestResult(tool, rest).exc)))
  {
    UndisturbedLeaks(tool, env);
  }

  // ---- at most once per publication job ---------------------------------------------------------------

  /** Posts made by the attempts from the i-th on, each made only if the one before asked for it. */
  function JobPosts(tool: Tool, pub: Pub, attempts: seq<Attempt>, acts: seq<Acts>, maxRetries: nat, i: nat): nat
    requires i <= |attempts| == |acts|
    decreases |attempts| - i
  {
    if i == |attempts| then 0
    else
      AttemptPosts(tool, pub, attempts[i], acts[i])
      + if Retries(tool, pub, attempts[i], i + 1, maxRetries)
        then JobPosts(tool, Attempting(tool, pub, attempts[i]).pub, attempts, acts, maxRetries, i + 1)
        else 0
  }

  /** A worker that died is replaced without asking the budget; an error is weighed against it. */
  predicate Retries(tool: Tool, pub: Pub, a: Attempt, attempts: nat, maxRetries: nat) {
    var end := Attempting(tool, pub, a).end;
    end.Cut? || !a.survives || (end.result.Raised? && ShouldRetry(end.result.exc, attempts, maxRetries))
  }

  lemma {:induction false} ClosedNeverPosts(
      tool: Tool, pub: Pub, attempts: seq<Attempt>, acts: seq<Acts>, maxRetries: nat, i: nat)
    requires !Open(pub) && i <= |attempts| == |acts|
    ensures JobPosts(tool, pub, attempts, acts, maxRetries, i) == 0
    decreases |attempts| - i
  {
    if i < |attempts| {
      ClosedStaysClosed(tool, pub, attempts[i]);
      ClosedNeverPosts(tool, pub, attempts, acts, maxRetries, i + 1);
    }
  }

  /** A publication none of whose attempts is leaky is posted at most once, over all its retries. */
  lemma {:induction false} JobPostsAtMostOnce(
      tool: Tool, pub: Pub, attempts: seq<Attempt>, acts: seq<Acts>, maxRetries: nat, i: nat)
    requires NonIdempotent(tool) && i <= |attempts| == |acts|
    requires forall k :: i <= k < |attempts| ==> Honest(attempts[k].env, acts[k]) && !Leaky(tool, attempts[k])
    ensures JobPosts(tool, pub, attempts, acts, maxRetries, i) <= 1
    decreases |attempts| - i
  {
    if i < |attempts| {
      var next := Attempting(tool, pub, attempts[i]).pub;
      NotLeakyIsSafe(tool, pub, attempts[i], acts[i]);
      JobPostsAtMostOnce(tool, next, attempts, acts, maxRetries, i + 1);
      if !Open(next) {
        ClosedNeverPosts(tool, next, attempts, acts, maxRetries, i + 1);
      }
    }
  }

  const PLAIN := Env(true, Fine, Answer(200, ToolOk), NeverSent, true)

  /** A leaky attempt, followed by one that goes well, can post twice. */
  lemma LeakPostsTwice(tool: Tool, pub: Pub, a: Attempt, maxRetries: nat)
    requires NonIdempotent(tool) && Open(pub) && Leaky(tool, a) && maxRetries >= 2
    ensures Honest(a.env, Worst(a.env)) && Honest(PLAIN, Worst(PLAIN)) && !Leaky(tool, Undisturbed(PLAIN))
    ensures JobPosts(tool, pub, [a, Undisturbed(PLAIN)], [Worst(a.env), Worst(PLAIN)], maxRetries, 0) >= 2
  {
    LeakyIsBad(tool, pub, a);
    RepliesThatLeak(tool, PLAIN);
    var attempts, acts := [a, Undisturbed(PLAIN)], [Worst(a.env), Worst(PLAIN)];
    var next := Attempting(tool, pub, a).pub;
    if Open(next) {
      assert JobPosts(tool, next, attempts, acts, maxRetries, 1) >= Posts(Call(tool, PLAIN), Worst(PLAIN)) == 1;
    }
  }

  /** The servers' part in a run of attempts. */
  ghost predicate AllHonest(attempts: seq<Attempt>, acts: seq<Acts>) {
    |attempts| == |acts| && forall k :: 0 <= k < |attempts| ==> Honest(attempts[k].env, acts[k])
  }

  ghost predicate NoneLeaky(tool: Tool, attempts: seq<Attempt>) {
    forall k :: 0 <= k < |attempts| ==> !Leaky(tool, attempts[k])
  }

  /** So an attempt makes a second post possible, through later ones that do not leak, exactly when it leaks. */
  lemma SecondPostIff(tool: Tool, pub: Pub, a: Attempt, maxRetries: nat)
    requires NonIdempotent(tool) && Open(pub) && maxRetries >= 2
    ensures Leaky(tool, a) <==>
              exists later: seq<Attempt>, acts: seq<Acts> ::
                && NoneLeaky(tool, later) && AllHonest([a] + later, acts)
                && JobPosts(tool, pub, [a] + later, acts, maxRetries, 0) >= 2
  {
    if Leaky(tool, a) {
      LeakPostsTwice(tool, pub, a, maxRetries);
      var later, acts := [Undisturbed(PLAIN)], [Worst(a.env), Worst(PLAIN)];
      assert [a] + later == [a, Undisturbed(PLAIN)];
      assert NoneLeaky(tool, later) && AllHonest([a] + later, acts);
    } else {
      forall later: seq<Attempt>, acts: seq<Acts> | NoneLeaky(tool, later) && AllHonest([a] + later, acts)
        ensures JobPosts(tool, pub, [a] + later, acts, maxRetries, 0) <= 1
      {
        var attempts := [a] + later;
        forall k | 0 <= k < |attempts| ensures !Leaky(tool, attempts[k]) {
          assert k == 0 || attempts[k] == later[k - 1];
        }
        JobPostsAtMostOnce(tool, pub, attempts, acts, maxRetries, 0);
      }
    }
  }
}
