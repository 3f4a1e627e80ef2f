/** The dashboard's reading of the inference service's replies: the response
    classifier (`handleApiResponse`) and the task poller (`pollTaskStatus`),
    with the poller's unbounded retry loop unfolded over a finite trace of
    status replies. */
module ApiReplies {
  import opened JsValues

  /** The fields a success callback reads from the object it is given. */
  datatype Payload = Payload(message: Option<string>, path: Option<string>, resultPath: Option<string>)

  /** A parsed JSON reply body. `result` is None when the field is absent or
      falsy; a present result is an object. */
  datatype Body = Body(
    message: Option<string>,
    taskId: Option<string>,
    result: Option<Payload>,
    path: Option<string>,
    resultPath: Option<string>)
  {
    /** The body itself handed to a success callback as its result. */
    function AsPayload(): Payload {
      Payload(message, path, resultPath)
    }
  }

  /** An HTTP response whose body parsed as JSON. */
  datatype Response = Response(status: nat, statusText: string, body: Body) {
    /** `response.ok` of the Fetch standard: a status in 200 to 299. */
    predicate Ok() {
      200 <= status <= 299
    }
  }

  /** The fallback error text `Error: <status> <statusText>`. */
  function StatusLine(resp: Response): string {
    "Error: " + Decimal(resp.status) + " " + resp.statusText
  }

  /** What the classifier does with a response: call onError, hand the task
      to the poller, or call onSuccess. */
  datatype Disposition =
    | Rejected(message: string)
    | HandedOff(taskId: string)
    | Resolved(result: Payload)

  /** `handleApiResponse`. `withPoller` says whether a poll function was
      supplied. Exactly one disposition is taken, decided in this order:
      not ok, a task id with a poller, a result field, the raw body. */
  function Classify(resp: Response, withPoller: bool): (d: Disposition)
    ensures d.Rejected? <==> !resp.Ok()
    ensures d.Rejected? ==> d.message == FirstTruthy([resp.body.message], StatusLine(resp))
    ensures d.Rejected? ==> d.message != ""
    ensures d.HandedOff? <==> resp.Ok() && withPoller && Truthy(resp.body.taskId).Some?
    ensures d.HandedOff? ==> d.taskId == resp.body.taskId.value && d.taskId != ""
    ensures d.Resolved? && resp.body.result.Some? ==> d.result == resp.body.result.value
    ensures d.Resolved? && resp.body.result.None? ==> d.result == resp.body.AsPayload()
  {
    if !resp.Ok() then
      Rejected(OrElse(resp.body.message, StatusLine(resp)))
    else if withPoller && Truthy(resp.body.taskId).Some? then
      HandedOff(resp.body.taskId.value)
    else if resp.body.result.Some? then
      Resolved(resp.body.result.value)
    else
      Resolved(resp.body.AsPayload())
  }

  /** One reply of the task-status endpoint. `Unreachable` is a poll whose
      fetch or JSON parse threw: `detail` is the thrown Error's message, None
      when the thrown value was not an Error. An absent `state` is "". */
  datatype PollReply =
    | Status(state: string, result: Option<Payload>, status: Option<string>)
    | Unreachable(detail: Option<string>)

  const Pending := "PENDING"
  const Started := "STARTED"
  const Success := "SUCCESS"
  const UnknownError := "Unknown error"
  const PollFailed := "Error polling task status"

  /** A reply that makes the poller report progress and poll again. */
  predicate InProgress(reply: PollReply) {
    reply.Status? && (reply.state == Pending || reply.state == Started)
  }

  /** A callback the poller or the classifier invokes. */
  datatype Callback = OnProgress(state: string) | OnSuccess(result: Payload) | OnError(message: string) {
    predicate Terminal() {
      !OnProgress?
    }
  }

  /** `data.result?.message` */
  function ResultMessage(result: Option<Payload>): Option<string> {
    if result.Some? then result.value.message else None
  }

  /** The terminal callback a reply that is not in progress triggers. */
  function Verdict(reply: PollReply): (c: Callback)
    requires !InProgress(reply)
    ensures c.Terminal()
    ensures c.OnSuccess? <==> reply.Status? && reply.state == Success && reply.result.Some?
    ensures c.OnSuccess? ==> c.result == reply.result.value
    ensures reply.Status? && c.OnError? ==>
              c.message == FirstTruthy([ResultMessage(reply.result), reply.status], UnknownError)
    ensures reply.Status? && c.OnError? ==> c.message != ""
    ensures reply.Unreachable? ==> c == OnError(if reply.detail.Some? then reply.detail.value else PollFailed)
  {
    match reply
    case Unreachable(detail) =>
      OnError(if detail.Some? then detail.value else PollFailed)
    case Status(state, result, status) =>
      if state == Success && result.Some? then
        OnSuccess(result.value)
      else
        OrElseChain(ResultMessage(result), status, UnknownError);
        FirstTruthyNonEmpty([ResultMessage(result), status], UnknownError);
        OnError(OrElse(ResultMessage(result), OrElse(status, UnknownError)))
  }

  /** The number of terminal callbacks in a callback trace. */
  function TerminalCount(cs: seq<Callback>): nat {
    if |cs| == 0 then 0 else (if cs[0].Terminal() then 1 else 0) + TerminalCount(cs[1..])
  }

  /** The callbacks a polling run invoked and how many status requests it
      issued. */
  datatype PollRun = PollRun(callbacks: seq<Callback>, polls: nat)

  /** `pollTaskStatus` followed through its rescheduling over the replies the
      endpoint gives, in order. `withProgress` says whether onProgress was
      supplied. Every reply it polls but the last is in progress, and every
      callback but the last reports progress. */
  function Poll(replies: seq<PollReply>, withProgress: bool): (r: PollRun)
    ensures r.polls <= |replies|
    ensures forall i | 0 <= i < r.polls - 1 :: InProgress(replies[i])
    ensures forall k | 0 <= k < |r.callbacks| - 1 :: r.callbacks[k].OnProgress?
    ensures withProgress ==> |r.callbacks| == r.polls
    ensures withProgress ==> forall k | 0 <= k < |r.callbacks| - 1 :: InProgress(replies[k]) && r.callbacks[k] == OnProgress(replies[k].state)
    decreases |replies|
  {
    if |replies| == 0 then
      PollRun([], 0)
    else if InProgress(replies[0]) then
      var rest := Poll(replies[1..], withProgress);
      assert forall i | 1 <= i < |replies| :: replies[i] == replies[1..][i - 1];
      var progress := if withProgress then [OnProgress(replies[0].state)] else [];
      PollRun(progress + rest.callbacks, rest.polls + 1)
    else
      PollRun([Verdict(replies[0])], 1)
  }

  /** In a trace where every callback but the last reports progress, the
      terminal count is 1 exactly when the last callback is terminal. */
  lemma {:induction false} TerminalAtEnd(cs: seq<Callback>)
    requires forall k | 0 <= k < |cs| - 1 :: cs[k].OnProgress?
    ensures TerminalCount(cs) == if |cs| > 0 && cs[|cs| - 1].Terminal() then 1 else 0
    decreases |cs|
  {
    if |cs| > 1 {
      assert forall k | 0 <= k < |cs[1..]| - 1 :: cs[1..][k] == cs[k + 1];
      TerminalAtEnd(cs[1..]);
      assert cs[1..][|cs[1..]| - 1] == cs[|cs| - 1];
    }
  }

  /** Polling stops at the first reply that is not in progress, and that
      reply's verdict is the last callback; if the trace ends first, every
      reply was in progress and the last callback, if any, reports
      progress. */
  lemma {:induction false} PollStops(replies: seq<PollReply>, withProgress: bool)
    ensures var r := Poll(replies, withProgress);
            && (0 < r.polls && !InProgress(replies[r.polls - 1]) ==>
                  && |r.callbacks| > 0
                  && r.callbacks[|r.callbacks| - 1] == Verdict(replies[r.polls - 1]))
            && (r.polls == 0 || InProgress(replies[r.polls - 1]) ==>
                  && r.polls == |replies|
                  && (forall i | 0 <= i < |replies| :: InProgress(replies[i]))
                  && (|r.callbacks| == 0 || r.callbacks[|r.callbacks| - 1].OnProgress?))
    decreases |replies|
  {
    if |replies| > 0 && InProgress(replies[0]) {
      PollStops(replies[1..], withProgress);
      var rest := Poll(replies[1..], withProgress);
      var cs := Poll(replies, withProgress).callbacks;
      var progress := if withProgress then [OnProgress(replies[0].state)] else [];
      assert cs == progress + rest.callbacks;
      if |rest.callbacks| > 0 {
        assert cs[|cs| - 1] == rest.callbacks[|rest.callbacks| - 1];
      }
      if rest.polls > 0 {
        assert replies[rest.polls] == replies[1..][rest.polls - 1];
      }
      assert forall i | 1 <= i < |replies| :: replies[i] == replies[1..][i - 1];
    }
  }

  /** Without a progress handler, only the terminal callback fires. */
  lemma {:induction false} PollQuiet(replies: seq<PollReply>)
    ensures |Poll(replies, false).callbacks| <= 1
    ensures forall c | c in Poll(replies, false).callbacks :: c.Terminal()
    decreases |replies|
  {
    if |replies| > 0 && InProgress(replies[0]) {
      PollQuiet(replies[1..]);
      assert Poll(replies, false).callbacks == Poll(replies[1..], false).callbacks;
    }
  }

  /** At most one terminal callback fires, and one fires exactly when some
      reply in the trace is not in progress. */
  lemma PollConcludes(replies: seq<PollReply>, withProgress: bool)
    ensures TerminalCount(Poll(replies, withProgress).callbacks) <= 1
    ensures TerminalCount(Poll(replies, withProgress).callbacks) == 1
            <==> exists i | 0 <= i < |replies| :: !InProgress(replies[i])
  {
    var r := Poll(replies, withProgress);
    PollStops(replies, withProgress);
    TerminalAtEnd(r.callbacks);
    if 0 < r.polls && !InProgress(replies[r.polls - 1]) {
      assert r.callbacks[|r.callbacks| - 1].Terminal();
    }
  }

  /** Every callback the dashboard's handling of one response invokes: the
      classifier's own, or the poller's when the task was handed off. */
  function Respond(resp: Response, withPoller: bool, withProgress: bool, replies: seq<PollReply>): (cs: seq<Callback>)
    ensures !resp.Ok() ==> cs == [OnError(FirstTruthy([resp.body.message], StatusLine(resp)))]
    ensures resp.Ok() && withPoller && Truthy(resp.body.taskId).Some? ==> cs == Poll(replies, withProgress).callbacks
    ensures resp.Ok() && !(withPoller && Truthy(resp.body.taskId).Some?) ==>
              cs == [OnSuccess(if resp.body.result.Some? then resp.body.result.value else resp.body.AsPayload())]
  {
    match Classify(resp, withPoller)
    case Rejected(m) => [OnError(m)]
    case Resolved(p) => [OnSuccess(p)]
    case HandedOff(_) => Poll(replies, withProgress).callbacks
  }

  /** Whether handling a response reaches a terminal callback within the
      given status trace. */
  predicate Concludes(resp: Response, withPoller: bool, replies: seq<PollReply>) {
    || !resp.Ok()
    || !withPoller
    || Truthy(resp.body.taskId).None?
    || exists i | 0 <= i < |replies| :: !InProgress(replies[i])
  }

  /** However a response is handled, at most one terminal callback fires,
      and exactly one unless the task is still in progress at the end of the
      trace. A response that is not ok fires onError alone. */
  lemma RespondOnce(resp: Response, withPoller: bool, withProgress: bool, replies: seq<PollReply>)
    ensures TerminalCount(Respond(resp, withPoller, withProgress, replies)) <= 1
    ensures TerminalCount(Respond(resp, withPoller, withProgress, replies)) == 1
            <==> Concludes(resp, withPoller, replies)
    ensures !resp.Ok() ==>
              && |Respond(resp, withPoller, withProgress, replies)| == 1
              && Respond(resp, withPoller, withProgress, replies)[0].OnError?
  {
    var cs := Respond(resp, withPoller, withProgress, replies);
    PollConcludes(replies, withProgress);
    match Classify(resp, withPoller)
    case Rejected(m) =>
      assert cs[1..] == [];
    case Resolved(p) =>
      assert cs[1..] == [];
    case HandedOff(_) =>
  }

  /** An error status (400 and above) never reaches onSuccess. */
  lemma ErrorStatusNeverSucceeds(resp: Response, withPoller: bool, withProgress: bool, replies: seq<PollReply>)
    requires resp.status >= 400
    ensures forall k | 0 <= k < |Respond(resp, withPoller, withProgress, replies)| ::
              Respond(resp, withPoller, withProgress, replies)[k].OnError?
  {
    RespondOnce(resp, withPoller, withProgress, replies);
  }

  /** A task id with a poller supplied: the classifier itself calls nothing,
      and every callback comes from polling that task. */
  lemma TaskIdDelegates(resp: Response, withProgress: bool, replies: seq<PollReply>)
    requires resp.Ok() && Truthy(resp.body.taskId).Some?
    ensures Classify(resp, true) == HandedOff(resp.body.taskId.value)
    ensures Respond(resp, true, withProgress, replies) == Poll(replies, withProgress).callbacks
  {
  }
}
