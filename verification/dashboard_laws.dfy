/** Laws of the dashboard controller that relate several transitions: the
    busy-flag lifecycle of every action, the invariant every event keeps, and
    worked runs of the controller. */
module DashboardLaws {
  import opened JsValues
  import opened ApiReplies
  import opened Dashboard

  /** Once an action passes its gates, whatever its exchange with the service:
      if the exchange reaches a terminal path (a success or error callback, or
      the catch block), the busy flag is down; if the task is still being
      polled, the flag stays up and the messages stay cleared. Nothing outside
      the launch's fields and the action's effects changes. */
  lemma {:induction false} Lifecycle(a: Action, s: State, l: Launch, ex: Exchange)
    requires LaunchedAs(s, l, a)
    ensures Settles(ex) ==> !Busy(Run(a, l, ex), a)
    ensures !Settles(ex) ==>
              && Busy(Run(a, l, ex), a)
              && Run(a, l, ex).apiMessage == None
              && Run(a, l, ex).errorMessage == None
    ensures Only(s, Run(a, l, ex), Effects(a))
  {
    var t := Run(a, l, ex);
    OnlyWiden(s, l.state, Raised(a), Effects(a));
    OnlyCompose(s, l.state, t, Effects(a), Effects(a));
  }

  /** The four actions' lifecycles, from their own gates. */
  lemma LoadModelLifecycle(s: State, ex: Exchange)
    requires s.selectedModel != ""
    ensures Settles(ex) ==> !Run(LoadModel, BeginLoadModel(s), ex).isLoadingModel
    ensures !Settles(ex) ==> Run(LoadModel, BeginLoadModel(s), ex).isLoadingModel
    ensures Only(s, Run(LoadModel, BeginLoadModel(s), ex), Effects(LoadModel))
  {
    Lifecycle(LoadModel, s, BeginLoadModel(s), ex);
  }

  lemma UploadLifecycle(s: State, f: FileRef, ex: Exchange)
    ensures Settles(ex) ==> !Run(UploadDataset, BeginUpload(s, Some(f)), ex).isUploading
    ensures !Settles(ex) ==> Run(UploadDataset, BeginUpload(s, Some(f)), ex).isUploading
    ensures Only(s, Run(UploadDataset, BeginUpload(s, Some(f)), ex), Effects(UploadDataset))
  {
    Lifecycle(UploadDataset, s, BeginUpload(s, Some(f)), ex);
  }

  lemma FinetuneLifecycle(s: State, ex: Exchange)
    requires s.modelLoaded && s.dataLoaded
    ensures Settles(ex) ==> !Run(Finetune, BeginFinetune(s), ex).isFinetuning
    ensures !Settles(ex) ==> Run(Finetune, BeginFinetune(s), ex).isFinetuning
    ensures Only(s, Run(Finetune, BeginFinetune(s), ex), Effects(Finetune))
  {
    Lifecycle(Finetune, s, BeginFinetune(s), ex);
  }

  lemma GeneratePlotLifecycle(s: State, option: string, epochs: int, ex: Exchange)
    requires s.modelLoaded && s.dataLoaded && Truthy(s.uploadedPath).Some?
    ensures Settles(ex) ==> !Run(GeneratePlot, BeginGeneratePlot(s, option, epochs), ex).isGeneratingPlot
    ensures !Settles(ex) ==> Run(GeneratePlot, BeginGeneratePlot(s, option, epochs), ex).isGeneratingPlot
    ensures Only(s, Run(GeneratePlot, BeginGeneratePlot(s, option, epochs), ex), Effects(GeneratePlot))
  {
    Lifecycle(GeneratePlot, s, BeginGeneratePlot(s, option, epochs), ex);
  }

  /** A request that throws shows the Error's message, or the action's
      fallback text, and drops the busy flag. */
  lemma ThrownRequest(a: Action, s: State, l: Launch, detail: Option<string>)
    requires LaunchedAs(s, l, a)
    ensures Run(a, l, Threw(detail)).errorMessage
            == Some(if detail.Some? then detail.value else ExceptionFallback(a))
    ensures !Busy(Run(a, l, Threw(detail)), a)
  {
  }

  /** What holds in every state the dashboard reaches: the epochs value is
      within the input's bounds, a loaded model has a name, and a plot is only
      shown for a loaded model and dataset, as a link under the service
      address. */
  predicate Inv(s: State) {
    && 1 <= s.epochs <= 10
    && (s.modelLoaded ==> s.selectedModel != "")
    && (s.plotUrl.Some? ==> s.modelLoaded && s.dataLoaded && PlotLink(s.plotUrl.value))
  }

  lemma InitialInv()
    ensures Inv(Initial)
  {
  }

  /** The invariant carried from `s` through a launched state `u` to the
      settled state `t`, from what the launch and the settlement keep. */
  lemma CarryInv(s: State, u: State, t: State)
    requires Inv(s)
    requires u.selectedModel == s.selectedModel && u.epochs == s.epochs
    requires u.modelLoaded == s.modelLoaded && u.dataLoaded == s.dataLoaded
    requires u.plotUrl == s.plotUrl || u.plotUrl == None
    requires t.selectedModel == u.selectedModel && t.epochs == u.epochs
    requires Progressed(u, t)
    requires t.modelLoaded && !u.modelLoaded ==> u.selectedModel != ""
    requires t.plotUrl != u.plotUrl ==> u.modelLoaded && u.dataLoaded
    ensures Inv(t)
  {
  }

  /** A launch that keeps the invariant's fields, then any settlement that
      keeps to the action's effects. */
  lemma {:induction false} LaunchInv(a: Action, s: State, u: State, t: State)
    requires Inv(s)
    requires Only(s, u, Raised(a))
    requires a == GeneratePlot ==> u.plotUrl == None
    requires a == LoadModel ==> s.selectedModel != ""
    requires a == GeneratePlot ==> s.modelLoaded && s.dataLoaded
    requires Only(u, t, Effects(a)) && Progressed(u, t)
    ensures Inv(t)
  {
    CarryInv(s, u, t);
  }

  /** An action from its gates: a refusal only sets the error message. */
  lemma {:induction false} RunInv(a: Action, s: State, l: Launch, ex: Exchange)
    requires Inv(s)
    requires l.Refused? ==> Only(s, l.state, {ErrorMessage})
    requires l.Launched? ==> LaunchedAs(s, l, a)
    requires a == LoadModel && l.Launched? ==> s.selectedModel != ""
    requires a == GeneratePlot && l.Launched? ==> s.modelLoaded && s.dataLoaded
    ensures Inv(Run(a, l, ex))
  {
    if l.Launched? {
      LaunchInv(a, s, l.state, Settle(a, l.state, ex));
    } else {
    }
  }

  /** Each action, from its gates to its settlement, keeps the invariant. */
  lemma LoadModelInv(s: State, ex: Exchange)
    requires Inv(s)
    ensures Inv(Run(LoadModel, BeginLoadModel(s), ex))
  {
    RunInv(LoadModel, s, BeginLoadModel(s), ex);
  }

  lemma UploadInv(s: State, f: FileRef, ex: Exchange)
    requires Inv(s)
    ensures Inv(Run(UploadDataset, BeginUpload(s, Some(f)), ex))
  {
    RunInv(UploadDataset, s, BeginUpload(s, Some(f)), ex);
  }

  lemma FinetuneInv(s: State, ex: Exchange)
    requires Inv(s)
    ensures Inv(Run(Finetune, BeginFinetune(s), ex))
  {
    RunInv(Finetune, s, BeginFinetune(s), ex);
  }

  lemma GeneratePlotInv(s: State, option: string, epochs: int, ex: Exchange)
    requires Inv(s)
    ensures Inv(Run(GeneratePlot, BeginGeneratePlot(s, option, epochs), ex))
  {
    RunInv(GeneratePlot, s, BeginGeneratePlot(s, option, epochs), ex);
  }

  /** Every event keeps the invariant. */
  lemma {:induction false} StepInv(s: State, e: Event)
    requires Inv(s)
    ensures Inv(Step(s, e))
  {
    match e
    case PickModel(m) =>
    case PickDataset(f, ex) =>
      UploadInv(ClearMessages(s.(uploadedFile := Some(f))), f, ex);
    case ClickLoadModel(ex) =>
      LoadModelInv(s, ex);
    case ClickFinetune(ex) =>
      FinetuneInv(s, ex);
    case ClickGenerate(ex) =>
      GeneratePlotInv(s, s.finetuneOption, s.epochs, ex);
    case ClickUseExample =>
    case PickFinetuneOption(o) =>
    case EnterEpochs(n) =>
  }

  /** Every run of events from a state satisfying the invariant keeps it. */
  lemma {:induction false} StepsInv(s: State, es: seq<Event>)
    requires Inv(s)
    ensures Inv(Steps(s, es))
    decreases |es|
  {
    if |es| > 0 {
      StepInv(s, es[0]);
      StepsInv(Step(s, es[0]), es[1..]);
    }
  }

  /** Every inference request the dialog sends asks for 1 to 10 epochs. */
  lemma InferenceEpochsBounded(s: State)
    requires Inv(s)
    requires BeginGeneratePlot(s, s.finetuneOption, s.epochs).Launched?
    ensures 1 <= BeginGeneratePlot(s, s.finetuneOption, s.epochs).request.epochs <= 10
  {
  }

  // ----- worked runs -----

  /** An ok reply carrying neither a task id nor a result field. */
  function ImmediateExchange(body: Body): Exchange {
    Answered(Response(200, "OK", body), [])
  }

  /** A launched action whose reply is an ok body with no task id and no
      result field runs its success callback on the body itself. */
  lemma ImmediateReply(a: Action, s: State, l: Launch, body: Body)
    requires LaunchedAs(s, l, a)
    requires Truthy(body.taskId).None? && body.result.None?
    ensures Run(a, l, ImmediateExchange(body)) == Succeeded(a, l.state, body.AsPayload())
  {
    var cs := Respond(Response(200, "OK", body), true, false, []);
    assert cs == [OnSuccess(body.AsPayload())];
    assert cs[1..] == [];
  }

  /** A response that is not ok runs the action's error callback once, with
      the server's message or `Error: <status> <statusText>`, whatever
      status replies follow. */
  lemma RejectedReply(a: Action, s: State, resp: Response, replies: seq<PollReply>)
    requires !resp.Ok()
    ensures Settle(a, s, Answered(resp, replies)) == Failed(a, s, FirstTruthy([resp.body.message], StatusLine(resp)))
  {
    var cs := Respond(resp, true, false, replies);
    assert cs == [OnError(FirstTruthy([resp.body.message], StatusLine(resp)))];
    assert cs[1..] == [];
  }

  /** An ok response without a task id but with a `result` field runs the
      action's success callback once on that result. */
  lemma ResultReply(a: Action, s: State, resp: Response, replies: seq<PollReply>)
    requires resp.Ok() && Truthy(resp.body.taskId).None? && resp.body.result.Some?
    ensures Settle(a, s, Answered(resp, replies)) == Succeeded(a, s, resp.body.result.value)
  {
    var cs := Respond(resp, true, false, replies);
    assert cs == [OnSuccess(resp.body.result.value)];
    assert cs[1..] == [];
  }

  /** A handed-off task whose trace is in progress up to a final SUCCESS
      carrying a result runs the success callback once on that result; the
      progress replies do nothing, as no progress handler is passed. */
  lemma PolledReply(a: Action, s: State, l: Launch, resp: Response, replies: seq<PollReply>, p: Payload)
    requires LaunchedAs(s, l, a)
    requires resp.Ok() && Truthy(resp.body.taskId).Some?
    requires |replies| > 0 && forall i | 0 <= i < |replies| - 1 :: InProgress(replies[i])
    requires replies[|replies| - 1].Status? && replies[|replies| - 1].state == Success
    requires replies[|replies| - 1].result == Some(p)
    ensures Run(a, l, Answered(resp, replies)) == Succeeded(a, l.state, p)
  {
    var r := Poll(replies, false);
    PollStops(replies, false);
    PollQuiet(replies);
    assert !InProgress(replies[|replies| - 1]);
    assert r.callbacks == [OnSuccess(p)];
    assert r.callbacks[1..] == [];
  }

  /** An ok reply to a load without task id or result field loads the model
      and shows the reply's message, or the default one. */
  lemma LoadAnswered(s: State, body: Body)
    requires s.selectedModel != ""
    requires Truthy(body.taskId).None? && body.result.None?
    ensures var t := Step(s, ClickLoadModel(ImmediateExchange(body)));
            && t.modelLoaded && !t.isLoadingModel
            && t.apiMessage == Some(FirstTruthy([body.message], ModelLoadedMsg))
            && t.errorMessage == None
            && Only(s, t, Effects(LoadModel))
  {
    ImmediateReply(LoadModel, s, BeginLoadModel(s), body);
    Lifecycle(LoadModel, s, BeginLoadModel(s), ImmediateExchange(body));
  }

  /** Picking a file whose upload gets an ok reply without task id or result
      field records the file, marks the data as loaded and keeps the reply's
      path, or none. */
  lemma UploadAnswered(s: State, f: FileRef, body: Body)
    requires Truthy(body.taskId).None? && body.result.None?
    ensures var t := Step(s, PickDataset(f, ImmediateExchange(body)));
            && t.dataLoaded && !t.isUploading
            && t.uploadedFile == Some(f)
            && t.uploadedPath == Truthy(body.path)
            && t.apiMessage == Some(FirstTruthy([body.message], DatasetUploadedMsg))
            && t.errorMessage == None
            && Only(s, t, {UploadedFile} + Effects(UploadDataset))
  {
    var s' := ClearMessages(s.(uploadedFile := Some(f)));
    var l := BeginUpload(s', Some(f));
    ImmediateReply(UploadDataset, s', l, body);
    Lifecycle(UploadDataset, s', l, ImmediateExchange(body));
    var t := Run(UploadDataset, l, ImmediateExchange(body));
    assert Only(s, s', {UploadedFile, ApiMessage, ErrorMessage});
    OnlyCompose(s, s', t, {UploadedFile, ApiMessage, ErrorMessage}, Effects(UploadDataset));
    OnlyWiden(s, t, {UploadedFile, ApiMessage, ErrorMessage} + Effects(UploadDataset), {UploadedFile} + Effects(UploadDataset));
  }

  /** Generating a plot, once past the gates, with an ok reply without task
      id or result field: a result path shows the plot under the service
      address, no result path shows the failure message and no plot. */
  lemma PlotAnswered(s: State, body: Body)
    requires s.modelLoaded && s.dataLoaded && Truthy(s.uploadedPath).Some?
    requires Truthy(body.taskId).None? && body.result.None?
    ensures var t := Step(s, ClickGenerate(ImmediateExchange(body)));
            && !t.isGeneratingPlot
            && (Truthy(body.resultPath).Some? ==>
                  && t.plotUrl == Some(PlotBase + body.resultPath.value)
                  && t.apiMessage == Some(PlotGeneratedMsg)
                  && t.errorMessage == None)
            && (Truthy(body.resultPath).None? ==>
                  && t.plotUrl == None
                  && t.apiMessage == None
                  && t.errorMessage == Some(FirstTruthy([body.message], PlotFailedMsg)))
            && Only(s, t, Effects(GeneratePlot))
  {
    var l := BeginGeneratePlot(s, s.finetuneOption, s.epochs);
    ImmediateReply(GeneratePlot, s, l, body);
    Lifecycle(GeneratePlot, s, l, ImmediateExchange(body));
  }

  /** A one-candidate chain on an absent value is its fallback. */
  lemma AbsentFallsBack(fallback: string)
    ensures FirstTruthy([None], fallback) == fallback
  {
    var cands: seq<Option<string>> := [None];
    assert cands[1..] == [];
    assert FirstTruthyIndex(cands) == 1;
  }

  /** Select, load, upload, generate, from any state, each reply ok and
      immediate: a non-empty result path shows the plot under the service
      address. */
  lemma UploadThenPlot(s: State, model: string, f: FileRef, path: string, resultPath: string)
    requires model != "" && path != "" && resultPath != ""
    ensures var t := Step(Step(Step(Step(s,
              PickModel(model)),
              ClickLoadModel(ImmediateExchange(Body(None, None, None, None, None)))),
              PickDataset(f, ImmediateExchange(Body(None, None, None, Some(path), None)))),
              ClickGenerate(ImmediateExchange(Body(None, None, None, None, Some(resultPath)))));
            && t.plotUrl == Some(PlotBase + resultPath)
            && t.apiMessage == Some(PlotGeneratedMsg)
            && t.errorMessage == None
            && !t.isGeneratingPlot
  {
    var s1 := Step(s, PickModel(model));
    LoadAnswered(s1, Body(None, None, None, None, None));
    var s2 := Step(s1, ClickLoadModel(ImmediateExchange(Body(None, None, None, None, None))));
    UploadAnswered(s2, f, Body(None, None, None, Some(path), None));
    var s3 := Step(s2, PickDataset(f, ImmediateExchange(Body(None, None, None, Some(path), None))));
    assert s3.modelLoaded;
    PlotAnswered(s3, Body(None, None, None, None, Some(resultPath)));
  }

  /** A load handed to the poller that sees PENDING, STARTED, then SUCCESS
      with a result loads the model once, shows the result's message and
      drops the busy flag. */
  lemma PolledLoad(s: State, model: string, task: string, message: string)
    requires model != "" && task != "" && message != ""
    ensures var ex := Answered(Response(200, "OK", Body(None, Some(task), None, None, None)), [
              Status(Pending, None, None),
              Status(Started, None, None),
              Status(Success, Some(Payload(Some(message), None, None)), None)]);
            var t := Step(Step(s, PickModel(model)), ClickLoadModel(ex));
            && t.modelLoaded
            && t.apiMessage == Some(message)
            && !t.isLoadingModel
  {
    var s1 := Step(s, PickModel(model));
    var resp := Response(200, "OK", Body(None, Some(task), None, None, None));
    var p := Payload(Some(message), None, None);
    var replies := [Status(Pending, None, None), Status(Started, None, None), Status(Success, Some(p), None)];
    PolledReply(LoadModel, s1, BeginLoadModel(s1), resp, replies, p);
    assert FirstTruthyIndex([p.message]) == 0;
  }

  /** An upload whose reply carries no path marks the data as loaded with no
      dataset path; generating a plot is then refused by the path gate,
      although the model and the data gates pass. */
  lemma UploadWithoutPath(s: State, model: string, f: FileRef, option: string, epochs: int)
    requires model != ""
    ensures var t := Step(Step(Step(s,
              PickModel(model)),
              ClickLoadModel(ImmediateExchange(Body(None, None, None, None, None)))),
              PickDataset(f, ImmediateExchange(Body(None, None, None, None, None))));
            && t.modelLoaded && t.dataLoaded && t.uploadedPath == None
            && BeginGeneratePlot(t, option, epochs) == Refused(t.(errorMessage := Some(NoDatasetPath)))
  {
    var s1 := Step(s, PickModel(model));
    LoadAnswered(s1, Body(None, None, None, None, None));
    var s2 := Step(s1, ClickLoadModel(ImmediateExchange(Body(None, None, None, None, None))));
    UploadAnswered(s2, f, Body(None, None, None, None, None));
  }

  /** A refused gate leaves the previous success message in place, so both
      messages are shown at once: fine-tuning right after loading a model
      is refused for want of data. */
  lemma RefusalKeepsSuccessMessage(s: State, model: string)
    requires model != ""
    ensures var t := Step(Step(Step(s,
              PickModel(model)),
              ClickLoadModel(ImmediateExchange(Body(None, None, None, None, None)))),
              ClickFinetune(ImmediateExchange(Body(None, None, None, None, None))));
            && t.apiMessage == Some(ModelLoadedMsg)
            && t.errorMessage == Some(UploadDatasetFirst)
  {
    var s1 := Step(s, PickModel(model));
    LoadAnswered(s1, Body(None, None, None, None, None));
    AbsentFallsBack(ModelLoadedMsg);
  }
}
