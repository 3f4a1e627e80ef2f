/** The dashboard controller: its state record, the reset and model-select
    transitions, the precondition gates and callbacks of the four remote
    actions (load model, upload dataset, fine-tune, generate plot), "use
    example" and the epochs clamp. Each action runs atomically here: its gate,
    its launch, then the settlement its exchange with the service leads to. */
module Dashboard {
  import opened JsValues
  import opened ApiReplies

  /** A file the user picked; its contents never matter to the controller. */
  datatype FileRef = FileRef(name: string)

  datatype Action = LoadModel | UploadDataset | Finetune | GeneratePlot

  /** The fields of the state record, to state what a transition changes. */
  datatype Field =
    | SelectedModel | UploadedFile | PlotUrl | ApiMessage | ErrorMessage | UploadedPath
    | LoadingModel | Uploading | Finetuning | GeneratingPlot
    | ModelLoaded | DataLoaded | ExampleLoaded | FinetuneOption | Epochs

  datatype State = State(
    selectedModel: string,
    uploadedFile: Option<FileRef>,
    plotUrl: Option<string>,
    apiMessage: Option<string>,
    errorMessage: Option<string>,
    uploadedPath: Option<string>,
    isLoadingModel: bool,
    isUploading: bool,
    isFinetuning: bool,
    isGeneratingPlot: bool,
    modelLoaded: bool,
    dataLoaded: bool,
    exampleLoaded: bool,
    finetuneOption: string,
    epochs: int)

  const Initial := State("", None, None, None, None, None, false, false, false, false, false, false, false, "yes", 1)

  const SelectModelFirst := "Please select a model first"
  const SelectCsvFirst := "Please select a CSV file to upload"
  const LoadModelFirst := "Please load a model first"
  const UploadDatasetFirst := "Please upload a dataset first"
  const NoDatasetPath := "No dataset path available. Please re-upload your dataset."
  const ModelLoadedMsg := "Model loaded successfully"
  const DatasetUploadedMsg := "Dataset uploaded successfully"
  const FinetunedMsg := "Model fine-tuned successfully"
  const PlotGeneratedMsg := "Plot generated successfully"
  const PlotFailedMsg := "Failed to generate plot"
  const ExampleLoadedMsg := "Example file loaded"
  const ExamplePath := "data/data/ETTh1.csv"
  const UploadedDatasetName := "uploaded"
  /** The service address the plot path is appended to. */
  const PlotBase := "https://flaskapi4samay-production.up.railway.app"

  /** A link to a plot the service produced: the service address followed by
      a non-empty path. */
  predicate PlotLink(u: string) {
    |u| > |PlotBase| && u[..|PlotBase|] == PlotBase
  }

  /** What every settlement keeps: it never unloads the model or the data,
      and a plot it shows is a service link. */
  predicate Progressed(s: State, t: State) {
    && (s.modelLoaded ==> t.modelLoaded)
    && (s.dataLoaded ==> t.dataLoaded)
    && (t.plotUrl != s.plotUrl ==> t.plotUrl.Some? && PlotLink(t.plotUrl.value))
  }

  /** `t` differs from `s` in no field outside `fs`. */
  predicate Only(s: State, t: State, fs: set<Field>) {
    && (SelectedModel !in fs ==> t.selectedModel == s.selectedModel)
    && (UploadedFile !in fs ==> t.uploadedFile == s.uploadedFile)
    && (PlotUrl !in fs ==> t.plotUrl == s.plotUrl)
    && (ApiMessage !in fs ==> t.apiMessage == s.apiMessage)
    && (ErrorMessage !in fs ==> t.errorMessage == s.errorMessage)
    && (UploadedPath !in fs ==> t.uploadedPath == s.uploadedPath)
    && (LoadingModel !in fs ==> t.isLoadingModel == s.isLoadingModel)
    && (Uploading !in fs ==> t.isUploading == s.isUploading)
    && (Finetuning !in fs ==> t.isFinetuning == s.isFinetuning)
    && (GeneratingPlot !in fs ==> t.isGeneratingPlot == s.isGeneratingPlot)
    && (ModelLoaded !in fs ==> t.modelLoaded == s.modelLoaded)
    && (DataLoaded !in fs ==> t.dataLoaded == s.dataLoaded)
    && (ExampleLoaded !in fs ==> t.exampleLoaded == s.exampleLoaded)
    && (FinetuneOption !in fs ==> t.finetuneOption == s.finetuneOption)
    && (Epochs !in fs ==> t.epochs == s.epochs)
  }

  /** Two transitions together change only what one of them may change. */
  lemma OnlyCompose(s: State, u: State, t: State, fs: set<Field>, gs: set<Field>)
    requires Only(s, u, fs) && Only(u, t, gs)
    ensures Only(s, t, fs + gs)
  {
  }

  /** A bound on what changed may always be loosened. */
  lemma OnlyWiden(s: State, t: State, fs: set<Field>, gs: set<Field>)
    requires Only(s, t, fs) && fs <= gs
    ensures Only(s, t, gs)
  {
  }

  /** The busy flag each action owns. */
  function BusyField(a: Action): Field {
    match a
    case LoadModel => LoadingModel
    case UploadDataset => Uploading
    case Finetune => Finetuning
    case GeneratePlot => GeneratingPlot
  }

  function Busy(s: State, a: Action): bool {
    match a
    case LoadModel => s.isLoadingModel
    case UploadDataset => s.isUploading
    case Finetune => s.isFinetuning
    case GeneratePlot => s.isGeneratingPlot
  }

  /** The error text an action shows when its request throws something that
      is not an Error. */
  function ExceptionFallback(a: Action): string {
    match a
    case LoadModel => "An error occurred while loading the model"
    case UploadDataset => "An error occurred while uploading the dataset"
    case Finetune => "An error occurred while finetuning the model"
    case GeneratePlot => "An error occurred while generating the plot"
  }

  /** The fields a launched action may still change while it settles. */
  function Effects(a: Action): set<Field> {
    match a
    case LoadModel => {ApiMessage, ErrorMessage, LoadingModel, ModelLoaded}
    case UploadDataset => {ApiMessage, ErrorMessage, Uploading, UploadedPath, DataLoaded}
    case Finetune => {ApiMessage, ErrorMessage, Finetuning}
    case GeneratePlot => {ApiMessage, ErrorMessage, GeneratingPlot, PlotUrl}
  }

  // ----- reset and model selection -----

  /** `clearMessages` */
  function ClearMessages(s: State): (t: State)
    ensures t.apiMessage == None && t.errorMessage == None
    ensures Only(s, t, {ApiMessage, ErrorMessage})
  {
    s.(apiMessage := None, errorMessage := None)
  }

  /** `resetDashboard` */
  function Reset(s: State): (t: State)
    ensures t.apiMessage == None && t.errorMessage == None
    ensures t.uploadedFile == None && t.plotUrl == None
    ensures !t.modelLoaded && !t.dataLoaded
    ensures Only(s, t, {ApiMessage, ErrorMessage, UploadedFile, PlotUrl, ModelLoaded, DataLoaded})
  {
    ClearMessages(s).(uploadedFile := None, plotUrl := None, modelLoaded := false, dataLoaded := false)
  }

  /** `handleModelSelect`: a full reset, then the new selection. The dataset
      path, the example flag, the busy flags and the dialog settings survive. */
  function SelectModel(s: State, model: string): (t: State)
    ensures t.selectedModel == model
    ensures t.apiMessage == None && t.errorMessage == None
    ensures t.uploadedFile == None && t.plotUrl == None
    ensures !t.modelLoaded && !t.dataLoaded
    ensures Only(s, t, {SelectedModel, ApiMessage, ErrorMessage, UploadedFile, PlotUrl, ModelLoaded, DataLoaded})
  {
    Reset(s).(selectedModel := model)
  }

  // ----- launching an action -----

  /** The request body an action sends. */
  datatype Request =
    | LoadModelRequest(modelName: string)
    | UploadRequest(dataset: FileRef)
    | FinetuneRequest(modelName: string, datasetName: string)
    | InferenceRequest(modelName: string, datasetName: string, path: string, finetune: bool, epochs: int)

  /** The outcome of an action's gates: refused with no request sent, or
      launched with the request it sends. */
  datatype Launch = Refused(state: State) | Launched(state: State, request: Request)

  /** A refusal that shows `message` and changes nothing else: no request,
      no busy flag, the success message and the plot untouched. */
  predicate RefusedWith(s: State, l: Launch, message: string) {
    && l.Refused?
    && l.state.errorMessage == Some(message)
    && Only(s, l.state, {ErrorMessage})
  }

  /** The fields a launch of `a` sets: both messages and the busy flag, and
      for a plot the plot link, which it hides. */
  function Raised(a: Action): set<Field> {
    match a
    case LoadModel => {ApiMessage, ErrorMessage, LoadingModel}
    case UploadDataset => {ApiMessage, ErrorMessage, Uploading}
    case Finetune => {ApiMessage, ErrorMessage, Finetuning}
    case GeneratePlot => {ApiMessage, ErrorMessage, GeneratingPlot, PlotUrl}
  }

  /** A launch of `a`: both messages cleared and the busy flag raised before
      the request goes out (a plot launch also hides the previous plot), and
      nothing else changed. */
  predicate LaunchedAs(s: State, l: Launch, a: Action) {
    && l.Launched?
    && l.state.apiMessage == None
    && l.state.errorMessage == None
    && Busy(l.state, a)
    && (a == GeneratePlot ==> l.state.plotUrl == None)
    && Only(s, l.state, Raised(a))
  }

  /** A gate's refusal: `message` shown and nothing sent. */
  function Refuse(s: State, message: string): (l: Launch)
    ensures RefusedWith(s, l, message)
  {
    Refused(s.(errorMessage := Some(message)))
  }

  /** A launch of `a` sending `request`. */
  function Start(s: State, a: Action, request: Request): (l: Launch)
    ensures LaunchedAs(s, l, a)
    ensures l.request == request
  {
    var t := match a
      case LoadModel => s.(apiMessage := None, errorMessage := None, isLoadingModel := true)
      case UploadDataset => s.(apiMessage := None, errorMessage := None, isUploading := true)
      case Finetune => s.(apiMessage := None, errorMessage := None, isFinetuning := true)
      case GeneratePlot => s.(apiMessage := None, errorMessage := None, plotUrl := None, isGeneratingPlot := true);
    Launched(t, request)
  }

  /** `loadModel` up to its request. */
  function BeginLoadModel(s: State): (l: Launch)
    ensures s.selectedModel == "" ==> RefusedWith(s, l, SelectModelFirst)
    ensures s.selectedModel != "" ==> LaunchedAs(s, l, LoadModel) && l.request == LoadModelRequest(s.selectedModel)
  {
    if s.selectedModel == "" then Refuse(s, SelectModelFirst)
    else Start(s, LoadModel, LoadModelRequest(s.selectedModel))
  }

  /** `uploadDataset` up to its request. */
  function BeginUpload(s: State, file: Option<FileRef>): (l: Launch)
    ensures file.None? ==> RefusedWith(s, l, SelectCsvFirst)
    ensures file.Some? ==> LaunchedAs(s, l, UploadDataset) && l.request == UploadRequest(file.value)
  {
    match file
    case None => Refuse(s, SelectCsvFirst)
    case Some(f) => Start(s, UploadDataset, UploadRequest(f))
  }

  /** `finetune` up to its request: model first, then data. */
  function BeginFinetune(s: State): (l: Launch)
    ensures !s.modelLoaded ==> RefusedWith(s, l, LoadModelFirst)
    ensures s.modelLoaded && !s.dataLoaded ==> RefusedWith(s, l, UploadDatasetFirst)
    ensures s.modelLoaded && s.dataLoaded ==>
              LaunchedAs(s, l, Finetune) && l.request == FinetuneRequest(s.selectedModel, UploadedDatasetName)
  {
    if !s.modelLoaded then Refuse(s, LoadModelFirst)
    else if !s.dataLoaded then Refuse(s, UploadDatasetFirst)
    else Start(s, Finetune, FinetuneRequest(s.selectedModel, UploadedDatasetName))
  }

  /** `generatePlot(option, epochs)` up to its request: model, then data,
      then a dataset path. A launch also hides the previous plot. */
  function BeginGeneratePlot(s: State, option: string, epochs: int): (l: Launch)
    ensures !s.modelLoaded ==> RefusedWith(s, l, LoadModelFirst)
    ensures s.modelLoaded && !s.dataLoaded ==> RefusedWith(s, l, UploadDatasetFirst)
    ensures s.modelLoaded && s.dataLoaded && Truthy(s.uploadedPath).None? ==> RefusedWith(s, l, NoDatasetPath)
    ensures s.modelLoaded && s.dataLoaded && Truthy(s.uploadedPath).Some? ==>
              && LaunchedAs(s, l, GeneratePlot)
              && l.request == InferenceRequest(s.selectedModel, UploadedDatasetName, s.uploadedPath.value, option == "yes", epochs)
  {
    if !s.modelLoaded then Refuse(s, LoadModelFirst)
    else if !s.dataLoaded then Refuse(s, UploadDatasetFirst)
    else if Truthy(s.uploadedPath).None? then Refuse(s, NoDatasetPath)
    else Start(s, GeneratePlot,
               InferenceRequest(s.selectedModel, UploadedDatasetName, s.uploadedPath.value, option == "yes", epochs))
  }

  // ----- the callbacks each action hands to the classifier -----

  /** Load model's onSuccess. */
  function LoadSucceeded(s: State, p: Payload): (t: State)
    ensures t.modelLoaded && !t.isLoadingModel
    ensures t.apiMessage == Some(FirstTruthy([p.message], ModelLoadedMsg))
    ensures Only(s, t, {ApiMessage, ModelLoaded, LoadingModel})
  {
    s.(apiMessage := Some(OrElse(p.message, ModelLoadedMsg)), modelLoaded := true, isLoadingModel := false)
  }

  /** Upload's onSuccess: the returned path, or none when the reply has no
      truthy path. */
  function UploadSucceeded(s: State, p: Payload): (t: State)
    ensures t.dataLoaded && !t.isUploading
    ensures t.uploadedPath == Truthy(p.path)
    ensures t.apiMessage == Some(FirstTruthy([p.message], DatasetUploadedMsg))
    ensures Only(s, t, {ApiMessage, UploadedPath, DataLoaded, Uploading})
  {
    s.(uploadedPath := Truthy(p.path), apiMessage := Some(OrElse(p.message, DatasetUploadedMsg)),
       dataLoaded := true, isUploading := false)
  }

  /** Fine-tune's onSuccess: only the success message and the busy flag. */
  function FinetuneSucceeded(s: State, p: Payload): (t: State)
    ensures !t.isFinetuning
    ensures t.apiMessage == Some(FirstTruthy([p.message], FinetunedMsg))
    ensures Only(s, t, {ApiMessage, Finetuning})
  {
    s.(apiMessage := Some(OrElse(p.message, FinetunedMsg)), isFinetuning := false)
  }

  /** Generate plot's onSuccess: a result path becomes the plot link under the
      service address; without one the call counts as a failure. */
  function PlotSucceeded(s: State, p: Payload): (t: State)
    ensures !t.isGeneratingPlot
    ensures Truthy(p.resultPath).Some? ==>
              && t.plotUrl == Some(PlotBase + p.resultPath.value)
              && PlotLink(t.plotUrl.value)
              && t.apiMessage == Some(PlotGeneratedMsg)
              && Only(s, t, {PlotUrl, ApiMessage, GeneratingPlot})
    ensures Truthy(p.resultPath).None? ==>
              && t.errorMessage == Some(FirstTruthy([p.message], PlotFailedMsg))
              && Only(s, t, {ErrorMessage, GeneratingPlot})
  {
    var t := match Truthy(p.resultPath)
      case Some(rp) => s.(plotUrl := Some(PlotBase + rp), apiMessage := Some(PlotGeneratedMsg))
      case None => s.(errorMessage := Some(OrElse(p.message, PlotFailedMsg)));
    t.(isGeneratingPlot := false)
  }

  /** An action's onSuccess. */
  function Succeeded(a: Action, s: State, p: Payload): (t: State)
    ensures !Busy(t, a)
    ensures Only(s, t, Effects(a))
    ensures Progressed(s, t)
  {
    match a
    case LoadModel =>
      var t := LoadSucceeded(s, p);
      OnlyWiden(s, t, {ApiMessage, ModelLoaded, LoadingModel}, Effects(a));
      t
    case UploadDataset =>
      var t := UploadSucceeded(s, p);
      OnlyWiden(s, t, {ApiMessage, UploadedPath, DataLoaded, Uploading}, Effects(a));
      t
    case Finetune =>
      var t := FinetuneSucceeded(s, p);
      OnlyWiden(s, t, {ApiMessage, Finetuning}, Effects(a));
      t
    case GeneratePlot =>
      var t := PlotSucceeded(s, p);
      if Truthy(p.resultPath).Some? then
        OnlyWiden(s, t, {PlotUrl, ApiMessage, GeneratingPlot}, Effects(a));
        t
      else
        OnlyWiden(s, t, {ErrorMessage, GeneratingPlot}, Effects(a));
        t
  }

  /** Every action's onError: show the message, drop the busy flag. */
  function Failed(a: Action, s: State, message: string): (t: State)
    ensures t.errorMessage == Some(message) && !Busy(t, a)
    ensures Only(s, t, {ErrorMessage, BusyField(a)})
    ensures Only(s, t, Effects(a)) && Progressed(s, t)
  {
    match a
    case LoadModel => s.(errorMessage := Some(message), isLoadingModel := false)
    case UploadDataset => s.(errorMessage := Some(message), isUploading := false)
    case Finetune => s.(errorMessage := Some(message), isFinetuning := false)
    case GeneratePlot => s.(errorMessage := Some(message), isGeneratingPlot := false)
  }

  /** Every action's catch block: the Error's message, or the action's own
      fallback when something else was thrown; the busy flag drops. */
  function Crashed(a: Action, s: State, detail: Option<string>): (t: State)
    ensures detail.Some? ==> t.errorMessage == Some(detail.value)
    ensures detail.None? ==> t.errorMessage == Some(ExceptionFallback(a))
    ensures !Busy(t, a)
    ensures Only(s, t, {ErrorMessage, BusyField(a)})
    ensures Only(s, t, Effects(a)) && Progressed(s, t)
  {
    Failed(a, s, if detail.Some? then detail.value else ExceptionFallback(a))
  }

  /** The effect of a trace of callbacks on the state of a launched action. */
  function Deliver(a: Action, s: State, cs: seq<Callback>): (t: State)
    ensures TerminalCount(cs) == 0 ==> t == s
    ensures TerminalCount(cs) > 0 ==> !Busy(t, a)
    ensures Only(s, t, Effects(a))
    ensures Progressed(s, t)
    decreases |cs|
  {
    if |cs| == 0 then s
    else
      var s' := match cs[0]
        case OnProgress(_) => s
        case OnSuccess(p) => Succeeded(a, s, p)
        case OnError(m) => Failed(a, s, m);
      var t := Deliver(a, s', cs[1..]);
      OnlyCompose(s, s', t, Effects(a), Effects(a));
      t
  }

  /** What an action's request led to: it threw (fetch rejected or the body
      was not JSON), or it got a response, followed by the replies the task
      endpoint gives if the work was handed to the poller. */
  datatype Exchange =
    | Threw(detail: Option<string>)
    | Answered(response: Response, replies: seq<PollReply>)

  /** Whether the exchange reaches one of the action's terminal paths. */
  predicate Settles(ex: Exchange) {
    ex.Threw? || Concludes(ex.response, true, ex.replies)
  }

  /** The life of a launched action after its request: the classifier and
      the poller (every action passes the poller and no progress handler),
      or the catch block. */
  function Settle(a: Action, s: State, ex: Exchange): (t: State)
    ensures Settles(ex) ==> !Busy(t, a)
    ensures !Settles(ex) ==> t == s
    ensures Only(s, t, Effects(a))
    ensures Progressed(s, t)
  {
    match ex
    case Threw(detail) => Crashed(a, s, detail)
    case Answered(resp, replies) =>
      RespondOnce(resp, true, false, replies);
      Deliver(a, s, Respond(resp, true, false, replies))
  }

  /** An action from its gates to its settlement. */
  function Run(a: Action, l: Launch, ex: Exchange): State {
    match l
    case Refused(t) => t
    case Launched(t, _) => Settle(a, t, ex)
  }

  // ----- the remaining handlers -----

  /** `handleUseExample`: marks the bundled example as the dataset. The model
      flag and everything else stay as they were. */
  function UseExample(s: State): (t: State)
    ensures t.exampleLoaded && t.dataLoaded
    ensures t.uploadedFile == None && t.uploadedPath == Some(ExamplePath)
    ensures t.apiMessage == Some(ExampleLoadedMsg)
    ensures Only(s, t, {ExampleLoaded, DataLoaded, UploadedFile, ApiMessage, UploadedPath})
  {
    s.(exampleLoaded := true, dataLoaded := true, uploadedFile := None,
       apiMessage := Some(ExampleLoadedMsg), uploadedPath := Some(ExamplePath))
  }

  /** The integer part of the epochs input handler: `max(1, min(10, n))`. */
  function ClampEpochs(n: int): (r: int)
    ensures 1 <= r <= 10
    ensures 1 <= n <= 10 ==> r == n
    ensures n < 1 ==> r == 1
    ensures n > 10 ==> r == 10
  {
    var m := if n < 10 then n else 10;
    if m > 1 then m else 1
  }

  /** Clamping twice is clamping once. */
  lemma ClampIdempotent(n: int)
    ensures ClampEpochs(ClampEpochs(n)) == ClampEpochs(n)
  {
  }

  /** Clamping keeps the order of inputs. */
  lemma ClampMonotone(m: int, n: int)
    requires m <= n
    ensures ClampEpochs(m) <= ClampEpochs(n)
  {
  }

  // ----- user events -----

  datatype Event =
    | PickModel(model: string)
    | PickDataset(file: FileRef, ex: Exchange)
    | ClickLoadModel(ex: Exchange)
    | ClickFinetune(ex: Exchange)
    | ClickGenerate(ex: Exchange)
    | ClickUseExample
    | PickFinetuneOption(option: string)
    | EnterEpochs(n: int)

  /** `handleDatasetUpload`: records the picked file and clears the messages,
      then uploads it. The upload never touches the recorded file. */
  function DatasetUpload(s: State, f: FileRef, ex: Exchange): (t: State)
    ensures t.uploadedFile == Some(f)
    ensures t.selectedModel == s.selectedModel && t.modelLoaded == s.modelLoaded
    ensures Settles(ex) ==> !t.isUploading
    ensures !Settles(ex) ==> t.isUploading && t.apiMessage == None && t.errorMessage == None
    ensures Only(s, t, {UploadedFile} + Effects(UploadDataset))
  {
    var s' := ClearMessages(s.(uploadedFile := Some(f)));
    assert Only(s, s', {UploadedFile, ApiMessage, ErrorMessage});
    var l := BeginUpload(s', Some(f));
    var t := Settle(UploadDataset, l.state, ex);
    OnlyWiden(s', l.state, Raised(UploadDataset), Effects(UploadDataset));
    OnlyCompose(s', l.state, t, Effects(UploadDataset), Effects(UploadDataset));
    OnlyCompose(s, s', t, {UploadedFile, ApiMessage, ErrorMessage}, Effects(UploadDataset));
    OnlyWiden(s, t, {UploadedFile, ApiMessage, ErrorMessage} + Effects(UploadDataset), {UploadedFile} + Effects(UploadDataset));
    t
  }

  /** The dashboard's reaction to one event, each handler run to its end:
      the model selector, the file picker, the three action buttons, "use
      example", the dialog's fine-tune select and epochs input. The dialog's
      Generate button passes the dialog's option and epochs. */
  function Step(s: State, e: Event): (t: State)
    ensures e.PickModel? ==> t.selectedModel == e.model && !t.modelLoaded && !t.dataLoaded
    ensures e.PickDataset? ==> t.uploadedFile == Some(e.file)
    ensures e.ClickUseExample? ==> t.dataLoaded && t.uploadedPath == Some(ExamplePath)
    ensures e.PickFinetuneOption? ==> t.finetuneOption == e.option && Only(s, t, {FinetuneOption})
    ensures e.EnterEpochs? ==> t.epochs == ClampEpochs(e.n) && Only(s, t, {Epochs})
  {
    match e
    case PickModel(m) => SelectModel(s, m)
    case PickDataset(f, ex) => DatasetUpload(s, f, ex)
    case ClickLoadModel(ex) => Run(LoadModel, BeginLoadModel(s), ex)
    case ClickFinetune(ex) => Run(Finetune, BeginFinetune(s), ex)
    case ClickGenerate(ex) => Run(GeneratePlot, BeginGeneratePlot(s, s.finetuneOption, s.epochs), ex)
    case ClickUseExample => UseExample(s)
    case PickFinetuneOption(o) => s.(finetuneOption := o)
    case EnterEpochs(n) => s.(epochs := ClampEpochs(n))
  }

  function Steps(s: State, es: seq<Event>): State
    decreases |es|
  {
    if |es| == 0 then s else Steps(Step(s, es[0]), es[1..])
  }
}
