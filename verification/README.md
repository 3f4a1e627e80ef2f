# Forecast dashboard controller and documentation navigator, in Dafny

This project models the decision logic of a client-side forecasting dashboard
and of its documentation page. The dashboard lets a user pick a pretrained
time-series model, load it on a remote inference service, upload a CSV dataset
(or use a bundled example), optionally fine-tune, and show a forecast plot the
service renders. Everything heavy happens on the service. What is modelled here
is the controller around it:

- **Response classifier** (`handleApiResponse`). Each HTTP reply becomes
  exactly one of: an error, a hand-off of a task id to the poller, an
  immediate `result`, or the raw body taken as the result.
- **Task poller** (`pollTaskStatus`). `PENDING`/`STARTED` replies poll again.
  `SUCCESS` with a result calls the success callback. Anything else calls the
  error callback with the first present of `result.message`, `status` and
  "Unknown error". The poller's unbounded retry loop is followed over a finite
  trace of status replies.
- **Dashboard state record and transitions.** These cover reset and model
  selection, the precondition gates of the four remote actions, and each
  action's launch, success, error and exception paths. They also cover
  "use example", the epochs clamp and a whole-session invariant.
- **Section navigator.** A bounded prev/next index over the six
  documentation sections.

Files:

- `js_values.dfy`, module `JsValues`: optional fields, JavaScript truthiness
  of strings (`""` is falsy), `a || b` chains, and the decimal rendering of a
  status code.
- `api_replies.dfy`, module `ApiReplies`: reply bodies, the classifier, the
  poll step and the finite poll run.
- `dashboard.dfy`, module `Dashboard`: the state record, every handler, and
  an event-driven `Step`.
- `dashboard_laws.dfy`, module `DashboardLaws`: the busy-flag lifecycle, the
  invariant, and worked sessions.
- `documentation.dfy`, module `Documentation`: the section navigator.

Modelling choices:

- **Replies.** A reply is an abstract value with optional fields. `message`,
  `task_id`, `path` and `result_path` are optional strings read by
  truthiness. `result` is an optional object. `response.ok` is derived from
  the status as the Fetch standard defines it (200 to 299), so "status 400 and
  above" is a statement about `ok`.
- **Actions run atomically.** An action is its gates, then its launch, then
  the settlement its exchange with the service leads to. An exchange is
  either a thrown request (fetch rejected, or the body was not JSON), or a
  response followed by the status replies for the task it may have started.
  When the trace ends with the task still pending, the action's busy flag
  stays up. That is what the unbounded poller does until a terminal reply
  arrives.
- **Frame conditions.** `Only(s, t, fields)` says `t` differs from `s` in no
  field outside `fields`.

Two behaviours of the code are worth knowing, and the model keeps both:

- **`dataLoaded` can hold with no dataset path.** An upload whose reply has
  no truthy `path` sets `dataLoaded` and leaves the path null
  (`DashboardLaws.UploadWithoutPath`). Only the third gate of generate-plot
  catches that state.
- **Both messages can be shown at once.** A refused gate sets the error
  message without clearing an earlier success message
  (`DashboardLaws.RefusalKeepsSuccessMessage`). "Use example" likewise sets
  the success message and leaves an error message in place.

## Model

| member | source | states |
|---|---|---|
| `JsValues.OrElseChain` | components/dashboard/dashboard.tsx:82 | a chain `a \|\| b \|\| fallback` yields the first truthy candidate, else the fallback |
| `JsValues.FirstTruthyNonEmpty` | components/dashboard/dashboard.tsx:82 | a fallback chain ending in a non-empty literal never yields an empty message |
| `JsValues.Decimal` | components/dashboard/dashboard.tsx:93 | the status code in the error text is a non-empty run of decimal digits with no leading zero |
| `JsValues.DecimalRoundTrip` | components/dashboard/dashboard.tsx:93 | the decimal text of the status code denotes the status code |
| `ApiReplies.Classify` | components/dashboard/dashboard.tsx:90-105 | exactly one disposition: an error iff the response is not ok, with the server message or `Error: <status> <statusText>` and never empty; a hand-off iff ok, a poller is supplied and a task id is present; otherwise success with `result` when present, else with the body itself |
| `ApiReplies.Verdict` | components/dashboard/dashboard.tsx:79-85 | a reply that is not pending or started succeeds iff its state is SUCCESS with a result, passing that result; otherwise it errors with the first present of `result.message`, `status`, "Unknown error" (never empty); a failed poll request errors with the thrown message or "Error polling task status" |
| `ApiReplies.Poll` | components/dashboard/dashboard.tsx:71-87 | over a finite reply trace: it never issues more polls than there are replies; every polled reply but the last was pending/started; every callback but the last reports progress; with a progress handler, one callback per poll, each progress callback carrying its reply's state (line 77) |
| `ApiReplies.TerminalAtEnd` | components/dashboard/dashboard.tsx:75-82 | when only the last callback can be terminal, one terminal callback has fired exactly when the last callback is terminal |
| `ApiReplies.PollStops` | components/dashboard/dashboard.tsx:75-82 | polling stops at the first reply that is not pending/started and that reply's verdict is the last callback; if the trace ends first, every reply was pending/started and no terminal callback has fired |
| `ApiReplies.PollQuiet` | components/dashboard/dashboard.tsx:76-77 | without a progress handler, at most one callback fires and it is terminal |
| `ApiReplies.PollConcludes` | components/dashboard/dashboard.tsx:71-87 | at most one terminal callback fires, and one fires exactly when some reply in the trace is not pending/started |
| `ApiReplies.Respond` | components/dashboard/dashboard.tsx:90-105 | the callbacks handling one response fires: onError alone with the server message or `Error: <status> <statusText>` when not ok; the poller's callbacks when ok with a task id and a poller; otherwise onSuccess alone with `result` when present, else the body |
| `ApiReplies.RespondOnce` | components/dashboard/dashboard.tsx:90-105 | handling a response fires at most one terminal callback, exactly one unless the handed-off task is still pending at the end of the trace; a response that is not ok fires onError alone |
| `ApiReplies.ErrorStatusNeverSucceeds` | components/dashboard/dashboard.tsx:92-95 | a status of 400 or above invokes only onError, never onSuccess |
| `ApiReplies.TaskIdDelegates` | components/dashboard/dashboard.tsx:96-97 | with a task id and a poller, the classifier calls no callback itself and all callbacks come from polling that task |
| `Dashboard.ClearMessages` | components/dashboard/dashboard.tsx:44-47 | both messages become null and nothing else changes |
| `Dashboard.Reset` | components/dashboard/dashboard.tsx:49-55 | messages, file and plot cleared, both loaded flags false, nothing else changes |
| `Dashboard.SelectModel` | components/dashboard/dashboard.tsx:58-61 | selects the model after a full reset; the dataset path, example flag, busy flags and dialog settings are unchanged |
| `Dashboard.Start` | components/dashboard/dashboard.tsx:113-114 | a launch clears both messages, raises the action's busy flag and sends the request; only a plot launch also hides the plot (line 226), and nothing else changes |
| `Dashboard.BeginLoadModel` | components/dashboard/dashboard.tsx:108-120 | with no model selected: "Please select a model first", no request, only the error message changes; otherwise both messages cleared, busy flag raised and a load request for the selected model |
| `Dashboard.BeginUpload` | components/dashboard/dashboard.tsx:141-154 | with no file: "Please select a CSV file to upload" and no request; otherwise messages cleared, busy flag raised, the file sent |
| `Dashboard.BeginFinetune` | components/dashboard/dashboard.tsx:176-192 | gates in order (model loaded, then data loaded) with their exact texts, a refusal changing only the error message; a launch clears messages, raises the busy flag and sends model and dataset name |
| `Dashboard.BeginGeneratePlot` | components/dashboard/dashboard.tsx:212-239 | gates in order (model, data, dataset path) with their exact texts, a refusal changing only the error message; a launch clears messages and the plot, raises the busy flag and sends model, path, fine-tune flag and epochs |
| `Dashboard.LoadSucceeded` | components/dashboard/dashboard.tsx:123-127 | model loaded, busy flag down, message from the reply or "Model loaded successfully"; nothing else changes |
| `Dashboard.UploadSucceeded` | components/dashboard/dashboard.tsx:157-162 | data loaded, path from the reply or null, message from the reply or "Dataset uploaded successfully", busy flag down |
| `Dashboard.FinetuneSucceeded` | components/dashboard/dashboard.tsx:195-198 | only the success message and the fine-tune busy flag change |
| `Dashboard.PlotSucceeded` | components/dashboard/dashboard.tsx:242-250 | with a result path the plot is the service address followed by that path and the message is "Plot generated successfully"; without one the error is the reply's message or "Failed to generate plot" and the plot is untouched; the busy flag drops either way |
| `Dashboard.Failed` | components/dashboard/dashboard.tsx:128-131 | an error callback shows its message and drops the action's busy flag, nothing else |
| `Dashboard.Crashed` | components/dashboard/dashboard.tsx:134-137 | a caught exception shows the Error's message or the action's fallback text and drops the busy flag |
| `Dashboard.Deliver` | components/dashboard/dashboard.tsx:121-133 | applying the callbacks a response fires: none terminal leaves the state as it was; any terminal one leaves the busy flag down; only the action's own fields change; loaded flags never drop; a new plot is a service link |
| `Dashboard.Settle` | components/dashboard/dashboard.tsx:115-137 | after launch, a settling exchange leaves the busy flag down and an unsettled one (task still pending) changes nothing |
| `Dashboard.DatasetUpload` | components/dashboard/dashboard.tsx:63-70 | picking a file records it, clears the messages and uploads it: a settling exchange leaves the upload's busy flag down, a still-pending task leaves it up with both messages cleared; besides the file only the upload's own fields change, so the selected model and the model flag stay as they were |
| `Dashboard.Step` | components/dashboard/dashboard.tsx:355-401 | one event run to its end: a model pick selects it and unloads model and data; a file pick records the file; "use example" loads the example path; the fine-tune select sets only the option (line 355); the epochs input sets only the clamped epochs (lines 388-391) |
| `Dashboard.UseExample` | components/dashboard/dashboard.tsx:264-270 | example and data flags set, file cleared, path "data/data/ETTh1.csv", message "Example file loaded"; model flag and the rest unchanged |
| `Dashboard.ClampEpochs` | components/dashboard/dashboard.tsx:389 | the result lies in 1..10, is the input on 1..10, 1 below and 10 above |
| `Dashboard.ClampIdempotent` | components/dashboard/dashboard.tsx:389 | clamping twice is clamping once |
| `Dashboard.ClampMonotone` | components/dashboard/dashboard.tsx:389 | clamping keeps the order of inputs |
| `DashboardLaws.Lifecycle` | components/dashboard/dashboard.tsx:113-137 | once launched, every terminal path leaves the busy flag down; a still-pending task leaves it up with messages cleared; nothing outside the action's fields changes |
| `DashboardLaws.LoadModelLifecycle` | components/dashboard/dashboard.tsx:108-138 | the load action's busy flag is down after any settling exchange and only its own fields change |
| `DashboardLaws.UploadLifecycle` | components/dashboard/dashboard.tsx:141-173 | the same for upload |
| `DashboardLaws.FinetuneLifecycle` | components/dashboard/dashboard.tsx:176-209 | the same for fine-tune |
| `DashboardLaws.GeneratePlotLifecycle` | components/dashboard/dashboard.tsx:212-261 | the same for generate-plot |
| `DashboardLaws.ThrownRequest` | components/dashboard/dashboard.tsx:257-260 | a thrown request shows the Error's message or the action's fallback and drops the busy flag |
| `DashboardLaws.InitialInv` | components/dashboard/dashboard.tsx:21-41 | the initial state satisfies the invariant |
| `DashboardLaws.StepInv` | components/dashboard/dashboard.tsx:43-270 | every handler keeps the invariant: epochs in 1..10, a loaded model has a name, a shown plot implies model and data loaded and is a link under the service address |
| `DashboardLaws.StepsInv` | components/dashboard/dashboard.tsx:43-270 | every sequence of events keeps the invariant |
| `DashboardLaws.InferenceEpochsBounded` | components/dashboard/dashboard.tsx:384-400 | every inference request from the dialog asks for 1 to 10 epochs |
| `DashboardLaws.ImmediateReply` | components/dashboard/dashboard.tsx:98-104 | an ok body with neither task id nor result runs the success callback on the body itself |
| `DashboardLaws.RejectedReply` | components/dashboard/dashboard.tsx:92-95 | a response that is not ok runs the action's error callback once with the server message or `Error: <status> <statusText>`, whatever status replies follow |
| `DashboardLaws.ResultReply` | components/dashboard/dashboard.tsx:98-100 | an ok response with no task id and a `result` field runs the action's success callback once on that result |
| `DashboardLaws.PolledReply` | components/dashboard/dashboard.tsx:75-80 | a handed-off task polled through pending replies up to a SUCCESS with a result runs the success callback once on that result |
| `DashboardLaws.LoadAnswered` | components/dashboard/dashboard.tsx:108-127 | an immediate ok reply to a load loads the model, shows the reply's message or "Model loaded successfully", clears the error and changes only the load's fields |
| `DashboardLaws.UploadAnswered` | components/dashboard/dashboard.tsx:63-70 | picking a file whose upload gets an immediate ok reply records the file, loads the data with the reply's path or none, and shows the reply's message or "Dataset uploaded successfully" (the success callback at lines 157-162) |
| `DashboardLaws.PlotAnswered` | components/dashboard/dashboard.tsx:212-250 | past the gates, an immediate ok plot reply with a result path shows the plot under the service address and "Plot generated successfully"; without one, no plot and the reply's message or "Failed to generate plot" |
| `DashboardLaws.UploadThenPlot` | components/dashboard/dashboard.tsx:58-250 | from any state: select, load, upload, then a plot reply with a result path shows the service address followed by that path, with the success message and no error |
| `DashboardLaws.PolledLoad` | components/dashboard/dashboard.tsx:76-80 | from any state, a load polled through PENDING, STARTED, SUCCESS loads the model with the result's message and drops the busy flag |
| `DashboardLaws.UploadWithoutPath` | components/dashboard/dashboard.tsx:158-160 | an upload reply without a path leaves model and data loaded with no path, and generate-plot is refused by its path gate |
| `DashboardLaws.RefusalKeepsSuccessMessage` | components/dashboard/dashboard.tsx:181-183 | fine-tuning right after a load is refused for want of data and leaves the load's success message shown beside the error |
| `Documentation.IndexOf` | components/documentation/documentation.tsx:24 | the first position holding the id, or -1 exactly when the id is not listed |
| `Documentation.Navigate` | components/documentation/documentation.tsx:23-30 | navigation stays put or lands on a listed section |
| `Documentation.PrevStep` | components/documentation/documentation.tsx:25-26 | Previous from position i goes to position i-1, a no-op at position 0 |
| `Documentation.NextStep` | components/documentation/documentation.tsx:27-28 | Next from position i goes to position i+1, a no-op at the last position |
| `Documentation.RoundTrip` | components/documentation/documentation.tsx:25-28 | Next then Previous returns to any section but the last; Previous then Next to any but the first |
| `Documentation.Unlisted` | components/documentation/documentation.tsx:24-28 | for an unlisted current section Previous is a no-op and Next goes to the first section |
| `Documentation.WalkStaysListed` | components/documentation/documentation.tsx:14-30 | from a listed section every sequence of presses stays on a listed section |
| `Documentation.WalkFromInitial` | components/documentation/documentation.tsx:11 | from the opening section "introduction" every sequence of presses stays listed |
| `Documentation.DisabledIffNoOp` | components/documentation/documentation.tsx:63-71 | on a listed section each button is disabled exactly when pressing it would do nothing |
| `Documentation.DisabledAtEnds` | components/documentation/documentation.tsx:63-71 | Previous is disabled only at the first section and Next only at the last |

## Left out

- Network I/O: `fetch`, `FormData`, JSON parsing and the remote HTTP API. Replies are abstract values. A failed fetch or an unparsable body is a thrown request.
- Poll timing: the 2000 ms `setTimeout` delay and the unbounded poll loop. Polling is followed over a finite list of replies, and a trace that ends while pending means the poll is still running.
- Async interleaving between actions, and re-entrancy of one action while it is busy. Each action runs to its settlement before the next event. Nothing in the code coordinates concurrent actions.
- React state batching, rendering, the dialog's open flag, tooltips and `URL.revokeObjectURL`.
- The float parsing `Math.round(Number(...))` in the epochs handler, including a NaN input. Only the integer clamp is modelled.
- Non-object truthy `result` values such as a bare string. A present `result` is an object.
- Dashboard.BeginGeneratePlot: takes the option and epochs as arguments and does not model the defaults `finetuneOption = "no"` and `epochs = 10`, because the only caller, the dialog's Generate button, always passes both.
- File contents. A picked file is an opaque reference.
- The unused `API_BASE_URL` constant. The plot link uses the literal service address of the plot callback.
- Direct section jumps from the table of contents. Only the Previous/Next navigation is modelled.
- The chart drawing, research-content pages, model selector, model metrics, drag-and-drop uploader and the app layout. These are presentation only.
