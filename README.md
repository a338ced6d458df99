# KOB Monitoring Agent — a verified model of the monitoring core

The KOB Monitoring Agent polls a Kubernetes cluster. Each poll reads the nodes and the pods of the configured namespaces. It flags nodes
whose Ready condition is not `"True"` and pods whose phase text contains one of five substrings (`Pending`,
`CrashLoopBackOff`, `Error`, `ImagePullBackOff`, `Failed`). It asks a language model for a
diagnosis, publishes an alert to a message broker, and keeps a small runtime state record: status, last alert
time, anomaly counter and last error.

This project models, in Dafny:

- the cluster tools that shape Kubernetes objects into findings, in `tools.dfy`
  (module `Tools`): `check_pod_status`, `get_node_status`, `get_pod_events`, `load_kube_config`, the
  `restart_deployment` patch and its ISO timestamp, and the error wrapping they share;
- the two anomaly filters, in `classifier.dfy` (module `Classifier`);
- the monitor, in `monitor.dfy` (module `Monitor`):
  - the shared `state` record and the broker client, as the classes `RuntimeState` and `Alerter`;
  - `check_node_status`, `check_pods_in_namespace`, one iteration of the loop and `monitor_loop` itself, as
    methods on those objects. Each method is proved equal to a function of the old state;
- what the monitor promises, in `monitor_properties.dfy` (module `MonitorProperties`): alert contents, counter
  accounting, fault isolation between namespaces, alert order, and the sleep chosen;
- worked scenarios, in `scenarios.dfy` (module `MonitorScenarios`);
- the environment parsing and validation of `Config`, in `config.dfy` (module `AgentConfig`).

`strings.dfy` models the Python string operations used: substring `in`, `lower()`, `split(",")` and `",".join`.
`wrappers.dfy` holds `Option`, `Result` and `Outcome`; `sequences.dfy` holds one fact about concatenation
that the proofs cite.

Outside effects are inputs:

- The cluster is a `Cluster` value of client calls, each of which returns a result or raises with a message.
- The diagnosis (`agent.run`), the broker publish (`send_alert`) and the clock are fields of a `World`, one per
  loop iteration.
- The start-up calls are a `Startup` value.

## Behaviour pinned down by the model

- **Namespace checks.** `asyncio.gather` at agent/main.py:92 turns every namespace coroutine into a task before
  any of them runs, and none of them suspends. It does not cancel the other tasks when one fails. So every
  namespace check runs, in list order, even after an earlier one has raised. The exception that reaches the
  loop's `except` is the first one in list order. The status is left naming the last namespace.
  `Monitor.FanOut` and `Monitor.FirstError` model this, and `MonitorProperties.FaultIsolation` states it.
- **Pods without a phase.** A pod whose phase is `None` gives the entry `{"status": None}`. The pod filter then
  raises `TypeError` (`"Pending" in None`), because the `""` default of `p.get("status", "")` applies only to a
  missing key. So the whole namespace check raises. `MonitorProperties.FiltersCompose` and
  `MonitorProperties.PodCheckOutcome` state this.
- **Start-up failures.** A failure while loading the kube config, creating the agent or connecting to the broker
  is caught inside `monitor_loop` itself (agent/main.py:100-103). The status becomes `"Error"`, the loop is never
  entered, and `monitor_loop` returns normally. `main()` returns 1 only when an exception escapes `asyncio.run`
  (agent/main.py:114-121), so after a start-up failure the process still exits with status 0.
- **`last_error` is never cleared.** A successful iteration does not clear `last_error`; only the next failure
  overwrites it. `MonitorScenarios.RecoveryKeepsLastError` shows this.

## Model

| member | source | states |
|---|---|---|
| Strings.Contains | agent/main.py:55 | Python's substring `in`, defined by a search; `ContainsIff` ties it to "occurs at some position" |
| Strings.ContainsIff | agent/main.py:55 | Substring `in` holds exactly when the substring occurs at some position |
| Strings.LowerChar | agent/config.py:8 | Lowering maps an upper-case ASCII letter to its lower-case letter and leaves every other character alone |
| Strings.Lower | agent/config.py:8 | `lower()` keeps the length and lowers each character in place |
| Strings.LowerIsLower | agent/config.py:8 | A lowered string has no upper-case letter, and lowering it again changes nothing |
| Strings.Split | agent/config.py:7 | `split` always returns at least one piece |
| Strings.Join | agent/config.py:7 | Joining with a separator, the inverse of the split; `JoinSplit` and `SplitJoin` state the round trips |
| Strings.JoinSplit | agent/config.py:7 | Joining the pieces of a split with the same separator gives back the original string |
| Strings.SplitShape | agent/config.py:7 | A split has one piece more than the string has separators, and no piece contains the separator |
| Strings.SplitJoin | agent/config.py:7 | Splitting a join of separator-free pieces gives the pieces back |
| AgentConfig.Namespaces | agent/config.py:7 | MONITORED_NAMESPACES, default `"default"`, split at every comma; `NamespacesSplit` states its shape |
| AgentConfig.Provider | agent/config.py:8 | LLM_PROVIDER, default `"openai"`, lowered; `ProviderAndModel` states it |
| AgentConfig.DefaultModel | agent/config.py:11 | The model used when LLM_MODEL is unset: `"gpt-4"` for `"openai"`, `"gemini-pro"` otherwise; `ProviderAndModel` states it |
| AgentConfig.ParseFlag | agent/config.py:17-19 | A flag text is on when it lowers to `"true"`; `FlagIff` states exactly when |
| AgentConfig.IntSetting | agent/config.py:13-20 | `int(os.getenv(key, default))` with the parser abstract, failing with the variable named; used for RABBITMQ_PORT, POLLING_INTERVAL_SECONDS and API_PORT |
| AgentConfig.Load | agent/config.py:5-20 | `Config.__init__`: every field read from the environment with its default; the three `int()` conversions raise, in the order the source reads them; `LoadFailure` states that order. Its properties are stated by the `AgentConfig` lemmas below |
| AgentConfig.Validate | agent/config.py:22-25 | `Config.validate`: the three asserts, in order, the first failing one raising with its message; `ValidateIff` states when it passes |
| AgentConfig.LoadValidated | agent/config.py:28-29 | The module-level `config = Config(); config.validate()`; `LoadValidatedIff` states when it succeeds |
| AgentConfig.NamespacesSplit | agent/config.py:7 | The namespace list joins back to MONITORED_NAMESPACES and has one entry more than it has commas. Empty pieces are kept, no entry contains a comma, and the default list is `["default"]` |
| AgentConfig.FlagIff | agent/config.py:17-19 | A flag is on exactly when its text is four characters that lower to `"true"` |
| AgentConfig.FlagExamples | agent/config.py:17-19 | `"false"` (the default), `"1"` and `"yes"` are off; `"TRUE"` and `"True"` are on |
| AgentConfig.ProviderAndModel | agent/config.py:8-11 | The provider has no upper-case letter and defaults to `"openai"`. The model is LLM_MODEL when set, otherwise `"gpt-4"` for `"openai"` and `"gemini-pro"` for any other provider |
| AgentConfig.Defaults | agent/config.py:5-20 | With no variable set, every field takes its default: port 5672, queue `k8s-monitor-alerts`, interval 60, docs `./docs`, flags off, API port 8080 |
| AgentConfig.DefaultsEach | agent/config.py:7-19 | In every environment that loads, each unset variable takes its default whatever else is set: namespaces `["default"]`, host `localhost`, queue `k8s-monitor-alerts`, docs `./docs`, rules `{}`, auto-fix and API off |
| AgentConfig.LoadTextFields | agent/config.py:7-19 | A loaded configuration's namespaces, host, queue, docs path, rules and the two flags are the getenv texts, split or parsed as the source does |
| AgentConfig.UnsetTexts | agent/config.py:7-19 | An unset `MONITORED_NAMESPACES` splits to `["default"]`; an unset `ENABLE_AUTO_FIX` or `API_ENABLED` parses to off |
| AgentConfig.IntDefaultsEach | agent/config.py:13-20 | In every environment that loads, an unset port, polling interval or API port is the parse of its default text `5672`, `60` or `8080` |
| AgentConfig.LoadFailure | agent/config.py:13-20 | Loading fails exactly when one of the three integer texts does not parse. The error names the first of `RABBITMQ_PORT`, `POLLING_INTERVAL_SECONDS`, `API_PORT` that fails, with its text |
| AgentConfig.ValidateIff | agent/config.py:22-25 | `validate` passes exactly when the API key is non-empty, the provider is `openai` or `gemini`, and the docs path is non-empty. A missing key fails with the first assert's message |
| AgentConfig.LoadValidatedIff | agent/config.py:22-29 | Once the environment parses, start-up configuration succeeds exactly when LLM_API_KEY is set and non-empty, the lowered provider is known, and RAG_DOCS_PATH is unset or non-empty |
| Tools.StrOrNull | agent/tools.py:36-42 | An optional text attribute as a JSON value, `None` becoming null |
| Tools.Wrap | agent/tools.py:44-45 | A client failure is re-raised with the tool's prefix in front of its message; a success passes through |
| Tools.LoadKubeConfig | agent/tools.py:21-28 | A non-empty path loads that file and anything else loads the in-cluster config. The call fails exactly when the chosen loader fails, with the `Failed to load kube config: ` prefix |
| Tools.PodEntry | agent/tools.py:36-42 | The dict `{"pod_name": name, "status": phase}` of one pod; `NotRunningMembers` and `PodStatusNamedPod` state where it appears |
| Tools.NotRunning | agent/tools.py:37-42 | The list path of `check_pod_status`: one `{pod_name, status}` entry per pod whose phase is not `"Running"`, in pod order; `NotRunningMembers` states which |
| Tools.PodStatus | agent/tools.py:31-45 | What `check_pod_status` returns or raises: the named pod, or the non-running pods with the `All pods running` sentinel; failures wrapped with the tool's prefix |
| Tools.NotRunningAppend | agent/tools.py:38-42 | The entries for a concatenation of pod lists are the entries of each part, in pod order |
| Tools.NotRunningMembers | agent/tools.py:37-42 | An entry is produced exactly for a pod whose phase is not `"Running"`, and it is that pod's `{pod_name, status}` |
| Tools.PodStatusListPath | agent/tools.py:37-43 | The list path never returns an empty list. It returns the sentinel alone exactly when every pod is running, and the entries of the non-running pods otherwise |
| Tools.PodStatusNamedPod | agent/tools.py:34-36 | With a pod name, the result is that one pod's entry, whatever its phase, `"Running"` included |
| Tools.CheckPodStatus | agent/tools.py:31-45 | The loop that appends entries computes exactly the tool's result, the error path included |
| Tools.NodeEntry | agent/tools.py:90 | The dict `{"node_name": name, "status": cond.status}` of one Ready condition; `ReadyOfShape` states where it appears |
| Tools.ReadyEntries | agent/tools.py:86-90 | One `{node_name, status}` entry per Ready condition, node by node; `ReadyOfShape` and `ReadyEntriesAppend` state its shape |
| Tools.NodeStatus | agent/tools.py:81-93 | What `get_node_status` returns or raises: the Ready entries, or the wrapped TypeError when a node's `status.conditions` is `None`. An empty condition list gives no entries and no error |
| Tools.ReadyOfAppend | agent/tools.py:88-90 | A node's entries for concatenated condition lists are those of each part, in order |
| Tools.ReadyEntriesAppend | agent/tools.py:86-90 | The entries for concatenated node lists are those of each part, in order: node by node |
| Tools.ReadyOfShape | agent/tools.py:86-90 | A node gives one entry per Ready condition, each naming the node with that condition's status. A node without a Ready condition gives none |
| Tools.GetNodeStatus | agent/tools.py:81-93 | The nested loops compute exactly the tool's result. A node whose conditions are `None` makes the tool raise with its prefix |
| Tools.EventEntry | agent/tools.py:67 | The dict `{"message", "type", "timestamp"}` of one event, each attribute copied, `None` becoming null |
| Tools.PodEvents | agent/tools.py:62-69 | The call succeeds exactly when the client call does. It returns one `{message, type, timestamp}` entry per event, and failures carry the tool's prefix |
| Tools.RestartPatch | agent/tools.py:119-129 | The nested patch body with the stamp as the restartedAt annotation; `RestartPatchSetsOnlyAnnotation` states what it sets |
| Tools.IsoFormat | agent/tools.py:124 | `datetime.isoformat()` of a naive datetime; `RestartStampShape` states its layout and that its fields read back |
| Tools.RestartStamp | agent/tools.py:124 | `utcnow().isoformat() + "Z"` for the given time |
| Tools.RestartDeployment | agent/tools.py:113-133 | What `restart_deployment` returns or raises; `RestartDeploymentOutcome` states its outcomes |
| Tools.ChainLeaf | agent/tools.py:119-129 | A chain of one-key objects holds one string, at exactly the end of its keys |
| Tools.RestartPatchSetsOnlyAnnotation | agent/tools.py:119-129 | The restart patch sets only `spec.template.metadata.annotations["kubectl.kubernetes.io/restartedAt"]`, to the stamp |
| Tools.Digits | agent/tools.py:124 | The padded rendering of a number has exactly the requested width and only decimal digits |
| Tools.DigitsRoundTrip | agent/tools.py:124 | Reading the padded digits back gives the number, when it fits the width |
| Tools.DatePartShape | agent/tools.py:124 | The date is `YYYY-MM-DD`, and its fields read back as the year, month and day |
| Tools.ClockPartShape | agent/tools.py:124 | The time of day is `HH:MM:SS`, and its fields read back as the hour, minute and second |
| Tools.FractionPartShape | agent/tools.py:124 | The fraction of `isoformat()`, present exactly when the microseconds are non-zero, is a `.` and six digits that read back as the microseconds |
| Tools.RestartStampShape | agent/tools.py:124 | The stamp is `YYYY-MM-DDTHH:MM:SS[.ffffff]Z`, of length 20 or 27 depending on the microseconds. It ends in `Z`, and its fields read back as the current UTC time, the six microsecond digits after the `.` included |
| Tools.RestartDeploymentOutcome | agent/tools.py:113-133 | A restart succeeds exactly when reading and patching the deployment both succeed, with the `Deployment <name> restarted` message. A failure carries the tool's prefix |
| Tools.ToolFailuresPrefixed | agent/tools.py:92-93 | Every failure of the pod-status and node-status tools is a re-raise that starts with that tool's prefix |
| Classifier.StatusText | agent/main.py:55 | `p.get("status", "")` as text, or the TypeError `indicator in v` raises when the value is not a string; `ProblematicPodsRaises` states its role |
| Classifier.Problematic | agent/main.py:54-55 | The `any(indicator in status ...)` test over the five indicators; `IndicatorAnywhere`, `IndicatorExamples` and `NoIndicatorIn` state it |
| Classifier.NotReadyNodes | agent/main.py:36 | The node filter `n.get("status") != "True"`; its properties are stated by the `NotReadyNodes` lemmas below |
| Classifier.NotReadyNodesMembers | agent/main.py:36 | The node filter keeps a finding exactly when it is in the input and its status is not the string `"True"` (a missing status included). It never grows the list |
| Classifier.NotReadyNodesAppend | agent/main.py:36 | The node filter keeps input order: it distributes over concatenation |
| Classifier.NotReadyNodesIdempotent | agent/main.py:36 | Filtering nodes twice gives the same list as filtering once |
| Classifier.NodeStatusExamples | agent/main.py:36 | `"False"`, `"Unknown"`, `""`, `None` and a missing status are anomalies; `"True"` is not |
| Classifier.ProblematicPods | agent/main.py:54-55 | The pod filter over `p.get("status", "")`, raising the TypeError of a non-string status; its properties are stated by the `ProblematicPods` lemmas below |
| Classifier.ProblematicPodsRaises | agent/main.py:55 | The pod filter succeeds exactly when every status is a string or missing. Otherwise it raises the TypeError of the first finding whose status is not a string |
| Classifier.ProblematicPodsMembers | agent/main.py:54-55 | The pod filter keeps a finding exactly when it is in the input and its status (default `""`) contains one of the five indicators |
| Classifier.ProblematicPodsAppend | agent/main.py:55 | The pod filter keeps input order: it distributes over concatenation |
| Classifier.ProblematicPodsIdempotent | agent/main.py:55 | Filtering pods twice gives the same list as filtering once |
| Classifier.SentinelNotProblematic | agent/tools.py:43 | The `All pods running` sentinel has no status, so the pod filter never reports it |
| Classifier.IndicatorAnywhere | agent/main.py:54-55 | A status with an indicator anywhere inside it is problematic |
| Classifier.IndicatorExamples | agent/main.py:54-55 | Each of the five indicators, on its own, is problematic |
| Classifier.CrashLoopBackOffIsProblem | agent/main.py:54-55 | The phase text `"CrashLoopBackOff"` is problematic |
| Classifier.NonIndicatorExamples | agent/main.py:54-55 | `"Running"`, `"Succeeded"` and `"pending"` (the check is case-sensitive) are not problematic |
| Classifier.NoIndicatorIn | agent/main.py:54-55 | A status without the capital initials of the indicators is never problematic |
| Monitor.Report | agent/main.py:39-46 | The diagnose-then-publish step shared by both checks (agent/main.py:58-66 for pods); `PodCheckReports` and `NodeCheckReports` state its outcomes |
| Monitor.NodeCheck | agent/main.py:32-46 | What `check_node_status` does up to the publish: quiet, the alert published, or the exception raised; `NodeCheckOutcome` and `NodeCheckReports` state each case |
| Monitor.PodCheck | agent/main.py:50-66 | What `check_pods_in_namespace` does up to the publish; `PodCheckOutcome` and `PodCheckReports` state each case |
| Monitor.Record | agent/main.py:46-48 | The state update after a publish: alert time, counter and queue; `RecordEffect` states it |
| Monitor.NodeStep | agent/main.py:32-48 | The state after `check_node_status`; `NodeStepEffect` states it |
| Monitor.PodStep | agent/main.py:50-68 | The state after `check_pods_in_namespace`, the status line written first; `PodStepEffect` states it |
| Monitor.FanOut | agent/main.py:91-92 | The state after every namespace check has run, in list order; `FanOutEffect` states it |
| Monitor.FirstError | agent/main.py:92-95 | The exception `gather` re-raises: the first in list order; `FirstErrorIsFirst` states it |
| Monitor.Iteration | agent/main.py:89-98 | One pass of the loop body and its sleep; `IterationAlertsQueued` and `IterationOutcome` state it |
| Monitor.Iterations | agent/main.py:88-98 | Consecutive passes, one per world; `RunAlertsQueued` and `RunPauses` state it |
| Monitor.StartupError | agent/main.py:75-83 | The first start-up call that raises; `StartupErrorOrder` states it |
| Monitor.Run | agent/main.py:73-103 | `monitor_loop`: start-up, then the passes, or the `"Error"` state; `RunFromInitial` states it |
| Monitor.RuntimeState.constructor | agent/main.py:19-24 | The state starts as `"Initializing"`, with no alert time, a zero counter and no error |
| Monitor.Alerter.constructor | agent/main.py:83 | The client is built for the configured host, port and queue, with nothing published |
| Monitor.Alerter.SendAlert | agent/main.py:46 | A publish either queues the alert or raises, with nothing queued |
| Monitor.CheckNodeStatus | agent/main.py:32-48 | The node check changes the state and the broker queue exactly as `NodeStep` says, and raises exactly what `NodeCheck` raises |
| Monitor.CheckPodsInNamespace | agent/main.py:50-71 | The namespace check changes the state and the broker queue exactly as `PodStep` says, and raises exactly what `PodCheck` raises |
| Monitor.RunIteration | agent/main.py:88-98 | One loop pass, with the namespace loop, leaves the state and sleep that `Iteration` gives |
| Monitor.MonitorLoop | agent/main.py:73-103 | For an alerter built from the configured host, port and queue, start-up followed by one pass per world leaves the state and the list of sleeps that `Run` gives |
| MonitorProperties.IssueEntriesMembers | agent/main.py:53-55 | The reported entries are exactly those of the pods whose phase is set and contains an indicator. The list is empty exactly when no pod has an issue, and never holds the sentinel |
| MonitorProperties.FiltersCompose | agent/main.py:53-55 | The tool's non-running filter followed by the indicator filter keeps exactly the pods with an issue, in order. A pod with an unset phase makes the second filter raise the `NoneType` TypeError |
| MonitorProperties.PodCheckOutcome | agent/main.py:50-68 | A failed listing raises with the tool's prefix, and an unset phase raises the TypeError. Otherwise the check is quiet exactly when no pod has an issue. An alert is a `PodIssue` for this namespace carrying exactly the pods with an issue, with the diagnosis obtained and publishing succeeded |
| MonitorProperties.PodCheckReports | agent/main.py:56-66 | A namespace with issues is reported for all inputs: a failing diagnosis raises its error; otherwise the alert for exactly the pods with an issue is built, and it ends `Alerted` when the broker accepts it and raises the broker's error when not |
| MonitorProperties.NodeCheckOutcome | agent/main.py:32-48 | A failed read raises with the tool's prefix. Otherwise the check is quiet exactly when every entry is `"True"`. An alert is a `NotReadyNode` with no namespace carrying exactly the not-ready entries |
| MonitorProperties.NodeCheckReports | agent/main.py:37-46 | Not-ready entries are reported for all inputs: a failing diagnosis raises its error; otherwise the `NotReadyNode` alert for exactly those entries is built, and it ends `Alerted` when the broker accepts it and raises the broker's error when not |
| MonitorProperties.RecordEffect | agent/main.py:46-48 | A published alert is queued, adds exactly one to the counter and stamps the alert time. Quiet and raising checks change nothing. An unfolding step that `FanOutEffect`, `IterationAlertsQueued` and `RunAlertsQueued` build on |
| MonitorProperties.NodeStepEffect | agent/main.py:37-48 | The node check leaves the state unchanged unless it published, in which case it counts, stamps and queues that one alert. An unfolding step that `FanOutEffect`, `IterationAlertsQueued` and `RunAlertsQueued` build on |
| MonitorProperties.PodStepEffect | agent/main.py:51-68 | A namespace check always writes `Checking namespace: <ns>`. Only a published alert touches the counter, the alert time and the queue. An unfolding step that `FanOutEffect`, `IterationAlertsQueued` and `RunAlertsQueued` build on |
| MonitorProperties.PodAlertsMembers | agent/main.py:91-92 | An alert is published in the fan-out exactly when some namespace's check publishes it. Each such alert is a `PodIssue` for one of the namespaces, and there are none exactly when no namespace alerts |
| MonitorProperties.FanOutEffect | agent/main.py:91-92 | The fan-out queues every namespace's alert in namespace order and raises the counter by their number. It leaves the status naming the last namespace and `last_error` untouched |
| MonitorProperties.FirstErrorIsFirst | agent/main.py:92-97 | The fan-out raises exactly when some namespace raises. What it raises is that of a namespace before which none raised |
| MonitorProperties.IterationAlertsQueued | agent/main.py:90-92 | An iteration appends its alerts, the node alert first, raises the counter by their number, and stamps the alert time when there are any |
| MonitorProperties.IterationOutcome | agent/main.py:89-98 | A successful iteration sets `"Monitoring"`, keeps `last_error` and sleeps the polling interval. A failing one records the exception, leaves the status as last written and sleeps 10 |
| MonitorProperties.FaultIsolation | agent/main.py:91-97 | Once the node check has not raised, every namespace's alert is published whatever the other namespaces raise, and `last_error` is the first namespace failure |
| MonitorProperties.AlertOrder | agent/main.py:90-92 | Within an iteration the node alert comes first, and every later alert is a pod alert |
| MonitorProperties.RunAlertsQueued | agent/main.py:88-98 | Over any number of iterations all alerts are queued in order, and the counter grows by exactly the number published, so it never decreases |
| MonitorProperties.RunPauses | agent/main.py:88-98 | Each iteration sleeps once: the polling interval when it succeeded, 10 when it raised. After a successful last iteration the status is `"Monitoring"` |
| MonitorProperties.CounterCountsIterations | agent/main.py:88-98 | After N iterations that each publish exactly one alert, the counter has risen by exactly N |
| MonitorProperties.RunFromInitial | agent/main.py:73-103 | From the initial state, a start-up failure gives `"Error"` with its message, no sleeps and no alerts. Otherwise there is one sleep per iteration, and the counter always equals the number of alerts the broker accepted |
| MonitorProperties.StartupErrorOrder | agent/main.py:75-83 | Start-up succeeds exactly when all three start-up calls succeed, and the first failure is the one returned: the kube-config failure, else the agent's, else the broker's. A kube-config failure carries its prefix |
| MonitorScenarios.CrashLoopingPod | agent/main.py:50-68 | One pod in `default` whose phase text is the indicator `"CrashLoopBackOff"` gives one `PodIssue` alert for `default` carrying just that pod. The counter rises by one and the iteration ends normally |
| MonitorScenarios.QuietIteration | agent/main.py:88-94 | An iteration where nothing is reported and nothing raises changes only the status, to `"Monitoring"`, and sleeps the interval |
| MonitorScenarios.HealthyNamespace | agent/main.py:53-56 | All pods running: no alert, counter and alert time unchanged |
| MonitorScenarios.UnknownNode | agent/main.py:32-48 | A node whose Ready condition is `"Unknown"` is reported in a `NotReadyNode` alert that precedes every namespace alert of the iteration |
| MonitorScenarios.FailingNamespaceBesideHealthy | agent/main.py:91-98 | With `staging` failing before `default`, the alert for `default` is still published. `last_error` is the staging failure and the short sleep follows |
| MonitorScenarios.RecoveryKeepsLastError | agent/main.py:88-98 | After that failure, a quiet iteration ends normally while `last_error` still holds the old failure |
| MonitorScenarios.PublishFails | agent/main.py:66-98 | A refused publish becomes `last_error`. Nothing is queued, the counter and alert time are unchanged, and the loop sleeps 10 instead of stopping |

## Left out

- agent/alerter.py, agent/agent.py, agent/rag_setup.py and agent/api.py are not part of this model. They are
  broker, language-model, document-retrieval and web-server glue. The publish and the diagnosis are abstract
  inputs of each iteration that return a value or raise.
- The diagnosis prompt text: the model passes what is to be diagnosed (a `DiagnosisRequest`) rather than its
  f-string rendering with Python's dict repr.
- Concurrency: the API server thread, uvicorn, `asyncio.run` and the scheduling inside `gather` and `sleep`. The
  namespace checks are sequential, in list order, which is how the single-threaded event loop runs them. The
  sleep is only the number of seconds chosen.
- The endless `while True` loop: a run is modelled as its first `|worlds|` iterations.
- `time.time()` and `datetime.utcnow()`: floats and clock reads are inputs. Each iteration has one integer clock
  value, used both for an alert's `timestamp` and for `last_alert_time`. In the source these are two separate
  reads a moment apart.
- `int()` of the integer variables is an abstract `parseInt`, in both outcomes: it supplies the parsed value
  on success, and its refusal becomes an error naming the variable. Python's integer syntax is not modelled.
- `json.loads` of AUTO_FIX_RULES: the raw text is kept. A malformed AUTO_FIX_RULES makes `Config()` raise
  (agent/config.py:18, after POLLING_INTERVAL_SECONDS and before API_PORT), while `Load` never fails on it.
- `lower()` lowers ASCII letters only; Python also lowers other Unicode letters.
- Logging, `main()`, the `KeyboardInterrupt` path, and the auto-fix branch of `check_pods_in_namespace`, which
  only logs (agent/main.py:69-71).
- `get_resource_usage` is a stub that returns a constant message.
- `get_pod_logs`, `describe_pod` and `check_deployment_status` each return a conversion of one client call's
  result: the log text, `pod.to_dict()` and `deployment.status.to_dict()` (agent/tools.py:57, 76, 109). Each
  re-raises a failure with its own prefix, as the modelled tools do. The monitor does not use them.
- The LangChain tool wrapper `agent.tools[...].run`: it is treated as a direct call of the tool function. The
  source looks tools up by name (agent/main.py:34, 53) in what agent/agent.py builds as a list of tools; if
  that attribute is a list at run time, the lookup would raise on every iteration. Which holds depends on the
  LangChain version and is not part of this model.
- Kubernetes objects keep only the fields the tools read. A pod or node whose whole `status` is `None` (an
  AttributeError in the source) is not represented. A node whose `conditions` is `None` is represented, and
  makes `get_node_status` raise.
- The `World` of an iteration answers every call in it, so repeated entries in MONITORED_NAMESPACES get
  the same listing, diagnosis and publish outcome. In the source these are separate calls that may differ.
- Exceptions raised by the diagnosis, the publish or the start-up calls are represented by their `str(e)`
  message only.
- Tools.PodEvents: states the number of entries and their keys. It does not spell out each entry's values,
  which are the event's fields copied unchanged.
- Tools.RestartDeployment: requires a valid date and time, which every value `utcnow()` returns is.
