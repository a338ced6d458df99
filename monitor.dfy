/**
 * The monitor loop (agent/main.py): the shared runtime state, the node check, the
 * per-namespace pod check, one poll iteration with its exception path, and start-up.
 *
 * The cluster, the language-model diagnosis and the broker are inputs (a `World`) that
 * either answer or raise. Each check's outcome depends only on the world, never on the
 * state; the state only records it. The classes hold what the source mutates; every
 * method is tied to a function of the old state, about which the lemmas below speak.
 */
module Monitor {
  import opened Wrappers
  import opened Tools
  import opened Classifier
  import opened Sequences
  import AgentConfig

  datatype AnomalyType = NotReadyNode | PodIssue

  /** The alert dict passed to `send_alert`; `namespace` is `None` when the dict has no "namespace" key. */
  datatype Alert = Alert(anomalyType: AnomalyType, anomaly: seq<Finding>, diagnosis: string, namespace: Option<string>, timestamp: int)

  /** What the agent is asked to diagnose; the prompt text is a rendering of it. */
  datatype DiagnosisRequest = NodesNotReady(nodes: seq<Finding>) | PodIssues(namespace: string, pods: seq<Finding>)

  /** What one poll iteration sees of the outside: the cluster, `agent.run`, `alerter.send_alert`
      (`Some(m)` when publishing raises) and the clock. */
  datatype World = World(
    cluster: Cluster,
    diagnose: DiagnosisRequest -> Result<string, string>,
    publish: Alert -> Option<string>,
    clock: int)

  /** How one check ends: nothing to report, an alert the broker accepted, or an exception. */
  datatype CheckResult = Quiet | Alerted(alert: Alert) | Raised(message: string)

  function ErrorOf(r: CheckResult): Option<string> {
    if r.Raised? then Some(r.message) else None
  }

  /** Diagnose and publish an alert for a non-empty list of anomalies. */
  function Report(w: World, request: DiagnosisRequest, kind: AnomalyType, anomaly: seq<Finding>, namespace: Option<string>): CheckResult {
    match w.diagnose(request)
    case Failure(e) => Raised(e)
    case Success(diagnosis) =>
      var alert := Alert(kind, anomaly, diagnosis, namespace, w.clock);
      match w.publish(alert)
      case Some(e) => Raised(e)
      case None => Alerted(alert)
  }

  /** `check_node_status`: read the nodes, keep the not-ready ones, and report them if there are any. */
  function NodeCheck(w: World): CheckResult {
    match NodeStatus(w.cluster)
    case Failure(e) => Raised(e)
    case Success(nodes) =>
      var notReady := NotReadyNodes(nodes);
      if notReady == [] then Quiet
      else Report(w, NodesNotReady(notReady), NotReadyNode, notReady, None)
  }

  /** `check_pods_in_namespace`: read the pods, keep the problematic ones, and report them if there are any. */
  function PodCheck(w: World, namespace: string): CheckResult {
    match PodStatus(w.cluster, namespace, None)
    case Failure(e) => Raised(e)
    case Success(pods) =>
      match ProblematicPods(pods)
      case Failure(e) => Raised(e)
      case Success(problems) =>
        if problems == [] then Quiet
        else Report(w, PodIssues(namespace, problems), PodIssue, problems, Some(namespace))
  }

  /** The shared `state` dict together with the alerts the broker has accepted. */
  datatype Snapshot = Snapshot(
    status: string,
    lastAlertTime: Option<int>,
    anomaliesDetected: int,
    lastError: Option<string>,
    sent: seq<Alert>)

  const Initial := Snapshot("Initializing", None, 0, None, [])

  /** The state updates after a published alert: the time is recorded and the counter goes up by one. */
  function Record(s: Snapshot, clock: int, r: CheckResult): Snapshot {
    if r.Alerted? then
      s.(lastAlertTime := Some(clock), anomaliesDetected := s.anomaliesDetected + 1, sent := s.sent + [r.alert])
    else s
  }

  function NodeStep(s: Snapshot, w: World): Snapshot {
    Record(s, w.clock, NodeCheck(w))
  }

  function CheckingStatus(namespace: string): string {
    "Checking namespace: " + namespace
  }

  /** The status is written before the pods are read, so it is set whatever the check finds. */
  function PodStep(s: Snapshot, w: World, namespace: string): Snapshot {
    Record(s.(status := CheckingStatus(namespace)), w.clock, PodCheck(w, namespace))
  }

  /** The namespace checks of one iteration. `asyncio.gather` wraps every coroutine in a task before any
      of them runs, none of them suspends, and a failing task does not cancel the others: so all of them
      run, in list order, whatever an earlier one raised. */
  function FanOut(s: Snapshot, w: World, namespaces: seq<string>): Snapshot
    decreases |namespaces|
  {
    if namespaces == [] then s else FanOut(PodStep(s, w, namespaces[0]), w, namespaces[1..])
  }

  /** The exception `gather` re-raises: that of the first failing namespace in list order. */
  function FirstError(w: World, namespaces: seq<string>): Option<string> {
    if namespaces == [] then None
    else if PodCheck(w, namespaces[0]).Raised? then ErrorOf(PodCheck(w, namespaces[0]))
    else FirstError(w, namespaces[1..])
  }

  const ErrorBackoff := 10

  /** One pass of the `while True` body: the node check, then the namespace checks, then the status
      reset; an exception skips what follows it, records `str(e)` and picks the short sleep.
      The second component is the number of seconds slept. */
  function Iteration(s: Snapshot, w: World, namespaces: seq<string>, interval: int): (Snapshot, int) {
    var nodeError := ErrorOf(NodeCheck(w));
    var s1 := NodeStep(s, w);
    if nodeError.Some? then (s1.(lastError := nodeError), ErrorBackoff)
    else
      var s2 := FanOut(s1, w, namespaces);
      var podError := FirstError(w, namespaces);
      if podError.Some? then (s2.(lastError := podError), ErrorBackoff)
      else (s2.(status := "Monitoring"), interval)
  }

  /** Successive iterations, one per world, and the sleeps they choose. */
  function Iterations(s: Snapshot, worlds: seq<World>, namespaces: seq<string>, interval: int): (Snapshot, seq<int>)
    decreases |worlds|
  {
    if worlds == [] then (s, [])
    else
      var (s1, pause) := Iteration(s, worlds[0], namespaces, interval);
      var (s2, pauses) := Iterations(s1, worlds[1..], namespaces, interval);
      (s2, [pause] + pauses)
  }

  /** The start-up calls of `monitor_loop`: the kube-config loaders, `create_agent` and the broker connection. */
  datatype Startup = Startup(
    loadKubeFile: string -> Option<string>,
    loadInCluster: Option<string>,
    createAgent: Option<string>,
    connectBroker: Option<string>)

  /** The message of the first start-up call that raises, if any. */
  function StartupError(cfg: AgentConfig.Config, su: Startup): Option<string> {
    var kube := LoadKubeConfig(cfg.kubeconfig, su.loadKubeFile, su.loadInCluster);
    if kube.Some? then kube
    else if su.createAgent.Some? then su.createAgent
    else su.connectBroker
  }

  /** `monitor_loop`, over the first `|worlds|` iterations of its endless loop. */
  function Run(s: Snapshot, cfg: AgentConfig.Config, su: Startup, worlds: seq<World>): (Snapshot, seq<int>) {
    match StartupError(cfg, su)
    case Some(e) => (s.(status := "Error", lastError := Some(e)), [])
    case None => Iterations(s.(status := "Monitoring"), worlds, cfg.monitoredNamespaces, cfg.pollingInterval)
  }

  // ---------------------------------------------------------------------------------------
  // The mutable objects

  /** The module-level `state` dict. */
  class RuntimeState {
    var status: string
    var lastAlertTime: Option<int>
    var anomaliesDetected: int
    var lastError: Option<string>

    constructor ()
      ensures status == "Initializing" && lastAlertTime == None && anomaliesDetected == 0 && lastError == None
    {
      status := "Initializing";
      lastAlertTime := None;
      anomaliesDetected := 0;
      lastError := None;
    }
  }

  /** The broker client; `sent` is what the broker has accepted on the alert queue. */
  class Alerter {
    const host: string
    const port: int
    const queue: string
    var sent: seq<Alert>

    constructor (host: string, port: int, queue: string)
      ensures this.host == host && this.port == port && this.queue == queue && sent == []
    {
      this.host := host;
      this.port := port;
      this.queue := queue;
      sent := [];
    }

    /** `send_alert`: the broker either accepts the message or the publish raises with `fault`. */
    method SendAlert(alert: Alert, fault: Option<string>) returns (raised: Option<string>)
      modifies this
      ensures raised == fault
      ensures sent == if fault.None? then old(sent) + [alert] else old(sent)
    {
      raised := fault;
      if fault.None? {
        sent := sent + [alert];
      }
    }
  }

  function Observe(st: RuntimeState, al: Alerter): Snapshot
    reads st, al
  {
    Snapshot(st.status, st.lastAlertTime, st.anomaliesDetected, st.lastError, al.sent)
  }

  /** `check_node_status`; the exception it raises, if any, is returned. */
  method CheckNodeStatus(st: RuntimeState, al: Alerter, w: World) returns (raised: Option<string>)
    modifies st, al
    ensures Observe(st, al) == NodeStep(old(Observe(st, al)), w)
    ensures raised == ErrorOf(NodeCheck(w))
  {
    var nodes := GetNodeStatus(w.cluster);
    if nodes.Failure? {
      return Some(nodes.error);
    }
    var notReady := NotReadyNodes(nodes.value);
    if notReady == [] {
      return None;
    }
    var diagnosis := w.diagnose(NodesNotReady(notReady));
    if diagnosis.Failure? {
      return Some(diagnosis.error);
    }
    var alert := Alert(NotReadyNode, notReady, diagnosis.value, None, w.clock);
    raised := al.SendAlert(alert, w.publish(alert));
    if raised.Some? {
      return;
    }
    st.lastAlertTime := Some(w.clock);
    st.anomaliesDetected := st.anomaliesDetected + 1;
  }

  /** `check_pods_in_namespace`; the exception it raises, if any, is returned. */
  method CheckPodsInNamespace(st: RuntimeState, al: Alerter, w: World, namespace: string) returns (raised: Option<string>)
    modifies st, al
    ensures Observe(st, al) == PodStep(old(Observe(st, al)), w, namespace)
    ensures raised == ErrorOf(PodCheck(w, namespace))
  {
    st.status := CheckingStatus(namespace);
    var pods := CheckPodStatus(w.cluster, namespace, None);
    if pods.Failure? {
      return Some(pods.error);
    }
    var problems := ProblematicPods(pods.value);
    if problems.Failure? {
      return Some(problems.error);
    }
    if problems.value == [] {
      return None;
    }
    var diagnosis := w.diagnose(PodIssues(namespace, problems.value));
    if diagnosis.Failure? {
      return Some(diagnosis.error);
    }
    var alert := Alert(PodIssue, problems.value, diagnosis.value, Some(namespace), w.clock);
    raised := al.SendAlert(alert, w.publish(alert));
    if raised.Some? {
      return;
    }
    st.lastAlertTime := Some(w.clock);
    st.anomaliesDetected := st.anomaliesDetected + 1;
  }

  /** One pass of the loop body; returns the seconds it sleeps. */
  method RunIteration(st: RuntimeState, al: Alerter, w: World, namespaces: seq<string>, interval: int) returns (pause: int)
    modifies st, al
    ensures (Observe(st, al), pause) == Iteration(old(Observe(st, al)), w, namespaces, interval)
  {
    var nodeError := CheckNodeStatus(st, al, w);
    if nodeError.Some? {
      st.lastError := nodeError;
      return ErrorBackoff;
    }
    ghost var afterNodes := Observe(st, al);
    var first: Option<string> := None;
    var i := 0;
    assert namespaces[0..] == namespaces;
    while i < |namespaces|
      invariant 0 <= i <= |namespaces|
      invariant FanOut(afterNodes, w, namespaces) == FanOut(Observe(st, al), w, namespaces[i..])
      invariant FirstError(w, namespaces) == (if first.Some? then first else FirstError(w, namespaces[i..]))
    {
      assert namespaces[i..][0] == namespaces[i] && namespaces[i..][1..] == namespaces[i + 1..];
      var raised := CheckPodsInNamespace(st, al, w, namespaces[i]);
      if first.None? {
        first := raised;
      }
      i := i + 1;
    }
    if first.Some? {
      st.lastError := first;
      pause := ErrorBackoff;
    } else {
      st.status := "Monitoring";
      pause := interval;
    }
  }

  /** `Iterations` from position `i` is the pass over `worlds[i]` followed by the rest from `i + 1`. */
  lemma IterationsUnfold(s: Snapshot, worlds: seq<World>, i: nat, namespaces: seq<string>, interval: int)
    requires i < |worlds|
    ensures var (s1, pause) := Iteration(s, worlds[i], namespaces, interval);
            var rest := Iterations(s1, worlds[i + 1..], namespaces, interval);
            Iterations(s, worlds[i..], namespaces, interval) == (rest.0, [pause] + rest.1)
  {
    assert worlds[i..][0] == worlds[i] && worlds[i..][1..] == worlds[i + 1..];
  }

  /** `monitor_loop`: start-up, then one iteration per world; returns the sleeps chosen. */
  method MonitorLoop(st: RuntimeState, al: Alerter, cfg: AgentConfig.Config, su: Startup, worlds: seq<World>) returns (pauses: seq<int>)
    requires al.host == cfg.rabbitmqHost && al.port == cfg.rabbitmqPort && al.queue == cfg.rabbitmqQueue
    modifies st, al
    ensures (Observe(st, al), pauses) == Run(old(Observe(st, al)), cfg, su, worlds)
  {
    var failure := StartupError(cfg, su);
    if failure.Some? {
      st.status := "Error";
      st.lastError := failure;
      return [];
    }
    st.status := "Monitoring";
    ghost var here := Observe(st, al);
    ghost var goal := Iterations(here, worlds, cfg.monitoredNamespaces, cfg.pollingInterval);
    pauses := [];
    var i := 0;
    assert worlds[0..] == worlds;
    assert pauses + goal.1 == goal.1;
    while i < |worlds|
      invariant 0 <= i <= |worlds|
      invariant here == Observe(st, al)
      invariant goal.0 == Iterations(here, worlds[i..], cfg.monitoredNamespaces, cfg.pollingInterval).0
      invariant goal.1 == pauses + Iterations(here, worlds[i..], cfg.monitoredNamespaces, cfg.pollingInterval).1
    {
      IterationsUnfold(here, worlds, i, cfg.monitoredNamespaces, cfg.pollingInterval);
      var pause := RunIteration(st, al, worlds[i], cfg.monitoredNamespaces, cfg.pollingInterval);
      here := Observe(st, al);
      ghost var rest := Iterations(here, worlds[i + 1..], cfg.monitoredNamespaces, cfg.pollingInterval).1;
      AppendAssoc(pauses, [pause], rest);
      pauses := pauses + [pause];
      i := i + 1;
    }
    assert worlds[i..] == [];
    assert pauses + [] == pauses;
  }
}
