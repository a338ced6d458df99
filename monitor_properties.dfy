/**
 * What the monitor loop promises: which pods and nodes end up in an alert, how the counters
 * account for published alerts, that one namespace's failure does not stop the others, the
 * order of alerts within an iteration, the sleep chosen, and the worked scenarios.
 */
module MonitorProperties {
  import opened Wrappers
  import opened Strings
  import opened Tools
  import opened Classifier
  import opened Monitor
  import opened Sequences

  // ---------------------------------------------------------------------------------------
  // Reference definitions

  /** A pod the monitor reports: its phase is set and contains one of the indicators. */
  predicate HasIssue(p: Pod) {
    p.phase.Some? && Problematic(p.phase.value)
  }

  predicate PhasesSet(pods: seq<Pod>) {
    forall k :: 0 <= k < |pods| ==> pods[k].phase.Some?
  }

  /** The entries of the pods with an issue, in pod order. */
  function IssueEntries(pods: seq<Pod>): seq<Finding> {
    if pods == [] then [] else (if HasIssue(pods[0]) then [PodEntry(pods[0])] else []) + IssueEntries(pods[1..])
  }

  function AlertsOf(r: CheckResult): seq<Alert> {
    if r.Alerted? then [r.alert] else []
  }

  /** The alerts the namespace checks publish, in namespace order. */
  function PodAlerts(w: World, namespaces: seq<string>): seq<Alert> {
    if namespaces == [] then [] else AlertsOf(PodCheck(w, namespaces[0])) + PodAlerts(w, namespaces[1..])
  }

  /** The exception that reaches the iteration's `except`: the node check's, else the first namespace's. */
  function IterationError(w: World, namespaces: seq<string>): Option<string> {
    if NodeCheck(w).Raised? then ErrorOf(NodeCheck(w)) else FirstError(w, namespaces)
  }

  /** The alerts one iteration publishes: the node alert, then (unless the node check raised) the pod alerts. */
  function IterationAlerts(w: World, namespaces: seq<string>): seq<Alert> {
    AlertsOf(NodeCheck(w)) + (if NodeCheck(w).Raised? then [] else PodAlerts(w, namespaces))
  }

  function RunAlerts(worlds: seq<World>, namespaces: seq<string>): seq<Alert> {
    if worlds == [] then [] else IterationAlerts(worlds[0], namespaces) + RunAlerts(worlds[1..], namespaces)
  }

  // ---------------------------------------------------------------------------------------
  // The pod path

  lemma {:induction false} IssueEntriesMembers(pods: seq<Pod>)
    ensures |IssueEntries(pods)| <= |pods|
    ensures forall f :: f in IssueEntries(pods) <==> exists k :: 0 <= k < |pods| && HasIssue(pods[k]) && f == PodEntry(pods[k])
    ensures AllPodsRunning !in IssueEntries(pods)
    ensures IssueEntries(pods) == [] <==> forall k :: 0 <= k < |pods| ==> !HasIssue(pods[k])
  {
    if pods != [] {
      IssueEntriesMembers(pods[1..]);
      forall f ensures f in IssueEntries(pods) <==> exists k :: 0 <= k < |pods| && HasIssue(pods[k]) && f == PodEntry(pods[k]) {
        if f in IssueEntries(pods[1..]) {
          var k :| 0 <= k < |pods[1..]| && HasIssue(pods[1..][k]) && f == PodEntry(pods[1..][k]);
          assert pods[k + 1] == pods[1..][k];
        }
        if exists k :: 0 <= k < |pods| && HasIssue(pods[k]) && f == PodEntry(pods[k]) {
          var k :| 0 <= k < |pods| && HasIssue(pods[k]) && f == PodEntry(pods[k]);
          if k > 0 {
            assert pods[1..][k - 1] == pods[k];
          }
        }
      }
      assert "pod_name" in PodEntry(pods[0]);
    }
  }

  /** The two filters in sequence (not "Running", then an indicator in the phase) keep exactly the pods
      with an issue, since "Running" has none; a pod whose phase is unset makes the second filter raise. */
  lemma {:induction false} FiltersCompose(pods: seq<Pod>)
    ensures PhasesSet(pods) ==> ProblematicPods(NotRunning(pods)) == Success(IssueEntries(pods))
    ensures !PhasesSet(pods) ==> ProblematicPods(NotRunning(pods)) == Failure(NotIterable(Null))
  {
    if pods != [] {
      var p := pods[0];
      FiltersCompose(pods[1..]);
      NonIndicatorExamples();
      if !PhasesSet(pods) && PhasesSet(pods[1..]) {
        forall k | 1 <= k < |pods| ensures pods[k].phase.Some? {
          assert pods[1..][k - 1] == pods[k];
        }
        assert p.phase.None?;
      }
      if PhasesSet(pods) {
        forall k | 0 <= k < |pods[1..]| ensures pods[1..][k].phase.Some? {
          assert pods[1..][k] == pods[k + 1];
        }
      }
      if IsRunning(p) {
        assert !HasIssue(p);
        assert IssueEntries(pods) == IssueEntries(pods[1..]);
        assert NotRunning(pods) == NotRunning(pods[1..]);
      } else {
        var e := PodEntry(p);
        var t := NotRunning(pods[1..]);
        assert NotRunning(pods) == [e] + t;
        assert ([e] + t)[0] == e && ([e] + t)[1..] == t;
      }
    }
  }

  /** `check_pods_in_namespace` end to end: a failing API call or an unset phase raises; otherwise the
      check stays quiet exactly when no pod has an issue, and an alert carries exactly the pods with
      an issue, in order, for this namespace, never the "All pods running" sentinel. */
  lemma PodCheckOutcome(w: World, namespace: string)
    ensures w.cluster.listPods(namespace).Failure? ==>
      PodCheck(w, namespace) == Raised(PodStatusError + w.cluster.listPods(namespace).error)
    ensures w.cluster.listPods(namespace).Success? && !PhasesSet(w.cluster.listPods(namespace).value) ==>
      PodCheck(w, namespace) == Raised(NotIterable(Null))
    ensures w.cluster.listPods(namespace).Success? && PhasesSet(w.cluster.listPods(namespace).value) ==>
      (PodCheck(w, namespace) == Quiet <==> IssueEntries(w.cluster.listPods(namespace).value) == [])
    ensures PodCheck(w, namespace).Alerted? ==>
      var a := PodCheck(w, namespace).alert;
      && w.cluster.listPods(namespace).Success?
      && a.anomaly == IssueEntries(w.cluster.listPods(namespace).value) && a.anomaly != []
      && AllPodsRunning !in a.anomaly
      && a.anomalyType == PodIssue && a.namespace == Some(namespace) && a.timestamp == w.clock
      && w.diagnose(PodIssues(namespace, a.anomaly)) == Success(a.diagnosis)
      && w.publish(a) == None
  {
    var listed := w.cluster.listPods(namespace);
    if listed.Success? {
      var pods := listed.value;
      FiltersCompose(pods);
      IssueEntriesMembers(pods);
      PodStatusListPath(w.cluster, namespace, None);
      if NotRunning(pods) == [] {
        assert PhasesSet(pods) by {
          forall k | 0 <= k < |pods| ensures pods[k].phase.Some? {
            assert IsRunning(pods[k]);
          }
        }
        SentinelNotProblematic();
        assert ProblematicPods(NotRunning(pods)) == Success([]);
      }
    }
  }

  /** A namespace with issues is reported: a failing diagnosis raises its error; otherwise the alert
      for exactly those pods is published, and a refused publish raises the broker's error. */
  lemma PodCheckReports(w: World, namespace: string)
    requires w.cluster.listPods(namespace).Success? && PhasesSet(w.cluster.listPods(namespace).value)
    requires IssueEntries(w.cluster.listPods(namespace).value) != []
    ensures var issues := IssueEntries(w.cluster.listPods(namespace).value);
      var d := w.diagnose(PodIssues(namespace, issues));
      && (d.Failure? ==> PodCheck(w, namespace) == Raised(d.error))
      && (d.Success? ==>
            var a := Alert(PodIssue, issues, d.value, Some(namespace), w.clock);
            && (w.publish(a).None? ==> PodCheck(w, namespace) == Alerted(a))
            && (w.publish(a).Some? ==> PodCheck(w, namespace) == Raised(w.publish(a).value)))
  {
    var pods := w.cluster.listPods(namespace).value;
    FiltersCompose(pods);
    IssueEntriesMembers(pods);
    PodStatusListPath(w.cluster, namespace, None);
    assert IssueEntries(pods)[0] in IssueEntries(pods);
  }

  // ---------------------------------------------------------------------------------------
  // The node path

  /** `check_node_status` end to end: a failing read raises with the tool's prefix; otherwise the check
      stays quiet exactly when every entry says "True", and an alert carries exactly the other entries. */
  lemma NodeCheckOutcome(w: World)
    ensures NodeStatus(w.cluster).Failure? ==>
      NodeCheck(w) == Raised(NodeStatus(w.cluster).error) && StartsWith(NodeStatus(w.cluster).error, NodeStatusError)
    ensures NodeStatus(w.cluster).Success? ==>
      (NodeCheck(w) == Quiet <==> forall f :: f in NodeStatus(w.cluster).value ==> !NotReady(f))
    ensures NodeCheck(w).Alerted? ==>
      var a := NodeCheck(w).alert;
      && NodeStatus(w.cluster).Success?
      && a.anomaly == NotReadyNodes(NodeStatus(w.cluster).value) && a.anomaly != []
      && (forall f :: f in a.anomaly <==> f in NodeStatus(w.cluster).value && NotReady(f))
      && a.anomalyType == NotReadyNode && a.namespace == None && a.timestamp == w.clock
      && w.diagnose(NodesNotReady(a.anomaly)) == Success(a.diagnosis)
      && w.publish(a) == None
  {
    ToolFailuresPrefixed(w.cluster, "", None);
    if NodeStatus(w.cluster).Success? {
      var fs := NodeStatus(w.cluster).value;
      NotReadyNodesMembers(fs);
      if NotReadyNodes(fs) != [] {
        assert NotReadyNodes(fs)[0] in NotReadyNodes(fs);
      }
    }
  }

  /** Not-ready nodes are reported: a failing diagnosis raises its error; otherwise the alert for
      exactly those entries is published, and a refused publish raises the broker's error. */
  lemma NodeCheckReports(w: World)
    requires NodeStatus(w.cluster).Success? && NotReadyNodes(NodeStatus(w.cluster).value) != []
    ensures var notReady := NotReadyNodes(NodeStatus(w.cluster).value);
      var d := w.diagnose(NodesNotReady(notReady));
      && (d.Failure? ==> NodeCheck(w) == Raised(d.error))
      && (d.Success? ==>
            var a := Alert(NotReadyNode, notReady, d.value, None, w.clock);
            && (w.publish(a).None? ==> NodeCheck(w) == Alerted(a))
            && (w.publish(a).Some? ==> NodeCheck(w) == Raised(w.publish(a).value)))
  {
  }

  // ---------------------------------------------------------------------------------------
  // State accounting

  /** A published alert stamps the time, adds one to the counter and is queued; any other outcome
      leaves the state as it was. */
  lemma RecordEffect(s: Snapshot, clock: int, r: CheckResult)
    ensures var t := Record(s, clock, r);
      && t.sent == s.sent + AlertsOf(r)
      && t.anomaliesDetected == s.anomaliesDetected + |AlertsOf(r)|
      && t.lastAlertTime == (if r.Alerted? then Some(clock) else s.lastAlertTime)
      && t.status == s.status && t.lastError == s.lastError
  {
  }

  /** The node check leaves the state alone unless it published an alert, which it then counts and stamps. */
  lemma NodeStepEffect(s: Snapshot, w: World)
    ensures NodeCheck(w).Alerted? ==>
      NodeStep(s, w) == s.(lastAlertTime := Some(w.clock), anomaliesDetected := s.anomaliesDetected + 1,
                           sent := s.sent + [NodeCheck(w).alert])
    ensures !NodeCheck(w).Alerted? ==> NodeStep(s, w) == s
  {
  }

  /** A namespace check writes its status whatever it finds; only a published alert touches the
      counter, the alert time and the queue. */
  lemma PodStepEffect(s: Snapshot, w: World, namespace: string)
    ensures var t := PodStep(s, w, namespace);
      && t.status == CheckingStatus(namespace) && t.lastError == s.lastError
      && (PodCheck(w, namespace).Alerted? ==>
            t.anomaliesDetected == s.anomaliesDetected + 1 && t.lastAlertTime == Some(w.clock)
            && t.sent == s.sent + [PodCheck(w, namespace).alert])
      && (!PodCheck(w, namespace).Alerted? ==>
            t.anomaliesDetected == s.anomaliesDetected && t.lastAlertTime == s.lastAlertTime && t.sent == s.sent)
  {
  }

  lemma {:induction false} PodAlertsMembers(w: World, namespaces: seq<string>)
    ensures forall a :: a in PodAlerts(w, namespaces) <==> exists k :: 0 <= k < |namespaces| && PodCheck(w, namespaces[k]) == Alerted(a)
    ensures forall a :: a in PodAlerts(w, namespaces) ==> a.anomalyType == PodIssue && a.namespace.Some? && a.namespace.value in namespaces
    ensures PodAlerts(w, namespaces) == [] <==> forall k :: 0 <= k < |namespaces| ==> !PodCheck(w, namespaces[k]).Alerted?
  {
    if namespaces != [] {
      var ns := namespaces[0];
      PodAlertsMembers(w, namespaces[1..]);
      PodCheckOutcome(w, ns);
      forall a ensures a in PodAlerts(w, namespaces) <==> exists k :: 0 <= k < |namespaces| && PodCheck(w, namespaces[k]) == Alerted(a) {
        if a in PodAlerts(w, namespaces[1..]) {
          var k :| 0 <= k < |namespaces[1..]| && PodCheck(w, namespaces[1..][k]) == Alerted(a);
          assert namespaces[k + 1] == namespaces[1..][k];
        }
        if exists k :: 0 <= k < |namespaces| && PodCheck(w, namespaces[k]) == Alerted(a) {
          var k :| 0 <= k < |namespaces| && PodCheck(w, namespaces[k]) == Alerted(a);
          if k > 0 {
            assert namespaces[1..][k - 1] == namespaces[k];
          }
        }
      }
      forall a | a in PodAlerts(w, namespaces) ensures a.anomalyType == PodIssue && a.namespace.Some? && a.namespace.value in namespaces {
        var k :| 0 <= k < |namespaces| && PodCheck(w, namespaces[k]) == Alerted(a);
        PodCheckOutcome(w, namespaces[k]);
      }
    }
  }

  /** The namespace checks of one iteration: every namespace's alert is queued, in namespace order,
      the counter rises by their number, the status names the last namespace, and `last_error` is
      untouched. */
  lemma {:induction false} FanOutEffect(s: Snapshot, w: World, namespaces: seq<string>)
    ensures var t := FanOut(s, w, namespaces);
      && t.sent == s.sent + PodAlerts(w, namespaces)
      && t.anomaliesDetected == s.anomaliesDetected + |PodAlerts(w, namespaces)|
      && t.lastAlertTime == (if PodAlerts(w, namespaces) == [] then s.lastAlertTime else Some(w.clock))
      && t.status == (if namespaces == [] then s.status else CheckingStatus(namespaces[|namespaces| - 1]))
      && t.lastError == s.lastError
    decreases |namespaces|
  {
    if namespaces != [] {
      var r := PodCheck(w, namespaces[0]);
      var s1 := PodStep(s, w, namespaces[0]);
      RecordEffect(s.(status := CheckingStatus(namespaces[0])), w.clock, r);
      FanOutEffect(s1, w, namespaces[1..]);
      var now, later := AlertsOf(r), PodAlerts(w, namespaces[1..]);
      assert PodAlerts(w, namespaces) == now + later;
      AppendAssoc(s.sent, now, later);
      if namespaces[1..] != [] {
        assert namespaces[1..][|namespaces[1..]| - 1] == namespaces[|namespaces| - 1];
      }
    }
  }

  /** The error `gather` re-raises is that of some namespace, and no namespace before it raised. */
  lemma {:induction false} FirstErrorIsFirst(w: World, namespaces: seq<string>)
    ensures FirstError(w, namespaces).Some? <==> exists k :: 0 <= k < |namespaces| && PodCheck(w, namespaces[k]).Raised?
    ensures FirstError(w, namespaces).Some? ==>
      exists k :: 0 <= k < |namespaces| && PodCheck(w, namespaces[k]) == Raised(FirstError(w, namespaces).value)
        && forall j :: 0 <= j < k ==> !PodCheck(w, namespaces[j]).Raised?
  {
    if namespaces != [] {
      FirstErrorIsFirst(w, namespaces[1..]);
      if PodCheck(w, namespaces[0]).Raised? {
        assert PodCheck(w, namespaces[0]) == Raised(FirstError(w, namespaces).value);
      } else {
        if exists k :: 0 <= k < |namespaces| && PodCheck(w, namespaces[k]).Raised? {
          var k :| 0 <= k < |namespaces| && PodCheck(w, namespaces[k]).Raised?;
          assert namespaces[1..][k - 1] == namespaces[k];
        }
        if FirstError(w, namespaces).Some? {
          var k :| 0 <= k < |namespaces[1..]| && PodCheck(w, namespaces[1..][k]) == Raised(FirstError(w, namespaces).value)
            && forall j :: 0 <= j < k ==> !PodCheck(w, namespaces[1..][j]).Raised?;
          assert namespaces[k + 1] == namespaces[1..][k];
          forall j | 0 <= j < k + 1 ensures !PodCheck(w, namespaces[j]).Raised? {
            if j > 0 {
              assert namespaces[j] == namespaces[1..][j - 1];
            }
          }
        }
      }
    }
  }

  /** One iteration appends its alerts in order (the node alert first) and raises the counter by their number. */
  lemma IterationAlertsQueued(s: Snapshot, w: World, namespaces: seq<string>, interval: int)
    ensures var t := Iteration(s, w, namespaces, interval).0;
      && t.sent == s.sent + IterationAlerts(w, namespaces)
      && t.anomaliesDetected == s.anomaliesDetected + |IterationAlerts(w, namespaces)|
      && t.lastAlertTime == (if IterationAlerts(w, namespaces) == [] then s.lastAlertTime else Some(w.clock))
  {
    var s1 := NodeStep(s, w);
    RecordEffect(s, w.clock, NodeCheck(w));
    if !NodeCheck(w).Raised? {
      FanOutEffect(s1, w, namespaces);
      var node, pods := AlertsOf(NodeCheck(w)), PodAlerts(w, namespaces);
      assert IterationAlerts(w, namespaces) == node + pods;
      AppendAssoc(s.sent, node, pods);
    } else {
      assert IterationAlerts(w, namespaces) == [];
    }
  }

  /** One iteration either resets the status and sleeps the polling interval, leaving `last_error` as it
      was, or records the error that reached the `except` and sleeps the fallback interval, the status
      left as last written. */
  lemma IterationOutcome(s: Snapshot, w: World, namespaces: seq<string>, interval: int)
    ensures var (t, pause) := Iteration(s, w, namespaces, interval);
      && (IterationError(w, namespaces).None? ==> pause == interval && t.status == "Monitoring" && t.lastError == s.lastError)
      && (IterationError(w, namespaces).Some? ==>
            && pause == ErrorBackoff && t.lastError == IterationError(w, namespaces)
            && t.status == (if NodeCheck(w).Raised? || namespaces == [] then s.status
                            else CheckingStatus(namespaces[|namespaces| - 1])))
  {
    RecordEffect(s, w.clock, NodeCheck(w));
    if !NodeCheck(w).Raised? {
      FanOutEffect(NodeStep(s, w), w, namespaces);
    }
  }

  /** Fault isolation: once the node check has not raised, every namespace that has something to report
      gets its alert published, whatever the other namespaces raise, and the recorded error is that of
      the first failing namespace. */
  lemma FaultIsolation(s: Snapshot, w: World, namespaces: seq<string>, interval: int, k: nat)
    requires k < |namespaces| && PodCheck(w, namespaces[k]).Alerted?
    requires !NodeCheck(w).Raised?
    ensures PodCheck(w, namespaces[k]).alert in Iteration(s, w, namespaces, interval).0.sent
    ensures Iteration(s, w, namespaces, interval).0.lastError ==
      (if FirstError(w, namespaces).Some? then FirstError(w, namespaces) else s.lastError)
  {
    PodAlertsMembers(w, namespaces);
    IterationAlertsQueued(s, w, namespaces, interval);
    IterationOutcome(s, w, namespaces, interval);
    assert PodCheck(w, namespaces[k]).alert in PodAlerts(w, namespaces);
  }

  /** Within an iteration the node alert, when there is one, comes first and every later alert is a
      pod alert for one of the namespaces. */
  lemma AlertOrder(w: World, namespaces: seq<string>)
    ensures NodeCheck(w).Alerted? ==> IterationAlerts(w, namespaces)[0] == NodeCheck(w).alert
    ensures forall j :: (if NodeCheck(w).Alerted? then 1 else 0) <= j < |IterationAlerts(w, namespaces)| ==>
      IterationAlerts(w, namespaces)[j].anomalyType == PodIssue
    ensures forall a :: a in IterationAlerts(w, namespaces) && a.anomalyType == NotReadyNode ==> a == NodeCheck(w).alert
  {
    PodAlertsMembers(w, namespaces);
    var h: seq<Alert> := AlertsOf(NodeCheck(w));
    var p: seq<Alert> := if NodeCheck(w).Raised? then [] else PodAlerts(w, namespaces);
    assert IterationAlerts(w, namespaces) == h + p;
    forall j | |h| <= j < |h + p| ensures (h + p)[j].anomalyType == PodIssue {
      assert (h + p)[j] == p[j - |h|];
      assert p[j - |h|] in PodAlerts(w, namespaces);
    }
    assert forall a :: a in p ==> a in PodAlerts(w, namespaces);
  }

  // ---------------------------------------------------------------------------------------
  // Runs of the loop

  /** Over any number of iterations, all the iterations' alerts are queued in order and the counter
      equals its start plus the alerts published. */
  lemma {:induction false} RunAlertsQueued(s: Snapshot, worlds: seq<World>, namespaces: seq<string>, interval: int)
    ensures var t := Iterations(s, worlds, namespaces, interval).0;
      && t.sent == s.sent + RunAlerts(worlds, namespaces)
      && t.anomaliesDetected == s.anomaliesDetected + |RunAlerts(worlds, namespaces)|
    decreases |worlds|
  {
    if worlds != [] {
      var w := worlds[0];
      var s1 := Iteration(s, w, namespaces, interval).0;
      IterationAlertsQueued(s, w, namespaces, interval);
      RunAlertsQueued(s1, worlds[1..], namespaces, interval);
      assert Iterations(s, worlds, namespaces, interval).0 == Iterations(s1, worlds[1..], namespaces, interval).0;
      var now, later := IterationAlerts(w, namespaces), RunAlerts(worlds[1..], namespaces);
      assert RunAlerts(worlds, namespaces) == now + later;
      AppendAssoc(s.sent, now, later);
    }
  }

  /** Over any number of iterations there is one sleep each, chosen by that iteration's outcome, and
      when the last iteration succeeded the status is "Monitoring". */
  lemma {:induction false} RunPauses(s: Snapshot, worlds: seq<World>, namespaces: seq<string>, interval: int)
    ensures var (t, pauses) := Iterations(s, worlds, namespaces, interval);
      && |pauses| == |worlds|
      && (forall k :: 0 <= k < |worlds| ==>
            pauses[k] == (if IterationError(worlds[k], namespaces).None? then interval else ErrorBackoff))
      && (worlds != [] && IterationError(worlds[|worlds| - 1], namespaces).None? ==> t.status == "Monitoring")
    decreases |worlds|
  {
    if worlds != [] {
      var w := worlds[0];
      var (s1, pause) := Iteration(s, w, namespaces, interval);
      IterationOutcome(s, w, namespaces, interval);
      RunPauses(s1, worlds[1..], namespaces, interval);
      var (t, rest) := Iterations(s1, worlds[1..], namespaces, interval);
      assert Iterations(s, worlds, namespaces, interval) == (t, [pause] + rest);
      forall k | 0 <= k < |worlds|
        ensures ([pause] + rest)[k] == (if IterationError(worlds[k], namespaces).None? then interval else ErrorBackoff)
      {
        if k > 0 {
          assert worlds[1..][k - 1] == worlds[k];
        }
      }
      if worlds[1..] != [] {
        assert worlds[1..][|worlds[1..]| - 1] == worlds[|worlds| - 1];
      }
    }
  }

  lemma {:induction false} OneAlertEach(worlds: seq<World>, namespaces: seq<string>)
    requires forall k :: 0 <= k < |worlds| ==> |IterationAlerts(worlds[k], namespaces)| == 1
    ensures |RunAlerts(worlds, namespaces)| == |worlds|
    decreases |worlds|
  {
    if worlds != [] {
      assert forall k :: 0 <= k < |worlds[1..]| ==> worlds[1..][k] == worlds[k + 1];
      OneAlertEach(worlds[1..], namespaces);
      assert |IterationAlerts(worlds[0], namespaces)| == 1;
    }
  }

  /** Counter monotonicity: after N iterations that each publish exactly one alert, the counter has
      risen by exactly N. */
  lemma CounterCountsIterations(s: Snapshot, worlds: seq<World>, namespaces: seq<string>, interval: int)
    requires forall k :: 0 <= k < |worlds| ==> |IterationAlerts(worlds[k], namespaces)| == 1
    ensures Iterations(s, worlds, namespaces, interval).0.anomaliesDetected == s.anomaliesDetected + |worlds|
  {
    RunAlertsQueued(s, worlds, namespaces, interval);
    OneAlertEach(worlds, namespaces);
  }

  /** From the initial state: a start-up failure leaves the status "Error" with its message and never
      enters the loop; otherwise the counter always equals the number of alerts the broker accepted. */
  lemma RunFromInitial(cfg: AgentConfig.Config, su: Startup, worlds: seq<World>)
    ensures var (t, pauses) := Run(Initial, cfg, su, worlds);
      && (StartupError(cfg, su).Some? ==>
            && t.status == "Error" && t.lastError == StartupError(cfg, su)
            && pauses == [] && t.sent == [] && t.anomaliesDetected == 0)
      && (StartupError(cfg, su).None? ==>
            && |pauses| == |worlds|
            && t.sent == RunAlerts(worlds, cfg.monitoredNamespaces)
            && t.anomaliesDetected == |t.sent|)
  {
    if StartupError(cfg, su).None? {
      RunAlertsQueued(Initial.(status := "Monitoring"), worlds, cfg.monitoredNamespaces, cfg.pollingInterval);
      RunPauses(Initial.(status := "Monitoring"), worlds, cfg.monitoredNamespaces, cfg.pollingInterval);
    }
  }

  /** The start-up calls run in order and the first failure wins; a kube-config failure carries its prefix. */
  lemma StartupErrorOrder(cfg: AgentConfig.Config, su: Startup)
    ensures StartupError(cfg, su).None? <==>
      LoadKubeConfig(cfg.kubeconfig, su.loadKubeFile, su.loadInCluster).None? && su.createAgent.None? && su.connectBroker.None?
    ensures LoadKubeConfig(cfg.kubeconfig, su.loadKubeFile, su.loadInCluster).Some? ==>
      StartsWith(StartupError(cfg, su).value, KubeConfigError)
    ensures LoadKubeConfig(cfg.kubeconfig, su.loadKubeFile, su.loadInCluster).Some? ==>
      StartupError(cfg, su) == LoadKubeConfig(cfg.kubeconfig, su.loadKubeFile, su.loadInCluster)
    ensures LoadKubeConfig(cfg.kubeconfig, su.loadKubeFile, su.loadInCluster).None? && su.createAgent.Some? ==>
      StartupError(cfg, su) == su.createAgent
    ensures LoadKubeConfig(cfg.kubeconfig, su.loadKubeFile, su.loadInCluster).None? && su.createAgent.None? ==>
      StartupError(cfg, su) == su.connectBroker
  {
  }
}
