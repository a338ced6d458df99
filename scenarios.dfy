/**
 * Worked scenarios of the monitor loop: a pod whose phase text is an indicator, a healthy namespace, a node in
 * state "Unknown", a failing namespace beside a healthy one, and a broker that refuses an alert.
 */
module MonitorScenarios {
  import opened Wrappers
  import opened Tools
  import opened Classifier
  import opened Monitor
  import opened MonitorProperties

  /** One pod in "default" whose phase text is "CrashLoopBackOff": exactly that pod is reported, in one
      PodIssue alert for "default", published once; the counter rises by one and the iteration ends normally. */
  lemma CrashLoopingPod(s: Snapshot, w: World, pod: string, d: string, interval: int)
    requires NodeCheck(w) == Quiet
    requires w.cluster.listPods("default") == Success([Pod(pod, Some("CrashLoopBackOff"))])
    requires w.diagnose(PodIssues("default", [PodEntry(Pod(pod, Some("CrashLoopBackOff")))])) == Success(d)
    requires w.publish(Alert(PodIssue, [PodEntry(Pod(pod, Some("CrashLoopBackOff")))], d, Some("default"), w.clock)) == None
    ensures IterationAlerts(w, ["default"]) == [Alert(PodIssue, [PodEntry(Pod(pod, Some("CrashLoopBackOff")))], d, Some("default"), w.clock)]
    ensures var (t, pause) := Iteration(s, w, ["default"], interval);
      && t.anomaliesDetected == s.anomaliesDetected + 1 && t.lastAlertTime == Some(w.clock)
      && t.status == "Monitoring" && pause == interval
  {
    var p := Pod(pod, Some("CrashLoopBackOff"));
    CrashLoopBackOffIsProblem();
    assert [p][1..] == [];
    assert HasIssue(p);
    assert IssueEntries([p]) == [PodEntry(p)];
    FiltersCompose([p]);
    PodCheckOutcome(w, "default");
    PodStatusListPath(w.cluster, "default", None);
    assert ["default"][1..] == [];
    assert PodAlerts(w, ["default"]) == AlertsOf(PodCheck(w, "default"));
    assert PodCheck(w, "default").Alerted?;
    assert FirstError(w, ["default"]) == None;
    IterationAlertsQueued(s, w, ["default"], interval);
    IterationOutcome(s, w, ["default"], interval);
  }

  /** An iteration in which no check has anything to report and none raises changes nothing but the
      status, which ends as "Monitoring", and sleeps the polling interval. */
  lemma QuietIteration(s: Snapshot, w: World, namespaces: seq<string>, interval: int)
    requires NodeCheck(w) == Quiet
    requires forall k :: 0 <= k < |namespaces| ==> PodCheck(w, namespaces[k]) == Quiet
    ensures Iteration(s, w, namespaces, interval) == (s.(status := "Monitoring"), interval)
  {
    PodAlertsMembers(w, namespaces);
    FirstErrorIsFirst(w, namespaces);
    assert IterationAlerts(w, namespaces) == [];
    IterationAlertsQueued(s, w, namespaces, interval);
    IterationOutcome(s, w, namespaces, interval);
    assert s.sent + [] == s.sent;
  }

  /** Every pod "Running": nothing is reported, nothing is published, and the counter is unchanged. */
  lemma HealthyNamespace(s: Snapshot, w: World, namespace: string, pods: seq<Pod>, interval: int)
    requires NodeCheck(w) == Quiet
    requires w.cluster.listPods(namespace) == Success(pods)
    requires forall k :: 0 <= k < |pods| ==> pods[k].phase == Some("Running")
    ensures PodCheck(w, namespace) == Quiet
    ensures Iteration(s, w, [namespace], interval) == (s.(status := "Monitoring"), interval)
  {
    NonIndicatorExamples();
    IssueEntriesMembers(pods);
    PodCheckOutcome(w, namespace);
    QuietIteration(s, w, [namespace], interval);
  }

  /** A node whose Ready condition is "Unknown": it is reported in a NotReadyNode alert that comes
      before every namespace alert of the same iteration. */
  lemma UnknownNode(w: World, namespaces: seq<string>, node: string, d: string)
    requires w.cluster.listNodes == Success([Node(node, Some([Condition("Ready", "Unknown")]))])
    requires w.diagnose(NodesNotReady([NodeEntry(node, Condition("Ready", "Unknown"))])) == Success(d)
    requires w.publish(Alert(NotReadyNode, [NodeEntry(node, Condition("Ready", "Unknown"))], d, None, w.clock)) == None
    ensures NodeCheck(w) == Alerted(Alert(NotReadyNode, [NodeEntry(node, Condition("Ready", "Unknown"))], d, None, w.clock))
    ensures IterationAlerts(w, namespaces)[0] == NodeCheck(w).alert
    ensures forall j :: 1 <= j < |IterationAlerts(w, namespaces)| ==> IterationAlerts(w, namespaces)[j].anomalyType == PodIssue
  {
    var n := Node(node, Some([Condition("Ready", "Unknown")]));
    var e := NodeEntry(node, Condition("Ready", "Unknown"));
    assert [n][1..] == [] && [Condition("Ready", "Unknown")][1..] == [];
    assert AllHaveConditions([n]);
    assert ConditionsOf(n) == [Condition("Ready", "Unknown")];
    assert ReadyOf(node, [Condition("Ready", "Unknown")]) == [e];
    assert ReadyEntries([n]) == [e];
    NodeStatusExamples(node);
    assert [e][1..] == [];
    assert NotReadyNodes([e]) == [e];
    AlertOrder(w, namespaces);
  }

  /** "staging" fails while "default" has something to report: the alert for "default" is still
      published, the recorded error is the staging failure, and the short sleep follows. */
  lemma FailingNamespaceBesideHealthy(s: Snapshot, w: World, interval: int)
    requires NodeCheck(w) == Quiet
    requires w.cluster.listPods("staging").Failure?
    requires PodCheck(w, "default").Alerted?
    ensures var (t, pause) := Iteration(s, w, ["staging", "default"], interval);
      && t.sent == s.sent + [PodCheck(w, "default").alert]
      && t.anomaliesDetected == s.anomaliesDetected + 1
      && t.lastError == Some(PodStatusError + w.cluster.listPods("staging").error)
      && t.status == CheckingStatus("default")
      && pause == ErrorBackoff
  {
    var nss := ["staging", "default"];
    PodCheckOutcome(w, "staging");
    assert nss[0] == "staging" && nss[1..] == ["default"] && nss[1..][1..] == [];
    assert PodCheck(w, "staging").Raised?;
    assert PodAlerts(w, nss[1..]) == [PodCheck(w, "default").alert];
    assert PodAlerts(w, nss) == [PodCheck(w, "default").alert];
    assert FirstError(w, nss) == Some(PodStatusError + w.cluster.listPods("staging").error);
    IterationAlertsQueued(s, w, nss, interval);
    IterationOutcome(s, w, nss, interval);
  }

  /** After such a failure, an iteration in which everything is quiet ends normally, with `last_error`
      still holding the old failure, since nothing clears it. */
  lemma RecoveryKeepsLastError(s: Snapshot, w: World, next: World, interval: int)
    requires NodeCheck(w) == Quiet
    requires w.cluster.listPods("staging").Failure?
    requires PodCheck(w, "default").Alerted?
    requires NodeCheck(next) == Quiet && PodCheck(next, "staging") == Quiet && PodCheck(next, "default") == Quiet
    ensures var t := Iteration(s, w, ["staging", "default"], interval).0;
      Iteration(t, next, ["staging", "default"], interval) == (t.(status := "Monitoring"), interval)
      && t.lastError == Some(PodStatusError + w.cluster.listPods("staging").error)
  {
    FailingNamespaceBesideHealthy(s, w, interval);
    var nss := ["staging", "default"];
    assert nss[0] == "staging" && nss[1] == "default";
    QuietIteration(Iteration(s, w, nss, interval).0, next, nss, interval);
  }

  /** The broker refuses the alert: its error becomes `last_error`, nothing is queued, the counter and
      the alert time are unchanged, and the loop sleeps the short interval instead of stopping. */
  lemma PublishFails(s: Snapshot, w: World, namespace: string, pods: seq<Pod>, d: string, e: string, interval: int)
    requires NodeCheck(w) == Quiet
    requires w.cluster.listPods(namespace) == Success(pods) && PhasesSet(pods) && IssueEntries(pods) != []
    requires w.diagnose(PodIssues(namespace, IssueEntries(pods))) == Success(d)
    requires w.publish(Alert(PodIssue, IssueEntries(pods), d, Some(namespace), w.clock)) == Some(e)
    ensures Iteration(s, w, [namespace], interval) == (s.(status := CheckingStatus(namespace), lastError := Some(e)), ErrorBackoff)
  {
    FiltersCompose(pods);
    PodStatusListPath(w.cluster, namespace, None);
    IssueEntriesMembers(pods);
    assert IssueEntries(pods)[0] in IssueEntries(pods);
    assert NotRunning(pods) != [AllPodsRunning] by {
      if NotRunning(pods) == [AllPodsRunning] {
        assert ProblematicPods([AllPodsRunning]) == Success(IssueEntries(pods));
        SentinelNotProblematic();
        assert false;
      }
    }
    assert PodCheck(w, namespace) == Raised(e);
    assert [namespace][1..] == [];
    var nss := [namespace];
    assert nss[0] == namespace && nss[1..] == [];
    assert PodAlerts(w, nss) == AlertsOf(PodCheck(w, namespace)) + PodAlerts(w, []);
    assert PodAlerts(w, nss) == [];
    assert FirstError(w, nss) == ErrorOf(PodCheck(w, namespace));
    assert FirstError(w, nss) == Some(e);
    IterationAlertsQueued(s, w, [namespace], interval);
    IterationOutcome(s, w, [namespace], interval);
    assert s.sent + [] == s.sent;
  }
}
