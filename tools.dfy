/**
 * The cluster tools (agent/tools.py). They turn what the Kubernetes client returns into
 * plain lists of findings, and build the patch that restarts a deployment. Every client
 * call is an input that either returns a value or raises with a message; each tool
 * re-raises a client failure as a RuntimeError whose message starts with its own prefix.
 */
module Tools {
  import opened Wrappers
  import opened Strings
  import opened Sequences

  /** A value stored in a finding: a string, `None`, or a timestamp object. */
  datatype Value = Str(s: string) | Null | Time(t: int)

  /** A finding: one Python dict from keys to values. */
  type Finding = map<string, Value>

  /** A pod as the client returns it: `metadata.name` and `status.phase`, which may be `None`. */
  datatype Pod = Pod(name: string, phase: Option<string>)

  /** One entry of `node.status.conditions`: its `type` and its `status`. */
  datatype Condition = Condition(kind: string, status: string)

  /** A node: `metadata.name` and `status.conditions`, which may be `None`. */
  datatype Node = Node(name: string, conditions: Option<seq<Condition>>)

  /** An event: `message`, `type` and `last_timestamp`, each possibly `None`. */
  datatype Event = Event(message: Option<string>, kind: Option<string>, lastTimestamp: Option<int>)

  /** A JSON document, as sent in a patch body. */
  datatype Json = JStr(s: string) | JObj(fields: map<string, Json>)

  /** The Kubernetes client calls the tools make; `Failure(m)` and `Some(m)` mean the call raised with message `m`. */
  datatype Cluster = Cluster(
    listPods: string -> Result<seq<Pod>, string>,                     // list_namespaced_pod(namespace)
    readPod: (string, string) -> Result<Pod, string>,                // read_namespaced_pod(name, namespace)
    listNodes: Result<seq<Node>, string>,                             // list_node()
    listEvents: (string, string, int) -> Result<seq<Event>, string>, // list_namespaced_event(namespace, selector, limit)
    readDeployment: (string, string) -> Option<string>,              // read_namespaced_deployment(name, namespace)
    patchDeployment: (string, string, Json) -> Option<string>)       // patch_namespaced_deployment(name, namespace, body)

  const KubeConfigError := "Failed to load kube config: "
  const PodStatusError := "Error checking pod status: "
  const PodEventsError := "Error getting pod events: "
  const NodeStatusError := "Error getting node status: "
  const RestartError := "Error restarting deployment: "

  /** The message of the TypeError raised by `for cond in None`. */
  const NoneNotIterable := "'NoneType' object is not iterable"

  /** Re-raises a failure of a client call with the tool's prefix. */
  function Wrap<T>(prefix: string, r: Result<T, string>): (w: Result<T, string>)
    ensures w.Success? <==> r.Success?
    ensures w.Success? ==> w.value == r.value
    ensures w.Failure? ==> StartsWith(w.error, prefix)
    ensures w.Failure? ==> r.Failure? && w.error == prefix + r.error
  {
    match r
    case Success(v) => Success(v)
    case Failure(e) => Failure(prefix + e)
  }

  /** `load_kube_config`: a non-empty path loads that file, anything else the in-cluster configuration.
      The result is the message of the RuntimeError raised, or `None` when loading succeeded. */
  function LoadKubeConfig(path: Option<string>, loadFile: string -> Option<string>, loadInCluster: Option<string>): (r: Option<string>)
    ensures r.Some? <==> (if path.Some? && path.value != "" then loadFile(path.value).Some? else loadInCluster.Some?)
    ensures r.Some? ==> StartsWith(r.value, KubeConfigError)
  {
    var raised := if path.Some? && path.value != "" then loadFile(path.value) else loadInCluster;
    match raised
    case Some(e) => Some(KubeConfigError + e)
    case None => None
  }

  // ---------------------------------------------------------------------------------------
  // check_pod_status

  /** An optional text attribute as a JSON value: `None` becomes null. */
  function StrOrNull(v: Option<string>): Value {
    match v
    case Some(s) => Str(s)
    case None => Null
  }

  /** The entry `{"pod_name": name, "status": phase}` for one pod. */
  function PodEntry(pod: Pod): Finding {
    map["pod_name" := Str(pod.name), "status" := StrOrNull(pod.phase)]
  }

  /** The sentinel returned when no pod of the namespace is outside phase "Running". */
  const AllPodsRunning: Finding := map["message" := Str("All pods running")]

  predicate IsRunning(pod: Pod) {
    pod.phase == Some("Running")
  }

  /** The entries of the pods whose phase is not "Running", in pod order. */
  function NotRunning(pods: seq<Pod>): seq<Finding> {
    if pods == [] then []
    else (if IsRunning(pods[0]) then [] else [PodEntry(pods[0])]) + NotRunning(pods[1..])
  }

  /** What `check_pod_status(namespace, pod_name)` returns or raises. */
  function PodStatus(c: Cluster, namespace: string, podName: Option<string>): Result<seq<Finding>, string> {
    if podName.Some? && podName.value != "" then
      var pod :- Wrap(PodStatusError, c.readPod(podName.value, namespace));
      Success([PodEntry(pod)])
    else
      var pods :- Wrap(PodStatusError, c.listPods(namespace));
      var result := NotRunning(pods);
      Success(if result != [] then result else [AllPodsRunning])
  }

  /** The entries of a concatenation are the entries of each part, in order. */
  lemma {:induction false} NotRunningAppend(a: seq<Pod>, b: seq<Pod>)
    ensures NotRunning(a + b) == NotRunning(a) + NotRunning(b)
  {
    if a == [] {
      assert a + b == b;
    } else {
      assert (a + b)[0] == a[0];
      assert (a + b)[1..] == a[1..] + b;
      NotRunningAppend(a[1..], b);
      AppendAssoc(if IsRunning(a[0]) then [] else [PodEntry(a[0])], NotRunning(a[1..]), NotRunning(b));
    }
  }

  /** A finding is listed exactly when it is the entry of some pod that is not "Running". */
  lemma {:induction false} NotRunningMembers(pods: seq<Pod>, f: Finding)
    ensures f in NotRunning(pods) <==> exists k :: 0 <= k < |pods| && !IsRunning(pods[k]) && f == PodEntry(pods[k])
  {
    if pods != [] {
      NotRunningMembers(pods[1..], f);
      if f in NotRunning(pods[1..]) {
        var k :| 0 <= k < |pods[1..]| && !IsRunning(pods[1..][k]) && f == PodEntry(pods[1..][k]);
        assert pods[k + 1] == pods[1..][k];
      }
      if exists k :: 0 <= k < |pods| && !IsRunning(pods[k]) && f == PodEntry(pods[k]) {
        var k :| 0 <= k < |pods| && !IsRunning(pods[k]) && f == PodEntry(pods[k]);
        if k > 0 {
          assert pods[1..][k - 1] == pods[k];
        }
      }
    }
  }

  /** The list path never returns an empty list: it is the non-running entries, or else the sentinel alone. */
  lemma PodStatusListPath(c: Cluster, namespace: string, podName: Option<string>)
    requires podName.None? || podName.value == ""
    requires c.listPods(namespace).Success?
    ensures var r := PodStatus(c, namespace, podName);
      && r.Success? && |r.value| >= 1
      && (r.value == [AllPodsRunning] <==> forall k :: 0 <= k < |c.listPods(namespace).value| ==> IsRunning(c.listPods(namespace).value[k]))
      && (r.value != [AllPodsRunning] ==> r.value == NotRunning(c.listPods(namespace).value))
  {
    var pods := c.listPods(namespace).value;
    if NotRunning(pods) == [] {
      forall k | 0 <= k < |pods| ensures IsRunning(pods[k]) {
        NotRunningMembers(pods, PodEntry(pods[k]));
      }
    } else {
      var f := NotRunning(pods)[0];
      NotRunningMembers(pods, f);
      assert "pod_name" in f;
    }
  }

  /** With a pod name, the result is that pod's entry alone, whatever its phase, "Running" included. */
  lemma PodStatusNamedPod(c: Cluster, namespace: string, name: string)
    requires name != ""
    requires c.readPod(name, namespace).Success?
    ensures PodStatus(c, namespace, Some(name)) == Success([PodEntry(c.readPod(name, namespace).value)])
  {
  }

  /** `check_pod_status`: the list path loops over the pods and appends an entry for each one not "Running". */
  method CheckPodStatus(c: Cluster, namespace: string, podName: Option<string>) returns (r: Result<seq<Finding>, string>)
    ensures r == PodStatus(c, namespace, podName)
  {
    if podName.Some? && podName.value != "" {
      var read := c.readPod(podName.value, namespace);
      if read.Failure? {
        return Failure(PodStatusError + read.error);
      }
      return Success([PodEntry(read.value)]);
    }
    var listed := c.listPods(namespace);
    if listed.Failure? {
      return Failure(PodStatusError + listed.error);
    }
    var pods := listed.value;
    var result: seq<Finding> := [];
    var i := 0;
    while i < |pods|
      invariant 0 <= i <= |pods|
      invariant result == NotRunning(pods[..i])
    {
      NotRunningAppend(pods[..i], [pods[i]]);
      assert pods[..i + 1] == pods[..i] + [pods[i]];
      if pods[i].phase != Some("Running") {
        result := result + [PodEntry(pods[i])];
      }
      i := i + 1;
    }
    assert pods[..i] == pods;
    r := Success(if result != [] then result else [AllPodsRunning]);
  }

  // ---------------------------------------------------------------------------------------
  // get_node_status

  /** The entry `{"node_name": name, "status": cond.status}`. */
  function NodeEntry(name: string, cond: Condition): Finding {
    map["node_name" := Str(name), "status" := Str(cond.status)]
  }

  /** The entries for one node's conditions of type "Ready", in condition order. */
  function ReadyOf(name: string, conds: seq<Condition>): seq<Finding> {
    if conds == [] then []
    else (if conds[0].kind == "Ready" then [NodeEntry(name, conds[0])] else []) + ReadyOf(name, conds[1..])
  }

  /** The conditions of a node, none when `conditions` is `None`. */
  function ConditionsOf(node: Node): seq<Condition> {
    node.conditions.GetOr([])
  }

  /** The entries of all nodes, by node and then by condition. */
  function ReadyEntries(nodes: seq<Node>): seq<Finding> {
    if nodes == [] then [] else ReadyOf(nodes[0].name, ConditionsOf(nodes[0])) + ReadyEntries(nodes[1..])
  }

  predicate AllHaveConditions(nodes: seq<Node>) {
    forall k :: 0 <= k < |nodes| ==> nodes[k].conditions.Some?
  }

  /** What `get_node_status()` returns or raises. */
  function NodeStatus(c: Cluster): Result<seq<Finding>, string> {
    var nodes :- Wrap(NodeStatusError, c.listNodes);
    if AllHaveConditions(nodes) then Success(ReadyEntries(nodes))
    else Failure(NodeStatusError + NoneNotIterable)
  }

  lemma {:induction false} ReadyOfAppend(name: string, a: seq<Condition>, b: seq<Condition>)
    ensures ReadyOf(name, a + b) == ReadyOf(name, a) + ReadyOf(name, b)
  {
    if a == [] {
      assert a + b == b;
    } else {
      assert (a + b)[0] == a[0];
      assert (a + b)[1..] == a[1..] + b;
      ReadyOfAppend(name, a[1..], b);
      AppendAssoc(if a[0].kind == "Ready" then [NodeEntry(name, a[0])] else [], ReadyOf(name, a[1..]), ReadyOf(name, b));
    }
  }

  /** Entries come node by node: those of a concatenation are those of each part, in order. */
  lemma {:induction false} ReadyEntriesAppend(a: seq<Node>, b: seq<Node>)
    ensures ReadyEntries(a + b) == ReadyEntries(a) + ReadyEntries(b)
  {
    if a == [] {
      assert a + b == b;
    } else {
      var ab := a + b;
      assert ab[0] == a[0] && ab[1..] == a[1..] + b;
      ReadyEntriesCons(ab);
      ReadyEntriesCons(a);
      ReadyEntriesAppend(a[1..], b);
      var head, ra, rb := ReadyOf(a[0].name, ConditionsOf(a[0])), ReadyEntries(a[1..]), ReadyEntries(b);
      AppendAssoc(head, ra, rb);
    }
  }

  /** A non-empty node list's entries are its first node's followed by the rest's. */
  lemma ReadyEntriesCons(nodes: seq<Node>)
    requires nodes != []
    ensures ReadyEntries(nodes) == ReadyOf(nodes[0].name, ConditionsOf(nodes[0])) + ReadyEntries(nodes[1..])
  {
  }

  /** Number of conditions of type "Ready". */
  function ReadyCount(conds: seq<Condition>): nat {
    if conds == [] then 0 else (if conds[0].kind == "Ready" then 1 else 0) + ReadyCount(conds[1..])
  }

  /** One entry per Ready condition, each naming the node and carrying that condition's status;
      a node without a Ready condition contributes nothing. */
  lemma {:induction false} ReadyOfShape(name: string, conds: seq<Condition>)
    ensures |ReadyOf(name, conds)| == ReadyCount(conds)
    ensures forall k :: 0 <= k < |ReadyOf(name, conds)| ==>
      "node_name" in ReadyOf(name, conds)[k] && ReadyOf(name, conds)[k]["node_name"] == Str(name)
    ensures (forall j :: 0 <= j < |conds| ==> conds[j].kind != "Ready") ==> ReadyOf(name, conds) == []
    ensures forall f :: f in ReadyOf(name, conds) <==>
      exists j :: 0 <= j < |conds| && conds[j].kind == "Ready" && f == NodeEntry(name, conds[j])
  {
    if conds != [] {
      ReadyOfShape(name, conds[1..]);
      var rest := ReadyOf(name, conds[1..]);
      forall f ensures f in ReadyOf(name, conds) <==>
        exists j :: 0 <= j < |conds| && conds[j].kind == "Ready" && f == NodeEntry(name, conds[j])
      {
        if f in rest {
          var j :| 0 <= j < |conds[1..]| && conds[1..][j].kind == "Ready" && f == NodeEntry(name, conds[1..][j]);
          assert conds[j + 1] == conds[1..][j];
        }
        if exists j :: 0 <= j < |conds| && conds[j].kind == "Ready" && f == NodeEntry(name, conds[j]) {
          var j :| 0 <= j < |conds| && conds[j].kind == "Ready" && f == NodeEntry(name, conds[j]);
          if j > 0 {
            assert conds[1..][j - 1] == conds[j];
          }
        }
      }
    }
  }

  /** `get_node_status`: an outer loop over nodes and an inner loop over each node's conditions. */
  method GetNodeStatus(c: Cluster) returns (r: Result<seq<Finding>, string>)
    ensures r == NodeStatus(c)
  {
    if c.listNodes.Failure? {
      return Failure(NodeStatusError + c.listNodes.error);
    }
    var nodes := c.listNodes.value;
    var result: seq<Finding> := [];
    var i := 0;
    while i < |nodes|
      invariant 0 <= i <= |nodes|
      invariant AllHaveConditions(nodes[..i])
      invariant result == ReadyEntries(nodes[..i])
    {
      var node := nodes[i];
      if node.conditions.None? {
        assert !AllHaveConditions(nodes) by {
          assert nodes[i].conditions.None?;
        }
        return Failure(NodeStatusError + NoneNotIterable);
      }
      var conds := node.conditions.value;
      ghost var before := result;
      var j := 0;
      while j < |conds|
        invariant 0 <= j <= |conds|
        invariant result == before + ReadyOf(node.name, conds[..j])
      {
        ReadyOfAppend(node.name, conds[..j], [conds[j]]);
        assert conds[..j + 1] == conds[..j] + [conds[j]];
        AppendAssoc(before, ReadyOf(node.name, conds[..j]), ReadyOf(node.name, [conds[j]]));
        if conds[j].kind == "Ready" {
          result := result + [NodeEntry(node.name, conds[j])];
        }
        j := j + 1;
      }
      assert conds[..j] == conds;
      ReadyEntriesAppend(nodes[..i], [node]);
      assert nodes[..i + 1] == nodes[..i] + [node];
      i := i + 1;
    }
    assert nodes[..i] == nodes;
    r := Success(result);
  }

  // ---------------------------------------------------------------------------------------
  // get_pod_events

  /** `{"message": e.message, "type": e.type, "timestamp": e.last_timestamp}`. */
  function EventEntry(e: Event): Finding {
    map["message" := StrOrNull(e.message), "type" := StrOrNull(e.kind),
        "timestamp" := (match e.lastTimestamp case Some(t) => Time(t) case None => Null)]
  }

  /** The field selector that restricts events to one pod. */
  function EventSelector(podName: string): string {
    "involvedObject.name=" + podName
  }

  /** `get_pod_events(namespace, pod_name, limit)`: one entry per event the client returns, in its order. */
  function PodEvents(c: Cluster, namespace: string, podName: string, limit: int): (r: Result<seq<Finding>, string>)
    ensures r.Success? <==> c.listEvents(namespace, EventSelector(podName), limit).Success?
    ensures r.Success? ==>
      var events := c.listEvents(namespace, EventSelector(podName), limit).value;
      && |r.value| == |events|
      && forall k :: 0 <= k < |events| ==> r.value[k].Keys == {"message", "type", "timestamp"}
    ensures r.Failure? ==> StartsWith(r.error, PodEventsError)
  {
    var events :- Wrap(PodEventsError, c.listEvents(namespace, EventSelector(podName), limit));
    Success(seq(|events|, k requires 0 <= k < |events| => EventEntry(events[k])))
  }

  // ---------------------------------------------------------------------------------------
  // restart_deployment

  const RestartedAt := "kubectl.kubernetes.io/restartedAt"

  /** The path from the patch root to the annotation it sets. */
  const RestartPath: seq<string> := ["spec", "template", "metadata", "annotations", RestartedAt]

  /** The patch body `restart_deployment` sends, with `stamp` as the annotation's value. */
  function RestartPatch(stamp: string): Json {
    JObj(map["spec" :=
      JObj(map["template" :=
        JObj(map["metadata" :=
          JObj(map["annotations" :=
            JObj(map[RestartedAt := JStr(stamp)])])])])])
  }

  /** The value reached from `j` by following the keys of `path`, if there is one. */
  function Lookup(j: Json, path: seq<string>): Option<Json>
    decreases |path|
  {
    if path == [] then Some(j)
    else match j
      case JStr(_) => None
      case JObj(m) => if path[0] in m then Lookup(m[path[0]], path[1..]) else None
  }

  /** There is a string at `path` in `j`. */
  predicate StringAt(j: Json, path: seq<string>) {
    Lookup(j, path).Some? && Lookup(j, path).value.JStr?
  }

  /** A chain of one-key objects along `keys`, ending in `leaf`. */
  function Chain(keys: seq<string>, leaf: Json): Json {
    if keys == [] then leaf else JObj(map[keys[0] := Chain(keys[1..], leaf)])
  }

  /** A chain of one-key objects holds exactly one string, at the end of its keys. */
  lemma {:induction false} ChainLeaf(keys: seq<string>, v: string, path: seq<string>)
    ensures Lookup(Chain(keys, JStr(v)), keys) == Some(JStr(v))
    ensures StringAt(Chain(keys, JStr(v)), path) <==> path == keys
    decreases |keys|
  {
    if keys == [] {
    } else {
      var inner := Chain(keys[1..], JStr(v));
      assert Chain(keys, JStr(v)) == JObj(map[keys[0] := inner]);
      if path != [] && path[0] == keys[0] {
        ChainLeaf(keys[1..], v, path[1..]);
        if path[1..] == keys[1..] {
          assert path == [path[0]] + path[1..];
          assert keys == [keys[0]] + keys[1..];
        }
      } else {
        ChainLeaf(keys[1..], v, keys[1..]);
      }
    }
  }

  /** The restart patch sets only the restartedAt annotation of the pod template, to `stamp`. */
  lemma RestartPatchSetsOnlyAnnotation(stamp: string, path: seq<string>)
    ensures Lookup(RestartPatch(stamp), RestartPath) == Some(JStr(stamp))
    ensures StringAt(RestartPatch(stamp), path) <==> path == RestartPath
  {
    var k := RestartPath;
    assert Chain(k[4..], JStr(stamp)) == JObj(map[RestartedAt := JStr(stamp)]);
    assert Chain(k[3..], JStr(stamp)) == JObj(map["annotations" := Chain(k[4..], JStr(stamp))]);
    assert Chain(k[2..], JStr(stamp)) == JObj(map["metadata" := Chain(k[3..], JStr(stamp))]);
    assert Chain(k[1..], JStr(stamp)) == JObj(map["template" := Chain(k[2..], JStr(stamp))]);
    assert Chain(k, JStr(stamp)) == RestartPatch(stamp);
    ChainLeaf(RestartPath, stamp, path);
  }

  /** A naive datetime as `datetime.utcnow()` returns it. */
  datatype DateTime = DateTime(year: int, month: int, day: int, hour: int, minute: int, second: int, microsecond: int)

  predicate ValidDateTime(d: DateTime) {
    && 1 <= d.year <= 9999 && 1 <= d.month <= 12 && 1 <= d.day <= 31
    && 0 <= d.hour < 24 && 0 <= d.minute < 60 && 0 <= d.second < 60
    && 0 <= d.microsecond < 1000000
  }

  function DigitChar(d: nat): char
    requires d < 10
  {
    "0123456789"[d]
  }

  /** The last `width` decimal digits of `n`, zero-padded (Python's `"%0*d" % (width, n)` when `n` fits). */
  function Digits(n: nat, width: nat): (s: string)
    ensures |s| == width
    ensures forall i :: 0 <= i < |s| ==> '0' <= s[i] <= '9'
  {
    if width == 0 then "" else Digits(n / 10, width - 1) + [DigitChar(n % 10)]
  }

  function Pow10(k: nat): nat {
    if k == 0 then 1 else 10 * Pow10(k - 1)
  }

  /** The number a string of decimal digits denotes. */
  function DecimalValue(s: string): int {
    if s == [] then 0 else 10 * DecimalValue(s[..|s| - 1]) + (s[|s| - 1] as int - '0' as int)
  }

  /** Reading the padded digits back gives the number, when it fits in the width. */
  lemma {:induction false} DigitsRoundTrip(n: nat, width: nat)
    requires n < Pow10(width)
    ensures DecimalValue(Digits(n, width)) == n
  {
    if width > 0 {
      var s := Digits(n, width);
      assert n / 10 < Pow10(width - 1);
      DigitsRoundTrip(n / 10, width - 1);
      assert s[..|s| - 1] == Digits(n / 10, width - 1);
      assert s[|s| - 1] as int - '0' as int == n % 10;
    }
  }

  /** "YYYY-MM-DD". */
  function DatePart(d: DateTime): string
    requires ValidDateTime(d)
  {
    Digits(d.year, 4) + "-" + Digits(d.month, 2) + "-" + Digits(d.day, 2)
  }

  /** "HH:MM:SS". */
  function ClockPart(d: DateTime): string
    requires ValidDateTime(d)
  {
    Digits(d.hour, 2) + ":" + Digits(d.minute, 2) + ":" + Digits(d.second, 2)
  }

  /** ".ffffff", present only when the microseconds are non-zero. */
  function FractionPart(d: DateTime): string
    requires ValidDateTime(d)
  {
    if d.microsecond != 0 then "." + Digits(d.microsecond, 6) else ""
  }

  /** `datetime.isoformat()` of a naive datetime. */
  function IsoFormat(d: DateTime): string
    requires ValidDateTime(d)
  {
    DatePart(d) + "T" + ClockPart(d) + FractionPart(d)
  }

  /** The restartedAt value: `utcnow().isoformat() + "Z"`. */
  function RestartStamp(now: DateTime): string
    requires ValidDateTime(now)
  {
    IsoFormat(now) + "Z"
  }

  /** Where the pieces of `a + [s] + b + [t] + c` sit. */
  lemma {:induction false} ThreeFields(a: string, s: char, b: string, t: char, c: string)
    ensures var p := a + [s] + b + [t] + c;
      && |p| == |a| + |b| + |c| + 2
      && p[..|a|] == a && p[|a|] == s && p[|a| + 1..|a| + 1 + |b|] == b
      && p[|a| + 1 + |b|] == t && p[|a| + |b| + 2..] == c
  {
    var p := a + [s] + b + [t] + c;
    assert p == a + ([s] + (b + ([t] + c)));
  }

  lemma DatePartShape(d: DateTime)
    requires ValidDateTime(d)
    ensures var p := DatePart(d);
      && |p| == 10 && p[4] == '-' && p[7] == '-'
      && DecimalValue(p[0..4]) == d.year && DecimalValue(p[5..7]) == d.month && DecimalValue(p[8..10]) == d.day
  {
    var y, m, dd := Digits(d.year, 4), Digits(d.month, 2), Digits(d.day, 2);
    ThreeFields(y, '-', m, '-', dd);
    assert Pow10(2) == 100 && Pow10(4) == 10000;
    DigitsRoundTrip(d.year, 4);
    DigitsRoundTrip(d.month, 2);
    DigitsRoundTrip(d.day, 2);
  }

  lemma ClockPartShape(d: DateTime)
    requires ValidDateTime(d)
    ensures var p := ClockPart(d);
      && |p| == 8 && p[2] == ':' && p[5] == ':'
      && DecimalValue(p[0..2]) == d.hour && DecimalValue(p[3..5]) == d.minute && DecimalValue(p[6..8]) == d.second
  {
    var h, m, sec := Digits(d.hour, 2), Digits(d.minute, 2), Digits(d.second, 2);
    ThreeFields(h, ':', m, ':', sec);
    assert Pow10(2) == 100;
    DigitsRoundTrip(d.hour, 2);
    DigitsRoundTrip(d.minute, 2);
    DigitsRoundTrip(d.second, 2);
  }

  /** Where the date and clock sit in `date + "T" + clock + frac + "Z"`. */
  lemma {:induction false} StampSlices(date: string, clock: string, frac: string)
    requires |date| == 10 && |clock| == 8
    ensures var s := date + "T" + clock + frac + "Z";
      && |s| == 20 + |frac| && s[10] == 'T' && s[|s| - 1] == 'Z'
      && s[0..4] == date[0..4] && s[4] == date[4] && s[5..7] == date[5..7] && s[7] == date[7] && s[8..10] == date[8..10]
      && s[11..13] == clock[0..2] && s[13] == clock[2] && s[14..16] == clock[3..5] && s[16] == clock[5]
      && s[17..19] == clock[6..8]
      && (|frac| == 7 ==> s[19] == frac[0] && s[20..26] == frac[1..7])
  {
    var s := date + "T" + clock + frac + "Z";
    assert s == date + (['T'] + (clock + (frac + ['Z'])));
    assert s[..10] == date;
    assert s[11..19] == clock;
    assert s[19..19 + |frac|] == frac;
  }

  /** The fraction, when present, is a '.' followed by six digits that read back as the microseconds. */
  lemma FractionPartShape(d: DateTime)
    requires ValidDateTime(d)
    ensures var f := FractionPart(d);
      && |f| == (if d.microsecond != 0 then 7 else 0)
      && (d.microsecond != 0 ==> f[0] == '.' && DecimalValue(f[1..7]) == d.microsecond)
  {
    if d.microsecond != 0 {
      var f := FractionPart(d);
      assert f[1..7] == Digits(d.microsecond, 6);
      assert Pow10(6) == 1000000;
      DigitsRoundTrip(d.microsecond, 6);
    }
  }

  /** The stamp has the layout YYYY-MM-DDTHH:MM:SS[.ffffff]Z, ends in "Z", and its fields read back as `now`'s. */
  lemma RestartStampShape(now: DateTime)
    requires ValidDateTime(now)
    ensures var s := RestartStamp(now);
      && |s| == (if now.microsecond != 0 then 27 else 20)
      && EndsWith(s, "Z")
      && s[4] == '-' && s[7] == '-' && s[10] == 'T' && s[13] == ':' && s[16] == ':'
      && DecimalValue(s[0..4]) == now.year && DecimalValue(s[5..7]) == now.month
      && DecimalValue(s[8..10]) == now.day && DecimalValue(s[11..13]) == now.hour
      && DecimalValue(s[14..16]) == now.minute && DecimalValue(s[17..19]) == now.second
      && (now.microsecond != 0 ==> s[19] == '.' && DecimalValue(s[20..26]) == now.microsecond)
  {
    var date, clock, frac := DatePart(now), ClockPart(now), FractionPart(now);
    DatePartShape(now);
    ClockPartShape(now);
    FractionPartShape(now);
    StampSlices(date, clock, frac);
    assert RestartStamp(now) == date + "T" + clock + frac + "Z";
  }

  /** What `restart_deployment(namespace, name)` returns or raises at time `now`. */
  function RestartDeployment(c: Cluster, namespace: string, name: string, now: DateTime): Result<Finding, string>
    requires ValidDateTime(now)
  {
    match c.readDeployment(name, namespace)
    case Some(e) => Failure(RestartError + e)
    case None =>
      match c.patchDeployment(name, namespace, RestartPatch(RestartStamp(now)))
      case Some(e) => Failure(RestartError + e)
      case None => Success(map["message" := Str("Deployment " + name + " restarted")])
  }

  /** The restart succeeds exactly when reading and patching the deployment both succeed;
      otherwise its message starts with the tool's prefix. */
  lemma RestartDeploymentOutcome(c: Cluster, namespace: string, name: string, now: DateTime)
    requires ValidDateTime(now)
    ensures var r := RestartDeployment(c, namespace, name, now);
      && (r.Success? <==> c.readDeployment(name, namespace).None?
                          && c.patchDeployment(name, namespace, RestartPatch(RestartStamp(now))).None?)
      && (r.Success? ==> r.value["message"] == Str("Deployment " + name + " restarted"))
      && (r.Failure? ==> StartsWith(r.error, RestartError))
  {
  }

  /** Every failure of the finding tools is a re-raise whose message starts with that tool's prefix. */
  lemma ToolFailuresPrefixed(c: Cluster, namespace: string, podName: Option<string>)
    ensures PodStatus(c, namespace, podName).Failure? ==> StartsWith(PodStatus(c, namespace, podName).error, PodStatusError)
    ensures NodeStatus(c).Failure? ==> StartsWith(NodeStatus(c).error, NodeStatusError)
  {
  }
}
