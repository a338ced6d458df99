/**
 * The anomaly classifier (agent/main.py:36 and 54-55): two filters over the findings
 * the tools return. Both keep the input order.
 */
module Classifier {
  import opened Wrappers
  import opened Strings
  import opened Tools
  import opened Sequences

  /** A node finding is an anomaly unless its "status" is the string "True"; a missing key reads as None. */
  predicate NotReady(f: Finding) {
    !("status" in f && f["status"] == Str("True"))
  }

  /** `[n for n in node_status if n.get("status") != "True"]`. */
  function NotReadyNodes(fs: seq<Finding>): seq<Finding> {
    if fs == [] then [] else (if NotReady(fs[0]) then [fs[0]] else []) + NotReadyNodes(fs[1..])
  }

  /** The five case-sensitive substrings that mark a pod as problematic. */
  const ProblemIndicators: seq<string> := ["Pending", "CrashLoopBackOff", "Error", "ImagePullBackOff", "Failed"]

  /** The message of the TypeError that `indicator in v` raises when `v` is not a string. */
  function NotIterable(v: Value): string {
    match v
    case Null => "argument of type 'NoneType' is not iterable"
    case _ => "argument of type 'datetime.datetime' is not iterable"
  }

  /** `p.get("status", "")` as a string, or the TypeError raised when it is not one. */
  function StatusText(f: Finding): Result<string, string> {
    if "status" !in f then Success("")
    else match f["status"]
      case Str(s) => Success(s)
      case v => Failure(NotIterable(v))
  }

  /** The pod filter's test on one finding whose status is a string. */
  predicate Problematic(status: string) {
    ContainsAny(status, ProblemIndicators)
  }

  /** `[p for p in pod_status if any(i in p.get("status", "") for i in problem_indicators)]`;
      the comprehension raises at the first finding whose status is not a string. */
  function ProblematicPods(fs: seq<Finding>): Result<seq<Finding>, string> {
    if fs == [] then Success([])
    else match StatusText(fs[0])
      case Failure(e) => Failure(e)
      case Success(status) =>
        match ProblematicPods(fs[1..])
        case Failure(e) => Failure(e)
        case Success(rest) => Success((if Problematic(status) then [fs[0]] else []) + rest)
  }

  /** All findings' statuses are strings or missing. */
  predicate StatusesAreText(fs: seq<Finding>) {
    forall k :: 0 <= k < |fs| ==> StatusText(fs[k]).Success?
  }

  // ---------------------------------------------------------------------------------------
  // The node filter

  /** A finding is kept exactly when it is in the input and its status is not "True". */
  lemma {:induction false} NotReadyNodesMembers(fs: seq<Finding>)
    ensures |NotReadyNodes(fs)| <= |fs|
    ensures forall f :: f in NotReadyNodes(fs) <==> f in fs && NotReady(f)
  {
    if fs != [] {
      NotReadyNodesMembers(fs[1..]);
      assert fs == [fs[0]] + fs[1..];
    }
  }

  /** The node filter keeps input order: it distributes over concatenation. */
  lemma {:induction false} NotReadyNodesAppend(a: seq<Finding>, b: seq<Finding>)
    ensures NotReadyNodes(a + b) == NotReadyNodes(a) + NotReadyNodes(b)
  {
    if a == [] {
      assert a + b == b;
    } else {
      assert (a + b)[0] == a[0];
      assert (a + b)[1..] == a[1..] + b;
      NotReadyNodesAppend(a[1..], b);
      AppendAssoc(if NotReady(a[0]) then [a[0]] else [], NotReadyNodes(a[1..]), NotReadyNodes(b));
    }
  }

  /** Filtering the node anomalies again changes nothing. */
  lemma {:induction false} NotReadyNodesIdempotent(fs: seq<Finding>)
    ensures NotReadyNodes(NotReadyNodes(fs)) == NotReadyNodes(fs)
  {
    if fs != [] {
      NotReadyNodesIdempotent(fs[1..]);
      var head := if NotReady(fs[0]) then [fs[0]] else [];
      NotReadyNodesAppend(head, NotReadyNodes(fs[1..]));
    }
  }

  /** "False", "Unknown", the empty string, None and a missing key are all anomalies; only "True" is not. */
  lemma NodeStatusExamples(name: string)
    ensures NotReady(NodeEntry(name, Condition("Ready", "False")))
    ensures NotReady(NodeEntry(name, Condition("Ready", "Unknown")))
    ensures NotReady(NodeEntry(name, Condition("Ready", "")))
    ensures !NotReady(NodeEntry(name, Condition("Ready", "True")))
    ensures NotReady(map["node_name" := Str(name), "status" := Null])
    ensures NotReady(map["node_name" := Str(name)])
  {
  }

  // ---------------------------------------------------------------------------------------
  // The pod filter

  /** The pod filter raises exactly when some finding's status is not a string, and then with the
      TypeError of the first such finding. */
  lemma {:induction false} ProblematicPodsRaises(fs: seq<Finding>)
    ensures ProblematicPods(fs).Success? <==> StatusesAreText(fs)
    ensures ProblematicPods(fs).Failure? ==>
      exists k :: 0 <= k < |fs| && StatusesAreText(fs[..k]) && StatusText(fs[k]).Failure? &&
        ProblematicPods(fs).error == StatusText(fs[k]).error
  {
    if fs != [] {
      ProblematicPodsRaises(fs[1..]);
      if StatusText(fs[0]).Success? && StatusesAreText(fs[1..]) {
        forall k | 0 <= k < |fs| ensures StatusText(fs[k]).Success? {
          if k > 0 {
            assert fs[k] == fs[1..][k - 1];
          }
        }
      }
      if StatusesAreText(fs) {
        forall k | 0 <= k < |fs[1..]| ensures StatusText(fs[1..][k]).Success? {
          assert fs[1..][k] == fs[k + 1];
        }
      }
      if StatusText(fs[0]).Success? && ProblematicPods(fs[1..]).Failure? {
        var k :| 0 <= k < |fs[1..]| && StatusesAreText(fs[1..][..k]) && StatusText(fs[1..][k]).Failure? &&
          ProblematicPods(fs[1..]).error == StatusText(fs[1..][k]).error;
        assert fs[k + 1] == fs[1..][k];
        var before, tailBefore := fs[..k + 1], fs[1..][..k];
        forall j | 0 <= j < |before| ensures StatusText(before[j]).Success? {
          if j > 0 {
            assert before[j] == tailBefore[j - 1];
          }
        }
        assert StatusesAreText(before);
      }
      if StatusText(fs[0]).Failure? {
        assert StatusesAreText(fs[..0]);
      }
    }
  }

  /** A finding is kept exactly when it is in the input and its status contains one of the indicators. */
  lemma {:induction false} ProblematicPodsMembers(fs: seq<Finding>)
    requires ProblematicPods(fs).Success?
    ensures |ProblematicPods(fs).value| <= |fs|
    ensures forall f :: f in ProblematicPods(fs).value <==>
      f in fs && StatusText(f).Success? && Problematic(StatusText(f).value)
  {
    if fs != [] {
      ProblematicPodsRaises(fs);
      ProblematicPodsMembers(fs[1..]);
      assert fs == [fs[0]] + fs[1..];
      forall f | f in fs ensures StatusText(f).Success? {
        var k :| 0 <= k < |fs| && fs[k] == f;
      }
    }
  }

  /** What the pod filter keeps of the first finding, once its status is known to be text. */
  function KeptHead(f: Finding): seq<Finding>
    requires StatusText(f).Success?
  {
    if Problematic(StatusText(f).value) then [f] else []
  }

  /** A successful filter of a non-empty list: the head's status is text, the tail filters too,
      and the result is what is kept of the head followed by the tail's result. */
  lemma ProblematicPodsUncons(fs: seq<Finding>)
    requires fs != [] && ProblematicPods(fs).Success?
    ensures StatusText(fs[0]).Success? && ProblematicPods(fs[1..]).Success?
    ensures ProblematicPods(fs).value == KeptHead(fs[0]) + ProblematicPods(fs[1..]).value
  {
  }

  /** The converse step: a text head in front of a tail that filters gives a list that filters. */
  lemma ProblematicPodsCons(fs: seq<Finding>)
    requires fs != [] && StatusText(fs[0]).Success? && ProblematicPods(fs[1..]).Success?
    ensures ProblematicPods(fs).Success?
    ensures ProblematicPods(fs).value == KeptHead(fs[0]) + ProblematicPods(fs[1..]).value
  {
  }

  /** The pod filter keeps input order: it distributes over concatenation. */
  lemma {:induction false} ProblematicPodsAppend(a: seq<Finding>, b: seq<Finding>)
    requires ProblematicPods(a).Success? && ProblematicPods(b).Success?
    ensures ProblematicPods(a + b).Success?
    ensures ProblematicPods(a + b).value == ProblematicPods(a).value + ProblematicPods(b).value
  {
    if a == [] {
      assert a + b == b;
    } else {
      var ab := a + b;
      assert ab[0] == a[0] && ab[1..] == a[1..] + b;
      ProblematicPodsUncons(a);
      ProblematicPodsAppend(a[1..], b);
      ProblematicPodsCons(ab);
      var head, pa, pb := KeptHead(a[0]), ProblematicPods(a[1..]).value, ProblematicPods(b).value;
      AppendAssoc(head, pa, pb);
    }
  }

  /** Filtering the pod anomalies again returns them unchanged. */
  lemma {:induction false} ProblematicPodsIdempotent(fs: seq<Finding>)
    requires ProblematicPods(fs).Success?
    ensures ProblematicPods(ProblematicPods(fs).value).Success?
    ensures ProblematicPods(ProblematicPods(fs).value).value == ProblematicPods(fs).value
  {
    if fs != [] {
      var rest := ProblematicPods(fs[1..]).value;
      ProblematicPodsIdempotent(fs[1..]);
      var status := StatusText(fs[0]).value;
      var head := if Problematic(status) then [fs[0]] else [];
      assert ProblematicPods(head).Success? && ProblematicPods(head).value == head by {
        if head != [] {
          assert head[0] == fs[0] && head[1..] == [];
          assert ProblematicPods(head[1..]).Success? && ProblematicPods(head[1..]).value == [];
        }
      }
      ProblematicPodsAppend(head, rest);
    }
  }

  /** The sentinel of `check_pod_status` has no "status" key, so it is never a pod anomaly. */
  lemma SentinelNotProblematic()
    ensures ProblematicPods([AllPodsRunning]).Success? && ProblematicPods([AllPodsRunning]).value == []
  {
    var fs := [AllPodsRunning];
    assert fs[0] == AllPodsRunning && fs[1..] == [];
    assert StatusText(AllPodsRunning) == Success("");
    assert !Problematic("") by {
      forall k | 0 <= k < |ProblemIndicators| ensures !Contains("", ProblemIndicators[k]) {
      }
    }
  }

  /** An indicator found anywhere in the status counts, whatever surrounds it. */
  lemma IndicatorAnywhere(prefix: string, k: nat, suffix: string)
    requires k < |ProblemIndicators|
    ensures Problematic(prefix + ProblemIndicators[k] + suffix)
  {
    var ind := ProblemIndicators[k];
    var s := prefix + ind + suffix;
    assert s[|prefix|..|prefix| + |ind|] == ind;
    assert OccursAt(s, ind, |prefix|);
    ContainsIff(s, ind);
  }

  /** Each of the five indicators is a problem on its own. */
  lemma IndicatorExamples()
    ensures forall k :: 0 <= k < |ProblemIndicators| ==> Problematic(ProblemIndicators[k])
  {
    forall k | 0 <= k < |ProblemIndicators| ensures Problematic(ProblemIndicators[k]) {
      IndicatorIsProblem(k);
    }
  }

  /** The phase text "CrashLoopBackOff" is a problem. */
  lemma CrashLoopBackOffIsProblem()
    ensures Problematic("CrashLoopBackOff")
  {
    IndicatorAnywhere("", 1, "");
    assert "" + ProblemIndicators[1] + "" == "CrashLoopBackOff";
  }

  /** The indicator at position `k`, alone, is a problem. */
  lemma IndicatorIsProblem(k: nat)
    requires k < |ProblemIndicators|
    ensures Problematic(ProblemIndicators[k])
  {
    IndicatorAnywhere("", k, "");
    assert "" + ProblemIndicators[k] + "" == ProblemIndicators[k];
  }

  /** The test is case-sensitive and exact: "Running", "Succeeded" and "pending" are not problems. */
  lemma NonIndicatorExamples()
    ensures !Problematic("Running") && !Problematic("Succeeded") && !Problematic("pending")
  {
    NoIndicatorIn("Running");
    NoIndicatorIn("Succeeded");
    NoIndicatorIn("pending");
  }

  /** A status with neither 'P', 'C', 'E', 'I' nor 'F' cannot contain an indicator, as each starts with one of them. */
  lemma NoIndicatorIn(s: string)
    requires forall i :: 0 <= i < |s| ==> s[i] != 'P' && s[i] != 'C' && s[i] != 'E' && s[i] != 'I' && s[i] != 'F'
    ensures !Problematic(s)
  {
    forall k | 0 <= k < |ProblemIndicators| ensures !Contains(s, ProblemIndicators[k]) {
      var ind := ProblemIndicators[k];
      assert ind[0] == 'P' || ind[0] == 'C' || ind[0] == 'E' || ind[0] == 'I' || ind[0] == 'F';
      forall i: nat ensures !OccursAt(s, ind, i) {
        if i + |ind| <= |s| {
          assert s[i..i + |ind|][0] == s[i];
        }
      }
      ContainsIff(s, ind);
    }
  }
}
