/** Operator status conditions and the functions sync hands to UpdateStatus. */
module Conditions {
  import opened Wrappers
  import opened ClusterModel

  const AVAILABLE := "Available"
  const DEGRADED := "Degraded"

  /** The first condition of a kind. */
  function Find(cs: seq<Condition>, kind: string): Option<Condition> {
    if cs == [] then None
    else if cs[0].kind == kind then Some(cs[0])
    else Find(cs[1..], kind)
  }

  /** SetOperatorCondition: overwrite the first condition of the kind, or append; the
      transition time moves only when the status flips. */
  function SetCondition(cs: seq<Condition>, c: Condition, now: nat): seq<Condition> {
    if cs == [] then [c.(since := now)]
    else if cs[0].kind == c.kind then
      [c.(since := if cs[0].status == c.status then cs[0].since else now)] + cs[1..]
    else [cs[0]] + SetCondition(cs[1..], c, now)
  }

  lemma {:induction false} SetConditionFind(cs: seq<Condition>, c: Condition, now: nat, kind: string)
    ensures kind == c.kind ==>
              && Find(SetCondition(cs, c, now), kind).Some?
              && Find(SetCondition(cs, c, now), kind).value.(since := 0) == c.(since := 0)
    ensures kind != c.kind ==> Find(SetCondition(cs, c, now), kind) == Find(cs, kind)
  {
    if cs == [] {
      assert Find([c.(since := now)], kind) == if c.kind == kind then Some(c.(since := now)) else Find([], kind);
    } else if cs[0].kind == c.kind {
      var head := c.(since := if cs[0].status == c.status then cs[0].since else now);
      assert ([head] + cs[1..])[1..] == cs[1..];
    } else {
      SetConditionFind(cs[1..], c, now, kind);
      assert ([cs[0]] + SetCondition(cs[1..], c, now))[1..] == SetCondition(cs[1..], c, now);
    }
  }

  /** The transition time moves to now exactly when the condition is new or its status flips. */
  lemma {:induction false} SetConditionTime(cs: seq<Condition>, c: Condition, now: nat)
    ensures var before, after := Find(cs, c.kind), Find(SetCondition(cs, c, now), c.kind);
            && after.Some?
            && after.value.since ==
                 if before.Some? && before.value.status == c.status then before.value.since else now
  {
    if cs == [] {
      assert Find([c.(since := now)], c.kind) == Some(c.(since := now));
    } else if cs[0].kind != c.kind {
      SetConditionTime(cs[1..], c, now);
      assert ([cs[0]] + SetCondition(cs[1..], c, now))[1..] == SetCondition(cs[1..], c, now);
    }
  }

  /** Conditions keep their places, at most one is appended, and only conditions of the
      kind that is set can differ. */
  lemma {:induction false} SetConditionFrame(cs: seq<Condition>, c: Condition, now: nat)
    ensures var r := SetCondition(cs, c, now);
            && |r| == (if Find(cs, c.kind).Some? then |cs| else |cs| + 1)
            && forall i :: 0 <= i < |cs| ==> r[i].kind == cs[i].kind && (cs[i].kind != c.kind ==> r[i] == cs[i])
  {
    if cs != [] && cs[0].kind != c.kind {
      SetConditionFrame(cs[1..], c, now);
      var tail := SetCondition(cs[1..], c, now);
      assert forall i :: 1 <= i < |cs| ==> ([cs[0]] + tail)[i] == tail[i - 1] && cs[i] == cs[1..][i - 1];
    }
  }

  /** Setting a condition that already reads the same changes nothing. */
  lemma {:induction false} SetConditionIdle(cs: seq<Condition>, c: Condition, now: nat)
    requires Find(cs, c.kind).Some? && Find(cs, c.kind).value.(since := 0) == c.(since := 0)
    ensures SetCondition(cs, c, now) == cs
  {
    if cs[0].kind == c.kind {
      assert cs == [cs[0]] + cs[1..];
    } else {
      SetConditionIdle(cs[1..], c, now);
      assert cs == [cs[0]] + cs[1..];
    }
  }

  /** What the deployment lister returned: an object, not found, or another error. */
  datatype Listed = Found(dep: Object) | NotFound | Failed(message: string)

  predicate Serving(d: Listed) {
    d.Found? && d.dep.spec.Deploy? && Deref(d.dep.spec.replicas, -1) == d.dep.available
  }

  function AvailableCondition(d: Listed): Condition {
    if Serving(d) then Condition(AVAILABLE, true, "AsExpected", "", 0)
    else if d.Failed? then Condition(AVAILABLE, false, "DeploymentUnavailable", d.message, 0)
    else Condition(AVAILABLE, false, "DeploymentUnavailable", "Operand Deployment is not available", 0)
  }

  /** constructAvailableCondition. A missing replica count reads as -1. */
  method ConstructAvailableCondition(d: Listed) returns (c: Condition)
    ensures c == AvailableCondition(d)
    ensures c.kind == "Available" && c.reason == if c.status then "AsExpected" else "DeploymentUnavailable"
    ensures c.message == if c.status then "" else if d.Failed? then d.message else "Operand Deployment is not available"
    ensures d.Found? && d.dep.spec.Deploy? && d.dep.available >= 0 ==>
              (c.status <==> d.dep.spec.replicas == Some(d.dep.available))
    ensures !d.Found? ==> !c.status
  {
    c := Condition(AVAILABLE, true, "AsExpected", "", 0);
    if !d.Found? || !d.dep.spec.Deploy? || Deref(d.dep.spec.replicas, -1) != d.dep.available {
      c := c.(status := false, reason := "DeploymentUnavailable");
      if d.Failed? {
        c := c.(message := d.message);
      } else {
        c := c.(message := "Operand Deployment is not available");
      }
    }
  }

  const MISSING_DEPENDENCY := Condition(
    DEGRADED, true, "MissingDependency", "please make sure that cert-manager is installed on your cluster", 0)
  const NOT_DEGRADED := Condition(DEGRADED, false, "AsExpected", "", 0)

  /** The functions passed to UpdateStatus by the first, the missing-dependency and the last update. */
  function WithCondition(st: Status, c: Condition, now: nat): Status {
    st.(conditions := SetCondition(st.conditions, c, now))
  }

  /** The status has this condition, whenever it came about. */
  predicate Holds(st: Status, c: Condition) {
    Find(st.conditions, c.kind).Some? && Find(st.conditions, c.kind).value.(since := 0) == c.(since := 0)
  }

  /** Setting a condition changes nothing exactly when the status has it. */
  lemma WithConditionIdle(st: Status, c: Condition, now: nat)
    ensures WithCondition(st, c, now) == st <==> Holds(st, c)
  {
    SetConditionFind(st.conditions, c, now, c.kind);
    if Holds(st, c) {
      SetConditionIdle(st.conditions, c, now);
    }
  }

  function FinalStatus(st: Status, dep: Object, now: nat): Status {
    var noted := st.(recorded := Some(dep.gen), ready := dep.available);
    WithCondition(WithCondition(noted, AvailableCondition(Found(dep)), now), NOT_DEGRADED, now)
  }

  /** What a complete managed sync promises about the status it wrote. */
  predicate Reported(st: Status, dep: Object) {
    && Find(st.conditions, DEGRADED).Some?
    && Find(st.conditions, DEGRADED).value.(since := 0) == NOT_DEGRADED
    && Find(st.conditions, AVAILABLE).Some?
    && Find(st.conditions, AVAILABLE).value.(since := 0) == AvailableCondition(Found(dep))
    && st.ready == dep.available
    && st.recorded == Some(dep.gen)
  }

  lemma FinalStatusReports(st: Status, dep: Object, now: nat)
    ensures Reported(FinalStatus(st, dep, now), dep)
    ensures forall kind :: kind != AVAILABLE && kind != DEGRADED ==>
              Find(FinalStatus(st, dep, now).conditions, kind) == Find(st.conditions, kind)
  {
    var a := AvailableCondition(Found(dep));
    var first := SetCondition(st.conditions, a, now);
    SetConditionFind(st.conditions, a, now, AVAILABLE);
    SetConditionFind(first, NOT_DEGRADED, now, AVAILABLE);
    SetConditionFind(first, NOT_DEGRADED, now, DEGRADED);
    forall kind | kind != AVAILABLE && kind != DEGRADED
      ensures Find(SetCondition(first, NOT_DEGRADED, now), kind) == Find(st.conditions, kind)
    {
      SetConditionFind(st.conditions, a, now, kind);
      SetConditionFind(first, NOT_DEGRADED, now, kind);
    }
  }

  /** The last update writes nothing exactly when the status already reports the Deployment. */
  lemma FinalStatusIdle(st: Status, dep: Object, now: nat)
    ensures FinalStatus(st, dep, now) == st <==> Reported(st, dep)
  {
    FinalStatusReports(st, dep, now);
    if Reported(st, dep) {
      SetConditionIdle(st.conditions, AvailableCondition(Found(dep)), now);
      SetConditionIdle(st.conditions, NOT_DEGRADED, now);
    }
  }

  // ---- Written out

  /** What the update for a missing dependency puts there. */
  lemma MissingWords(st: Status, now: nat)
    ensures var d := Find(WithCondition(st, MISSING_DEPENDENCY, now).conditions, "Degraded");
            && d.Some? && d.value.(since := 0) ==
                 Condition("Degraded", true, "MissingDependency",
                           "please make sure that cert-manager is installed on your cluster", 0)
    ensures forall kind :: kind != "Degraded" ==>
              Find(WithCondition(st, MISSING_DEPENDENCY, now).conditions, kind) == Find(st.conditions, kind)
  {
    SetConditionFind(st.conditions, MISSING_DEPENDENCY, now, "Degraded");
    forall kind | kind != "Degraded"
      ensures Find(WithCondition(st, MISSING_DEPENDENCY, now).conditions, kind) == Find(st.conditions, kind)
    {
      SetConditionFind(st.conditions, MISSING_DEPENDENCY, now, kind);
    }
  }

  /** What a status says that reports a Deployment, and nothing less reports it. */
  lemma ReportedWords(st: Status, dep: Object)
    requires dep.spec.Deploy? && dep.available >= 0
    ensures var serving := dep.spec.replicas == Some(dep.available);
            var a, d := Find(st.conditions, "Available"), Find(st.conditions, "Degraded");
            Reported(st, dep) <==>
              && d.Some? && d.value.(since := 0) == Condition("Degraded", false, "AsExpected", "", 0)
              && a.Some? && a.value.(since := 0) ==
                   (if serving then Condition("Available", true, "AsExpected", "", 0)
                    else Condition("Available", false, "DeploymentUnavailable",
                                   "Operand Deployment is not available", 0))
              && st.ready == dep.available && st.recorded == Some(dep.gen)
  {
  }

  /** The two transition times after the last update: each moves exactly when its status flips. */
  lemma FinalTimes(st: Status, dep: Object, now: nat)
    requires dep.spec.Deploy? && dep.available >= 0
    ensures var a, d := Find(st.conditions, "Available"), Find(st.conditions, "Degraded");
            var b, e := Find(FinalStatus(st, dep, now).conditions, "Available"),
                        Find(FinalStatus(st, dep, now).conditions, "Degraded");
            && b.Some? && e.Some?
            && b.value.since == (if a.Some? && a.value.status == (dep.spec.replicas == Some(dep.available))
                                 then a.value.since else now)
            && e.value.since == (if d.Some? && !d.value.status then d.value.since else now)
  {
    var available := AvailableCondition(Found(dep));
    var first := SetCondition(st.conditions, available, now);
    SetConditionTime(st.conditions, available, now);
    SetConditionFind(st.conditions, available, now, "Degraded");
    SetConditionFind(first, NOT_DEGRADED, now, "Available");
    SetConditionTime(first, NOT_DEGRADED, now);
  }
}
