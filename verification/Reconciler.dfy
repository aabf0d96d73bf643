/** sync as the operator runs it: straight-line code with early returns over a cluster that
    other actors change between any two calls. Every method is tied to a step of the state
    machine, so everything proved about runs holds of it. */
module Reconciler {
  import opened Wrappers
  import opened ClusterModel
  import opened Conditions
  import opened Applying
  import opened ApiHistory
  import opened Machine
  import opened Plans
  import Decimal
  import Template

  /** The API server, the informer caches, and what the environment is going to do. */
  class Cluster {
    const cfg: Config
    var hist: seq<Snapshot>
    var secretIx: nat
    var deployIx: nat
    var operatorIx: nat
    var plan: seq<Gap>

    predicate Valid()
      reads this
    {
      0 < |hist| && secretIx < |hist| && deployIx < |hist| && operatorIx < |hist|
    }

    function Now(): World
      requires Valid()
      reads this
    {
      Store(hist, secretIx, deployIx, operatorIx)
    }

    constructor (cfg: Config, w: World, plan: seq<Gap>)
      ensures Valid() && Now() == w && this.plan == plan && this.cfg == cfg
    {
      this.cfg, this.plan := cfg, plan;
      hist, secretIx, deployIx, operatorIx := w.hist, w.secretIx, w.deployIx, w.operatorIx;
    }

    method Become(w: World)
      modifies this
      ensures Valid() && Now() == w && plan == old(plan)
    {
      hist, secretIx, deployIx, operatorIx := w.hist, w.secretIx, w.deployIx, w.operatorIx;
    }

    /** The environment takes its turn before the next call. */
    method Turn() returns (c: Choice)
      requires Valid()
      modifies this
      ensures Valid() && Now() == EnvAll(old(Now()), Head(old(plan)).acts)
      ensures plan == Tail(old(plan)) && c == Head(old(plan)).choice
    {
      var acts := Head(plan).acts;
      c := Head(plan).choice;
      plan := Tail(plan);
      while acts != []
        invariant Valid() && plan == Tail(old(plan))
        invariant EnvAll(Now(), acts) == EnvAll(old(Now()), Head(old(plan)).acts)
        decreases |acts|
      {
        Become(EnvStep(Now(), acts[0]));
        acts := acts[1..];
      }
    }

    /** One attempt of v1helpers.UpdateStatus that lands or fails for good. */
    method UpdateStatus(base: Option<Operator>, result: Status, fault: Fault) returns (err: Option<Error>)
      requires Valid()
      modifies this
      ensures Valid() && plan == old(plan)
      ensures var t := StepStatus(State(old(Now()), true, 0, START, None, []), Choice(fault, 0, 0, None), base, result);
              Now() == t.w && err == t.err
    {
      if base.None? {
        return Some(NoOperator);
      }
      if fault.Refused? {
        return Some(CallFailed);
      }
      if result != base.value.status {
        if hist[|hist| - 1].operator.None? {
          return Some(CallFailed);
        }
        var live := hist[|hist| - 1];
        hist := hist + [live.(operator := Some(live.operator.value.(status := result)))];
      }
      err := if fault.Lost? then Some(CallFailed) else None;
    }

    /** One call of a library-go apply function. */
    method ApplyManifest(k: Key, req: Manifest, expected: int, fault: Fault)
      returns (err: Option<Error>, o: Option<Object>)
      requires Valid()
      modifies this
      ensures Valid() && plan == old(plan)
      ensures err == if fault.Fine? then None else Some(CallFailed)
      ensures Now() == if fault.Refused? then old(Now()) else ApplyWorld(old(Now()), k, req, expected)
      ensures fault.Fine? ==> o == Some(ApplyObject(old(Now()), k, req, expected))
    {
      o := None;
      if fault.Refused? {
        return Some(CallFailed), None;
      }
      var live := hist[|hist| - 1];
      var existing := ObjectAt(live, k);
      var actual: Object;
      match Decide(k, existing, req, expected) {
        case Skip =>
          actual := existing.value;
        case Write(meta, spec) =>
          actual := Stored(existing, meta, spec, |hist|);
          if existing != Some(actual) {
            hist := hist + [live.(objs := live.objs[k := actual])];
          }
      }
      if fault.Lost? {
        return Some(CallFailed), None;
      }
      return None, Some(actual);
    }
  }

  /** isResourceRegistered: the group version may be unknown, the kind not among its own. */
  method IsResourceRegistered(kinds: Option<seq<string>>, kind: string) returns (found: bool)
    ensures found <==> kinds.Some? && kind in kinds.value
  {
    if kinds.None? {
      return false;
    }
    for i := 0 to |kinds.value|
      invariant kind !in kinds.value[..i]
    {
      if kinds.value[i] == kind {
        return true;
      }
    }
    assert kinds.value[..|kinds.value|] == kinds.value;
    return false;
  }

  /** Where the code and the state machine are at the same point. */
  ghost predicate Same(cluster: Cluster, s: State)
    reads cluster
  {
    cluster.Valid() && WellFormed(cluster.cfg) && s.w == cluster.Now()
  }

  class TargetConfigReconciler {
    const cfg: Config
    const cluster: Cluster

    constructor (cluster: Cluster)
      ensures this.cluster == cluster && cfg == cluster.cfg
    {
      this.cluster := cluster;
      cfg := cluster.cfg;
    }

    ghost predicate At(s: State, instr: Instr)
      reads cluster
    {
      Same(cluster, s) && cfg == cluster.cfg && s.running && s.err.None? && s.pc < END && InstrAt(s.pc) == instr
    }

    /** The step that took the machine from s to t was the one the code just made, as the
        first entry of the plan had it. */
    ghost predicate Stepped(s: State, t: State, err: Option<Error>, plan: seq<Gap>)
      requires s.pc < END && WellFormed(cfg)
      reads cluster
    {
      && Same(cluster, t) && t == Turned(cfg, s, Head(plan)) && cluster.plan == Tail(plan)
      && err == t.err
    }

    method GetOperatorState(ghost s: State) returns (managed: bool, err: Option<Error>, ghost t: State)
      requires At(s, Observe)
      modifies cluster
      ensures Stepped(s, t, err, old(cluster.plan))
      ensures t.running <==> managed && err.None?
      ensures t.running ==> t.l == s.l
      ensures var o := cluster.hist[cluster.operatorIx].operator;
              && (err.None? <==> o.Some?)
              && (managed <==> o.Some? && (o.value.management == "" || o.value.management == "Managed"))
    {
      var _ := cluster.Turn();
      t := OpStep(cfg, s.(w := cluster.Now()), Head(old(cluster.plan)).choice);
      var o := cluster.hist[cluster.operatorIx].operator;
      if o.None? {
        return false, Some(NoOperator), t;
      }
      managed := o.value.management == "" || o.value.management == "Managed";
      err := None;
    }

    method ReportAvailability(ghost s: State) returns (err: Option<Error>, ghost t: State)
      requires At(s, ReportAvailable)
      modifies cluster
      ensures Stepped(s, t, err, old(cluster.plan))
      ensures t.running <==> err.None?
      ensures t.running ==> t.l == s.l
    {
      hide WithCondition, AvailableCondition, EnvAll, StepStatus, WellFormed;
      var c := cluster.Turn();
      t := OpStep(cfg, s.(w := cluster.Now()), c);
      var listed: Listed;
      if c.listerError.Some? {
        listed := Failed(c.listerError.value);
      } else if Deployment in cluster.hist[cluster.deployIx].objs {
        listed := Found(cluster.hist[cluster.deployIx].objs[Deployment]);
      } else {
        listed := NotFound;
      }
      var cond := ConstructAvailableCondition(listed);
      var base := BaseOperator(cluster.Now(), c);
      var result := WithCondition(BaseStatus(cluster.Now(), c), cond, c.now);
      SameUpdate(s.(w := cluster.Now()), c, base, result);
      err := cluster.UpdateStatus(base, result, c.fault);
    }

    method CheckDependency(ghost s: State) returns (err: Option<Error>, ghost t: State)
      requires At(s, CheckCertManager)
      modifies cluster
      ensures Stepped(s, t, err, old(cluster.plan))
      ensures t.running <==> err.None?
      ensures t.running ==> t.l == s.l
    {
      hide WithCondition, EnvAll, StepStatus, WellFormed;
      var c := cluster.Turn();
      t := OpStep(cfg, s.(w := cluster.Now()), c);
      var found := IsResourceRegistered(cluster.hist[|cluster.hist| - 1].certManagerKinds, "Issuer");
      if !found {
        var base := BaseOperator(cluster.Now(), c);
        var result := WithCondition(BaseStatus(cluster.Now(), c), MISSING_DEPENDENCY, c.now);
        SameUpdate(s.(w := cluster.Now()), c, base, result);
        err := cluster.UpdateStatus(base, result, c.fault);
        if err.None? {
          err := Some(CertManagerMissing);
        }
        return;
      }
      err := if c.fault.Fine? then None else Some(CallFailed);
    }

    method ServerVersion(ghost s: State) returns (legacy: bool, err: Option<Error>, ghost t: State)
      requires At(s, CheckVersion)
      modifies cluster
      ensures Stepped(s, t, err, old(cluster.plan))
      ensures t.running <==> err.None?
      ensures t.running ==> t.l == s.l.(legacy := legacy)
    {
      hide EnvAll, WellFormed;
      var c := cluster.Turn();
      t := OpStep(cfg, s.(w := cluster.Now()), c);
      var live := cluster.hist[|cluster.hist| - 1];
      legacy := live.major == 1 && live.minor <= 31;
      err := if c.fault.Fine? then None else Some(CallFailed);
    }

    method GetOperator(ghost s: State) returns (operator: Operator, err: Option<Error>, ghost t: State)
      requires At(s, FetchOperator)
      modifies cluster
      ensures Stepped(s, t, err, old(cluster.plan))
      ensures t.running <==> err.None?
      ensures t.running ==> t.l == s.l.(operator := Some(operator))
    {
      hide EnvAll;
      var c := cluster.Turn();
      t := OpStep(cfg, s.(w := cluster.Now()), c);
      var o := cluster.hist[cluster.operatorIx].operator;
      if o.None? {
        return Operator("", "", "", Status([], None, 0)), Some(NoOperator), t;
      }
      operator, err := o.value, None;
    }

    /** manageX for every object applied as its asset stands, with the owner reference. */
    method Manage(k: Key, uid: string, spec: Spec, expected: int, ghost s: State)
      returns (o: Option<Object>, err: Option<Error>, ghost t: State)
      requires At(s, Apply(k)) && k in APPLY_ORDER
      requires spec == RequiredSpec(cfg, k, s.l) && s.l.operator.Some? && uid == s.l.operator.value.uid
      requires k == Deployment ==> expected == ExpectedGeneration(s.l)
      modifies cluster
      ensures Stepped(s, t, err, old(cluster.plan))
      ensures t.running ==> err.None?
      ensures err.None? ==> o.Some? && t.running == (s.pc + 1 < END)
      ensures err.None? ==> t.l == s.l.(calls := s.l.calls + [k],
                                        config := if k == ConfigMap then o else s.l.config,
                                        dep := if k == Deployment then o else s.l.dep)
    {
      hide RequiredSpec, ApplyWorld, ApplyObject, EnvAll, WellFormed;
      var c := cluster.Turn();
      t := OpStep(cfg, s.(w := cluster.Now()), c);
      OtherGeneration(cluster.Now(), k, Owned(cfg, k, uid, spec), expected, ExpectedGeneration(s.l));
      err, o := cluster.ApplyManifest(k, Owned(cfg, k, uid, spec), expected, c.fault);
    }

    method CheckSecretReady(web: bool, ghost s: State)
      returns (secret: Option<Object>, err: Option<Error>, ghost t: State)
      requires At(s, if web then GateWebhook else GateMetrics)
      modifies cluster
      ensures Stepped(s, t, err, old(cluster.plan))
      ensures t.running <==> err.None?
      ensures t.running ==> secret.Some?
      ensures t.running ==>
                t.l == if web then s.l.(webIx := t.l.webIx, web := secret) else s.l.(metIx := t.l.metIx, met := secret)
    {
      hide EnvAll;
      var c := cluster.Turn();
      t := OpStep(cfg, s.(w := cluster.Now()), c);
      var k := if web then WebhookSecret else MetricsSecret;
      secret := ObjectAt(cluster.hist[cluster.secretIx], k);
      if secret.None? {
        return None, Some(SecretMissing), t;
      }
      if !secret.value.spec.SecretData? || |secret.value.spec.crt| == 0 || |secret.value.spec.key| == 0 {
        return None, Some(SecretEmpty), t;
      }
      err := None;
    }

    /** The first half of manageCRD: the bundle of the live CRD goes into the asset's. */
    method ReadCurrentCrd(crd: Spec, ghost s: State) returns (merged: Spec, err: Option<Error>, ghost t: State)
      requires At(s, ReadCrd) && crd == cfg.manifests[JobSetCrd].spec
      modifies cluster
      ensures Stepped(s, t, err, old(cluster.plan))
      ensures t.running <==> err.None?
      ensures t.running ==> t.l == s.l.(bundle := t.l.bundle)
      ensures t.running ==> merged.Crd?
      ensures t.running ==>
                RequiredSpec(cfg, JobSetCrd, t.l)
                == if s.l.legacy then merged.(versions := cfg.legacyCrd.versions) else merged
    {
      hide EnvAll, WellFormed;
      CrdShape(cfg);
      var c := cluster.Turn();
      t := OpStep(cfg, s.(w := cluster.Now()), c);
      merged := crd;
      if !c.fault.Fine? {
        return merged, Some(CallFailed), t;
      }
      var current := ObjectAt(cluster.hist[|cluster.hist| - 1], JobSetCrd);
      if current.Some? && crd.conversion.ClientConfig? {
        if !current.value.spec.Crd? || !current.value.spec.conversion.ClientConfig? {
          return merged, Some(Panic), t;
        }
        merged := crd.(conversion := crd.conversion.(bundle := current.value.spec.conversion.bundle));
      }
      err := None;
    }

    method ReportDone(dep: Object, ghost s: State) returns (err: Option<Error>, ghost t: State)
      requires At(s, ReportFinal) && s.l.dep == Some(dep)
      modifies cluster
      ensures Stepped(s, t, err, old(cluster.plan))
      ensures !t.running
    {
      hide WithCondition, AvailableCondition, EnvAll, StepStatus, WellFormed;
      LastOne(s.pc);
      var c := cluster.Turn();
      t := OpStep(cfg, s.(w := cluster.Now()), c);
      var base := BaseOperator(cluster.Now(), c);
      var status := BaseStatus(cluster.Now(), c);
      status := status.(recorded := Some(dep.gen), ready := dep.available);
      var available := ConstructAvailableCondition(Found(dep));
      status := WithCondition(status, available, c.now);
      status := WithCondition(status, NOT_DEGRADED, c.now);
      SameUpdate(s.(w := cluster.Now()), c, base, status);
      err := cluster.UpdateStatus(base, status, c.fault);
    }

    /** The Deployment asset with its template rewritten. */
    method DeploymentSpec(operator: Operator, specAnnotations: map<string, string>, ghost l: Locals)
      returns (spec: Spec)
      requires WellFormed(cfg) && l.operator == Some(operator)
      requires specAnnotations == Template.SpecAnnotations(Version(l.web), Version(l.met), Version(l.config))
      ensures spec == RequiredSpec(cfg, Deployment, l)
    {
      hide Template.Build;
      var asset := cfg.manifests[Deployment].spec;
      var template := asset.template;
      var containers := new Container[|template.containers|](
        i requires 0 <= i < |template.containers| => template.containers[i]);
      var initContainers := new Container[|template.initContainers|](
        i requires 0 <= i < |template.initContainers| => template.initContainers[i]);
      assert containers[..] == template.containers && initContainers[..] == template.initContainers;
      var built := Template.ManageTemplate(template.annotations, containers, initContainers, template.rest,
                                           cfg.image, operator.logLevel, specAnnotations);
      spec := asset.(template := built);
    }

    // ---- The stretches of sync

    /** The plan has been followed from s to t, and the code stands where t does. */
    ghost predicate Followed(s: State, plan: seq<Gap>, t: State, err: Option<Error>)
      requires WellFormed(cfg)
      reads cluster
    {
      Same(cluster, t) && Exec(cfg, s, plan) == Exec(cfg, t, cluster.plan) && err == t.err && (t.running ==> err.None?)
    }

    /** From the management check to the operator resource. */
    method Prologue(ghost s: State)
      returns (managed: bool, legacy: bool, operator: Operator, err: Option<Error>, ghost t: State)
      requires Same(cluster, s) && cfg == cluster.cfg && s.running && s.err.None? && s.pc == 0
      modifies cluster
      ensures Followed(s, old(cluster.plan), t, err)
      ensures t.running <==> managed && err.None?
      ensures t.running ==> t.pc == 5 && t.l == s.l.(legacy := legacy, operator := Some(operator))
    {
      hide InstrAt, Perform, WellFormed;
      PrologueAt();
      Turns(cfg);
      legacy, operator := false, Operator("", "", "", Status([], None, 0));
      managed, err, t := GetOperatorState(s);
      if err.Some? || !managed { return; }
      err, t := ReportAvailability(t);
      if err.Some? { return; }
      err, t := CheckDependency(t);
      if err.Some? { return; }
      legacy, err, t := ServerVersion(t);
      if err.Some? { return; }
      operator, err, t := GetOperator(t);
    }

    /** The static objects and certificates, then the two secrets cert-manager makes of them. */
    method Certificates(operator: Operator, ghost s: State)
      returns (webhookSecret: Option<Object>, metricsSecret: Option<Object>, err: Option<Error>, ghost t: State)
      requires Same(cluster, s) && cfg == cluster.cfg && s.running && s.err.None? && s.pc == 5
      requires s.l.operator == Some(operator)
      modifies cluster
      ensures Followed(s, old(cluster.plan), t, err)
      ensures t.running <==> err.None?
      ensures t.running ==> t.pc == 12 && webhookSecret.Some? && metricsSecret.Some?
      ensures t.running ==> t.l.web == webhookSecret && t.l.met == metricsSecret
      ensures t.running ==> t.l.operator == s.l.operator && t.l.legacy == s.l.legacy
    {
      hide InstrAt, Perform, WellFormed, RequiredSpec;
      CertificatesAt();
      GatesAt();
      Turns(cfg);
      webhookSecret, metricsSecret := None, None;
      var applied;
      applied, err, t := ManagePlain(NetworkPolicy, operator, s);
      if err.Some? { return; }
      applied, err, t := ManagePlain(WebhookService, operator, t);
      if err.Some? { return; }
      applied, err, t := ManagePlain(Issuer, operator, t);
      if err.Some? { return; }
      applied, err, t := ManagePlain(ServingCert, operator, t);
      if err.Some? { return; }
      applied, err, t := ManagePlain(MetricsCert, operator, t);
      if err.Some? { return; }
      webhookSecret, err, t := CheckSecretReady(true, t);
      if err.Some? { return; }
      metricsSecret, err, t := CheckSecretReady(false, t);
    }

    /** The webhook configurations, the CRD and the monitoring objects. */
    method Webhooks(operator: Operator, legacy: bool, ghost s: State) returns (err: Option<Error>, ghost t: State)
      requires Same(cluster, s) && cfg == cluster.cfg && s.running && s.err.None? && s.pc == 12
      requires s.l.operator == Some(operator) && s.l.legacy == legacy
      modifies cluster
      ensures Followed(s, old(cluster.plan), t, err)
      ensures t.running <==> err.None?
      ensures t.running ==> t.pc == 19 && t.l.operator == s.l.operator && t.l.web == s.l.web && t.l.met == s.l.met
    {
      hide InstrAt, Perform, WellFormed, RequiredSpec;
      WebhooksAt();
      MonitoringAt();
      Turns(cfg);
      var applied;
      applied, err, t := ManagePlain(ValidatingWebhook, operator, s);
      if err.Some? { return; }
      applied, err, t := ManagePlain(MutatingWebhook, operator, t);
      if err.Some? { return; }
      err, t := ManageCrd(operator, legacy, t);
      if err.Some? { return; }
      applied, err, t := ManagePlain(PrometheusRole, operator, t);
      if err.Some? { return; }
      applied, err, t := ManagePlain(PrometheusRoleBinding, operator, t);
      if err.Some? { return; }
      applied, err, t := ManagePlain(ServiceMonitor, operator, t);
    }

    method ManagePlain(k: Key, operator: Operator, ghost s: State)
      returns (o: Option<Object>, err: Option<Error>, ghost t: State)
      requires At(s, Apply(k)) && k in APPLY_ORDER && k != JobSetCrd && k != Deployment && s.pc < END - 1
      requires s.l.operator == Some(operator)
      modifies cluster
      ensures Stepped(s, t, err, old(cluster.plan))
      ensures t.running <==> err.None?
      ensures err.None? ==>
                o.Some? && t.l == s.l.(calls := s.l.calls + [k], config := if k == ConfigMap then o else s.l.config)
    {
      hide WellFormed, RequiredSpec, Turned;
      PlainSpec(cfg, k, s.l);
      InManifests(cfg, k);
      o, err, t := Manage(k, operator.uid, cfg.manifests[k].spec, -1, s);
    }

    method ManageCrd(operator: Operator, legacy: bool, ghost s: State) returns (err: Option<Error>, ghost t: State)
      requires At(s, ReadCrd) && s.pc == 14 && s.l.operator == Some(operator) && s.l.legacy == legacy
      modifies cluster
      ensures Followed(s, old(cluster.plan), t, err)
      ensures t.running <==> err.None?
      ensures t.running ==> t.pc == 16
      ensures t.running ==> t.l.operator == s.l.operator && t.l.web == s.l.web && t.l.met == s.l.met
    {
      hide InstrAt, Perform, WellFormed, RequiredSpec;
      WebhooksAt();
      Turns(cfg);
      InManifests(cfg, JobSetCrd);
      var crd;
      crd, err, t := ReadCurrentCrd(cfg.manifests[JobSetCrd].spec, s);
      if err.Some? { return; }
      if legacy {
        CrdShape(cfg);
        crd := crd.(versions := cfg.legacyCrd.versions);
      }
      var applied;
      applied, err, t := Manage(JobSetCrd, operator.uid, crd, -1, t);
    }

    /** The ConfigMap, the Deployment stamped with what was seen, and the final report. */
    method Workload(operator: Operator, specAnnotations: map<string, string>, ghost s: State)
      returns (err: Option<Error>, ghost t: State)
      requires Same(cluster, s) && cfg == cluster.cfg && s.running && s.err.None? && s.pc == 19
      requires s.l.operator == Some(operator)
      requires specAnnotations == map[Template.WEBHOOK_SECRET_KEY := Decimal.Render(Version(s.l.web)),
                                      Template.METRICS_SECRET_KEY := Decimal.Render(Version(s.l.met))]
      modifies cluster
      ensures Followed(s, old(cluster.plan), t, err)
      ensures !t.running
    {
      hide InstrAt, Perform, WellFormed, RequiredSpec, Decimal.Render;
      WorkloadAt();
      Turns(cfg);
      var configMap, deployment;
      configMap, err, t := ManagePlain(ConfigMap, operator, s);
      if err.Some? { return; }
      var annotations := specAnnotations[Template.CONFIG_MAP_KEY := Decimal.Render(configMap.value.rv)];
      var spec := DeploymentSpec(operator, annotations, t.l);
      deployment, err, t := Manage(Deployment, operator.uid, spec,
                                   if operator.status.recorded.Some? then operator.status.recorded.value else -1, t);
      if err.Some? { return; }
      err, t := ReportDone(deployment.value, t);
    }

    /** One sync, for every plan of the environment: it ends in the state the machine ends in,
        with the same error. */
    method Sync() returns (err: Option<Error>)
      requires cluster.Valid() && cfg == cluster.cfg && WellFormed(cfg)
      modifies cluster
      ensures cluster.Valid()
      ensures var t := Exec(cfg, Start(old(cluster.Now())), old(cluster.plan));
              cluster.Now() == t.w && err == t.err && !t.running
      ensures var w := EnvAll(old(cluster.Now()), Head(old(cluster.plan)).acts);
              var o := w.hist[w.operatorIx].operator;
              o.Some? && o.value.management != "" && o.value.management != "Managed" ==>
                err.None? && cluster.Now() == w
    {
      UnmanagedExec(cfg, cluster.Now(), cluster.plan);
      hide Perform, WellFormed, RequiredSpec, Decimal.Render;
      ghost var s := Start(cluster.Now());
      ghost var t;
      var managed, legacy, operator, webhookSecret, metricsSecret;
      managed, legacy, operator, err, t := Prologue(s);
      if err.Some? || !managed { return; }
      var specAnnotations := map[];
      webhookSecret, metricsSecret, err, t := Certificates(operator, t);
      if err.Some? { return; }
      specAnnotations := specAnnotations[Template.WEBHOOK_SECRET_KEY := Decimal.Render(webhookSecret.value.rv)];
      specAnnotations := specAnnotations[Template.METRICS_SECRET_KEY := Decimal.Render(metricsSecret.value.rv)];
      err, t := Webhooks(operator, legacy, t);
      if err.Some? { return; }
      err, t := Workload(operator, specAnnotations, t);
    }
  }

  /** A status update does to the world, and answers, the same in every running sync. */
  lemma SameUpdate(s: State, c: Choice, base: Option<Operator>, result: Status)
    requires s.running && s.err.None?
    ensures var t := StepStatus(s, c, base, result);
            var u := StepStatus(State(s.w, true, 0, START, None, []), Choice(c.fault, 0, 0, None), base, result);
            t.w == u.w && t.err == u.err && t.l == s.l && (t.running <==> t.err.None? && s.pc + 1 < END)
  {
  }

  /** Unfolding the execution of a plan by one step, at every state. */
  lemma Turns(cfg: Config)
    requires WellFormed(cfg)
    ensures forall s: State, plan: seq<Gap> {:trigger Turned(cfg, s, Head(plan))} :: s.running && s.pc < END ==>
              && Exec(cfg, s, plan) == Exec(cfg, Turned(cfg, s, Head(plan)), Tail(plan))
              && Turned(cfg, s, Head(plan)).pc == s.pc + 1
  {
    hide WellFormed, Turned;
    forall s: State, plan: seq<Gap> | s.running && s.pc < END
      ensures Exec(cfg, s, plan) == Exec(cfg, Turned(cfg, s, Head(plan)), Tail(plan))
      ensures Turned(cfg, s, Head(plan)).pc == s.pc + 1
    {
      TurnedPc(cfg, s, Head(plan));
      ExecStep(cfg, s, plan);
    }
  }

  lemma PrologueAt()
    ensures InstrAt(0) == Observe && InstrAt(1) == ReportAvailable && InstrAt(2) == CheckCertManager
    ensures InstrAt(3) == CheckVersion && InstrAt(4) == FetchOperator
  {
  }

  lemma CertificatesAt()
    ensures InstrAt(5) == Apply(NetworkPolicy) && InstrAt(6) == Apply(WebhookService) && InstrAt(7) == Apply(Issuer)
    ensures InstrAt(8) == Apply(ServingCert)
  {
  }

  lemma GatesAt()
    ensures InstrAt(9) == Apply(MetricsCert)
    ensures InstrAt(10) == GateWebhook && InstrAt(11) == GateMetrics
  {
  }

  lemma WebhooksAt()
    ensures InstrAt(12) == Apply(ValidatingWebhook) && InstrAt(13) == Apply(MutatingWebhook)
    ensures InstrAt(14) == ReadCrd && InstrAt(15) == Apply(JobSetCrd)
  {
  }

  lemma MonitoringAt()
    ensures InstrAt(16) == Apply(PrometheusRole) && InstrAt(17) == Apply(PrometheusRoleBinding)
    ensures InstrAt(18) == Apply(ServiceMonitor)
  {
  }

  lemma WorkloadAt()
    ensures InstrAt(19) == Apply(ConfigMap) && InstrAt(20) == Apply(Deployment) && InstrAt(21) == ReportFinal
  {
  }

  /** Objects applied as their assets stand. */
  lemma PlainSpec(cfg: Config, k: Key, l: Locals)
    requires WellFormed(cfg) && k in APPLY_ORDER && k != JobSetCrd && k != Deployment
    ensures RequiredSpec(cfg, k, l) == cfg.manifests[k].spec
  {
  }

  lemma InManifests(cfg: Config, k: Key)
    requires WellFormed(cfg) && k in APPLY_ORDER
    ensures k in cfg.manifests
  {
  }

  lemma CrdShape(cfg: Config)
    requires WellFormed(cfg)
    ensures cfg.legacyCrd.Crd? && JobSetCrd in cfg.manifests && cfg.manifests[JobSetCrd].spec.Crd?
    ensures cfg.legacyCrd.conversion == cfg.manifests[JobSetCrd].spec.conversion
  {
  }

  lemma LastOne(pc: nat)
    requires pc < END && InstrAt(pc) == ReportFinal
    ensures pc == END - 1
  {
  }

  /** The expected generation is looked at for the Deployment only. */
  lemma OtherGeneration(w: World, k: Key, req: Manifest, e: int, f: int)
    requires k == Deployment ==> e == f
    ensures ApplyWorld(w, k, req, e) == ApplyWorld(w, k, req, f)
    ensures ApplyObject(w, k, req, e) == ApplyObject(w, k, req, f)
  {
  }
}
