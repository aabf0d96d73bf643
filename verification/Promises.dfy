/** What one sync promises, in strings and fields: when it completes, what it calls, and what the
    cluster holds when it has. */
module Promises {
  import opened Wrappers
  import opened ClusterModel
  import opened Conditions
  import opened Applying
  import opened ApiHistory
  import opened Machine
  import opened Safety
  import opened Completion
  import opened QuietRuns
  import CaBundle
  import Convergence
  import Decimal
  import Quiescence
  import RecordedGeneration
  import Settling
  import StatusRuns
  import Template

  // ---- When it completes

  /** Left alone, a sync makes all its calls if and only if the management state it observes is
      empty or Managed, cert-manager serves the Issuer kind, both cached secrets hold a certificate
      and a key, and the live CRD has a webhook client configuration if the asset has one. */
  lemma DoneExactly(cfg: Config, s: State)
    requires WellFormed(cfg) && Live(s.w).operator.Some?
    ensures var t := Run(cfg, BeginSync(s), Quiets(22));
            var op, secrets := s.w.hist[s.w.operatorIx].operator, s.w.hist[s.w.secretIx].objs;
            var live := s.w.hist[|s.w.hist| - 1];
            !t.running && t.pc == 22 && t.err.None? <==>
              && op.Some? && (op.value.management == "" || op.value.management == "Managed")
              && live.certManagerKinds.Some? && "Issuer" in live.certManagerKinds.value
              && WebhookSecret in secrets && secrets[WebhookSecret].spec.SecretData?
              && secrets[WebhookSecret].spec.crt != "" && secrets[WebhookSecret].spec.key != ""
              && MetricsSecret in secrets && secrets[MetricsSecret].spec.SecretData?
              && secrets[MetricsSecret].spec.crt != "" && secrets[MetricsSecret].spec.key != ""
              && (JobSetCrd in live.objs && JobSetCrd in cfg.manifests && cfg.manifests[JobSetCrd].spec.Crd?
                  && cfg.manifests[JobSetCrd].spec.conversion.ClientConfig? ==>
                    live.objs[JobSetCrd].spec.Crd? && live.objs[JobSetCrd].spec.conversion.ClientConfig?)
  {
    hide Run, Quiets;
    CompletesExactly(cfg, s);
  }

  /** With any other management state it makes no call and changes nothing; without an operator
      resource it fails. */
  lemma NothingOtherwise(cfg: Config, s: State)
    requires WellFormed(cfg)
    ensures var t, op := Run(cfg, BeginSync(s), Quiets(22)), s.w.hist[s.w.operatorIx].operator;
            && (op.Some? && op.value.management != "" && op.value.management != "Managed" ==>
                  !t.running && t.w == s.w && t.err.None? && t.l.calls == [])
            && (op.None? ==> !t.running && t.w == s.w && t.err.Some?)
  {
    hide WellFormed, Run, Quiets;
    var op := s.w.hist[s.w.operatorIx].operator;
    if op.None? || (op.value.management != "" && op.value.management != "Managed") {
      FirstStep(cfg, s);
      StoppedAfter(cfg, s, 1, 22);
    }
  }

  lemma FirstStep(cfg: Config, s: State)
    requires WellFormed(cfg)
    ensures var t, op := Run(cfg, BeginSync(s), Quiets(1)), s.w.hist[s.w.operatorIx].operator;
            && (op.Some? && op.value.management != "" && op.value.management != "Managed" ==>
                  !t.running && t.w == s.w && t.err.None? && t.l.calls == [])
            && (op.None? ==> !t.running && t.w == s.w && t.err.Some?)
  {
    hide WellFormed, Run, Quiets, OpStep;
    OneMoreQuiet(cfg, BeginSync(s), 1);
    Nothing(cfg, s);
    ObserveStops(cfg, BeginSync(s));
  }

  lemma ObserveStops(cfg: Config, u: State)
    requires WellFormed(cfg) && u.running && u.pc == 0 && u.err.None?
    ensures var t, op := OpStep(cfg, u, QUIET), u.w.hist[u.w.operatorIx].operator;
            && (op.Some? && op.value.management != "" && op.value.management != "Managed" ==>
                  !t.running && t.w == u.w && t.err.None? && t.l == u.l)
            && (op.None? ==> !t.running && t.w == u.w && t.err.Some?)
  {
    hide WellFormed;
    ObservesFirst();
  }

  lemma ObservesFirst()
    ensures InstrAt(0) == Observe
  {
  }

  lemma {:induction false} StoppedAfter(cfg: Config, s: State, m: nat, n: nat)
    requires WellFormed(cfg) && m <= n && !Run(cfg, BeginSync(s), Quiets(m)).running
    ensures Run(cfg, BeginSync(s), Quiets(n)) == Run(cfg, BeginSync(s), Quiets(m))
    decreases n
  {
    hide WellFormed, Run, Quiets, OpStep;
    if n > m {
      StoppedAfter(cfg, s, m, n - 1);
      OneMoreQuiet(cfg, BeginSync(s), n);
    }
  }

  // ---- What it calls

  /** In every state of every run the applies of a sync are the first so many of these, the last
      eight of them only after both secrets were read with a certificate and a key; and a sync that
      gets to its end without an error has made them all. */
  lemma CallsMade(cfg: Config, s: State, es: seq<Event>)
    requires WellFormed(cfg) && Initial(s)
    ensures var t := Run(cfg, s, es);
            var calls := [NetworkPolicy, WebhookService, Issuer, ServingCert, MetricsCert, ValidatingWebhook,
                          MutatingWebhook, JobSetCrd, PrometheusRole, PrometheusRoleBinding, ServiceMonitor, ConfigMap,
                          Deployment];
            && t.l.calls <= calls
            && (!t.running && t.pc == 22 && t.err.None? ==> t.l.calls == calls)
            && (|t.l.calls| > 5 ==>
                  && t.l.web.Some? && t.l.web.value.spec.SecretData?
                  && t.l.web.value.spec.crt != "" && t.l.web.value.spec.key != ""
                  && t.l.met.Some? && t.l.met.value.spec.SecretData?
                  && t.l.met.value.spec.crt != "" && t.l.met.value.spec.key != "")
  {
    hide WellFormed, Run, InstrAt, CallsUpTo, SeenAt, Initial;
    GateRun(cfg, s, es);
    var t := Run(cfg, s, es);
    CallsInOrder(t.pc);
    OrderWritten();
    if |t.l.calls| > 5 { BothSeen(t); }
  }

  lemma OrderWritten()
    ensures APPLY_ORDER == [NetworkPolicy, WebhookService, Issuer, ServingCert, MetricsCert, ValidatingWebhook,
                            MutatingWebhook, JobSetCrd, PrometheusRole, PrometheusRoleBinding, ServiceMonitor,
                            ConfigMap, Deployment]
    ensures CALLS_BEFORE[22] == 13 && APPLY_ORDER[..13] == APPLY_ORDER && END == 22
  {
  }

  lemma BothSeen(t: State)
    requires GateInv(t) && t.pc > METRICS_GATE + 1
    ensures t.l.web.Some? && Ready(t.l.web.value) && t.l.met.Some? && Ready(t.l.met.value)
  {
    hide CallsUpTo;
  }

  // ---- What the cluster holds then

  const OWNER_REFERENCE := "ownerReferences/operator.openshift.io/JobSetOperator/cluster"
  const HASH_ANNOTATION := "operator.openshift.io/spec-hash"

  /** The sync has come to its end without an error. */
  predicate Ended(t: State) {
    !t.running && t.pc == 22 && t.err.None?
  }

  /** A sync left alone does. */
  predicate Completes(cfg: Config, s: State)
    requires WellFormed(cfg)
  {
    Ended(Run(cfg, BeginSync(s), Quiets(22)))
  }

  /** What it knows there. */
  lemma AtEnd(cfg: Config, s: State)
    requires WellFormed(cfg) && Live(s.w).operator.Some? && Completes(cfg, s)
    ensures var t := Run(cfg, BeginSync(s), Quiets(END));
            && StatusRuns.Done(t) && Convergence.LoneInv(cfg, t, None)
            && CachedOperator(s.w).Some? && t.l.operator == CachedOperator(s.w)
            && t.l.web == ObjectAt(s.w.hist[s.w.secretIx], WebhookSecret)
            && t.l.met == ObjectAt(s.w.hist[s.w.secretIx], MetricsSecret) && t.l.web.Some? && t.l.met.Some?
            && t.l.config == ObjectAt(Live(t.w), ConfigMap) && t.l.config.Some?
            && t.l.legacy == (Live(t.w).major == 1 && Live(t.w).minor <= 31)
  {
    hide WellFormed, InstrAt, OpStep, Run, Healthy, Convergence.AllInForm, GateInv;
    CompletesExactly(cfg, s);
    SecretsThere(cfg, s.w);
    QuietsAlone(END);
    Convergence.LoneRun(cfg, s, Quiets(END), None);
    TrackedRun(cfg, s, 21);
    OneMoreQuiet(cfg, BeginSync(s), END);
    Convergence.FinalLocals(cfg, Run(cfg, BeginSync(s), Quiets(21)), QUIET);
  }

  lemma SecretsThere(cfg: Config, w: World)
    requires WellFormed(cfg) && Healthy(cfg, w)
    ensures ObjectAt(w.hist[w.secretIx], WebhookSecret).Some? && ObjectAt(w.hist[w.secretIx], MetricsSecret).Some?
  {
    hide WellFormed;
  }

  /** Objects whose apply function notes a hash of the required spec. */
  predicate Hashed(k: Key) {
    k == Deployment || k == WebhookService
  }

  /** Every object is there, owned by the operator resource the sync observed, with all the
      metadata of its asset, the Service with the hash of its asset's spec. (For the hash of the
      Deployment see DeploymentObject.) */
  lemma OwnedAndLabelled(cfg: Config, s: State, k: Key)
    requires WellFormed(cfg) && Live(s.w).operator.Some? && Completes(cfg, s)
    requires k in [NetworkPolicy, WebhookService, Issuer, ServingCert, MetricsCert, ValidatingWebhook, MutatingWebhook,
                   JobSetCrd, PrometheusRole, PrometheusRoleBinding, ServiceMonitor, ConfigMap, Deployment]
    ensures var live, op := Live(Run(cfg, BeginSync(s), Quiets(22)).w), s.w.hist[s.w.operatorIx].operator;
            && k in live.objs && k in cfg.manifests && op.Some?
            && OWNER_REFERENCE in live.objs[k].meta && live.objs[k].meta[OWNER_REFERENCE] == Text(op.value.uid)
            && (forall m ::
                  m in cfg.manifests[k].meta && m != OWNER_REFERENCE && !(Hashed(k) && m == HASH_ANNOTATION) ==>
                  m in live.objs[k].meta && live.objs[k].meta[m] == cfg.manifests[k].meta[m])
            && (k == WebhookService ==>
                  && HASH_ANNOTATION in live.objs[k].meta
                  && live.objs[k].meta[HASH_ANNOTATION] == Digest(cfg.manifests[k].spec))
  {
    hide Run, Completes, WellFormed, Convergence.InForm, Convergence.AllInForm, GateInv, RequiredSpec;
    OrderWritten();
    AtEnd(cfg, s);
    var t := Run(cfg, BeginSync(s), Quiets(END));
    Convergence.AllCalled(t, k);
    Convergence.FormOf(cfg, t, k, false);
    RequiredMeta(cfg, k, t.l);
    hide Required;
    assert MetaAgrees(Live(t.w).objs[k].meta, Required(cfg, k, t.l).meta);
  }

  lemma RequiredMeta(cfg: Config, k: Key, l: Locals)
    requires WellFormed(cfg) && k in APPLY_ORDER && l.operator.Some?
    ensures var meta := Required(cfg, k, l).meta;
            && k in cfg.manifests && OWNER_REFERENCE in meta && meta[OWNER_REFERENCE] == Text(l.operator.value.uid)
            && (forall m ::
                  m in cfg.manifests[k].meta && m != OWNER_REFERENCE && !(Hashed(k) && m == HASH_ANNOTATION) ==>
                  m in meta && meta[m] == cfg.manifests[k].meta[m])
            && (k == WebhookService ==>
                  HASH_ANNOTATION in meta && meta[HASH_ANNOTATION] == Digest(cfg.manifests[k].spec))
  {
    hide RequiredSpec;
    DistinctMetaKeys();
    if k == WebhookService { RequiredPlain(cfg, k, l); }
  }

  lemma FormAtEnd(cfg: Config, s: State, k: Key)
    requires WellFormed(cfg) && Live(s.w).operator.Some? && Completes(cfg, s) && k in APPLY_ORDER
    requires k == Deployment ==> Convergence.CacheHonest(s.w, s.w.operatorIx)
    ensures var t := Run(cfg, BeginSync(s), Quiets(END));
            k in Live(t.w).objs && Agrees(k, Live(t.w).objs[k], Required(cfg, k, t.l))
  {
    hide WellFormed, Healthy, Convergence.CacheHonest, Agrees, Required, Run;
    CompletesExactly(cfg, s);
    HealthyConverges(cfg, s, k);
  }

  /** Eight of them are their assets. */
  lemma PlainObjects(cfg: Config, s: State, k: Key)
    requires WellFormed(cfg) && Live(s.w).operator.Some? && Completes(cfg, s)
    requires k in [NetworkPolicy, Issuer, ServingCert, MetricsCert, PrometheusRole, PrometheusRoleBinding,
                   ServiceMonitor, ConfigMap]
    ensures var live := Live(Run(cfg, BeginSync(s), Quiets(22)).w);
            k in live.objs && k in cfg.manifests && live.objs[k].spec == cfg.manifests[k].spec
  {
    PlainKeys(k);
    hide WellFormed, Completes, Run, Required;
    FormAtEnd(cfg, s, k);
    RequiredPlain(cfg, k, Run(cfg, BeginSync(s), Quiets(END)).l);
  }

  lemma PlainKeys(k: Key)
    requires k in [NetworkPolicy, Issuer, ServingCert, MetricsCert, PrometheusRole, PrometheusRoleBinding,
                   ServiceMonitor, ConfigMap]
    ensures k in APPLY_ORDER && k != JobSetCrd && k != Deployment && k != WebhookService
    ensures k != ValidatingWebhook && k != MutatingWebhook
  {
    OrderWritten();
  }

  lemma RequiredPlain(cfg: Config, k: Key, l: Locals)
    requires WellFormed(cfg) && k in APPLY_ORDER && k != JobSetCrd && k != Deployment
    ensures k in cfg.manifests && Required(cfg, k, l).spec == cfg.manifests[k].spec
  {
  }

  /** The Service selects what its asset selects, and has its type. */
  lemma ServiceObject(cfg: Config, s: State)
    requires WellFormed(cfg) && Live(s.w).operator.Some? && Completes(cfg, s)
    ensures var live := Live(Run(cfg, BeginSync(s), Quiets(22)).w);
            && WebhookService in live.objs && WebhookService in cfg.manifests
            && var held, asset := live.objs[WebhookService].spec, cfg.manifests[WebhookService].spec;
               && held.ServiceSpec? && asset.ServiceSpec? && held.selector == asset.selector
               && (held.kind == asset.kind || (asset.kind == "" && held.kind == "ClusterIP"))
  {
    hide WellFormed, Completes, Run;
    OrderWritten();
    FormAtEnd(cfg, s, WebhookService);
    RequiredPlain(cfg, WebhookService, Run(cfg, BeginSync(s), Quiets(END)).l);
  }

  /** The webhook configurations have the asset's webhooks, one by one, and its bundles where it has
      any. (For those it leaves open see HookBundles.) */
  lemma HookObjects(cfg: Config, s: State, k: Key)
    requires WellFormed(cfg) && Live(s.w).operator.Some? && Completes(cfg, s)
    requires k == ValidatingWebhook || k == MutatingWebhook
    ensures var live := Live(Run(cfg, BeginSync(s), Quiets(22)).w);
            && k in live.objs && k in cfg.manifests && live.objs[k].spec.Hooks? && cfg.manifests[k].spec.Hooks?
            && var held, asset := live.objs[k].spec.hooks, cfg.manifests[k].spec.hooks;
               && |held| == |asset|
               && forall i :: 0 <= i < |asset| ==>
                    && held[i].name == asset[i].name && held[i].rest == asset[i].rest
                    && (asset[i].bundle.Some? ==> held[i].bundle == asset[i].bundle)
  {
    HookKeys();
    hide WellFormed, Completes, Run, Required, APPLY_ORDER, Agrees;
    FormAtEnd(cfg, s, k);
    var t := Run(cfg, BeginSync(s), Quiets(END));
    RequiredPlain(cfg, k, t.l);
    AgreedHooks(k, Live(t.w).objs[k], Required(cfg, k, t.l));
  }

  lemma AgreedHooks(k: Key, o: Object, req: Manifest)
    requires (k == ValidatingWebhook || k == MutatingWebhook) && Agrees(k, o, req)
    ensures o.spec.Hooks? && req.spec.Hooks? && |o.spec.hooks| == |req.spec.hooks|
    ensures forall i :: 0 <= i < |req.spec.hooks| ==>
              && o.spec.hooks[i].name == req.spec.hooks[i].name && o.spec.hooks[i].rest == req.spec.hooks[i].rest
              && (req.spec.hooks[i].bundle.Some? ==> o.spec.hooks[i].bundle == req.spec.hooks[i].bundle)
  {
    assert forall i :: 0 <= i < |req.spec.hooks| ==> HookAgrees(o.spec.hooks[i], req.spec.hooks[i]);
  }

  // ---- The CRD

  /** Up to the write of the CRD the live one is that of the beginning, and its bundle is in hand. */
  lemma BundleInHand(cfg: Config, s: State)
    requires WellFormed(cfg) && Live(s.w).operator.Some? && Healthy(cfg, s.w)
    ensures JobSetCrd in cfg.manifests && cfg.manifests[JobSetCrd].spec.Crd?
    ensures var t, crd := Run(cfg, BeginSync(s), Quiets(15)), ObjectAt(Live(s.w), JobSetCrd);
            Going(t, 15) && t.l.bundle ==
              if crd.Some? && crd.value.spec.Crd? && crd.value.spec.conversion.ClientConfig?
                 && cfg.manifests[JobSetCrd].spec.conversion.ClientConfig?
              then Some(crd.value.spec.conversion.bundle) else None
  {
    hide WellFormed, Run, Tracked, InstrAt, Perform;
    HookKeys();
    ReadableBefore(cfg, s.w);
    TrackedRun(cfg, s, 14);
    TrackedRun(cfg, s, 15);
    OneMoreQuiet(cfg, BeginSync(s), 15);
    Convergence.StepNumbers();
    ReadsBundle(cfg, Run(cfg, BeginSync(s), Quiets(14)));
  }

  lemma ReadsBundle(cfg: Config, t: State)
    requires WellFormed(cfg) && CrdReadable(cfg, ObjectAt(Live(t.w), JobSetCrd))
    ensures var crd := ObjectAt(Live(t.w), JobSetCrd);
            Perform(cfg, t, QUIET, ReadCrd).l.bundle ==
              if crd.Some? && crd.value.spec.Crd? && crd.value.spec.conversion.ClientConfig?
                 && cfg.manifests[JobSetCrd].spec.conversion.ClientConfig?
              then Some(crd.value.spec.conversion.bundle) else None
  {
  }

  /** No later step reads another. */
  lemma {:induction false} BundleStays(cfg: Config, s: State, n: nat)
    requires WellFormed(cfg) && Live(s.w).operator.Some? && Healthy(cfg, s.w) && 15 <= n <= END
    ensures Run(cfg, BeginSync(s), Quiets(n)).l.bundle == Run(cfg, BeginSync(s), Quiets(15)).l.bundle
    decreases n
  {
    hide WellFormed, Run, OpStep, Healthy, Tracked, SameFooting;
    if n > 15 {
      BundleStays(cfg, s, n - 1);
      TrackedRun(cfg, s, n - 1);
      OneMoreQuiet(cfg, BeginSync(s), n);
      if n < END { TrackedRun(cfg, s, n); }
      BundleStep(cfg, Run(cfg, BeginSync(s), Quiets(n - 1)));
    }
  }

  lemma BundleStep(cfg: Config, t: State)
    requires WellFormed(cfg) && t.err.None? && Convergence.CRD_READ_STEP < t.pc < END
    requires t.pc == END - 1 || OpStep(cfg, t, QUIET).running
    ensures OpStep(cfg, t, QUIET).l.bundle == t.l.bundle
  {
    hide WellFormed, InstrAt, Perform, StepApply, Required, ApplyWorld, ApplyObject;
    var i := InstrAt(t.pc);
    Convergence.NumbersOf(t.pc);
    if i.Apply? {
      RecordedGeneration.AppliesKey(cfg, t, QUIET, i.k);
      Convergence.ApplyOutcome(cfg, t, i.k, Fine);
    } else {
      Convergence.LocalsOf(cfg, t, QUIET, i);
      Convergence.FinalLocals(cfg, t, QUIET);
    }
  }

  /** The CRD keeps the bundle it had when the sync began - or gets the asset's if there was none -
      and has the versions for old servers exactly on those. */
  lemma CrdObject(cfg: Config, s: State)
    requires WellFormed(cfg) && Live(s.w).operator.Some? && Completes(cfg, s)
    ensures var live, before := Live(Run(cfg, BeginSync(s), Quiets(22)).w), Live(s.w);
            && JobSetCrd in live.objs && live.objs[JobSetCrd].spec.Crd?
            && JobSetCrd in cfg.manifests && cfg.manifests[JobSetCrd].spec.Crd? && cfg.legacyCrd.Crd?
            && var held, asset := live.objs[JobSetCrd].spec, cfg.manifests[JobSetCrd].spec;
               && held.versions == (if live.major == 1 && live.minor <= 31 then cfg.legacyCrd.versions
                                    else asset.versions)
               && (asset.conversion.NoClientConfig? ==> held.conversion.NoClientConfig?)
               && (asset.conversion.ClientConfig? ==>
                     && held.conversion.ClientConfig? && held.conversion.rest == asset.conversion.rest
                     && (JobSetCrd !in before.objs ==> held.conversion.bundle == asset.conversion.bundle)
                     && (JobSetCrd in before.objs ==>
                           && before.objs[JobSetCrd].spec.Crd? && before.objs[JobSetCrd].spec.conversion.ClientConfig?
                           && held.conversion.bundle == before.objs[JobSetCrd].spec.conversion.bundle))
  {
    HookKeys();
    hide WellFormed, Run, Required, Completes, Healthy, Convergence.LoneInv, APPLY_ORDER, Agrees;
    CompletesExactly(cfg, s);
    AtEnd(cfg, s);
    FormAtEnd(cfg, s, JobSetCrd);
    BundleInHand(cfg, s);
    BundleStays(cfg, s, END);
    ReadableBefore(cfg, s.w);
    var t := Run(cfg, BeginSync(s), Quiets(END));
    RequiredCrd(cfg, t.l);
    CaBundle.AgreedCrd(Live(t.w).objs[JobSetCrd], Required(cfg, JobSetCrd, t.l));
  }

  lemma HookKeys()
    ensures JobSetCrd in APPLY_ORDER && ValidatingWebhook in APPLY_ORDER && MutatingWebhook in APPLY_ORDER
  {
    OrderWritten();
  }

  lemma ReadableBefore(cfg: Config, w: World)
    requires WellFormed(cfg) && JobSetCrd in APPLY_ORDER && Healthy(cfg, w)
    ensures JobSetCrd in cfg.manifests && cfg.manifests[JobSetCrd].spec.Crd?
    ensures cfg.manifests[JobSetCrd].spec.conversion.ClientConfig? && JobSetCrd in Live(w).objs ==>
              Live(w).objs[JobSetCrd].spec.Crd? && Live(w).objs[JobSetCrd].spec.conversion.ClientConfig?
  {
  }

  lemma RequiredCrd(cfg: Config, l: Locals)
    requires WellFormed(cfg) && JobSetCrd in APPLY_ORDER
    ensures var spec, asset := Required(cfg, JobSetCrd, l).spec, cfg.manifests[JobSetCrd].spec;
            && spec.Crd? && asset.Crd? && cfg.legacyCrd.Crd?
            && spec.versions == (if l.legacy then cfg.legacyCrd.versions else asset.versions)
            && spec.conversion == if asset.conversion.ClientConfig? && l.bundle.Some?
                                  then asset.conversion.(bundle := l.bundle.value) else asset.conversion
  {
  }

  // ---- The Deployment

  /** The pod template of the live Deployment when a completed sync nobody else wrote in has brought
      it into form: the operator's arguments with the log level of the operator resource the sync
      has read, the operand image and the termination policy; the rest is the asset's. */
  lemma DeploymentObject(cfg: Config, s: State, es: seq<Event>)
    requires WellFormed(cfg) && Convergence.Alone(es) && Ended(Run(cfg, BeginSync(s), es)) && Deployment in APPLY_ORDER
    requires var t := Run(cfg, BeginSync(s), es); Convergence.InForm(cfg, Live(t.w), t.l, Deployment)
    ensures Deployment in cfg.manifests && cfg.manifests[Deployment].spec.Deploy?
    ensures var t := Run(cfg, BeginSync(s), es);
            && Deployment in Live(t.w).objs && Live(t.w).objs[Deployment].spec.Deploy? && t.l.operator.Some?
            && var held, asset := Live(t.w).objs[Deployment].spec, cfg.manifests[Deployment].spec;
               && HASH_ANNOTATION in Live(t.w).objs[Deployment].meta
               && Live(t.w).objs[Deployment].meta[HASH_ANNOTATION] == Digest(held)
               && held.replicas == asset.replicas && held.rest == asset.rest
               && held.template.rest == asset.template.rest
               && |held.template.containers| == |asset.template.containers| > 0
               && |held.template.initContainers| == |asset.template.initContainers|
               && held.template.containers[0].args ==
                    ["--config=/controller_manager_config.yaml",
                     if t.l.operator.value.logLevel in {"Debug", "Trace", "TraceAll"}
                     then "--zap-log-level=debug" else "--zap-log-level=info"]
               && (forall i :: 0 < i < |asset.template.containers| ==>
                     held.template.containers[i].args == asset.template.containers[i].args)
               && (forall i :: 0 <= i < |asset.template.containers| ==>
                     && held.template.containers[i].terminationPolicy == "FallbackToLogsOnError"
                     && held.template.containers[i].rest == asset.template.containers[i].rest
                     && held.template.containers[i].image ==
                          if asset.template.containers[i].image == "${CONTROLLER_IMAGE}:latest" then cfg.image
                          else asset.template.containers[i].image)
               && (forall i :: 0 <= i < |asset.template.initContainers| ==>
                     held.template.initContainers[i] ==
                       asset.template.initContainers[i].(terminationPolicy := "FallbackToLogsOnError"))
  {
    hide WellFormed, Run, Required, Template.Build, Convergence.LoneInv;
    LoneEnd(cfg, s, es);
    var t := Run(cfg, BeginSync(s), es);
    RequiredDeployment(cfg, t.l);
    Template.Promised(cfg.manifests[Deployment].spec.template, TemplateInputs(cfg, t.l));
  }

  /** And its annotations: the versions of the two secrets the sync has read and of the live
      ConfigMap, and the security context constraint; others are as the asset has them. */
  lemma DeploymentStamps(cfg: Config, s: State, es: seq<Event>)
    requires WellFormed(cfg) && Convergence.Alone(es) && Ended(Run(cfg, BeginSync(s), es)) && Deployment in APPLY_ORDER
    requires var t := Run(cfg, BeginSync(s), es); Convergence.InForm(cfg, Live(t.w), t.l, Deployment)
    ensures Deployment in cfg.manifests && cfg.manifests[Deployment].spec.Deploy?
    ensures var t := Run(cfg, BeginSync(s), es);
            && Deployment in Live(t.w).objs && Live(t.w).objs[Deployment].spec.Deploy?
            && ConfigMap in Live(t.w).objs && t.l.web.Some? && t.l.met.Some?
            && var a, asset := Live(t.w).objs[Deployment].spec.template.annotations,
                               cfg.manifests[Deployment].spec.template.annotations;
               var own := {"secrets/webhook-server-cert", "secrets/metrics-server-cert",
                           "configmaps/jobset-manager-config", "openshift.io/required-scc"};
               && a.Keys == asset.Keys + own && (forall k :: k in asset && k !in own ==> a[k] == asset[k])
               && a["secrets/webhook-server-cert"] == Decimal.Render(t.l.web.value.rv)
               && a["secrets/metrics-server-cert"] == Decimal.Render(t.l.met.value.rv)
               && a["configmaps/jobset-manager-config"] == Decimal.Render(Live(t.w).objs[ConfigMap].rv)
               && a["openshift.io/required-scc"] == "restricted-v2"
  {
    hide WellFormed, Run, Required, Template.Build, Convergence.LoneInv, Decimal.Render;
    LoneEnd(cfg, s, es);
    var t := Run(cfg, BeginSync(s), es);
    RequiredDeployment(cfg, t.l);
    Template.Promised(cfg.manifests[Deployment].spec.template, TemplateInputs(cfg, t.l));
  }

  lemma LoneEnd(cfg: Config, s: State, es: seq<Event>)
    requires WellFormed(cfg) && Convergence.Alone(es) && Ended(Run(cfg, BeginSync(s), es))
    ensures var t := Run(cfg, BeginSync(s), es);
            && t.l.operator.Some? && t.l.web.Some? && t.l.met.Some?
            && t.l.config.Some? && t.l.config == ObjectAt(Live(t.w), ConfigMap)
  {
    hide WellFormed, Run, Convergence.AllInForm, CallsUpTo;
    Convergence.LoneRun(cfg, s, es, None);
  }

  lemma RequiredDeployment(cfg: Config, l: Locals)
    requires WellFormed(cfg) && Deployment in APPLY_ORDER
    ensures Deployment in cfg.manifests && cfg.manifests[Deployment].spec.Deploy?
    ensures var asset := cfg.manifests[Deployment].spec;
            && |asset.template.containers| > 0
            && Required(cfg, Deployment, l).spec ==
                 asset.(template := Template.Build(asset.template, TemplateInputs(cfg, l)))
  {
    hide Template.Build;
  }

  // ---- The status

  /** What the operator reports after a sync on fresh caches whose record is not ahead: not degraded,
      available exactly if the live Deployment has the replicas it asks for, those replicas, and its
      generation. */
  lemma StatusWritten(cfg: Config, s: State)
    requires WellFormed(cfg) && Live(s.w).operator.Some? && Completes(cfg, s)
    requires Quiescence.Fresh(s.w) && Settling.NotAhead(Live(s.w))
    ensures var live := Live(Run(cfg, BeginSync(s), Quiets(22)).w);
            && Deployment in live.objs && live.operator.Some?
            && var dep, st := live.objs[Deployment], live.operator.value.status;
               var a, d := Find(st.conditions, "Available"), Find(st.conditions, "Degraded");
               dep.spec.Deploy? && dep.available >= 0 ==>
                 && d.Some? && d.value.(since := 0) == Condition("Degraded", false, "AsExpected", "", 0)
                 && a.Some? && a.value.(since := 0) ==
                      (if dep.spec.replicas == Some(dep.available)
                       then Condition("Available", true, "AsExpected", "", 0)
                       else Condition("Available", false, "DeploymentUnavailable",
                                      "Operand Deployment is not available", 0))
                 && st.ready == dep.available && st.recorded == Some(dep.gen)
  {
    hide WellFormed, Run, Completes, Healthy, Reported, Settling.NotAhead, Convergence.LoneInv;
    CompletesExactly(cfg, s);
    AtEnd(cfg, s);
    Settling.FreshReports(cfg, s);
    var t := Run(cfg, BeginSync(s), Quiets(END));
    Settling.DoneDeployment(cfg, t);
    var dep := Live(t.w).objs[Deployment];
    if dep.spec.Deploy? && dep.available >= 0 { ReportedWords(Live(t.w).operator.value.status, dep); }
  }

  /** Without cert-manager a managed sync fails before its first apply, and says so in the status. */
  lemma IssuerMissing(cfg: Config, s: State)
    requires WellFormed(cfg) && Live(s.w).operator.Some? && CachedOperator(s.w) == Live(s.w).operator
    requires Live(s.w).operator.value.management == "" || Live(s.w).operator.value.management == "Managed"
    requires Live(s.w).certManagerKinds.None? || "Issuer" !in Live(s.w).certManagerKinds.value
    ensures var t := Run(cfg, BeginSync(s), Quiets(22));
            && !t.running && t.err.Some? && t.l.calls == [] && Live(t.w).objs == Live(s.w).objs
            && Live(t.w).operator.Some?
            && var d := Find(Live(t.w).operator.value.status.conditions, "Degraded");
               d.Some? && d.value.(since := 0) ==
                 Condition("Degraded", true, "MissingDependency",
                           "please make sure that cert-manager is installed on your cluster", 0)
  {
    hide WellFormed, Run, Quiets, OpStep, Settling.FirstStatus;
    Nothing(cfg, s);
    OneMoreQuiet(cfg, BeginSync(s), 1);
    OneMoreQuiet(cfg, BeginSync(s), 2);
    OneMoreQuiet(cfg, BeginSync(s), 3);
    ObservePasses(cfg, BeginSync(s));
    var u := Run(cfg, BeginSync(s), Quiets(1));
    AvailableSet(cfg, u);
    var v := Run(cfg, BeginSync(s), Quiets(2));
    MissingStep(cfg, s, v);
    StoppedAfter(cfg, s, 3, 22);
  }

  lemma ObservePasses(cfg: Config, s: State)
    requires WellFormed(cfg) && s.running && s.pc == 0 && s.err.None? && CachedOperator(s.w).Some?
    requires CachedOperator(s.w).value.management == "" || CachedOperator(s.w).value.management == "Managed"
    ensures OpStep(cfg, s, QUIET) == s.(pc := 1)
  {
    ObservesFirst();
  }

  lemma AvailableSet(cfg: Config, u: State)
    requires WellFormed(cfg) && u.running && u.pc == 1 && u.err.None?
    requires CachedOperator(u.w).Some? && Live(u.w).operator == CachedOperator(u.w)
    ensures var v := OpStep(cfg, u, QUIET);
            && v.running && v.pc == 2 && v.err.None? && v.l == u.l && CachedOperator(v.w) == CachedOperator(u.w)
            && Live(v.w).objs == Live(u.w).objs && Live(v.w).certManagerKinds == Live(u.w).certManagerKinds
            && Live(v.w).operator.Some?
            && Find(Live(v.w).operator.value.status.conditions, "Degraded") ==
                 Find(Live(u.w).operator.value.status.conditions, "Degraded")
  {
    hide WellFormed, AvailableCondition, WithCondition, StepStatus;
    SecondStep();
    QuietBase(u.w);
    var available := AvailableCondition(CachedDeployment(u.w, None));
    var was := CachedOperator(u.w).value.status;
    StatusRuns.AvailableKind(CachedDeployment(u.w, None));
    StatusRuns.OneConditionSet(was, available, QUIET.now, "Degraded");
    StatusLands(u, CachedOperator(u.w), WithCondition(was, available, QUIET.now));
  }

  lemma SecondStep()
    ensures InstrAt(1) == ReportAvailable && InstrAt(2) == CheckCertManager
  {
  }

  lemma StatusLands(u: State, base: Option<Operator>, result: Status)
    requires base.Some? && Live(u.w).operator.Some? && u.pc + 1 < END
    ensures var v := StepStatus(u, QUIET, base, result);
            && v.pc == u.pc + 1 && v.running && v.err == u.err && v.l == u.l
            && CachedOperator(v.w) == CachedOperator(u.w)
            && Live(v.w).objs == Live(u.w).objs && Live(v.w).certManagerKinds == Live(u.w).certManagerKinds
            && Live(v.w).operator ==
                 if result == base.value.status then Live(u.w).operator
                 else Some(Live(u.w).operator.value.(status := result))
  {
  }

  lemma MissingStep(cfg: Config, s: State, v: State)
    requires WellFormed(cfg) && v.running && v.pc == 2 && v.err.None? && v.l.calls == []
    requires CachedOperator(v.w).Some? && Live(v.w).operator.Some?
    requires Find(Live(v.w).operator.value.status.conditions, "Degraded") ==
               Find(CachedOperator(v.w).value.status.conditions, "Degraded")
    requires Live(v.w).certManagerKinds.None? || "Issuer" !in Live(v.w).certManagerKinds.value
    ensures var t := OpStep(cfg, v, QUIET);
            && !t.running && t.err.Some? && t.l.calls == [] && Live(t.w).objs == Live(v.w).objs
            && Live(t.w).operator.Some?
            && var d := Find(Live(t.w).operator.value.status.conditions, "Degraded");
               d.Some? && d.value.(since := 0) ==
                 Condition("Degraded", true, "MissingDependency",
                           "please make sure that cert-manager is installed on your cluster", 0)
  {
    hide WellFormed, WithCondition, StepStatus;
    SecondStep();
    QuietBase(v.w);
    var was := CachedOperator(v.w).value.status;
    MissingWords(was, QUIET.now);
    StatusLands(v, CachedOperator(v.w), WithCondition(was, MISSING_DEPENDENCY, QUIET.now));
  }
}
