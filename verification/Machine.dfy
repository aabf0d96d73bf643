/** sync as a state machine: one step per call it makes, with the environment free to act
    between any two of them. A run is a list of events. */
module Machine {
  import opened Wrappers
  import opened ClusterModel
  import opened Conditions
  import opened Applying
  import opened ApiHistory
  import Template

  /** The assets, with the operator namespace and all substitutions already in them, and the
      operand image. */
  datatype Config = Config(image: string, manifests: map<Key, Manifest>, legacyCrd: Spec)

  datatype Instr =
    | Observe | ReportAvailable | CheckCertManager | CheckVersion | FetchOperator
    | Apply(k: Key) | GateWebhook | GateMetrics | ReadCrd | ReportFinal

  const PROGRAM: seq<Instr> := [
    Observe, ReportAvailable, CheckCertManager, CheckVersion, FetchOperator,
    Apply(NetworkPolicy), Apply(WebhookService), Apply(Issuer), Apply(ServingCert), Apply(MetricsCert),
    GateWebhook, GateMetrics,
    Apply(ValidatingWebhook), Apply(MutatingWebhook), ReadCrd, Apply(JobSetCrd),
    Apply(PrometheusRole), Apply(PrometheusRoleBinding), Apply(ServiceMonitor),
    Apply(ConfigMap), Apply(Deployment), ReportFinal]

  const END: nat := 22

  const APPLY_ORDER: seq<Key> := [
    NetworkPolicy, WebhookService, Issuer, ServingCert, MetricsCert, ValidatingWebhook, MutatingWebhook,
    JobSetCrd, PrometheusRole, PrometheusRoleBinding, ServiceMonitor, ConfigMap, Deployment]

  datatype Error = NoOperator | CallFailed | CertManagerMissing | SecretMissing | SecretEmpty | Panic

  /** The local variables of one sync, and where in the secret cache's history it began and
      read its secrets. */
  datatype Locals = Locals(
    startIx: nat,
    operator: Option<Operator>,
    legacy: bool,
    webIx: nat, web: Option<Object>,
    metIx: nat, met: Option<Object>,
    bundle: Option<string>,
    config: Option<Object>,
    dep: Option<Object>,
    calls: seq<Key>)

  /** A pod template written to the cluster carries two secret versions; webIx and metIx
      are the cache positions they were read at. */
  datatype Stamp = Stamp(webIx: nat, web: nat, metIx: nat, met: nat)

  datatype State = State(w: World, running: bool, pc: nat, l: Locals, err: Option<Error>, stamps: seq<Stamp>)

  /** What the environment decides about one step: how the call ends, which version of the
      operator resource a status update is computed from, the clock, and the error text of
      a failing deployment lister. */
  datatype Choice = Choice(fault: Fault, base: nat, now: nat, listerError: Option<string>)

  datatype Act =
    | Become(c: Snapshot)
    | Caches(secret: nat, deploy: nat, operator: nat)

  datatype Event = Begin | Environment(act: Act) | Step(choice: Choice)

  const START := Locals(0, None, false, 0, None, 0, None, None, None, None, [])
  const QUIET := Choice(Fine, 0, 0, None)

  predicate Managed(management: string) {
    management == "" || management == "Managed"
  }

  function CachedOperator(w: World): Option<Operator> {
    w.hist[w.operatorIx].operator
  }

  function CachedDeployment(w: World, listerError: Option<string>): Listed {
    if listerError.Some? then Failed(listerError.value)
    else match ObjectAt(w.hist[w.deployIx], Deployment)
      case Some(o) => Found(o)
      case None => NotFound
  }

  predicate Ready(o: Object) {
    o.spec.SecretData? && o.spec.crt != "" && o.spec.key != ""
  }

  /** The position UpdateStatus computes from: the cached operator resource or, after a
      conflict, a newer one. */
  function BaseIx(w: World, choice: Choice): nat {
    Clip(w.operatorIx, choice.base, |w.hist| - 1)
  }

  /** UpdateStatus: no write if the functions change nothing, otherwise the whole status of
      the live operator resource is replaced by what was computed from the base. */
  function PutStatus(w: World, base: Status, result: Status): World {
    if result == base || Live(w).operator.None? then w
    else Put(w, Live(w).(operator := Some(Live(w).operator.value.(status := result))))
  }

  predicate StatusFails(w: World, base: Status, result: Status) {
    result != base && Live(w).operator.None?
  }

  function Expected(o: Operator): int {
    if o.status.recorded.Some? then o.status.recorded.value else -1
  }

  /** The assets are complete and shaped as their apply functions expect. */
  predicate WellFormed(cfg: Config) {
    && (forall k :: k in APPLY_ORDER ==> k in cfg.manifests)
    && cfg.manifests[WebhookService].spec.ServiceSpec?
    && cfg.manifests[ValidatingWebhook].spec.Hooks? && DistinctNames(cfg.manifests[ValidatingWebhook].spec.hooks)
    && cfg.manifests[MutatingWebhook].spec.Hooks? && DistinctNames(cfg.manifests[MutatingWebhook].spec.hooks)
    && cfg.manifests[JobSetCrd].spec.Crd? && cfg.legacyCrd.Crd?
    && cfg.legacyCrd.conversion == cfg.manifests[JobSetCrd].spec.conversion
    && cfg.manifests[Deployment].spec.Deploy? && |cfg.manifests[Deployment].spec.template.containers| > 0
  }

  function Version(o: Option<Object>): nat {
    if o.Some? then o.value.rv else 0
  }

  function LogLevel(l: Locals): string {
    if l.operator.Some? then l.operator.value.logLevel else ""
  }

  function TemplateInputs(cfg: Config, l: Locals): Template.Inputs {
    Template.Inputs(cfg.image, LogLevel(l), Version(l.web), Version(l.met), Version(l.config))
  }

  function RequiredSpec(cfg: Config, k: Key, l: Locals): Spec
    requires WellFormed(cfg) && k in APPLY_ORDER
  {
    match k
    case JobSetCrd =>
      var spec := if l.legacy then cfg.legacyCrd else cfg.manifests[JobSetCrd].spec;
      if spec.conversion.ClientConfig? && l.bundle.Some? then
        spec.(conversion := spec.conversion.(bundle := l.bundle.value))
      else spec
    case Deployment =>
      var spec := cfg.manifests[Deployment].spec;
      spec.(template := Template.Build(spec.template, TemplateInputs(cfg, l)))
    case _ => cfg.manifests[k].spec
  }

  /** The decoded asset with the owner reference, and for the two kinds applied by hash with
      the spec-hash annotation. */
  function Owned(cfg: Config, k: Key, uid: string, spec: Spec): Manifest
    requires WellFormed(cfg) && k in APPLY_ORDER
  {
    var owned := cfg.manifests[k].meta[OWNER := Text(uid)];
    Manifest(if k == Deployment || k == WebhookService then owned[SPEC_HASH := Digest(spec)] else owned, spec)
  }

  /** The required form of each object in a sync with locals l. */
  function Required(cfg: Config, k: Key, l: Locals): (m: Manifest)
    requires WellFormed(cfg) && k in APPLY_ORDER
    ensures WellShaped(k, m)
  {
    Owned(cfg, k, if l.operator.Some? then l.operator.value.uid else "", RequiredSpec(cfg, k, l))
  }

  function ExpectedGeneration(l: Locals): int {
    if l.operator.Some? then Expected(l.operator.value) else -1
  }

  function Fail(s: State, e: Error): State {
    s.(running := false, pc := s.pc + 1, err := Some(e))
  }

  function Go(s: State, w: World, l: Locals): State {
    s.(w := w, l := l, pc := s.pc + 1, running := s.pc + 1 < END)
  }

  function StepStatus(s: State, choice: Choice, base: Option<Operator>, result: Status): State {
    if base.None? then Fail(s, NoOperator)
    else if choice.fault.Refused? || StatusFails(s.w, base.value.status, result) then Fail(s, CallFailed)
    else
      var w := PutStatus(s.w, base.value.status, result);
      if choice.fault.Lost? then Fail(s.(w := w), CallFailed) else Go(s, w, s.l)
  }

  function BaseOperator(w: World, choice: Choice): Option<Operator> {
    w.hist[BaseIx(w, choice)].operator
  }

  function BaseStatus(w: World, choice: Choice): Status {
    var base := BaseOperator(w, choice);
    if base.Some? then base.value.status else Status([], None, 0)
  }

  function StepApply(cfg: Config, s: State, k: Key, fault: Fault): State
    requires WellFormed(cfg) && k in APPLY_ORDER
  {
    var called := s.l.(calls := s.l.calls + [k]);
    if fault.Refused? then Fail(s.(l := called), CallFailed) else
    var req, expected := Required(cfg, k, s.l), ExpectedGeneration(s.l);
    var w := ApplyWorld(s.w, k, req, expected);
    var o := ApplyObject(s.w, k, req, expected);
    var l := if k == ConfigMap then called.(config := Some(o))
             else if k == Deployment then called.(dep := Some(o)) else called;
    var stamps := if k == Deployment then s.stamps + [Stamp(l.webIx, Version(l.web), l.metIx, Version(l.met))]
                  else s.stamps;
    if fault.Lost? then Fail(s.(w := w, l := called, stamps := stamps), CallFailed)
    else Go(s.(stamps := stamps), w, l)
  }

  function StepGate(s: State, web: bool): State {
    match ObjectAt(s.w.hist[s.w.secretIx], if web then WebhookSecret else MetricsSecret)
    case None => Fail(s, SecretMissing)
    case Some(o) =>
      if !Ready(o) then Fail(s, SecretEmpty)
      else if web then Go(s, s.w, s.l.(webIx := s.w.secretIx, web := Some(o)))
      else Go(s, s.w, s.l.(metIx := s.w.secretIx, met := Some(o)))
  }

  /** manageCRD first reads the live CRD for its bundle. Reading the bundle of a CRD without
      a webhook client configuration dereferences nil. */
  function StepReadCrd(cfg: Config, s: State, fault: Fault): State
    requires WellFormed(cfg)
  {
    var live := ObjectAt(Live(s.w), JobSetCrd);
    if !fault.Fine? then Fail(s, CallFailed)
    else if live.None? || cfg.manifests[JobSetCrd].spec.conversion.NoClientConfig? then Go(s, s.w, s.l.(bundle := None))
    else if live.value.spec.Crd? && live.value.spec.conversion.ClientConfig? then
      Go(s, s.w, s.l.(bundle := Some(live.value.spec.conversion.bundle)))
    else Fail(s, Panic)
  }

  /** One step of a sync that is running. */
  function OpStep(cfg: Config, s: State, c: Choice): State
    requires WellFormed(cfg) && s.pc < END
  {
    Perform(cfg, s, c, InstrAt(s.pc))
  }

  function InstrAt(pc: nat): (i: Instr)
    requires pc < END
    ensures i.Apply? ==> i.k in APPLY_ORDER
  {
    PROGRAM[pc]
  }

  function Perform(cfg: Config, s: State, c: Choice, i: Instr): State
    requires WellFormed(cfg) && (i.Apply? ==> i.k in APPLY_ORDER)
  {
    match i
    case Observe =>
      var o := CachedOperator(s.w);
      if o.None? then Fail(s, NoOperator)
      else if !Managed(o.value.management) then s.(running := false, pc := s.pc + 1)
      else Go(s, s.w, s.l)
    case ReportAvailable =>
      StepStatus(s, c, BaseOperator(s.w, c),
        WithCondition(BaseStatus(s.w, c), AvailableCondition(CachedDeployment(s.w, c.listerError)), c.now))
    case CheckCertManager =>
      if IssuerServed(Live(s.w)) then (if c.fault.Fine? then Go(s, s.w, s.l) else Fail(s, CallFailed))
      else
        var t := StepStatus(s, c, BaseOperator(s.w, c), WithCondition(BaseStatus(s.w, c), MISSING_DEPENDENCY, c.now));
        if t.err.Some? then t else Fail(s.(w := t.w), CertManagerMissing)
    case CheckVersion =>
      if !c.fault.Fine? then Fail(s, CallFailed)
      else Go(s, s.w, s.l.(legacy := LegacyServer(Live(s.w).major, Live(s.w).minor)))
    case FetchOperator =>
      if CachedOperator(s.w).None? then Fail(s, NoOperator) else Go(s, s.w, s.l.(operator := CachedOperator(s.w)))
    case Apply(k) => StepApply(cfg, s, k, c.fault)
    case GateWebhook => StepGate(s, true)
    case GateMetrics => StepGate(s, false)
    case ReadCrd => StepReadCrd(cfg, s, c.fault)
    case ReportFinal =>
      if s.l.dep.None? then Fail(s, CallFailed) else
      StepStatus(s, c, BaseOperator(s.w, c), FinalStatus(BaseStatus(s.w, c), s.l.dep.value, c.now))
  }

  function EnvStep(w: World, act: Act): World {
    match act
    case Become(c) => if Permitted(w, c) then Put(w, c) else w
    case Caches(secret, deploy, operator) => MoveCaches(w, secret, deploy, operator)
  }

  /** A new sync starts only when the single worker is idle. */
  function BeginSync(s: State): State {
    s.(running := true, pc := 0, l := START.(startIx := s.w.secretIx), err := None)
  }

  /** Events that are not enabled leave the state alone. */
  function After(cfg: Config, s: State, e: Event): State
    requires WellFormed(cfg)
  {
    match e
    case Begin => if s.running then s else BeginSync(s)
    case Environment(act) => s.(w := EnvStep(s.w, act))
    case Step(c) => if s.running && s.pc < END then OpStep(cfg, s, c) else s
  }

  function Run(cfg: Config, s: State, es: seq<Event>): State
    requires WellFormed(cfg)
    decreases |es|
  {
    if es == [] then s else After(cfg, Run(cfg, s, es[..|es| - 1]), es[|es| - 1])
  }

  ghost predicate Next(cfg: Config, s: State, t: State)
    requires WellFormed(cfg)
  {
    exists e :: t == After(cfg, s, e)
  }

  /** An idle operator that has not started a sync yet, over any cluster with any past and
      with caches anywhere in it. */
  predicate Initial(s: State) {
    Chained(s.w.hist) && !s.running && s.pc == 0 && s.l == START && s.stamps == []
  }

  /** A recorded generation e is not ahead of the live Deployment, and if it is that of the
      live Deployment then the live spec is the one its spec hash was taken of. */
  predicate Honest(c: Snapshot, e: nat) {
    && Deployment in c.objs
    && e <= c.objs[Deployment].gen
    && (e == c.objs[Deployment].gen && SPEC_HASH in c.objs[Deployment].meta ==>
          c.objs[Deployment].meta[SPEC_HASH] == Digest(c.objs[Deployment].spec))
  }
}
