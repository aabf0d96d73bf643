/** When a sync that nobody interrupts, and none of whose calls fail, comes to its end. */
module Completion {
  import opened Wrappers
  import opened ClusterModel
  import opened Conditions
  import opened ApiHistory
  import opened Machine
  import opened Safety
  import Convergence
  import Quiescence
  import RecordedGeneration

  import StatusRuns

  /** Steps of a sync and nothing else, every call answered. */
  function Quiets(n: nat): seq<Event> {
    if n == 0 then [] else Quiets(n - 1) + [Step(QUIET)]
  }

  predicate ReadyAt(w: World, k: Key) {
    ObjectAt(w.hist[w.secretIx], k).Some? && Ready(ObjectAt(w.hist[w.secretIx], k).value)
  }

  /** manageCRD can read the bundle of the live CRD, or need not. */
  predicate CrdReadable(cfg: Config, crd: Option<Object>)
    requires WellFormed(cfg)
  {
    || crd.None? || cfg.manifests[JobSetCrd].spec.conversion.NoClientConfig?
    || (crd.value.spec.Crd? && crd.value.spec.conversion.ClientConfig?)
  }

  predicate Observed(w: World) {
    CachedOperator(w).Some? && Managed(CachedOperator(w).value.management)
  }

  /** What the step with this instruction needs of the world. */
  predicate Passing(cfg: Config, w: World, i: Instr)
    requires WellFormed(cfg)
  {
    match i
    case Observe => Observed(w)
    case ReportAvailable => CachedOperator(w).Some?
    case CheckCertManager => IssuerServed(Live(w))
    case FetchOperator => CachedOperator(w).Some?
    case GateWebhook => ReadyAt(w, WebhookSecret)
    case GateMetrics => ReadyAt(w, MetricsSecret)
    case ReadCrd => CrdReadable(cfg, ObjectAt(Live(w), JobSetCrd))
    case ReportFinal => CachedOperator(w).Some?
    case _ => true
  }

  /** The sync can go all the way: the operator resource observed asks to be managed,
      cert-manager is there, both secrets the cache holds are filled, and the CRD is readable. */
  predicate Healthy(cfg: Config, w: World)
    requires WellFormed(cfg)
  {
    && Observed(w) && IssuerServed(Live(w)) && ReadyAt(w, WebhookSecret) && ReadyAt(w, MetricsSecret)
    && CrdReadable(cfg, ObjectAt(Live(w), JobSetCrd))
  }

  lemma StatusQuiet(s: State, base: Option<Operator>, result: Status)
    requires Live(s.w).operator.Some?
    ensures var t := StepStatus(s, QUIET, base, result);
            && (base.Some? ==> t == s.(w := t.w, pc := s.pc + 1, running := s.pc + 1 < END) && Live(t.w).operator.Some?)
            && (base.None? ==> !t.running && t.err.Some?)
  {
  }

  lemma QuietBase(w: World)
    ensures BaseOperator(w, QUIET) == CachedOperator(w)
  {
  }

  /** A step passes exactly when its condition holds. */
  lemma PassesExactly(cfg: Config, s: State, i: Instr)
    requires WellFormed(cfg) && (i.Apply? ==> i.k in APPLY_ORDER) && s.err.None? && Live(s.w).operator.Some?
    requires i == ReportFinal ==> s.l.dep.Some?
    ensures var t := Perform(cfg, s, QUIET, i);
            && (Passing(cfg, s.w, i) ==> t.err.None? && t.running == (s.pc + 1 < END))
            && (!Passing(cfg, s.w, i) ==> !t.running && (t.err.Some? || i == Observe))
  {
    hide WellFormed, StepStatus, StepApply, WithCondition, FinalStatus, AvailableCondition;
    QuietBase(s.w);
    var available := AvailableCondition(CachedDeployment(s.w, QUIET.listerError));
    StatusQuiet(s, CachedOperator(s.w), WithCondition(BaseStatus(s.w, QUIET), available, QUIET.now));
    StatusQuiet(s, CachedOperator(s.w), WithCondition(BaseStatus(s.w, QUIET), MISSING_DEPENDENCY, QUIET.now));
    if s.l.dep.Some? {
      StatusQuiet(s, CachedOperator(s.w), FinalStatus(BaseStatus(s.w, QUIET), s.l.dep.value, QUIET.now));
    }
    if i.Apply? { ApplyQuiet(cfg, s, i.k); }
  }

  lemma ApplyQuiet(cfg: Config, s: State, k: Key)
    requires WellFormed(cfg) && k in APPLY_ORDER && s.err.None?
    ensures var t := StepApply(cfg, s, k, Fine);
            && t.err.None? && t.running == (s.pc + 1 < END)
            && (k == Deployment ==> t.l.dep.Some?) && (k != Deployment ==> t.l.dep == s.l.dep)
  {
    hide WellFormed, Required, ApplyWorld, ApplyObject;
  }

  /** What no step before the write of the CRD changes. */
  predicate SameFooting(v: World, w: World, crd: bool) {
    && CachedOperator(v) == CachedOperator(w)
    && ObjectAt(v.hist[v.secretIx], WebhookSecret) == ObjectAt(w.hist[w.secretIx], WebhookSecret)
    && ObjectAt(v.hist[v.secretIx], MetricsSecret) == ObjectAt(w.hist[w.secretIx], MetricsSecret)
    && Live(v).certManagerKinds == Live(w).certManagerKinds
    && (Live(v).operator.Some? <==> Live(w).operator.Some?)
    && (crd ==> ObjectAt(Live(v), JobSetCrd) == ObjectAt(Live(w), JobSetCrd))
  }

  lemma CrdWrite(pc: nat)
    requires pc < END
    ensures InstrAt(pc) == Apply(JobSetCrd) <==> pc == Convergence.CRD_WRITE_STEP
    ensures InstrAt(pc) == ReadCrd ==> pc < Convergence.CRD_WRITE_STEP
    ensures InstrAt(pc) == ReportFinal <==> pc == END - 1
    ensures InstrAt(pc) == Apply(Deployment) <==> pc == END - 2
    ensures InstrAt(pc) == Observe <==> pc == 0
  {
  }

  lemma Footing(cfg: Config, s: State, i: Instr)
    requires WellFormed(cfg) && (i.Apply? ==> i.k in APPLY_ORDER) && Live(s.w).operator.Some?
    ensures SameFooting(s.w, Perform(cfg, s, QUIET, i).w, i != Apply(JobSetCrd))
  {
    hide WellFormed, Perform, StepApply, Required, ApplyWorld, ApplyObject;
    var t := Perform(cfg, s, QUIET, i);
    FrameOf(cfg, s, QUIET, i);
    assert t.w.hist[s.w.secretIx] == s.w.hist[s.w.secretIx] && t.w.hist[s.w.operatorIx] == s.w.hist[s.w.operatorIx];
    if i.Apply? {
      Convergence.ApplyOutcome(cfg, s, i.k, Fine);
      ApplyMoves(s.w, i.k, Required(cfg, i.k, s.l), ExpectedGeneration(s.l));
      RecordedGeneration.AppliesKey(cfg, s, QUIET, i.k);
    } else {
      Convergence.UntouchedStep(cfg, s, QUIET, i);
      OperatorStays(cfg, s, i);
    }
  }

  lemma OperatorStays(cfg: Config, s: State, i: Instr)
    requires WellFormed(cfg) && !i.Apply? && Live(s.w).operator.Some?
    ensures Live(Perform(cfg, s, QUIET, i).w).operator.Some?
  {
    hide WellFormed, StepStatus, StepApply, WithCondition, FinalStatus, AvailableCondition;
    var available := AvailableCondition(CachedDeployment(s.w, QUIET.listerError));
    StatusStays(s, BaseOperator(s.w, QUIET), WithCondition(BaseStatus(s.w, QUIET), available, QUIET.now));
    StatusStays(s, BaseOperator(s.w, QUIET), WithCondition(BaseStatus(s.w, QUIET), MISSING_DEPENDENCY, QUIET.now));
    if s.l.dep.Some? {
      StatusStays(s, BaseOperator(s.w, QUIET), FinalStatus(BaseStatus(s.w, QUIET), s.l.dep.value, QUIET.now));
    }
  }

  lemma StatusStays(s: State, base: Option<Operator>, result: Status)
    requires Live(s.w).operator.Some?
    ensures Live(StepStatus(s, QUIET, base, result).w).operator.Some?
  {
  }

  /** The conditions of the first n steps hold in the world the sync began in. */
  predicate PassedUpTo(cfg: Config, w: World, n: nat)
    requires WellFormed(cfg) && n <= END
  {
    forall j :: 0 <= j < n ==> Passing(cfg, w, InstrAt(j))
  }

  predicate Going(t: State, n: nat) {
    t.pc == n && t.err.None? && t.running == (n < END) && (n == END - 1 ==> t.l.dep.Some?)
  }

  predicate Stopped(t: State) {
    !t.running && !StatusRuns.Done(t)
  }

  lemma SamePassing(cfg: Config, v: World, w: World, pc: nat)
    requires WellFormed(cfg) && pc < END && SameFooting(v, w, pc <= Convergence.CRD_WRITE_STEP)
    ensures Passing(cfg, v, InstrAt(pc)) == Passing(cfg, w, InstrAt(pc))
  {
    hide WellFormed, InstrAt, CrdReadable;
    CrdWrite(pc);
  }

  lemma DepKept(cfg: Config, s: State, i: Instr)
    requires WellFormed(cfg) && (i.Apply? ==> i.k in APPLY_ORDER) && s.err.None?
    ensures i == Apply(Deployment) ==> Perform(cfg, s, QUIET, i).l.dep.Some?
  {
    hide WellFormed, StepApply;
    if i == Apply(Deployment) { ApplyQuiet(cfg, s, Deployment); }
  }

  lemma QuietStep(cfg: Config, w: World, t: State, n: nat)
    requires WellFormed(cfg) && n < END && Live(w).operator.Some? && Going(t, n)
    requires SameFooting(w, t.w, n <= Convergence.CRD_WRITE_STEP)
    ensures var u := OpStep(cfg, t, QUIET);
            if Passing(cfg, w, InstrAt(n))
            then Going(u, n + 1) && SameFooting(w, u.w, n + 1 <= Convergence.CRD_WRITE_STEP)
            else Stopped(u)
  {
    hide WellFormed, InstrAt, Passing, Perform, SameFooting;
    var i := InstrAt(n);
    OperatorThere(w, t.w, n <= Convergence.CRD_WRITE_STEP);
    CrdWrite(n);
    SamePassing(cfg, w, t.w, n);
    PassesExactly(cfg, t, i);
    Footing(cfg, t, i);
    FrameOf(cfg, t, QUIET, i);
    DepKept(cfg, t, i);
    SameOn(w, t.w, Perform(cfg, t, QUIET, i).w, n <= Convergence.CRD_WRITE_STEP, i != Apply(JobSetCrd));
  }

  lemma {:induction false} QuietRun(cfg: Config, s: State, n: nat)
    requires WellFormed(cfg) && n <= END && Live(s.w).operator.Some?
    ensures var t := Run(cfg, BeginSync(s), Quiets(n));
            if PassedUpTo(cfg, s.w, n)
            then Going(t, n) && SameFooting(s.w, t.w, n <= Convergence.CRD_WRITE_STEP)
            else Stopped(t)
    decreases n
  {
    hide WellFormed, InstrAt, Passing, OpStep, SameFooting, Stopped, PassedUpTo;
    if n == 0 {
      SameSelf(s.w);
      NonePassed(cfg, s.w);
    } else {
      QuietRun(cfg, s, n - 1);
      var t := Run(cfg, BeginSync(s), Quiets(n - 1));
      OneMoreQuiet(cfg, BeginSync(s), n);
      OneMorePassed(cfg, s.w, n);
      hide Run;
      if PassedUpTo(cfg, s.w, n - 1) {
        QuietStep(cfg, s.w, t, n - 1);
      } else {
        StoppedStays(cfg, t);
      }
    }
  }

  lemma NonePassed(cfg: Config, w: World)
    requires WellFormed(cfg)
    ensures PassedUpTo(cfg, w, 0)
  {
  }

  lemma OneMorePassed(cfg: Config, w: World, n: nat)
    requires WellFormed(cfg) && 0 < n <= END
    ensures PassedUpTo(cfg, w, n) <==> PassedUpTo(cfg, w, n - 1) && Passing(cfg, w, InstrAt(n - 1))
  {
    hide WellFormed, InstrAt, Passing;
  }

  lemma OneMoreQuiet(cfg: Config, s: State, n: nat)
    requires WellFormed(cfg) && n > 0
    ensures Run(cfg, s, Quiets(n)) == After(cfg, Run(cfg, s, Quiets(n - 1)), Step(QUIET))
  {
    hide WellFormed, After;
    assert Quiets(n)[..|Quiets(n)| - 1] == Quiets(n - 1);
  }

  lemma StoppedStays(cfg: Config, t: State)
    requires WellFormed(cfg) && Stopped(t)
    ensures After(cfg, t, Step(QUIET)) == t
  {
    hide WellFormed;
  }

  lemma SameSelf(w: World)
    ensures SameFooting(w, w, true)
  {
  }

  lemma OperatorThere(v: World, w: World, crd: bool)
    requires SameFooting(v, w, crd) && Live(v).operator.Some?
    ensures Live(w).operator.Some?
  {
  }

  lemma SameOn(u: World, v: World, w: World, a: bool, b: bool)
    requires SameFooting(u, v, a) && SameFooting(v, w, b)
    ensures SameFooting(u, w, a && b) && SameFooting(u, w, false)
  {
  }

  /** Nothing before the read of the CRD needs more than the other parts of health. */
  lemma PassesBeforeRead(cfg: Config, w: World, n: nat)
    requires WellFormed(cfg) && n < Convergence.CRD_READ_STEP
    requires Observed(w) && IssuerServed(Live(w)) && ReadyAt(w, WebhookSecret) && ReadyAt(w, MetricsSecret)
    ensures Passing(cfg, w, InstrAt(n))
  {
    hide WellFormed, InstrAt;
    Convergence.StepNumbers();
    Convergence.NumbersOf(n);
  }

  lemma HealthyPasses(cfg: Config, w: World)
    requires WellFormed(cfg)
    ensures Healthy(cfg, w) <==> PassedUpTo(cfg, w, END)
  {
    hide WellFormed, InstrAt;
    Instructions();
    if PassedUpTo(cfg, w, END) {
      assert Passing(cfg, w, InstrAt(0)) && Passing(cfg, w, InstrAt(2)) && Passing(cfg, w, InstrAt(10));
      assert Passing(cfg, w, InstrAt(11)) && Passing(cfg, w, InstrAt(14));
    }
  }

  lemma Instructions()
    ensures InstrAt(0) == Observe && InstrAt(2) == CheckCertManager && InstrAt(10) == GateWebhook
    ensures InstrAt(11) == GateMetrics && InstrAt(14) == ReadCrd
  {
  }

  /** Left alone, a sync completes if and only if the cluster is healthy when it begins: no
      other state of the cluster keeps it from its end. */
  lemma CompletesExactly(cfg: Config, s: State)
    requires WellFormed(cfg) && Live(s.w).operator.Some?
    ensures StatusRuns.Done(Run(cfg, BeginSync(s), Quiets(END))) <==> Healthy(cfg, s.w)
  {
    hide WellFormed, Run, Healthy, PassedUpTo;
    QuietRun(cfg, s, END);
    HealthyPasses(cfg, s.w);
  }

  lemma {:induction false} QuietsAlone(n: nat)
    ensures Convergence.Alone(Quiets(n))
  {
    if n > 0 {
      QuietsAlone(n - 1);
    }
  }

  /** Convergence from any healthy cluster, without further ado: twenty-two steps later every
      object is in its required form - the Deployment as long as the generations the cache may
      show are honest. */
  lemma HealthyConverges(cfg: Config, s: State, k: Key)
    requires WellFormed(cfg) && k in APPLY_ORDER && Live(s.w).operator.Some? && Healthy(cfg, s.w)
    requires k == Deployment ==> Convergence.CacheHonest(s.w, s.w.operatorIx)
    ensures var t := Run(cfg, BeginSync(s), Quiets(END));
            Convergence.InForm(cfg, Live(t.w), t.l, k)
  {
    hide WellFormed, Healthy, Convergence.CacheHonest, Convergence.InForm;
    CompletesExactly(cfg, s);
    QuietsAlone(END);
    Convergence.Converges(cfg, s, Quiets(END), k);
  }

  // ---- A cluster to begin with

  const PLAIN_DEPLOYMENT := Deploy(Some(1), PodTemplate(map[], [Container("", [], "", "")], [], ""), "")

  function PlainAsset(k: Key, conversion: Conversion): Spec {
    match k
    case WebhookService => ServiceSpec("", "", "")
    case ValidatingWebhook => Hooks([])
    case MutatingWebhook => Hooks([])
    case JobSetCrd => Crd(conversion, "")
    case Deployment => PLAIN_DEPLOYMENT
    case _ => Plain("")
  }

  function Small(conversion: Conversion): Config {
    Config("", map k | k in APPLY_ORDER :: Manifest(map[], PlainAsset(k, conversion)), Crd(conversion, ""))
  }

  function Filled(): Object {
    Object(0, 1, map[], SecretData("crt", "key"), 0)
  }

  function First(more: map<Key, Object>, recorded: Option<nat>): Snapshot {
    Snapshot(more + map[WebhookSecret := Filled(), MetricsSecret := Filled()],
             Some(Operator("uid", "", "", Status([], recorded, 0))), Some(["Issuer"]), 1, 34)
  }

  function Beginning(more: map<Key, Object>, recorded: Option<nat>): State {
    State(Store([First(more, recorded)], 0, 0, 0), false, 0, START, None, [])
  }

  /** The hypotheses of the theorems about runs can be met: here are configurations and an
      initial state from which a sync completes, and reaches each of its steps on the way. */
  lemma SomeSyncCompletes(conversion: Conversion)
    ensures var cfg, s := Small(conversion), Beginning(map[], None);
            && WellFormed(cfg) && Initial(s) && Healthy(cfg, s.w)
            && StatusRuns.Done(Run(cfg, BeginSync(s), Quiets(END)))
            && forall n :: 0 <= n < END ==>
                 Run(cfg, BeginSync(s), Quiets(n)).running && Run(cfg, BeginSync(s), Quiets(n)).pc == n
  {
    hide WellFormed, Healthy, PassedUpTo, Run, InstrAt, Passing, Small, Beginning, Initial;
    var cfg, s := Small(conversion), Beginning(map[], None);
    SmallIsWellFormed(conversion);
    BeginningIsInitial(map[], None);
    BeginningIsHealthy(conversion, map[], None);
    CompletesExactly(cfg, s);
    HealthyPasses(cfg, s.w);
    forall n | 0 <= n < END
      ensures Run(cfg, BeginSync(s), Quiets(n)).running && Run(cfg, BeginSync(s), Quiets(n)).pc == n
    {
      QuietRun(cfg, s, n);
      FewerPassed(cfg, s.w, n);
    }
  }

  lemma FewerPassed(cfg: Config, w: World, n: nat)
    requires WellFormed(cfg) && n <= END && PassedUpTo(cfg, w, END)
    ensures PassedUpTo(cfg, w, n)
  {
    hide WellFormed, InstrAt, Passing;
  }

  lemma SmallKeys(conversion: Conversion)
    ensures forall k :: k in APPLY_ORDER ==> k in Small(conversion).manifests
  {
  }

  lemma SmallSpec(conversion: Conversion, k: Key, spec: Spec)
    requires k in APPLY_ORDER && PlainAsset(k, conversion) == spec
    ensures k in Small(conversion).manifests && Small(conversion).manifests[k].spec == spec
  {
    hide PlainAsset;
  }

  lemma SmallIsWellFormed(conversion: Conversion)
    ensures WellFormed(Small(conversion))
    ensures Small(conversion).manifests[JobSetCrd].spec == Crd(conversion, "")
    ensures Small(conversion).manifests[Deployment].spec == PLAIN_DEPLOYMENT
  {
    SmallFacts(conversion);
    SmallRest(conversion);
    hide Small, PlainAsset;
    SmallKeys(conversion);
    SmallSpec(conversion, WebhookService, ServiceSpec("", "", ""));
    SmallSpec(conversion, ValidatingWebhook, Hooks([]));
    SmallSpec(conversion, MutatingWebhook, Hooks([]));
    SmallSpec(conversion, JobSetCrd, Crd(conversion, ""));
    SmallSpec(conversion, Deployment, PLAIN_DEPLOYMENT);
  }

  lemma SmallFacts(conversion: Conversion)
    ensures WebhookService in APPLY_ORDER && ValidatingWebhook in APPLY_ORDER && MutatingWebhook in APPLY_ORDER
    ensures JobSetCrd in APPLY_ORDER && Deployment in APPLY_ORDER
    ensures PlainAsset(WebhookService, conversion) == ServiceSpec("", "", "")
    ensures PlainAsset(ValidatingWebhook, conversion) == Hooks([])
    ensures PlainAsset(MutatingWebhook, conversion) == Hooks([])
    ensures PlainAsset(JobSetCrd, conversion) == Crd(conversion, "")
    ensures PlainAsset(Deployment, conversion) == PLAIN_DEPLOYMENT
  {
  }

  lemma SmallRest(conversion: Conversion)
    ensures Small(conversion).legacyCrd == Crd(conversion, "")
  {
  }

  lemma BeginningIsInitial(more: map<Key, Object>, recorded: Option<nat>)
    requires forall k :: k in more ==> more[k].rv == 0
    ensures var s := Beginning(more, recorded);
            Initial(s) && Live(s.w) == First(more, recorded) && Quiescence.Fresh(s.w)
  {
  }

  lemma BeginningIsHealthy(conversion: Conversion, more: map<Key, Object>, recorded: Option<nat>)
    requires WellFormed(Small(conversion)) && JobSetCrd !in more
    ensures Healthy(Small(conversion), Beginning(more, recorded).w)
  {
    hide WellFormed, Small;
    BeginningParts(more, recorded);
  }

  /** All the parts of a healthy cluster but the CRD. */
  lemma BeginningParts(more: map<Key, Object>, recorded: Option<nat>)
    ensures var w := Beginning(more, recorded).w;
            Observed(w) && IssuerServed(Live(w)) && ReadyAt(w, WebhookSecret) && ReadyAt(w, MetricsSecret)
  {
    assert First(more, recorded).certManagerKinds.value[0] == "Issuer";
    assert |Filled().spec.crt| == 3 && |Filled().spec.key| == 3;
  }
}
