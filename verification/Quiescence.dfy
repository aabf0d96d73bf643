/** After a sync nobody interrupted, the next one writes nothing - exactly when what the
    first one read was current. */
module Quiescence {
  import opened Wrappers
  import opened ClusterModel
  import opened Conditions
  import opened Applying
  import opened ApiHistory
  import opened Machine
  import opened Safety
  import opened Convergence
  import StatusRuns
  import Rotation
  import Template

  /** What the finished sync t read is what is live: the operator resource up to the log
      level class, both secrets, and the status it meant to leave. */
  predicate ReadCurrent(t: State) {
    && t.l.operator.Some? && Live(t.w).operator.Some? && t.l.dep.Some?
    && t.l.operator.value.uid == Live(t.w).operator.value.uid
    && Template.Verbose(t.l.operator.value.logLevel) == Template.Verbose(Live(t.w).operator.value.logLevel)
    && Version(t.l.web) == Version(ObjectAt(Live(t.w), WebhookSecret))
    && Version(t.l.met) == Version(ObjectAt(Live(t.w), MetricsSecret))
    && Reported(Live(t.w).operator.value.status, t.l.dep.value)
  }

  /** The deployment lister works. */
  predicate ListersWork(es: seq<Event>) {
    forall e :: e in es && e.Step? ==> e.choice.listerError.None?
  }

  predicate Fresh(w: World) {
    w.secretIx == w.deployIx == w.operatorIx == |w.hist| - 1
  }

  /** The bundle manageCRD reads from a live CRD it can handle. */
  function LiveBundle(cfg: Config, c: Snapshot): Option<string>
    requires WellFormed(cfg)
  {
    if JobSetCrd !in c.objs || cfg.manifests[JobSetCrd].spec.conversion.NoClientConfig? then None
    else if c.objs[JobSetCrd].spec.Crd? && c.objs[JobSetCrd].spec.conversion.ClientConfig?
    then Some(c.objs[JobSetCrd].spec.conversion.bundle)
    else None
  }

  /** The locals of a sync that runs on fresh caches in an unchanging world. */
  predicate LocalsLive(cfg: Config, s: State)
    requires WellFormed(cfg)
  {
    && s.pc <= END
    && (PastGate(s, FETCH_STEP) ==> s.l.operator.Some? && s.l.operator == Live(s.w).operator)
    && (PastGate(s, VERSION_STEP) ==> s.l.legacy == LegacyServer(Live(s.w).major, Live(s.w).minor))
    && (PastGate(s, WEBHOOK_GATE) ==> s.l.web == ObjectAt(Live(s.w), WebhookSecret))
    && (PastGate(s, METRICS_GATE) ==> s.l.met == ObjectAt(Live(s.w), MetricsSecret))
    && (PastGate(s, CRD_READ_STEP) ==> s.l.bundle == LiveBundle(cfg, Live(s.w)))
    && (PastGate(s, CONFIG_STEP) ==> s.l.config == ObjectAt(Live(s.w), ConfigMap))
    && (PastGate(s, Rotation.DEPLOYMENT_STEP) ==> s.l.dep.Some? && s.l.dep == ObjectAt(Live(s.w), Deployment))
    && (StatusRuns.Done(s) ==> Live(s.w).operator.Some? && Reported(Live(s.w).operator.value.status, s.l.dep.value))
  }

  lemma MoreNumbers(pc: nat)
    requires pc < END
    ensures InstrAt(pc).Apply? ==> pc > 4 && pc < END - 1
    ensures InstrAt(pc) == Apply(JobSetCrd) ==> pc == CRD_READ_STEP + 1
    ensures InstrAt(pc) == ReportFinal <==> pc == END - 1
    ensures InstrAt(pc) == Observe <==> pc == 0
  {
  }

  /** The read steps assign live values. */
  lemma ReadsLive(cfg: Config, s: State, c: Choice, i: Instr)
    requires WellFormed(cfg) && Fresh(s.w) && s.pc < END && s.err.None?
    ensures var t := Perform(cfg, s, c, i);
            t.running ==>
              && (i == FetchOperator ==> t.l.operator.Some? && t.l.operator == Live(s.w).operator)
              && (i == GateWebhook ==> t.l.web == ObjectAt(Live(s.w), WebhookSecret))
              && (i == GateMetrics ==> t.l.met == ObjectAt(Live(s.w), MetricsSecret))
              && (i == ReadCrd ==> t.l.bundle == LiveBundle(cfg, Live(s.w)))
    requires i == FetchOperator || i == GateWebhook || i == GateMetrics || i == ReadCrd
  {
  }

  lemma PlainLocalsLive(cfg: Config, s: State, c: Choice)
    requires WellFormed(cfg) && Fresh(s.w) && s.running && s.err.None? && s.pc < END - 1 && !InstrAt(s.pc).Apply?
    requires LocalsLive(cfg, s) && OpStep(cfg, s, c).w == s.w
    ensures LocalsLive(cfg, OpStep(cfg, s, c))
  {
    hide WellFormed, Perform, InstrAt, LiveBundle, Reported;
    var i, t := InstrAt(s.pc), OpStep(cfg, s, c);
    FrameOf(cfg, s, c, i);
    LocalsOf(cfg, s, c, i);
    StepNumbers();
    Gates();
    Rotation.DeploymentStep();
    NumbersOf(s.pc);
    if i == FetchOperator || i == GateWebhook || i == GateMetrics || i == ReadCrd { ReadsLive(cfg, s, c, i); }
  }

  lemma ApplyLocalsLive(cfg: Config, s: State, c: Choice)
    requires WellFormed(cfg) && s.running && s.pc < END && InstrAt(s.pc).Apply?
    requires LocalsLive(cfg, s) && OpStep(cfg, s, c).w == s.w
    ensures LocalsLive(cfg, OpStep(cfg, s, c))
  {
    hide WellFormed, InstrAt, LiveBundle, Reported, StepApply;
    ApplyOutcome(cfg, s, InstrAt(s.pc).k, c.fault);
    StepNumbers();
    Gates();
    Rotation.DeploymentStep();
    NumbersOf(s.pc);
    MoreNumbers(s.pc);
  }

  lemma FinalLocalsLive(cfg: Config, s: State, c: Choice)
    requires WellFormed(cfg) && Fresh(s.w) && s.running && s.err.None? && s.pc == END - 1
    requires LocalsLive(cfg, s) && OpStep(cfg, s, c).w == s.w
    ensures LocalsLive(cfg, OpStep(cfg, s, c))
  {
    hide WellFormed, LiveBundle, Reported, FinalStatus;
    StatusRuns.LastStep();
    FinalStatusIdle(BaseStatus(s.w, c), s.l.dep.value, c.now);
    FinalStatusReports(BaseStatus(s.w, c), s.l.dep.value, c.now);
  }

  lemma LiveStep(cfg: Config, s: State, c: Choice)
    requires WellFormed(cfg) && Fresh(s.w) && s.running && s.err.None? && s.pc < END
    requires LocalsLive(cfg, s) && OpStep(cfg, s, c).w == s.w
    ensures LocalsLive(cfg, OpStep(cfg, s, c))
  {
    if s.pc == END - 1 { FinalLocalsLive(cfg, s, c); }
    else if InstrAt(s.pc).Apply? { ApplyLocalsLive(cfg, s, c); }
    else { PlainLocalsLive(cfg, s, c); }
  }

  // ---- From current reads to silence

  predicate SameOwner(t: State, u: State) {
    t.l.operator.Some? && u.l.operator.Some? && t.l.operator.value.uid == u.l.operator.value.uid
  }

  /** The finished sync t and a later sync u over the same live objects require the same. */
  predicate SameRequirements(t: State, u: State) {
    SameOwner(t, u) && t.l.legacy == u.l.legacy
  }

  lemma SamePlain(cfg: Config, t: State, u: State, k: Key)
    requires WellFormed(cfg) && SameOwner(t, u) && k in APPLY_ORDER && k != JobSetCrd && k != Deployment
    ensures Required(cfg, k, t.l) == Required(cfg, k, u.l)
  {
  }

  /** Reading the bundle back from the CRD the first sync left gives the same required CRD. */
  lemma SameCrd(cfg: Config, t: State, u: State)
    requires WellFormed(cfg) && SameRequirements(t, u)
    requires InForm(cfg, Live(t.w), t.l, JobSetCrd) && u.l.bundle == LiveBundle(cfg, Live(t.w))
    ensures Required(cfg, JobSetCrd, t.l) == Required(cfg, JobSetCrd, u.l)
  {
    assert Live(t.w).objs[JobSetCrd].spec == RequiredSpec(cfg, JobSetCrd, t.l);
  }

  lemma SameDeployment(cfg: Config, t: State, u: State)
    requires WellFormed(cfg) && SameOwner(t, u)
    ensures Required(cfg, Deployment, t.l) == Required(cfg, Deployment, u.l) <==>
              && Template.Verbose(LogLevel(t.l)) == Template.Verbose(LogLevel(u.l))
              && Version(t.l.web) == Version(u.l.web) && Version(t.l.met) == Version(u.l.met)
              && Version(t.l.config) == Version(u.l.config)
  {
    hide Template.Build, Template.Verbose;
    Template.RolloutExact(cfg.manifests[Deployment].spec.template, TemplateInputs(cfg, t.l), TemplateInputs(cfg, u.l));
    var asset := cfg.manifests[Deployment].spec.template;
    assert RequiredSpec(cfg, Deployment, t.l) == RequiredSpec(cfg, Deployment, u.l) <==>
      Template.Build(asset, TemplateInputs(cfg, t.l)) == Template.Build(asset, TemplateInputs(cfg, u.l));
  }

  lemma SilentApply(cfg: Config, s: State, k: Key, fault: Fault)
    requires WellFormed(cfg) && k in APPLY_ORDER && Held(cfg, Live(s.w), s.l, k, false)
    requires k == Deployment ==> Live(s.w).objs[Deployment].gen == ExpectedGeneration(s.l)
    ensures StepApply(cfg, s, k, fault).w == s.w
  {
    hide WellFormed, Required, Agrees, ExpectedGeneration, MetaAgrees;
    SkipIffAgrees(k, ObjectAt(Live(s.w), k), Required(cfg, k, s.l), ExpectedGeneration(s.l));
  }

  /** t has finished over the live objects of u's world, and what it read is current. */
  predicate Following(cfg: Config, t: State, u: State)
    requires WellFormed(cfg)
  {
    && StatusRuns.Done(t) && ReadCurrent(t) && Live(u.w) == Live(t.w) && Fresh(u.w)
    && t.l.legacy == LegacyServer(Live(t.w).major, Live(t.w).minor) && t.l.config.Some?
    && t.l.config == ObjectAt(Live(t.w), ConfigMap)
    && t.l.dep == ObjectAt(Live(t.w), Deployment) && IssuerServed(Live(t.w))
    && forall k :: k in APPLY_ORDER ==> Held(cfg, Live(t.w), t.l, k, false)
  }

  lemma SilentApplyStep(cfg: Config, t: State, s: State, c: Choice)
    requires WellFormed(cfg) && Following(cfg, t, s) && LocalsLive(cfg, s)
    requires s.running && s.err.None? && s.pc < END && InstrAt(s.pc).Apply?
    ensures OpStep(cfg, s, c).w == s.w
  {
    hide WellFormed, InstrAt, LiveBundle, Reported, Required, InForm, MetaAgrees, Template.Verbose;
    var k := InstrAt(s.pc).k;
    NumbersOf(s.pc);
    MoreNumbers(s.pc);
    assert Held(cfg, Live(t.w), t.l, k, false);
    if k == JobSetCrd { SameCrd(cfg, t, s); }
    else if k == Deployment { SameDeployment(cfg, t, s); ReportedGeneration(t, s); }
    else { SamePlain(cfg, t, s, k); }
    HeldMoves(cfg, Live(s.w), t.l, s.l, k, false);
    hide Held, StepApply, LocalsLive, Following, SameRequirements;
    SilentApply(cfg, s, k, c.fault);
  }

  lemma ReportedGeneration(t: State, s: State)
    requires ReadCurrent(t) && s.l.operator.Some? && s.l.operator == Live(t.w).operator
    requires t.l.dep == ObjectAt(Live(t.w), Deployment)
    ensures Deployment in Live(t.w).objs && Live(t.w).objs[Deployment].gen == ExpectedGeneration(s.l)
  {
  }

  lemma SilentStatus(s: State, c: Choice, cond: Condition)
    requires Fresh(s.w) && cond.since == 0
    requires Live(s.w).operator.Some? ==>
               var found := Find(Live(s.w).operator.value.status.conditions, cond.kind);
               found.Some? && found.value.(since := 0) == cond
    ensures StepStatus(s, c, BaseOperator(s.w, c), WithCondition(BaseStatus(s.w, c), cond, c.now)).w == s.w
  {
    if Live(s.w).operator.Some? {
      SetConditionIdle(Live(s.w).operator.value.status.conditions, cond, c.now);
    }
  }

  lemma SilentPlainStep(cfg: Config, t: State, s: State, c: Choice)
    requires WellFormed(cfg) && Following(cfg, t, s) && LocalsLive(cfg, s) && c.listerError.None?
    requires s.running && s.err.None? && s.pc < END && !InstrAt(s.pc).Apply?
    ensures OpStep(cfg, s, c).w == s.w
  {
    hide WellFormed, InstrAt, LiveBundle, Required, Held, Template.Verbose, StepStatus, WithCondition, FinalStatus;
    MoreNumbers(s.pc);
    assert CachedDeployment(s.w, c.listerError) == Found(t.l.dep.value);
    AvailableKinds(t.l.dep.value);
    SilentStatus(s, c, AvailableCondition(Found(t.l.dep.value)));
    if s.pc == END - 1 {
      SilentFinal(s, c);
    }
  }

  lemma AvailableKinds(dep: Object)
    ensures AvailableCondition(Found(dep)).kind == AVAILABLE && AvailableCondition(Found(dep)).since == 0
  {
  }

  lemma SilentFinal(s: State, c: Choice)
    requires Fresh(s.w) && s.l.dep.Some?
    requires Live(s.w).operator.Some? ==> Reported(Live(s.w).operator.value.status, s.l.dep.value)
    ensures StepStatus(s, c, BaseOperator(s.w, c), FinalStatus(BaseStatus(s.w, c), s.l.dep.value, c.now)).w == s.w
  {
    hide Reported, FinalStatus;
    FinalStatusIdle(BaseStatus(s.w, c), s.l.dep.value, c.now);
  }

  /** The next sync after t, on caches that have caught up. */
  function Again(t: State): State {
    BeginSync(t.(w := CaughtUp(t.w)))
  }

  lemma AgainLive(cfg: Config, t: State)
    requires WellFormed(cfg)
    ensures Live(Again(t).w) == Live(t.w) && Fresh(Again(t).w) && Again(t).running && Again(t).err.None?
    ensures Again(t).pc == 0
    ensures LocalsLive(cfg, Again(t))
  {
    hide WellFormed;
  }

  lemma FollowingOf(cfg: Config, t: State)
    requires WellFormed(cfg) && LoneInv(cfg, t, None) && StatusRuns.Done(t) && ReadCurrent(t)
    ensures Following(cfg, t, Again(t))
  {
    hide WellFormed, ReadCurrent, Held, GateInv;
    AgainLive(cfg, t);
    forall k | k in APPLY_ORDER ensures Held(cfg, Live(t.w), t.l, k, false) {
      AllCalled(t, k);
      FormOf(cfg, t, k, false);
    }
  }

  lemma SilentStep(cfg: Config, t: State, s: State, c: Choice)
    requires WellFormed(cfg) && Following(cfg, t, s) && LocalsLive(cfg, s) && c.listerError.None?
    requires s.running && s.err.None? && s.pc < END
    ensures OpStep(cfg, s, c).w == s.w
  {
    if InstrAt(s.pc).Apply? { SilentApplyStep(cfg, t, s, c); } else { SilentPlainStep(cfg, t, s, c); }
  }

  lemma {:induction false} SilentRun(cfg: Config, t: State, es: seq<Event>)
    requires WellFormed(cfg) && Following(cfg, t, Again(t)) && Alone(es) && ListersWork(es)
    ensures var u := Run(cfg, Again(t), es);
            u.w == Again(t).w && LocalsLive(cfg, u) && Rotation.RunningClean(u)
    decreases |es|
  {
    hide WellFormed, LocalsLive, OpStep;
    AgainLive(cfg, t);
    if es != [] {
      var front, e := es[..|es| - 1], es[|es| - 1];
      assert e in es;
      SilentRun(cfg, t, front);
      var u := Run(cfg, Again(t), front);
      FollowingMoves(cfg, t, Again(t), u);
      if e.Step? && u.running && u.pc < END {
        SilentStep(cfg, t, u, e.choice);
        LiveStep(cfg, u, e.choice);
        CleanStep(cfg, u, e.choice);
      } else if e.Environment? {
        FreshCaches(u.w, e.act);
      }
    }
  }

  lemma FollowingMoves(cfg: Config, t: State, s: State, u: State)
    requires WellFormed(cfg) && Following(cfg, t, s) && u.w == s.w
    ensures Following(cfg, t, u)
  {
    hide WellFormed, ReadCurrent, Held;
  }

  lemma FreshCaches(w: World, act: Act)
    requires Fresh(w) && act.Caches?
    ensures MoveCaches(w, act.secret, act.deploy, act.operator) == w
  {
  }

  lemma CleanStep(cfg: Config, s: State, c: Choice)
    requires WellFormed(cfg) && s.running && s.err.None? && s.pc < END
    ensures Rotation.RunningClean(OpStep(cfg, s, c))
  {
    hide WellFormed, Perform;
    Rotation.StampsKept(cfg, s, c, InstrAt(s.pc));
  }

  // ---- From silence to current reads

  predicate Before(a: World, b: World) {
    a.hist <= b.hist && a.secretIx <= b.secretIx && a.deployIx <= b.deployIx && a.operatorIx <= b.operatorIx
  }

  lemma BeforeAfter(cfg: Config, s: State, e: Event)
    requires WellFormed(cfg) && !e.Begin?
    ensures Before(s.w, After(cfg, s, e).w)
  {
    hide WellFormed, Perform, InstrAt;
    if e.Step? && s.running && s.pc < END {
      FrameOf(cfg, s, e.choice, InstrAt(s.pc));
    }
  }

  lemma {:induction false} BeforeRun(cfg: Config, s: State, es: seq<Event>)
    requires WellFormed(cfg) && Alone(es)
    ensures Before(s.w, Run(cfg, s, es).w)
    decreases |es|
  {
    hide WellFormed, After;
    if es != [] {
      assert es[|es| - 1] in es;
      BeforeRun(cfg, s, es[..|es| - 1]);
      BeforeAfter(cfg, Run(cfg, s, es[..|es| - 1]), es[|es| - 1]);
    }
  }

  lemma {:induction false} LocalsRun(cfg: Config, t: State, es: seq<Event>)
    requires WellFormed(cfg) && Alone(es) && Run(cfg, Again(t), es).w == Again(t).w
    ensures LocalsLive(cfg, Run(cfg, Again(t), es)) && Rotation.RunningClean(Run(cfg, Again(t), es))
    decreases |es|
  {
    hide WellFormed, LocalsLive, OpStep;
    AgainLive(cfg, t);
    if es != [] {
      var front, e := es[..|es| - 1], es[|es| - 1];
      assert e in es;
      var u := Run(cfg, Again(t), front);
      BeforeRun(cfg, Again(t), front);
      BeforeAfter(cfg, u, e);
      assert u.w == Again(t).w;
      LocalsRun(cfg, t, front);
      if e.Step? && u.running && u.pc < END {
        LiveStep(cfg, u, e.choice);
        CleanStep(cfg, u, e.choice);
      }
    }
  }

  /** Two complete syncs over the same live objects must have built the same template. */
  lemma SilenceMeansCurrent(cfg: Config, t: State, u: State)
    requires WellFormed(cfg) && LoneInv(cfg, t, None) && StatusRuns.Done(t) && LoneInv(cfg, u, None)
    requires StatusRuns.Done(u)
    requires LocalsLive(cfg, u) && Live(u.w) == Live(t.w) && t.l.operator.Some?
    ensures ReadCurrent(t)
  {
    hide WellFormed, Held, GateInv, LiveBundle, Reported, Required;
    AllCalled(t, Deployment);
    AllCalled(u, Deployment);
    FormOf(cfg, t, Deployment, false);
    FormOf(cfg, u, Deployment, false);
    SameForms(cfg, Live(t.w), t.l, u.l);
    SameDeployment(cfg, t, u);
  }

  /** The live metadata tells what was required: the hash is that of one spec. */
  lemma SameForms(cfg: Config, c: Snapshot, l: Locals, m: Locals)
    requires WellFormed(cfg) && Held(cfg, c, l, Deployment, false) && Held(cfg, c, m, Deployment, false)
    requires l.operator.Some? && m.operator.Some?
    ensures Required(cfg, Deployment, l) == Required(cfg, Deployment, m)
    ensures l.operator.value.uid == m.operator.value.uid
  {
    hide RequiredSpec;
    var a, b := Required(cfg, Deployment, l), Required(cfg, Deployment, m);
    assert OWNER in a.meta && OWNER in b.meta && SPEC_HASH in a.meta && SPEC_HASH in b.meta;
    DistinctMetaKeys();
    assert a.meta[OWNER] == b.meta[OWNER] && a.meta[SPEC_HASH] == b.meta[SPEC_HASH];
  }

  /** Quiescence, whatever the cluster's past. A complete sync nobody interrupted is followed,
      once the caches have caught up and while nobody else writes, by a sync that writes
      nothing at all - even though the required Deployment depends on versions the first sync
      may itself have changed - if what the first one read was current; and if the second
      completes, only if it was. */
  lemma Quiescent(cfg: Config, s: State, es: seq<Event>, later: seq<Event>)
    requires WellFormed(cfg) && Alone(es) && StatusRuns.Done(Run(cfg, BeginSync(s), es))
    requires Alone(later) && ListersWork(later)
    ensures var t := Run(cfg, BeginSync(s), es);
            var u := Run(cfg, Again(t), later);
            && (ReadCurrent(t) ==> u.w == Again(t).w)
            && (StatusRuns.Done(u) ==> (u.w == Again(t).w <==> ReadCurrent(t)))
  {
    hide WellFormed, LoneInv, LocalsLive, ReadCurrent, Following;
    LoneRun(cfg, s, es, None);
    var t := Run(cfg, BeginSync(s), es);
    var u := Run(cfg, Again(t), later);
    AgainLive(cfg, t);
    OperatorKnown(cfg, t);
    if ReadCurrent(t) {
      FollowingOf(cfg, t);
      SilentRun(cfg, t, later);
    } else if StatusRuns.Done(u) && u.w == Again(t).w {
      LocalsRun(cfg, t, later);
      LoneRun(cfg, t.(w := CaughtUp(t.w)), later, None);
      SilenceMeansCurrent(cfg, t, u);
    }
  }

  lemma OperatorKnown(cfg: Config, t: State)
    requires WellFormed(cfg) && LoneInv(cfg, t, None) && StatusRuns.Done(t)
    ensures t.l.operator.Some?
  {
    hide WellFormed, AllInForm, GateInv;
  }
}
