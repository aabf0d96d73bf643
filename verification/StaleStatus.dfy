/** What a sync that nobody interrupts makes of the status when it starts from stale caches:
    exactly when it keeps the conditions of other types and leaves its report, and runs in
    which it does neither. */
module StaleStatus {
  import opened Wrappers
  import opened ClusterModel
  import opened Conditions
  import opened Applying
  import opened ApiHistory
  import opened Machine
  import opened Safety
  import opened Completion
  import opened Quiescence
  import opened QuietRuns
  import opened Settling
  import opened StatusRuns
  import Convergence
  import Deletion
  import Template

  // ---- The status a quiet sync leaves

  /** The cached status, which both updates start from. */
  function CachedStatus(w: World): Status
    requires CachedOperator(w).Some?
  {
    CachedOperator(w).value.status
  }

  /** The first update finds nothing to do in the cached status. */
  predicate FirstIdle(w: World)
    requires CachedOperator(w).Some?
  {
    Holds(CachedStatus(w), AvailableCondition(CachedDeployment(w, None)))
  }

  /** What both updates together leave, the last one for this Deployment. */
  function LastStatus(w: World, dep: Object): Status
    requires CachedOperator(w).Some? && Live(w).operator.Some?
  {
    if Reported(CachedStatus(w), dep) then FirstStatus(w) else FinalStatus(CachedStatus(w), dep, QUIET.now)
  }

  lemma LastUpdate(cfg: Config, s: State, u: State)
    requires WellFormed(cfg) && StatusAt(s, u, END - 1) && Going(u, END - 1)
    requires CachedOperator(u.w) == CachedOperator(s.w)
    ensures Live(OpStep(cfg, u, QUIET).w).operator ==
              Some(Live(s.w).operator.value.(status := LastStatus(s.w, u.l.dep.value)))
  {
    hide WellFormed, FirstStatus, FinalStatus, Reported;
    LastStep();
    QuietBase(u.w);
    FinalStatusIdle(CachedStatus(s.w), u.l.dep.value, QUIET.now);
  }

  /** The operator resource a quiet sync leaves, from the cached and the live status it began with
      and the Deployment it applied. */
  lemma StatusOutcome(cfg: Config, s: State)
    requires WellFormed(cfg) && Live(s.w).operator.Some? && Healthy(cfg, s.w)
    ensures var t := Run(cfg, BeginSync(s), Quiets(END));
            && Done(t) && t.l.dep.Some? && t.l.dep == Run(cfg, BeginSync(s), Quiets(21)).l.dep
            && Live(t.w).operator == Some(Live(s.w).operator.value.(status := LastStatus(s.w, t.l.dep.value)))
  {
    hide WellFormed, Run, OpStep, Healthy, StatusAt, Tracked, FirstStatus, LastStatus;
    var u := Run(cfg, BeginSync(s), Quiets(21));
    CompletesExactly(cfg, s);
    OneMoreQuiet(cfg, BeginSync(s), END);
    TrackedRun(cfg, s, 21);
    StatusAlong(cfg, s, 21);
    LastUpdate(cfg, s, u);
    Convergence.FinalLocals(cfg, u, QUIET);
  }

  lemma FirstKeeps(w: World, kind: string)
    requires CachedOperator(w).Some? && Live(w).operator.Some? && kind != AVAILABLE
    ensures Find(FirstStatus(w).conditions, kind) ==
              if FirstIdle(w) then FindLive(Live(w), kind) else Find(CachedStatus(w).conditions, kind)
  {
    hide Holds, AvailableCondition, WithCondition;
    var available := AvailableCondition(CachedDeployment(w, None));
    AvailableKind(CachedDeployment(w, None));
    WithConditionIdle(CachedStatus(w), available, QUIET.now);
    OneConditionSet(CachedStatus(w), available, QUIET.now, kind);
  }

  /** A sync left alone keeps a condition of another type if and only if the status it began from
      has the live one, or neither of its updates found anything to do in that status. */
  lemma QuietSyncKeeps(cfg: Config, s: State, kind: string)
    requires WellFormed(cfg) && Live(s.w).operator.Some? && Healthy(cfg, s.w) && kind != AVAILABLE && kind != DEGRADED
    ensures var t := Run(cfg, BeginSync(s), Quiets(END));
            && t.l.dep.Some? && CachedOperator(s.w).Some?
            && (FindLive(Live(t.w), kind) == FindLive(Live(s.w), kind) <==>
                  || Find(CachedStatus(s.w).conditions, kind) == FindLive(Live(s.w), kind)
                  || (FirstIdle(s.w) && Reported(CachedStatus(s.w), t.l.dep.value)))
  {
    hide WellFormed, Run, FirstStatus, FinalStatus, Reported, FirstIdle, Find;
    StatusOutcome(cfg, s);
    FirstKeeps(s.w, kind);
    var t := Run(cfg, BeginSync(s), Quiets(END));
    FinalStatusReports(CachedStatus(s.w), t.l.dep.value, QUIET.now);
  }

  /** The first update leaves a report in place only if it leaves everything in place. */
  lemma FirstUnreports(w: World, dep: Object)
    requires CachedOperator(w).Some? && Live(w).operator.Some? && Reported(CachedStatus(w), dep)
    ensures Reported(FirstStatus(w), dep) <==> FirstIdle(w) && Reported(Live(w).operator.value.status, dep)
  {
    hide AvailableCondition;
    var available := AvailableCondition(CachedDeployment(w, None));
    AvailableKind(CachedDeployment(w, None));
    AvailableKind(Found(dep));
    WithConditionIdle(CachedStatus(w), available, QUIET.now);
    SetConditionFind(CachedStatus(w).conditions, available, QUIET.now, AVAILABLE);
    NoTime(CachedDeployment(w, None));
  }

  lemma NoTime(d: Listed)
    ensures AvailableCondition(d).(since := 0) == AvailableCondition(d)
  {
  }

  /** It leaves its report if and only if the status it began from was not that report already,
      or the live status was too and the first update found nothing to do. */
  lemma QuietSyncReports(cfg: Config, s: State)
    requires WellFormed(cfg) && Live(s.w).operator.Some? && Healthy(cfg, s.w)
    ensures var t := Run(cfg, BeginSync(s), Quiets(END));
            && t.l.dep.Some? && CachedOperator(s.w).Some? && Live(t.w).operator.Some?
            && (Reported(Live(t.w).operator.value.status, t.l.dep.value) <==>
                  || !Reported(CachedStatus(s.w), t.l.dep.value)
                  || (FirstIdle(s.w) && Reported(Live(s.w).operator.value.status, t.l.dep.value)))
  {
    hide WellFormed, Run, FirstStatus, FinalStatus, Reported, FirstIdle;
    StatusOutcome(cfg, s);
    var t := Run(cfg, BeginSync(s), Quiets(END));
    FinalStatusReports(CachedStatus(s.w), t.l.dep.value, QUIET.now);
    if Reported(CachedStatus(s.w), t.l.dep.value) { FirstUnreports(s.w, t.l.dep.value); }
  }

  // ---- A run in which the report is lost

  /** The next sync over the objects t left, on an operator and a secret cache that have caught up. */
  predicate Lagging(t: State, u: State) {
    && Live(u.w) == Live(t.w) && CachedOperator(u.w) == Live(u.w).operator
    && ObjectAt(u.w.hist[u.w.secretIx], WebhookSecret) == ObjectAt(Live(u.w), WebhookSecret)
    && ObjectAt(u.w.hist[u.w.secretIx], MetricsSecret) == ObjectAt(Live(u.w), MetricsSecret)
  }

  lemma ConfigSilent(cfg: Config, t: State, r: State)
    requires WellFormed(cfg) && Following(cfg, t, Again(t)) && ConfigMap in APPLY_ORDER
    requires r.l.operator == Live(t.w).operator && ObjectAt(Live(r.w), ConfigMap) == ObjectAt(Live(t.w), ConfigMap)
    ensures Some(ApplyObject(r.w, ConfigMap, Required(cfg, ConfigMap, r.l), ExpectedGeneration(r.l))) == t.l.config
  {
    hide WellFormed, Required, Agrees, ExpectedGeneration, Fresh, Reported;
    SamePlain(cfg, t, r, ConfigMap);
    assert Convergence.Held(cfg, Live(t.w), t.l, ConfigMap, false);
    SkipIffAgrees(ConfigMap, ObjectAt(Live(r.w), ConfigMap), Required(cfg, ConfigMap, r.l), ExpectedGeneration(r.l));
  }

  lemma DeploymentSilent(cfg: Config, t: State, q: State, n: nat)
    requires WellFormed(cfg) && Following(cfg, t, Again(t)) && Deployment in APPLY_ORDER
    requires q.l.operator == Live(t.w).operator && q.l.config == t.l.config
    requires q.l.web == ObjectAt(Live(t.w), WebhookSecret) && q.l.met == ObjectAt(Live(t.w), MetricsSecret)
    ensures t.l.dep.Some?
    ensures Applied(Deployment, t.l.dep, Required(cfg, Deployment, q.l), ExpectedGeneration(q.l), n) == t.l.dep.value
  {
    hide WellFormed, Required, Agrees, Fresh;
    SameDeployment(cfg, t, q);
    assert Convergence.Held(cfg, Live(t.w), t.l, Deployment, false);
    SkipIffAgrees(Deployment, t.l.dep, Required(cfg, Deployment, q.l), ExpectedGeneration(q.l));
  }

  /** That sync applies the same Deployment: neither it nor the ConfigMap needs a write. */
  lemma SameDeploymentAgain(cfg: Config, t: State, u: State)
    requires WellFormed(cfg) && Following(cfg, t, Again(t)) && Lagging(t, u) && Healthy(cfg, u.w)
    requires Live(u.w).operator.Some?
    ensures Run(cfg, BeginSync(u), Quiets(21)).l.dep == t.l.dep
  {
    hide WellFormed, Run, Required, InstrAt, Perform, Healthy, ApplyObject, ExpectedGeneration, Applied, Following,
         Unapplied;
    var r, q := Run(cfg, BeginSync(u), Quiets(19)), Run(cfg, BeginSync(u), Quiets(20));
    Deletion.ConfigMapFirst();
    Deletion.ConfigApplied(cfg, u);
    ConfigSilent(cfg, t, r);
    AppliedDeployment(cfg, u);
    DeploymentSilent(cfg, t, q, |q.w.hist|);
    LiveDeployment(cfg, t);
  }

  lemma LiveDeployment(cfg: Config, t: State)
    requires WellFormed(cfg) && Following(cfg, t, Again(t))
    ensures t.l.dep.Some? && t.l.dep == ObjectAt(Live(t.w), Deployment)
    ensures Live(t.w).operator.Some? && Reported(Live(t.w).operator.value.status, t.l.dep.value)
  {
    hide WellFormed, Reported, Convergence.Held;
  }

  /** The report of a completed sync is lost in the next one, nobody else writing, when its
      deployment lister still shows the Deployment in another state: the first update sets
      Available by the lister, the last one finds its report in the cached status. */
  lemma StaleListerUnreports(cfg: Config, t: State, u: State)
    requires WellFormed(cfg) && Following(cfg, t, Again(t)) && Lagging(t, u) && Healthy(cfg, u.w)
    requires Live(u.w).operator.Some?
    requires t.l.dep.Some?
    requires AvailableCondition(CachedDeployment(u.w, None)) != AvailableCondition(Found(t.l.dep.value))
    ensures var v := Run(cfg, BeginSync(u), Quiets(END));
            && Done(v) && v.l.dep == t.l.dep && Live(v.w).operator.Some?
            && !Reported(Live(v.w).operator.value.status, v.l.dep.value)
  {
    hide WellFormed, Run, Healthy, Following, AvailableCondition;
    SameDeploymentAgain(cfg, t, u);
    StatusOutcome(cfg, u);
    QuietSyncReports(cfg, u);
    LiveDeployment(cfg, t);
    AvailableKind(CachedDeployment(u.w, None));
    NoTime(CachedDeployment(u.w, None));
  }

  /** Fresh caches over a healthy cluster with no record yet, whose Deployment is about to be
      scaled to the replicas that are available. */
  predicate Rescaled(cfg: Config, w: World)
    requires WellFormed(cfg)
  {
    && Fresh(w) && Healthy(cfg, w) && Live(w).operator.Some? && Live(w).operator.value.status.recorded.None?
    && Deployment in Live(w).objs && !Serving(Found(Live(w).objs[Deployment]))
    && cfg.manifests[Deployment].spec.replicas == Some(Live(w).objs[Deployment].available)
  }

  /** The first sync scales it, and so reports it available. */
  lemma RescaledDeployment(cfg: Config, s: State)
    requires WellFormed(cfg) && Rescaled(cfg, s.w)
    ensures var dep := Run(cfg, BeginSync(s), Quiets(21)).l.dep;
            dep.Some? && Serving(Found(dep.value))
  {
    hide WellFormed, Run, Healthy, InstrAt;
    AppliedDeployment(cfg, s);
    var p := Run(cfg, BeginSync(s), Quiets(20));
    TrackedRun(cfg, s, 20);
    FetchedBefore();
    RescaleWrites(cfg, s.w, p.l, |p.w.hist|);
  }

  lemma FetchedBefore()
    ensures Convergence.FETCH_STEP < 20
  {
  }

  lemma RescaleWrites(cfg: Config, w: World, l: Locals, n: nat)
    requires WellFormed(cfg) && Rescaled(cfg, w) && l.operator == CachedOperator(w) && Deployment in APPLY_ORDER
    ensures var req := Required(cfg, Deployment, l);
            Serving(Found(Applied(Deployment, ObjectAt(Live(w), Deployment), req, ExpectedGeneration(l), n)))
  {
    hide WellFormed, Healthy, Template.Build;
  }

  /** What the first sync leaves, and how the second begins. */
  lemma LagAfter(cfg: Config, s: State)
    requires WellFormed(cfg) && Rescaled(cfg, s.w)
    ensures var t := Run(cfg, BeginSync(s), Quiets(END));
            var u := t.(w := Lag(t.w));
            && Done(t) && Following(cfg, t, Again(t)) && Lagging(t, u) && Healthy(cfg, u.w) && Live(u.w).operator.Some?
            && t.l.dep.Some?
            && AvailableCondition(CachedDeployment(u.w, None)) != AvailableCondition(Found(t.l.dep.value))
  {
    hide WellFormed, Run, Healthy, NotAhead, Following, ReadCurrent, Convergence.LoneInv, Serving, Left, Reported,
         StatusAt;
    var t := Run(cfg, BeginSync(s), Quiets(END));
    NoRecord(cfg, s.w);
    FreshReadsCurrent(cfg, s);
    QuietsAlone(END);
    Convergence.LoneRun(cfg, s, Quiets(END), None);
    FollowingOf(cfg, t);
    LeftByRun(cfg, BeginSync(s), Quiets(END));
    ReadyLive(cfg, s.w);
    HealthyAgain(cfg, s, t);
    BeforeRun(cfg, BeginSync(s), Quiets(END));
    StatusOutcome(cfg, s);
    RescaledDeployment(cfg, s);
    DeployCacheStays(cfg, s);
    LagHealthy(cfg, t.w);
    StillShown(cfg, s.w, t.w);
  }

  /** The operator and the secret cache catch up, the deployment lister does not. */
  function Lag(w: World): World {
    MoveCaches(w, |w.hist|, 0, |w.hist|)
  }

  lemma NoRecord(cfg: Config, w: World)
    requires WellFormed(cfg) && Rescaled(cfg, w)
    ensures NotAhead(Live(w))
  {
    hide WellFormed, Healthy;
  }

  lemma ReadyLive(cfg: Config, w: World)
    requires WellFormed(cfg) && Fresh(w) && Healthy(cfg, w)
    ensures LiveReady(Live(w))
  {
    hide WellFormed;
  }

  lemma LagHealthy(cfg: Config, w: World)
    requires WellFormed(cfg) && Healthy(cfg, CaughtUp(w))
    ensures Healthy(cfg, Lag(w)) && CachedOperator(Lag(w)) == Live(w).operator && Live(Lag(w)) == Live(w)
  {
    hide WellFormed;
  }

  lemma {:induction false} DeployCacheStill(cfg: Config, s: State, n: nat)
    requires WellFormed(cfg)
    ensures Run(cfg, BeginSync(s), Quiets(n)).w.deployIx == s.w.deployIx
    decreases n
  {
    hide WellFormed, InstrAt, Perform;
    if n > 0 {
      var t := Run(cfg, BeginSync(s), Quiets(n - 1));
      DeployCacheStill(cfg, s, n - 1);
      OneMoreQuiet(cfg, BeginSync(s), n);
      hide Run;
      if t.running && t.pc < END { FrameOf(cfg, t, QUIET, InstrAt(t.pc)); }
    }
  }

  lemma DeployCacheStays(cfg: Config, s: State)
    requires WellFormed(cfg)
    ensures Run(cfg, BeginSync(s), Quiets(END)).w.deployIx == s.w.deployIx
  {
    hide Run, Quiets;
    DeployCacheStill(cfg, s, END);
  }

  lemma StillShown(cfg: Config, v: World, w: World)
    requires WellFormed(cfg) && Rescaled(cfg, v) && v.hist <= w.hist && w.deployIx == v.deployIx
    ensures !AvailableCondition(CachedDeployment(Lag(w), None)).status
  {
    hide WellFormed, Healthy;
    assert Lag(w).hist[Lag(w).deployIx] == v.hist[v.deployIx];
  }

  /** A run in which nobody but the operator writes: its first sync leaves its report, at, and
      its second, over the same Deployment, leaves a status that does not report it. */
  lemma ReportLost(cfg: Config, s: State) returns (es: seq<Event>, at: nat)
    requires WellFormed(cfg) && Initial(s) && Rescaled(cfg, s.w)
    ensures forall e :: e in es ==> !(e.Environment? && e.act.Become?)
    ensures at <= |es|
    ensures var t, v := Run(cfg, s, es[..at]), Run(cfg, s, es);
            && Done(t) && Done(v) && t.l.dep.Some? && v.l.dep == t.l.dep == ObjectAt(Live(t.w), Deployment)
            && Live(t.w).operator.Some? && Reported(Live(t.w).operator.value.status, t.l.dep.value)
            && Live(v.w).operator.Some? && !Reported(Live(v.w).operator.value.status, t.l.dep.value)
  {
    hide WellFormed, Run, Quiets, Reported, Rescaled, Following, Healthy, Lagging, ReadCurrent;
    var t := Run(cfg, BeginSync(s), Quiets(END));
    var lag := Environment(Caches(|t.w.hist|, 0, |t.w.hist|));
    LagAfter(cfg, s);
    LiveDeployment(cfg, t);
    var u := After(cfg, t, lag);
    assert u == t.(w := Lag(t.w));
    StaleListerUnreports(cfg, t, u);
    var first := [Begin] + Quiets(END);
    Deletion.RunOn(cfg, s, [Begin], Quiets(END));
    Deletion.RunOne(cfg, s, Begin);
    Deletion.RunOn(cfg, s, first, [lag, Begin] + Quiets(END));
    Deletion.BothBegin(cfg, t, lag, Quiets(END));
    es, at := first + ([lag, Begin] + Quiets(END)), |first|;
    assert es[..at] == first;
    QuietsAlone(END);
  }

  /** There is such a cluster, with the replica count of the operator's asset. */
  lemma ReportCanBeLost() returns (cfg: Config, s: State, es: seq<Event>, at: nat)
    ensures WellFormed(cfg) && cfg.manifests[Deployment].spec.replicas == Some(1) && Initial(s)
    ensures forall e :: e in es ==> !(e.Environment? && e.act.Become?)
    ensures at <= |es|
    ensures var t, v := Run(cfg, s, es[..at]), Run(cfg, s, es);
            && Done(t) && Done(v) && t.l.dep.Some? && v.l.dep == t.l.dep == ObjectAt(Live(t.w), Deployment)
            && Live(t.w).operator.Some? && Reported(Live(t.w).operator.value.status, t.l.dep.value)
            && Live(v.w).operator.Some? && !Reported(Live(v.w).operator.value.status, t.l.dep.value)
  {
    hide WellFormed, Run, Reported, Small, Healthy, Initial;
    var more := map[Deployment := Object(0, 1, map[], Deploy(Some(3), PodTemplate(map[], [], [], ""), ""), 1)];
    cfg, s := Small(NoClientConfig), Beginning(more, None);
    SmallIsWellFormed(NoClientConfig);
    BeginningIsInitial(more, None);
    BeginningIsHealthy(NoClientConfig, more, None);
    es, at := ReportLost(cfg, s);
  }

  // ---- A run in which another writer's condition is lost

  /** Somebody else sets a condition the live status does not have. */
  function WithOther(c: Snapshot, cond: Condition): Snapshot
    requires c.operator.Some?
  {
    var op := c.operator.value;
    c.(operator := Some(op.(status := op.status.(conditions := op.status.conditions + [cond]))))
  }

  lemma {:induction false} FindAppended(cs: seq<Condition>, cond: Condition)
    requires Find(cs, cond.kind).None?
    ensures Find(cs + [cond], cond.kind) == Some(cond)
  {
    if cs == [] {
      assert cs + [cond] == [cond];
    } else {
      FindAppended(cs[1..], cond);
      assert (cs + [cond])[1..] == cs[1..] + [cond];
    }
  }

  lemma MaySet(w: World, cond: Condition)
    requires Live(w).operator.Some?
    ensures Permitted(w, WithOther(Live(w), cond))
  {
    if Live(w).operator.value.status.recorded.Some? {
      assert Records(w.hist[|w.hist| - 1], Live(w).operator.value.status.recorded.value);
    }
  }

  lemma OtherSet(cfg: Config, s: State, cond: Condition)
    requires WellFormed(cfg) && Live(s.w).operator.Some? && Healthy(cfg, s.w) && FindLive(Live(s.w), cond.kind).None?
    ensures var u := After(cfg, s, Environment(Become(WithOther(Live(s.w), cond))));
            && u == s.(w := Put(s.w, WithOther(Live(s.w), cond)))
            && Healthy(cfg, u.w) && Live(u.w).operator.Some? && FindLive(Live(u.w), cond.kind) == Some(cond)
            && CachedOperator(u.w).Some? && CachedOperator(u.w) == CachedOperator(s.w)
            && CachedDeployment(u.w, None) == CachedDeployment(s.w, None)
  {
    hide WellFormed, Permitted;
    MaySet(s.w, cond);
    FindAppended(Live(s.w).operator.value.status.conditions, cond);
  }

  /** From every healthy cluster whose cached status is not what the first update would make of
      it: a condition somebody sets, at, is gone after the next sync if the cache does not show
      it yet. */
  lemma ConditionLost(cfg: Config, s: State, cond: Condition) returns (es: seq<Event>, at: nat)
    requires WellFormed(cfg) && !s.running && Live(s.w).operator.Some? && Healthy(cfg, s.w) && !FirstIdle(s.w)
    requires cond.kind != AVAILABLE && cond.kind != DEGRADED
    requires FindLive(Live(s.w), cond.kind).None? && Find(CachedStatus(s.w).conditions, cond.kind).None?
    ensures at <= |es| && FindLive(Live(Run(cfg, s, es[..at]).w), cond.kind) == Some(cond)
    ensures Done(Run(cfg, s, es)) && FindLive(Live(Run(cfg, s, es).w), cond.kind).None?
  {
    hide WellFormed, Run, Quiets, Reported, Healthy, Find, After, WithOther, FirstStatus, FinalStatus;
    var write := Environment(Become(WithOther(Live(s.w), cond)));
    OtherSet(cfg, s, cond);
    var u := After(cfg, s, write);
    StatusOutcome(cfg, u);
    FirstKeeps(u.w, cond.kind);
    FinalStatusReports(CachedStatus(u.w), Run(cfg, BeginSync(u), Quiets(END)).l.dep.value, QUIET.now);
    Deletion.BothBegin(cfg, s, write, Quiets(END));
    Deletion.RunOne(cfg, s, write);
    es, at := [write, Begin] + Quiets(END), 1;
    assert es[..at] == [write];
  }

  /** There is such a cluster. */
  lemma ConditionCanBeLost(cond: Condition) returns (cfg: Config, s: State, es: seq<Event>, at: nat)
    requires cond.kind != AVAILABLE && cond.kind != DEGRADED
    ensures WellFormed(cfg) && Initial(s)
    ensures at <= |es| && FindLive(Live(Run(cfg, s, es[..at]).w), cond.kind) == Some(cond)
    ensures Done(Run(cfg, s, es)) && FindLive(Live(Run(cfg, s, es).w), cond.kind).None?
  {
    hide WellFormed, Run, Small, Healthy, Initial;
    cfg, s := Small(NoClientConfig), Beginning(map[], None);
    SmallIsWellFormed(NoClientConfig);
    BeginningIsInitial(map[], None);
    BeginningIsHealthy(NoClientConfig, map[], None);
    es, at := ConditionLost(cfg, s, cond);
  }
}
