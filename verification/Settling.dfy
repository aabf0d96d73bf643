/** When the operator comes to rest, by what can be checked before it starts: a healthy cluster
    needs one sync on fresh caches, or one on any caches and one more. */
module Settling {
  import opened Wrappers
  import opened ClusterModel
  import opened Conditions
  import opened Applying
  import opened ApiHistory
  import opened Machine
  import opened Safety
  import opened Completion
  import opened Quiescence
  import opened QuietRuns
  import Convergence
  import RecordedGeneration
  import Rotation
  import StatusRuns
  import Template

  /** The recorded generation, if there is one, is one the live Deployment has reached. */
  predicate NotAhead(c: Snapshot) {
    c.operator.Some? && c.operator.value.status.recorded.Some? ==>
      Deployment in c.objs && c.operator.value.status.recorded.value <= c.objs[Deployment].gen
  }

  // ---- The operator resource along a sync

  /** The same resource but for its status. */
  predicate SameOperator(a: Option<Operator>, b: Option<Operator>) {
    a.Some? == b.Some? && (a.Some? ==> a.value == b.value.(status := a.value.status))
  }

  lemma StatusOnly(s: State, c: Choice, base: Option<Operator>, result: Status)
    ensures SameOperator(Live(StepStatus(s, c, base, result).w).operator, Live(s.w).operator)
  {
  }

  /** The operator changes nothing of its resource but the status. */
  lemma OperatorKept(cfg: Config, s: State, c: Choice, i: Instr)
    requires WellFormed(cfg) && (i.Apply? ==> i.k in APPLY_ORDER)
    ensures SameOperator(Live(Perform(cfg, s, c, i).w).operator, Live(s.w).operator)
  {
    hide WellFormed, StepStatus, WithCondition, FinalStatus, AvailableCondition, Required, ApplyWorld, ApplyObject;
    if i.Apply? { RecordedGeneration.ApplyKeepsOperator(s.w, i.k, Required(cfg, i.k, s.l), ExpectedGeneration(s.l)); }
    StatusOnly(s, c, BaseOperator(s.w, c),
      WithCondition(BaseStatus(s.w, c), AvailableCondition(CachedDeployment(s.w, c.listerError)), c.now));
    StatusOnly(s, c, BaseOperator(s.w, c), WithCondition(BaseStatus(s.w, c), MISSING_DEPENDENCY, c.now));
    if s.l.dep.Some? { StatusOnly(s, c, BaseOperator(s.w, c), FinalStatus(BaseStatus(s.w, c), s.l.dep.value, c.now)); }
  }

  /** A step that reports nothing leaves it altogether alone. */
  lemma OperatorUnmoved(cfg: Config, s: State, c: Choice, i: Instr)
    requires WellFormed(cfg) && (i.Apply? ==> i.k in APPLY_ORDER) && i != ReportAvailable && i != ReportFinal
    requires i == CheckCertManager ==> IssuerServed(Live(s.w))
    ensures Live(Perform(cfg, s, c, i).w).operator == Live(s.w).operator
  {
    hide WellFormed, Required, ApplyWorld, ApplyObject;
    if i.Apply? { RecordedGeneration.ApplyKeepsOperator(s.w, i.k, Required(cfg, i.k, s.l), ExpectedGeneration(s.l)); }
  }

  /** What a lone sync leaves as it is: the secrets, and the operator resource but its status. */
  predicate Left(a: Snapshot, b: Snapshot) {
    && ObjectAt(a, WebhookSecret) == ObjectAt(b, WebhookSecret)
    && ObjectAt(a, MetricsSecret) == ObjectAt(b, MetricsSecret)
    && SameOperator(a.operator, b.operator)
  }

  lemma LeftByEvent(cfg: Config, s: State, e: Event)
    requires WellFormed(cfg) && (e.Step? || (e.Environment? && e.act.Caches?))
    ensures Left(Live(After(cfg, s, e).w), Live(s.w))
  {
    hide WellFormed, Perform, InstrAt;
    if e.Step? && s.running && s.pc < END {
      OperatorKept(cfg, s, e.choice, InstrAt(s.pc));
      NoSecret(s.pc);
      OtherUntouched(cfg, s, e.choice, WebhookSecret);
      OtherUntouched(cfg, s, e.choice, MetricsSecret);
    }
  }

  lemma NoSecret(pc: nat)
    requires pc < END
    ensures InstrAt(pc) != Apply(WebhookSecret) && InstrAt(pc) != Apply(MetricsSecret)
  {
    hide InstrAt;
    NoSecrets();
    assert InstrAt(pc).Apply? ==> InstrAt(pc).k in APPLY_ORDER;
  }

  lemma NoSecrets()
    ensures WebhookSecret !in APPLY_ORDER && MetricsSecret !in APPLY_ORDER
  {
  }

  lemma {:induction false} LeftByRun(cfg: Config, s: State, es: seq<Event>)
    requires WellFormed(cfg) && Convergence.Alone(es)
    ensures Left(Live(Run(cfg, s, es).w), Live(s.w))
    decreases |es|
  {
    hide WellFormed, After;
    if es != [] {
      var front := es[..|es| - 1];
      assert es[|es| - 1] in es;
      LeftByRun(cfg, s, front);
      LeftByEvent(cfg, Run(cfg, s, front), es[|es| - 1]);
    }
  }

  // ---- The status along a quiet sync

  /** What the first update makes of the cached status. */
  function FirstResult(w: World): Status
    requires CachedOperator(w).Some?
  {
    WithCondition(CachedOperator(w).value.status, AvailableCondition(CachedDeployment(w, None)), QUIET.now)
  }

  /** The status it leaves: that result, unless it changes nothing. */
  function FirstStatus(w: World): Status
    requires CachedOperator(w).Some? && Live(w).operator.Some?
  {
    if FirstResult(w) == CachedOperator(w).value.status then Live(w).operator.value.status else FirstResult(w)
  }

  lemma FirstUpdate(cfg: Config, s: State)
    requires WellFormed(cfg) && Live(s.w).operator.Some? && CachedOperator(s.w).Some?
    ensures Live(Perform(cfg, s, QUIET, ReportAvailable).w).operator ==
              Some(Live(s.w).operator.value.(status := FirstStatus(s.w)))
  {
    hide WellFormed, WithCondition, AvailableCondition;
    QuietBase(s.w);
  }

  lemma Instructions(n: nat)
    requires n < END
    ensures InstrAt(n) == ReportAvailable <==> n == 1
    ensures InstrAt(n) == ReportFinal <==> n == END - 1
    ensures InstrAt(n) == CheckCertManager <==> n == 2
  {
  }

  /** Between the first and the last update the live status is the first one's. */
  predicate StatusAt(s: State, t: State, n: nat) {
    && Live(s.w).operator.Some? && CachedOperator(s.w).Some?
    && Live(t.w).operator
       == (if n <= 1 then Live(s.w).operator else Some(Live(s.w).operator.value.(status := FirstStatus(s.w))))
    && s.w.hist <= t.w.hist && t.w.deployIx == s.w.deployIx
  }

  lemma StatusStep(cfg: Config, s: State, t: State, n: nat)
    requires WellFormed(cfg) && n < END - 1 && StatusAt(s, t, n) && t.running && t.pc == n
    requires CachedOperator(t.w) == CachedOperator(s.w) && (n <= 2 ==> IssuerServed(Live(t.w)))
    ensures StatusAt(s, OpStep(cfg, t, QUIET), n + 1)
  {
    hide WellFormed, InstrAt, Perform, FirstStatus;
    Instructions(n);
    FrameOf(cfg, t, QUIET, InstrAt(n));
    if n == 1 {
      assert t.w.hist[s.w.deployIx] == s.w.hist[s.w.deployIx];
      SameFirst(s.w, t.w);
      FirstUpdate(cfg, t);
    } else {
      OperatorUnmoved(cfg, t, QUIET, InstrAt(n));
    }
  }

  lemma {:induction false} StatusAlong(cfg: Config, s: State, n: nat)
    requires WellFormed(cfg) && n < END && Live(s.w).operator.Some? && Healthy(cfg, s.w)
    ensures StatusAt(s, Run(cfg, BeginSync(s), Quiets(n)), n)
    decreases n
  {
    hide WellFormed, InstrAt, OpStep, Run, Tracked, FirstStatus, StatusAt;
    if n == 0 {
      Nothing(cfg, s);
      StatusBegins(s);
    } else {
      StatusAlong(cfg, s, n - 1);
      TrackedRun(cfg, s, n - 1);
      OneMoreQuiet(cfg, BeginSync(s), n);
      IssuerThere(cfg, s.w);
      StatusStep(cfg, s, Run(cfg, BeginSync(s), Quiets(n - 1)), n - 1);
    }
  }

  lemma StatusBegins(s: State)
    requires Live(s.w).operator.Some? && CachedOperator(s.w).Some?
    ensures StatusAt(s, BeginSync(s), 0)
  {
  }

  lemma IssuerThere(cfg: Config, w: World)
    requires WellFormed(cfg) && Healthy(cfg, w)
    ensures IssuerServed(Live(w))
  {
  }

  lemma SameFirst(v: World, w: World)
    requires CachedOperator(v).Some? && CachedOperator(w) == CachedOperator(v)
    requires Live(v).operator.Some? && Live(w).operator == Live(v).operator
    requires ObjectAt(w.hist[w.deployIx], Deployment) == ObjectAt(v.hist[v.deployIx], Deployment)
    ensures FirstStatus(w) == FirstStatus(v)
  {
  }

  lemma DeploymentUnapplied(n: nat)
    requires n <= Rotation.DEPLOYMENT_STEP
    ensures Unapplied(n, Deployment)
  {
    hide InstrAt;
    Rotation.DeploymentStep();
  }

  // ---- The last update

  /** If the status already reports the object the apply returned, and the record was not ahead,
      then the apply did not change the spec, and the first update changed nothing. */
  lemma AlreadyReported(w: World, req: Manifest, expected: int, n: nat)
    requires Fresh(w) && Live(w).operator.Some? && NotAhead(Live(w))
    requires Reported(Live(w).operator.value.status,
               Applied(Deployment, ObjectAt(Live(w), Deployment), req, expected, n))
    ensures FirstStatus(w) == Live(w).operator.value.status
  {
    var st, dep := Live(w).operator.value.status, Applied(Deployment, ObjectAt(Live(w), Deployment), req, expected, n);
    var live := Live(w).objs[Deployment];
    assert dep.spec == live.spec && dep.available == live.available;
    assert AvailableCondition(Found(dep)) == AvailableCondition(CachedDeployment(w, None));
    SetConditionIdle(st.conditions, AvailableCondition(CachedDeployment(w, None)), QUIET.now);
  }

  /** The Deployment the last update reports. */
  lemma AppliedDeployment(cfg: Config, s: State)
    requires WellFormed(cfg) && Live(s.w).operator.Some? && Healthy(cfg, s.w)
    ensures var p, t := Run(cfg, BeginSync(s), Quiets(20)), Run(cfg, BeginSync(s), Quiets(21));
            && Deployment in APPLY_ORDER && Going(t, 21)
            && t.l.dep == Some(Applied(Deployment, ObjectAt(Live(s.w), Deployment), Required(cfg, Deployment, p.l),
                                       ExpectedGeneration(p.l), |p.w.hist|))
  {
    hide WellFormed, InstrAt, Perform, Run, Tracked, Healthy, StepApply, ApplyWorld, Applied, Required,
         ExpectedGeneration;
    Convergence.Deployments();
    Rotation.DeploymentStep();
    TrackedRun(cfg, s, 20);
    TrackedRun(cfg, s, 21);
    OneMoreQuiet(cfg, BeginSync(s), 21);
    DeploymentUnapplied(20);
    Still(cfg, s, 20, Deployment);
    var p := Run(cfg, BeginSync(s), Quiets(20));
    RecordedGeneration.AppliesKey(cfg, p, QUIET, Deployment);
    Convergence.ApplyOutcome(cfg, p, Deployment, Fine);
    ApplyMoves(p.w, Deployment, Required(cfg, Deployment, p.l), ExpectedGeneration(p.l));
  }

  /** So on fresh caches the last update always leaves its report. */
  lemma FreshReports(cfg: Config, s: State)
    requires WellFormed(cfg) && Fresh(s.w) && Live(s.w).operator.Some? && Healthy(cfg, s.w) && NotAhead(Live(s.w))
    ensures var t := Run(cfg, BeginSync(s), Quiets(END));
            t.l.dep.Some? && Live(t.w).operator.Some? && Reported(Live(t.w).operator.value.status, t.l.dep.value)
  {
    hide WellFormed, InstrAt, OpStep, Run, Tracked, Healthy, Reported, FirstStatus, NotAhead, Applied, Required,
         ExpectedGeneration;
    var u, t := Run(cfg, BeginSync(s), Quiets(21)), Run(cfg, BeginSync(s), Quiets(END));
    CompletesExactly(cfg, s);
    OneMoreQuiet(cfg, BeginSync(s), END);
    TrackedRun(cfg, s, 21);
    StatusAlong(cfg, s, 21);
    AppliedDeployment(cfg, s);
    QuietBase(u.w);
    StatusRuns.FinalReportExact(cfg, u, QUIET);
    Convergence.FinalLocals(cfg, u, QUIET);
    if Reported(Live(s.w).operator.value.status, u.l.dep.value) {
      var p := Run(cfg, BeginSync(s), Quiets(20));
      AlreadyReported(s.w, Required(cfg, Deployment, p.l), ExpectedGeneration(p.l), |p.w.hist|);
    }
  }

  /** A quiet sync on fresh caches over a healthy cluster has read what is live at its end. */
  lemma FreshReadsCurrent(cfg: Config, s: State)
    requires WellFormed(cfg) && Fresh(s.w) && Live(s.w).operator.Some? && Healthy(cfg, s.w) && NotAhead(Live(s.w))
    ensures StatusRuns.Done(Run(cfg, BeginSync(s), Quiets(END))) && ReadCurrent(Run(cfg, BeginSync(s), Quiets(END)))
  {
    hide WellFormed, InstrAt, OpStep, Run, Healthy, NotAhead, Reported, Template.Verbose;
    CompletesExactly(cfg, s);
    FreshReports(cfg, s);
    TrackedRun(cfg, s, 21);
    OneMoreQuiet(cfg, BeginSync(s), END);
    Convergence.FinalLocals(cfg, Run(cfg, BeginSync(s), Quiets(21)), QUIET);
    QuietsAlone(END);
    LeftByRun(cfg, BeginSync(s), Quiets(END));
  }

  /** At rest after one sync: on fresh caches over a healthy cluster whose record is not ahead
      of its Deployment, the sync after a quiet one writes nothing. */
  lemma FreshSettles(cfg: Config, s: State, later: seq<Event>)
    requires WellFormed(cfg) && Fresh(s.w) && Live(s.w).operator.Some? && Healthy(cfg, s.w) && NotAhead(Live(s.w))
    requires Convergence.Alone(later) && ListersWork(later)
    ensures var t := Run(cfg, BeginSync(s), Quiets(END));
            Run(cfg, Again(t), later).w == Again(t).w
  {
    hide WellFormed, Run, Healthy, NotAhead, ReadCurrent;
    FreshReadsCurrent(cfg, s);
    QuietsAlone(END);
    Quiescent(cfg, s, Quiets(END), later);
  }

  // ---- The record, whatever it was before

  lemma RecordsAtEnd(cfg: Config, s: State, u: State)
    requires WellFormed(cfg) && StatusAt(s, u, END - 1) && u.pc == END - 1 && u.running && u.err.None? && u.l.dep.Some?
    requires CachedOperator(s.w) == CachedOperator(u.w) == Live(s.w).operator
    ensures Records(Live(OpStep(cfg, u, QUIET).w), u.l.dep.value.gen)
  {
    hide WellFormed, SetCondition, AvailableCondition;
    StatusRuns.LastStep();
    QuietBase(u.w);
  }

  /** A sync left alone on fresh caches over a healthy cluster records the generation of the live
      Deployment, even if the record was ahead of it before. So if the Deployment is in form
      then, the record is honest again: a deletion does no lasting harm. */
  lemma SyncHeals(cfg: Config, s: State)
    requires WellFormed(cfg) && Fresh(s.w) && Live(s.w).operator.Some? && Healthy(cfg, s.w) && Deployment in APPLY_ORDER
    ensures var t := Run(cfg, BeginSync(s), Quiets(END));
            && Deployment in Live(t.w).objs && Records(Live(t.w), Live(t.w).objs[Deployment].gen)
            && (Convergence.InForm(cfg, Live(t.w), t.l, Deployment) ==>
                 Convergence.CacheHonest(CaughtUp(t.w), |t.w.hist| - 1))
  {
    hide WellFormed, Run, Healthy, Records, StatusRuns.Done, Convergence.LoneInv, Convergence.InForm,
         Convergence.CacheHonest;
    var t := Run(cfg, BeginSync(s), Quiets(END));
    CompletesExactly(cfg, s);
    RecordedAfter(cfg, s);
    QuietsAlone(END);
    Convergence.LoneRun(cfg, s, Quiets(END), None);
    DoneDeployment(cfg, t);
    if Convergence.InForm(cfg, Live(t.w), t.l, Deployment) { Convergence.RecordHeals(cfg, t); }
  }

  lemma RecordedAfter(cfg: Config, s: State)
    requires WellFormed(cfg) && Fresh(s.w) && Live(s.w).operator.Some? && Healthy(cfg, s.w)
    ensures var t := Run(cfg, BeginSync(s), Quiets(END));
            t.l.dep.Some? && Records(Live(t.w), t.l.dep.value.gen)
  {
    hide WellFormed, Run, OpStep, Healthy, StatusAt, Tracked, Records;
    var u := Run(cfg, BeginSync(s), Quiets(21));
    OneMoreQuiet(cfg, BeginSync(s), END);
    TrackedRun(cfg, s, 21);
    StatusAlong(cfg, s, 21);
    RecordsAtEnd(cfg, s, u);
    Convergence.FinalLocals(cfg, u, QUIET);
  }

  lemma DoneDeployment(cfg: Config, t: State)
    requires WellFormed(cfg) && Convergence.LoneInv(cfg, t, None) && StatusRuns.Done(t)
    ensures t.l.dep.Some? && t.l.dep == ObjectAt(Live(t.w), Deployment)
  {
    hide WellFormed, GateInv, Convergence.AllInForm;
  }

  // ---- From any caches

  /** The live cluster asks to be managed and has both secrets filled. */
  predicate LiveReady(c: Snapshot) {
    && c.operator.Some? && Managed(c.operator.value.management)
    && ObjectAt(c, WebhookSecret).Some? && Ready(ObjectAt(c, WebhookSecret).value)
    && ObjectAt(c, MetricsSecret).Some? && Ready(ObjectAt(c, MetricsSecret).value)
  }

  lemma HealthyAgain(cfg: Config, s: State, t: State)
    requires WellFormed(cfg) && Convergence.LoneInv(cfg, t, None) && StatusRuns.Done(t) && Left(Live(t.w), Live(s.w))
    requires LiveReady(Live(s.w))
    ensures Healthy(cfg, CaughtUp(t.w)) && Fresh(CaughtUp(t.w)) && Live(CaughtUp(t.w)) == Live(t.w)
    ensures Live(t.w).operator.Some?
  {
    hide GateInv, Convergence.AllInForm, Required;
    assert JobSetCrd in APPLY_ORDER by { assert APPLY_ORDER[7] == JobSetCrd; }
    Convergence.AllCalled(t, JobSetCrd);
    Convergence.FormOf(cfg, t, JobSetCrd, false);
    RequiredReadable(cfg, t);
  }

  lemma RequiredReadable(cfg: Config, t: State)
    requires WellFormed(cfg) && JobSetCrd in APPLY_ORDER && Convergence.InForm(cfg, Live(t.w), t.l, JobSetCrd)
    ensures CrdReadable(cfg, ObjectAt(Live(t.w), JobSetCrd))
  {
  }

  lemma HonestNotAhead(cfg: Config, t: State, from: nat)
    requires WellFormed(cfg) && Convergence.LoneInv(cfg, t, Some(from))
    ensures NotAhead(Live(t.w))
  {
    hide WellFormed, GateInv, Convergence.AllInForm, Convergence.Facts;
    assert Live(t.w) == t.w.hist[|t.w.hist| - 1];
  }

  lemma WithoutHonesty(cfg: Config, t: State, from: nat)
    requires WellFormed(cfg) && Convergence.LoneInv(cfg, t, Some(from))
    ensures Convergence.LoneInv(cfg, t, None)
  {
    hide WellFormed, GateInv, Convergence.Facts, RecordedGeneration.HonestInv, Convergence.InForm, MetaAgrees;
  }

  /** At rest after two, from any caches: when a lone sync has completed and the caches have
      caught up, one quiet sync more and the next writes nothing. */
  lemma SettlesAfterTwo(cfg: Config, s: State, es: seq<Event>, later: seq<Event>)
    requires WellFormed(cfg) && Convergence.CacheHonest(s.w, s.w.operatorIx) && LiveReady(Live(s.w))
    requires Convergence.Alone(es) && StatusRuns.Done(Run(cfg, BeginSync(s), es))
    requires Convergence.Alone(later) && ListersWork(later)
    ensures var t := Run(cfg, BeginSync(s), es);
            var u := Run(cfg, Again(t), Quiets(END));
            Run(cfg, Again(u), later).w == Again(u).w
  {
    hide WellFormed, Run, Healthy, NotAhead, LiveReady, Left, Convergence.LoneInv, Convergence.CacheHonest;
    var t := Run(cfg, BeginSync(s), es);
    Convergence.LoneRun(cfg, s, es, Some(s.w.operatorIx));
    WithoutHonesty(cfg, t, s.w.operatorIx);
    HonestNotAhead(cfg, t, s.w.operatorIx);
    LeftByRun(cfg, BeginSync(s), es);
    HealthyAgain(cfg, s, t);
    FreshSettles(cfg, t.(w := CaughtUp(t.w)), later);
  }

  lemma ReadyStays(a: Snapshot, b: Snapshot)
    requires Left(a, b) && LiveReady(b)
    ensures LiveReady(a)
  {
  }

  lemma RecordedNotAhead(c: Snapshot)
    requires Deployment in c.objs && Records(c, c.objs[Deployment].gen)
    ensures NotAhead(c)
  {
  }

  /** At rest after three, whatever is recorded and whatever the caches show: after a completed
      lone sync, the first quiet sync puts the record right, and the second leaves nothing to do. */
  lemma SettlesAfterThree(cfg: Config, s: State, es: seq<Event>, later: seq<Event>)
    requires WellFormed(cfg) && LiveReady(Live(s.w))
    requires Convergence.Alone(es) && StatusRuns.Done(Run(cfg, BeginSync(s), es))
    requires Convergence.Alone(later) && ListersWork(later)
    ensures var t := Run(cfg, BeginSync(s), es);
            var u := Run(cfg, Again(t), Quiets(END));
            var v := Run(cfg, Again(u), Quiets(END));
            Run(cfg, Again(v), later).w == Again(v).w
  {
    hide WellFormed, Run, Healthy, NotAhead, LiveReady, Left, Records, Convergence.LoneInv, Convergence.InForm;
    var t := Run(cfg, BeginSync(s), es);
    Convergence.LoneRun(cfg, s, es, None);
    LeftByRun(cfg, BeginSync(s), es);
    HealthyAgain(cfg, s, t);
    ReadyStays(Live(t.w), Live(s.w));
    var next := t.(w := CaughtUp(t.w));
    var u := Run(cfg, BeginSync(next), Quiets(END));
    CompletesExactly(cfg, next);
    Convergence.Deployments();
    SyncHeals(cfg, next);
    RecordedNotAhead(Live(u.w));
    QuietsAlone(END);
    Convergence.LoneRun(cfg, next, Quiets(END), None);
    LeftByRun(cfg, BeginSync(next), Quiets(END));
    HealthyAgain(cfg, next, u);
    FreshSettles(cfg, u.(w := CaughtUp(u.w)), later);
  }
}
