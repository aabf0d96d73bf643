/** What a deletion of the operand Deployment can break, and what it cannot: the skip of the
    Deployment apply is sound if the record was honest when the sync fetched it and the
    Deployment stays; and a run in which it is not, because the Deployment was deleted once,
    one status update failed and one user edited the spec. */
module Deletion {
  import opened Wrappers
  import opened ClusterModel
  import opened Applying
  import opened ApiHistory
  import opened Machine
  import opened Conditions
  import opened Safety
  import opened Completion
  import opened QuietRuns
  import Convergence
  import GenerationGuard
  import RecordedGeneration
  import Settling
  import Rotation

  // ---- Sound from the fetch

  /** The run stays within one sync, and nobody deletes the Deployment in it. */
  ghost predicate Through(cfg: Config, s: State, es: seq<Event>)
    requires WellFormed(cfg)
    decreases |es|
  {
    es != [] ==>
      var t, e := Run(cfg, s, es[..|es| - 1]), es[|es| - 1];
      && Through(cfg, s, es[..|es| - 1]) && t.running
      && (e.Environment? && e.act.Become? && Deployment in Live(t.w).objs ==> Deployment in e.act.c.objs)
  }

  /** The generation in hand, if any, is honest about the live Deployment. */
  predicate HonestInHand(s: State) {
    ExpectedGeneration(s.l) >= 0 ==> Honest(Live(s.w), ExpectedGeneration(s.l))
  }

  lemma HandStep(cfg: Config, s: State, c: Choice)
    requires WellFormed(cfg) && s.running && s.err.None? && HonestInHand(s)
    requires Convergence.FETCH_STEP < s.pc < Rotation.DEPLOYMENT_STEP && OpStep(cfg, s, c).running
    ensures HonestInHand(OpStep(cfg, s, c)) && OpStep(cfg, s, c).err.None?
  {
    hide WellFormed, Perform, InstrAt, StepApply, Required, ApplyWorld, ApplyObject, Honest;
    var i, t := InstrAt(s.pc), OpStep(cfg, s, c);
    Rotation.DeploymentStep();
    Rotation.StampsKept(cfg, s, c, i);
    Convergence.NumbersOf(s.pc);
    if i.Apply? {
      RecordedGeneration.AppliesKey(cfg, s, c, i.k);
      Convergence.ApplyOutcome(cfg, s, i.k, c.fault);
      if ExpectedGeneration(s.l) >= 0 {
        RecordedGeneration.HonestElsewhere(s.w, i.k, Required(cfg, i.k, s.l), ExpectedGeneration(s.l),
          ExpectedGeneration(s.l));
      }
    } else {
      Convergence.UntouchedStep(cfg, s, c, i);
      Convergence.LocalsOf(cfg, s, c, i);
      RecordedGeneration.SameObjects(Live(s.w), Live(t.w));
    }
  }

  lemma HandEnvironment(cfg: Config, s: State, act: Act)
    requires WellFormed(cfg) && HonestInHand(s)
    requires act.Become? && Deployment in Live(s.w).objs ==> Deployment in act.c.objs
    ensures HonestInHand(After(cfg, s, Environment(act)))
  {
    hide WellFormed, Honest, EnvironmentStep;
    if act.Become? && Permitted(s.w, act.c) && ExpectedGeneration(s.l) >= 0 {
      RecordedGeneration.HonestPresent(Live(s.w), ExpectedGeneration(s.l));
      RecordedGeneration.HonestAfterEnvironment(Live(s.w), act.c, |s.w.hist|, ExpectedGeneration(s.l));
    }
  }

  lemma {:induction false} HandRun(cfg: Config, s: State, es: seq<Event>)
    requires WellFormed(cfg) && s.running && s.err.None? && s.pc > Convergence.FETCH_STEP && HonestInHand(s)
    requires Through(cfg, s, es)
    requires Run(cfg, s, es).running && Run(cfg, s, es).pc <= Rotation.DEPLOYMENT_STEP
    ensures var t := Run(cfg, s, es); t.err.None? && t.pc > Convergence.FETCH_STEP && HonestInHand(t)
    decreases |es|
  {
    hide WellFormed, OpStep, HonestInHand;
    if es != [] {
      var t, e := Run(cfg, s, es[..|es| - 1]), es[|es| - 1];
      PcBack(cfg, t, e);
      HandRun(cfg, s, es[..|es| - 1]);
      match e {
        case Begin =>
        case Environment(act) => HandEnvironment(cfg, t, act);
        case Step(c) => if t.pc < END { HandStep(cfg, t, c); }
      }
    }
  }

  lemma PcBack(cfg: Config, t: State, e: Event)
    requires WellFormed(cfg) && t.running
    ensures After(cfg, t, e).pc == t.pc + (if e.Step? && t.pc < END then 1 else 0)
  {
    hide WellFormed, Perform, InstrAt;
    if e.Step? && t.pc < END { FrameOf(cfg, t, e.choice, InstrAt(t.pc)); }
  }

  /** Whatever happened before: if the generation a sync has fetched is honest about the live
      Deployment then, and the Deployment is not deleted before the sync applies it, then a
      skip leaves the required spec in place. */
  lemma SkipSafeFromFetch(cfg: Config, s: State, es: seq<Event>)
    requires WellFormed(cfg) && s.running && s.err.None? && s.pc > Convergence.FETCH_STEP && HonestInHand(s)
    requires Through(cfg, s, es)
    requires Run(cfg, s, es).running && Run(cfg, s, es).pc == Rotation.DEPLOYMENT_STEP
    ensures !Convergence.SkipsDrift(cfg, Run(cfg, s, es))
  {
    hide WellFormed, HonestInHand, Drifted, Required, ExpectedGeneration;
    HandRun(cfg, s, es);
    var t := Run(cfg, s, es);
    HandNotDrifted(cfg, t);
  }

  lemma HandNotDrifted(cfg: Config, t: State)
    requires WellFormed(cfg) && HonestInHand(t)
    ensures !Convergence.SkipsDrift(cfg, t)
  {
    hide WellFormed, Honest, Required;
    Convergence.Deployments();
    RecordedGeneration.HonestNotDrifted(t.w, Required(cfg, Deployment, t.l), ExpectedGeneration(t.l));
  }

  /** And honesty is no more than that takes. Whatever Deployment is live at the fetch, drifted
      or not, the skip is sound for every later edit of it and every later requirement if and
      only if the fetched generation is honest, or there is no spec hash to mislead it. */
  lemma FetchExact(c: Snapshot, e: nat)
    requires Deployment in c.objs && c.objs[Deployment].spec.Deploy?
    ensures GenerationGuard.SoundForever(c.objs[Deployment], e) <==>
              Honest(c, e) || !GenerationGuard.Hashed(c.objs[Deployment])
  {
    hide GenerationGuard.SoundForever;
    GenerationGuard.GuardExactAnywhere(c.objs[Deployment], e);
  }

  // ---- The run

  const REFUSED := Choice(Refused, 0, 0, None)

  /** A healthy cluster with a Deployment, whose cached record of it is generation 2. */
  predicate Suitable(cfg: Config, w: World)
    requires WellFormed(cfg)
  {
    && Healthy(cfg, w) && Live(w).operator.Some? && Deployment in Live(w).objs
    && CachedOperator(w).value.status.recorded == Some(2)
  }

  function Without(c: Snapshot): Snapshot {
    c.(objs := c.objs - {Deployment})
  }

  /** A user appends to the live spec; the API server moves the generation. */
  function Edited(c: Snapshot, n: nat): Snapshot
    requires Deployment in c.objs && c.objs[Deployment].spec.Deploy?
  {
    var o := c.objs[Deployment];
    c.(objs := c.objs[Deployment := o.(rv := n, gen := o.gen + 1, spec := o.spec.(rest := o.spec.rest + "x"))])
  }

  lemma RunOn(cfg: Config, s: State, es: seq<Event>, fs: seq<Event>)
    requires WellFormed(cfg)
    ensures Run(cfg, s, es + fs) == Run(cfg, Run(cfg, s, es), fs)
  {
    hide WellFormed, Run;
    RunSplit(cfg, s, es + fs, |es|);
    assert (es + fs)[..|es|] == es && (es + fs)[|es|..] == fs;
  }

  lemma RunOne(cfg: Config, s: State, e: Event)
    requires WellFormed(cfg)
    ensures Run(cfg, s, [e]) == After(cfg, s, e)
  {
    hide WellFormed, After;
    assert [e][..0] == [];
  }

  /** The deletion, and the sync after it up to its last update. */
  lemma Recreated(cfg: Config, s: State)
    requires WellFormed(cfg) && !s.running && Suitable(cfg, s.w)
    ensures var d := After(cfg, s, Environment(Become(Without(Live(s.w)))));
            var p := Run(cfg, BeginSync(d), Quiets(20));
            var t := Run(cfg, BeginSync(d), Quiets(21));
            && !d.running && Live(d.w).operator.Some? && Healthy(cfg, d.w) && CachedOperator(d.w) == CachedOperator(s.w)
            && Going(t, 21) && SameFooting(d.w, t.w, false) && CrdReadable(cfg, ObjectAt(Live(t.w), JobSetCrd))
            && ObjectAt(Live(t.w), ConfigMap) == p.l.config && Tracked(p) && SameFooting(d.w, p.w, false)
            && Going(p, 20)
            && var req := Required(cfg, Deployment, p.l);
               && Deployment in Live(t.w).objs
               && Live(t.w).objs[Deployment].(rv := 0) == Object(0, 1, req.meta, req.spec, 0)
  {
    hide WellFormed, Run, Required, RequiredSpec, InstrAt, Perform, Going, Tracked, SameFooting, CrdReadable, Unapplied;
    Deleted(cfg, s);
    hide Healthy, Suitable, After;
    var d := After(cfg, s, Environment(Become(Without(Live(s.w)))));
    TrackedRun(cfg, d, 20);
    TrackedRun(cfg, d, 21);
    DeploymentAt();
    UnappliedBefore(20);
    Still(cfg, d, 20, Deployment);
    CrdWritten(cfg, d);
    OneMoreQuiet(cfg, BeginSync(d), 21);
    Created(cfg, d, Run(cfg, BeginSync(d), Quiets(20)));
    Weaker(d.w, Run(cfg, BeginSync(d), Quiets(20)).w);
    Weaker(d.w, Run(cfg, BeginSync(d), Quiets(21)).w);
  }

  /** The CRD the first sync leaves is one the second can read. */
  lemma CrdWritten(cfg: Config, d: State)
    requires WellFormed(cfg) && Going(Run(cfg, BeginSync(d), Quiets(21)), 21)
    ensures CrdReadable(cfg, ObjectAt(Live(Run(cfg, BeginSync(d), Quiets(21)).w), JobSetCrd))
  {
    hide WellFormed, Run, GateInv, Convergence.Facts, Convergence.AllInForm, CrdReadable;
    QuietsAlone(21);
    Convergence.LoneRun(cfg, d, Quiets(21), None);
    var t := Run(cfg, BeginSync(d), Quiets(21));
    CrdCalled(t);
    Convergence.FormOf(cfg, t, JobSetCrd, false);
    Settling.RequiredReadable(cfg, t);
  }

  lemma CrdCalled(t: State)
    requires GateInv(t) && t.pc == 21
    ensures JobSetCrd in t.l.calls && JobSetCrd in APPLY_ORDER
  {
    hide InstrAt, CallsUpTo;
    CallsInOrder(21);
    assert APPLY_ORDER[7] == JobSetCrd && CALLS_BEFORE[21] == 13;
    assert CallsUpTo(21)[7] == JobSetCrd;
  }

  lemma Weaker(v: World, w: World)
    ensures SameFooting(v, w, true) ==> SameFooting(v, w, false)
  {
  }

  lemma DeploymentAt()
    ensures InstrAt(20) == Apply(Deployment) && InstrAt(19) == Apply(ConfigMap) && InstrAt(21) == ReportFinal
  {
  }

  lemma Deleted(cfg: Config, s: State)
    requires WellFormed(cfg) && !s.running && Suitable(cfg, s.w)
    ensures var d := After(cfg, s, Environment(Become(Without(Live(s.w)))));
            && d == s.(w := Put(s.w, Without(Live(s.w))))
            && Live(d.w).operator.Some? && Healthy(cfg, d.w) && CachedOperator(d.w) == CachedOperator(s.w)
            && Deployment !in Live(d.w).objs
  {
    hide WellFormed;
    if Live(s.w).operator.value.status.recorded.Some? {
      assert Records(s.w.hist[|s.w.hist| - 1], Live(s.w).operator.value.status.recorded.value);
    }
  }

  lemma Created(cfg: Config, d: State, p: State)
    requires WellFormed(cfg) && Going(p, 20) && Tracked(p)
    requires ObjectAt(Live(p.w), Deployment) == ObjectAt(Live(d.w), Deployment)
    requires Deployment !in Live(d.w).objs && InstrAt(20) == Apply(Deployment)
    ensures var t := After(cfg, p, Step(QUIET));
            var req := Required(cfg, Deployment, p.l);
            && ObjectAt(Live(t.w), ConfigMap) == p.l.config
            && Deployment in Live(t.w).objs
            && Live(t.w).objs[Deployment].(rv := 0) == Object(0, 1, req.meta, req.spec, 0)
  {
    hide WellFormed, InstrAt, Perform, StepApply, Required;
    RecordedGeneration.AppliesKey(cfg, p, QUIET, Deployment);
    Convergence.ApplyOutcome(cfg, p, Deployment, Fine);
    ApplyMoves(p.w, Deployment, Required(cfg, Deployment, p.l), ExpectedGeneration(p.l));
  }

  /** The last update is refused, and a user edits the Deployment. */
  lemma EditedAfter(cfg: Config, t: State)
    requires WellFormed(cfg) && Going(t, 21) && Deployment in Live(t.w).objs && Live(t.w).objs[Deployment].spec.Deploy?
    requires Live(t.w).operator.Some? && CachedOperator(t.w).Some? && InstrAt(21) == ReportFinal
    ensures var u := After(cfg, t, Step(REFUSED));
            && u.w == t.w && !u.running
            && After(cfg, u, Environment(Become(Edited(Live(t.w), |t.w.hist|))))
                 == u.(w := Put(t.w, Edited(Live(t.w), |t.w.hist|)))
  {
    hide WellFormed, InstrAt, FinalStatus, Edited, Permitted;
    MayEdit(cfg, t.w);
  }

  lemma MayEdit(cfg: Config, w: World)
    requires Deployment in Live(w).objs && Live(w).objs[Deployment].spec.Deploy? && Live(w).operator.Some?
    ensures Permitted(w, Edited(Live(w), |w.hist|))
  {
    var o := Live(w).objs[Deployment];
    assert |o.spec.rest + "x"| == |o.spec.rest| + 1;
    if Live(w).operator.value.status.recorded.Some? {
      assert Records(w.hist[|w.hist| - 1], Live(w).operator.value.status.recorded.value);
    }
  }

  /** In the next sync the ConfigMap needs no write, so the template required is the same. */
  lemma SameAgain(cfg: Config, d: State, u: State)
    requires WellFormed(cfg) && Healthy(cfg, d.w) && Live(d.w).operator.Some? && Healthy(cfg, u.w)
    requires Live(u.w).operator.Some?
    requires SameFooting(d.w, u.w, false)
    requires ObjectAt(Live(u.w), ConfigMap) == Run(cfg, BeginSync(d), Quiets(20)).l.config
    ensures var p, q := Run(cfg, BeginSync(d), Quiets(20)), Run(cfg, BeginSync(u), Quiets(20));
            Going(q, 20) && Convergence.SameFor(p.l, q.l, Deployment)
  {
    hide WellFormed, Run, Required, InstrAt, Perform, Healthy, Tracked, Going, SameFooting, ObjectAt, ApplyObject,
         ExpectedGeneration;
    var p, q := Run(cfg, BeginSync(d), Quiets(20)), Run(cfg, BeginSync(u), Quiets(20));
    var r, t := Run(cfg, BeginSync(d), Quiets(19)), Run(cfg, BeginSync(u), Quiets(19));
    ConfigApplied(cfg, d);
    ConfigApplied(cfg, u);
    SameReads(d.w, u.w, p, q, r, t);
    ConfigMapFirst();
    ConfigQuiet(cfg, r, t);
  }

  lemma ConfigMapFirst()
    ensures ConfigMap in APPLY_ORDER
  {
    assert APPLY_ORDER[11] == ConfigMap;
  }

  lemma ConfigApplied(cfg: Config, d: State)
    requires WellFormed(cfg) && Healthy(cfg, d.w) && Live(d.w).operator.Some? && ConfigMap in APPLY_ORDER
    ensures var r, p := Run(cfg, BeginSync(d), Quiets(19)), Run(cfg, BeginSync(d), Quiets(20));
            && Going(r, 19) && Tracked(r) && SameFooting(d.w, r.w, false)
            && Going(p, 20) && Tracked(p) && SameFooting(d.w, p.w, false)
            && ObjectAt(Live(r.w), ConfigMap) == ObjectAt(Live(d.w), ConfigMap)
            && p.l.config == Some(ApplyObject(r.w, ConfigMap, Required(cfg, ConfigMap, r.l), ExpectedGeneration(r.l)))
  {
    hide WellFormed, Run, Required, InstrAt, Perform, Healthy, Tracked, Going, SameFooting, ObjectAt, ApplyObject,
         ExpectedGeneration;
    DeploymentAt();
    TrackedRun(cfg, d, 19);
    TrackedRun(cfg, d, 20);
    UnappliedBefore(19);
    Still(cfg, d, 19, ConfigMap);
    OneMoreQuiet(cfg, BeginSync(d), 20);
    ConfigStep(cfg, Run(cfg, BeginSync(d), Quiets(19)));
  }

  /** The ConfigMap step: what it returns is in form, and is what is there already if that is. */
  lemma ConfigStep(cfg: Config, r: State)
    requires WellFormed(cfg) && Going(r, 19) && InstrAt(19) == Apply(ConfigMap)
    ensures var t := After(cfg, r, Step(QUIET));
            t.l.config == Some(ApplyObject(r.w, ConfigMap, Required(cfg, ConfigMap, r.l), ExpectedGeneration(r.l)))
  {
    hide WellFormed, InstrAt, Perform, StepApply, Required, ApplyObject;
    RecordedGeneration.AppliesKey(cfg, r, QUIET, ConfigMap);
    ApplyQuiet(cfg, r, ConfigMap);
    Convergence.ApplyOutcome(cfg, r, ConfigMap, Fine);
    ApplyMoves(r.w, ConfigMap, Required(cfg, ConfigMap, r.l), ExpectedGeneration(r.l));
  }

  lemma SameReads(v: World, w: World, p: State, q: State, r: State, t: State)
    requires SameFooting(v, w, false) && SameFooting(v, p.w, false) && SameFooting(w, q.w, false)
    requires SameFooting(v, r.w, false) && SameFooting(w, t.w, false)
    requires Tracked(p) && Tracked(q) && Going(p, 20) && Going(q, 20) && Tracked(r) && Tracked(t) && Going(r, 19)
    requires Going(t, 19)
    ensures p.l.operator == q.l.operator && p.l.web == q.l.web && p.l.met == q.l.met && r.l.operator == t.l.operator
  {
  }

  lemma ConfigQuiet(cfg: Config, r: State, q: State)
    requires WellFormed(cfg) && r.l.operator == q.l.operator && ConfigMap in APPLY_ORDER
    requires var c := ApplyObject(r.w, ConfigMap, Required(cfg, ConfigMap, r.l), ExpectedGeneration(r.l));
             ObjectAt(Live(q.w), ConfigMap) == Some(c)
    ensures ObjectAt(Live(q.w), ConfigMap) ==
              Some(ApplyObject(q.w, ConfigMap, Required(cfg, ConfigMap, q.l), ExpectedGeneration(q.l)))
  {
    hide WellFormed, Required, Agrees, ExpectedGeneration;
    Convergence.RequiredDepends(cfg, r.l, q.l, ConfigMap);
    var req := Required(cfg, ConfigMap, q.l);
    AppliedAgrees(ConfigMap, ObjectAt(Live(r.w), ConfigMap), req, ExpectedGeneration(r.l), |r.w.hist|);
    SkipIffAgrees(ConfigMap, ObjectAt(Live(q.w), ConfigMap), req, ExpectedGeneration(q.l));
  }

  lemma Skips(cfg: Config, p: State, q: State, o: Object)
    requires WellFormed(cfg) && Going(q, 20) && Convergence.SameFor(p.l, q.l, Deployment) && Deployment in APPLY_ORDER
    requires ObjectAt(Live(q.w), Deployment) == Some(o) && o.gen == 2 && ExpectedGeneration(q.l) == 2
    requires var req := Required(cfg, Deployment, p.l);
             o.meta == req.meta && req.spec.Deploy? && o.spec == req.spec.(rest := req.spec.rest + "x")
    ensures Convergence.SkipsDrift(cfg, q)
  {
    hide WellFormed, Required, ExpectedGeneration;
    Convergence.RequiredDepends(cfg, p.l, q.l, Deployment);
    var req := Required(cfg, Deployment, q.l);
    assert |o.spec.rest| == |req.spec.rest| + 1;
  }

  lemma DeploySpec(cfg: Config, l: Locals)
    requires WellFormed(cfg) && Deployment in APPLY_ORDER
    ensures Required(cfg, Deployment, l).spec.Deploy?
  {
  }

  /** The sync after the edit, on the cluster t left by the first one. */
  lemma SecondSync(cfg: Config, s: State, d: State, t: State, u: State)
    requires WellFormed(cfg) && Suitable(cfg, s.w) && !u.running
    requires Healthy(cfg, d.w) && Live(d.w).operator.Some? && CachedOperator(d.w) == CachedOperator(s.w)
    requires Going(t, 21) && SameFooting(d.w, t.w, false)
    requires var p := Run(cfg, BeginSync(d), Quiets(20));
             && ObjectAt(Live(t.w), ConfigMap) == p.l.config && Tracked(p) && SameFooting(d.w, p.w, false)
             && Going(p, 20)
             && var req := Required(cfg, Deployment, p.l);
                && Deployment in Live(t.w).objs
                && Live(t.w).objs[Deployment].(rv := 0) == Object(0, 1, req.meta, req.spec, 0)
                && req.spec.Deploy?
    requires CrdReadable(cfg, ObjectAt(Live(t.w), JobSetCrd)) && u.w == Put(t.w, Edited(Live(t.w), |t.w.hist|))
    ensures FetchesAhead(Run(cfg, BeginSync(u), Quiets(5)))
    ensures Convergence.SkipsDrift(cfg, Run(cfg, BeginSync(u), Quiets(20)))
  {
    hide WellFormed, Run, Required, Tracked, Going, Perform, InstrAt;
    EditKeeps(cfg, s.w, d.w, t.w, u.w);
    hide Healthy, Edited, SameFooting, Suitable;
    SameAgain(cfg, d, u);
    DeploymentAt();
    var p, q := Run(cfg, BeginSync(d), Quiets(20)), Run(cfg, BeginSync(u), Quiets(20));
    UnappliedBefore(20);
    Still(cfg, u, 20, Deployment);
    Reads(cfg, s.w, d.w, p);
    assert Deployment in APPLY_ORDER by { assert APPLY_ORDER[12] == Deployment; }
    Skips(cfg, p, q, Live(u.w).objs[Deployment]);
    AtFetch(cfg, s.w, d.w, u, p.l);
  }

  /** A sync has just fetched a record that is not honest about the live Deployment: it has
      drifted from its hash already, and for some later edit or requirement the skip is wrong. */
  ghost predicate FetchesAhead(q: State) {
    && q.running && q.pc == Convergence.FETCH_STEP + 1 && ExpectedGeneration(q.l) == 2
    && !HonestInHand(q) && Deployment in Live(q.w).objs
    && Live(q.w).objs[Deployment].gen == 2 && GenerationGuard.Hashed(Live(q.w).objs[Deployment])
    && !GenerationGuard.SoundForever(Live(q.w).objs[Deployment], 2)
  }

  lemma AtFetch(cfg: Config, s: World, d: World, u: State, l: Locals)
    requires WellFormed(cfg) && Suitable(cfg, s) && CachedOperator(d) == CachedOperator(s) && SameFooting(d, u.w, false)
    requires Healthy(cfg, u.w) && Live(u.w).operator.Some? && Deployment in Live(u.w).objs && Deployment in APPLY_ORDER
    requires var o, req := Live(u.w).objs[Deployment], Required(cfg, Deployment, l);
             o.gen == 2 && o.meta == req.meta && req.spec.Deploy? && o.spec == req.spec.(rest := req.spec.rest + "x")
    ensures FetchesAhead(Run(cfg, BeginSync(u), Quiets(5)))
  {
    hide WellFormed, Run, InstrAt, Healthy, RequiredSpec, GenerationGuard.SoundForever, Unapplied;
    var o, req, q := Live(u.w).objs[Deployment], Required(cfg, Deployment, l), Run(cfg, BeginSync(u), Quiets(5));
    TrackedRun(cfg, u, 5);
    Settling.DeploymentUnapplied(5);
    Still(cfg, u, 5, Deployment);
    assert |o.spec.rest| == |req.spec.rest| + 1;
    FetchExact(Live(q.w), 2);
  }

  lemma EditKeeps(cfg: Config, s: World, d: World, t: World, u: World)
    requires WellFormed(cfg) && Suitable(cfg, s) && Healthy(cfg, d) && Live(d).operator.Some?
    requires SameFooting(d, t, false)
    requires Deployment in Live(t).objs && Live(t).objs[Deployment].spec.Deploy?
    requires u == Put(t, Edited(Live(t), |t.hist|))
    requires CrdReadable(cfg, ObjectAt(Live(t), JobSetCrd))
    ensures Healthy(cfg, u) && Live(u).operator.Some? && SameFooting(d, u, false)
    ensures ObjectAt(Live(u), ConfigMap) == ObjectAt(Live(t), ConfigMap)
    ensures var o := Live(t).objs[Deployment];
            && Deployment in Live(u).objs
            && Live(u).objs[Deployment]
               == o.(rv := |t.hist|, gen := o.gen + 1, spec := o.spec.(rest := o.spec.rest + "x"))
  {
    hide WellFormed;
  }

  lemma Reads(cfg: Config, s: World, d: World, p: State)
    requires WellFormed(cfg) && Suitable(cfg, s) && CachedOperator(d) == CachedOperator(s) && SameFooting(d, p.w, false)
    requires Tracked(p) && Going(p, 20)
    ensures ExpectedGeneration(p.l) == 2
  {
    hide WellFormed;
  }

  function DeletionEvents(s: State): seq<Event> {
    [Environment(Become(Without(Live(s.w)))), Begin] + Quiets(21) + [Step(REFUSED)]
  }

  lemma BothBegin(cfg: Config, s: State, a: Event, es: seq<Event>)
    requires WellFormed(cfg) && !After(cfg, s, a).running
    ensures Run(cfg, s, [a, Begin] + es) == Run(cfg, BeginSync(After(cfg, s, a)), es)
  {
    hide WellFormed;
    RunOn(cfg, s, [a, Begin], es);
    RunOn(cfg, s, [a], [Begin]);
    RunOne(cfg, s, a);
    RunOne(cfg, After(cfg, s, a), Begin);
    assert [a] + [Begin] == [a, Begin];
  }

  /** Up to n steps of the sync after a deletion, a sync without its last update, and an edit. */
  function BreakingEvents(s: State, edit: Event, n: nat): seq<Event> {
    DeletionEvents(s) + ([edit, Begin] + Quiets(n))
  }

  lemma {:induction false} QuietsTake(m: nat, n: nat)
    requires m <= n
    ensures |Quiets(n)| == n && Quiets(n)[..m] == Quiets(m)
    decreases n
  {
    if m < n {
      QuietsTake(m, n - 1);
      assert Quiets(n)[..m] == Quiets(n - 1)[..m];
    } else if n > 0 {
      QuietsTake(m - 1, n - 1);
    }
  }

  lemma BreakingTake(s: State, edit: Event, m: nat, n: nat) returns (at: nat)
    requires m <= n
    ensures at <= |BreakingEvents(s, edit, n)| && BreakingEvents(s, edit, n)[..at] == BreakingEvents(s, edit, m)
  {
    hide DeletionEvents, Quiets;
    QuietsTake(m, n);
    QuietsTake(m, m);
    at := |DeletionEvents(s)| + 2 + m;
    assert BreakingEvents(s, edit, n)[..at] == DeletionEvents(s) + ([edit, Begin] + Quiets(n))[..2 + m];
    assert ([edit, Begin] + Quiets(n))[..2 + m] == [edit, Begin] + Quiets(n)[..m];
  }

  /** How the run goes, as far as its last sync. */
  lemma BreakingRun(cfg: Config, s: State, d: State, t: State, edit: Event, n: nat)
    requires WellFormed(cfg) && d == After(cfg, s, Environment(Become(Without(Live(s.w))))) && !d.running
    requires t == Run(cfg, BeginSync(d), Quiets(21))
    requires !After(cfg, After(cfg, t, Step(REFUSED)), edit).running
    ensures Run(cfg, s, BreakingEvents(s, edit, n)) ==
              Run(cfg, BeginSync(After(cfg, After(cfg, t, Step(REFUSED)), edit)), Quiets(n))
  {
    hide WellFormed, Run, After, Quiets, Without;
    var first := Environment(Become(Without(Live(s.w))));
    RunOn(cfg, s, DeletionEvents(s), [edit, Begin] + Quiets(n));
    BothBegin(cfg, s, first, Quiets(21));
    RunOn(cfg, s, [first, Begin] + Quiets(21), [Step(REFUSED)]);
    RunOne(cfg, t, Step(REFUSED));
    BothBegin(cfg, After(cfg, t, Step(REFUSED)), edit, Quiets(n));
  }

  /** The skip can be unsound where the Deployment may be deleted: from every suitable initial
      state there is a run at whose end a sync skips over a user's edit, having fetched, at, a
      record that was not honest then. */
  lemma DeletionBreaksSkip(cfg: Config, s: State) returns (es: seq<Event>, at: nat)
    requires WellFormed(cfg) && Initial(s) && Suitable(cfg, s.w)
    ensures at <= |es| && FetchesAhead(Run(cfg, s, es[..at]))
    ensures Convergence.SkipsDrift(cfg, Run(cfg, s, es))
  {
    hide WellFormed, Run, Required, Tracked, Going, Perform, InstrAt, Healthy, Edited, SameFooting, Suitable,
         Convergence.SkipsDrift, FetchesAhead, Without, Quiets, BreakingEvents;
    Recreated(cfg, s);
    var d := After(cfg, s, Environment(Become(Without(Live(s.w)))));
    var p, t := Run(cfg, BeginSync(d), Quiets(20)), Run(cfg, BeginSync(d), Quiets(21));
    Convergence.Deployments();
    DeploySpec(cfg, p.l);
    DeploymentAt();
    SuitableOperator(cfg, s.w, d.w, t.w);
    EditedAfter(cfg, t);
    var edit := Environment(Become(Edited(Live(t.w), |t.w.hist|)));
    var u := After(cfg, After(cfg, t, Step(REFUSED)), edit);
    SecondSync(cfg, s, d, t, u);
    BreakingRun(cfg, s, d, t, edit, 5);
    BreakingRun(cfg, s, d, t, edit, 20);
    es := BreakingEvents(s, edit, 20);
    at := BreakingTake(s, edit, 5, 20);
  }

  lemma SuitableOperator(cfg: Config, s: World, d: World, t: World)
    requires WellFormed(cfg) && Suitable(cfg, s) && CachedOperator(d) == CachedOperator(s) && SameFooting(d, t, false)
    requires Live(d).operator.Some?
    ensures Live(t).operator.Some? && CachedOperator(t).Some?
  {
    hide WellFormed;
  }

  /** There are such initial states, with a CRD that has a conversion webhook like the operator's,
      and from this one there is such a run. */
  lemma SkipCanBreak() returns (cfg: Config, s: State, es: seq<Event>, at: nat)
    ensures WellFormed(cfg) && cfg.manifests[JobSetCrd].spec.conversion.ClientConfig? && Initial(s)
    ensures at <= |es| && FetchesAhead(Run(cfg, s, es[..at])) && Convergence.SkipsDrift(cfg, Run(cfg, s, es))
  {
    hide WellFormed, Run, Convergence.SkipsDrift, FetchesAhead, Small, Healthy;
    var dep := Object(0, 2, map[], Deploy(None, PodTemplate(map[], [], [], ""), ""), 0);
    cfg, s := Small(ClientConfig("", "")), Beginning(map[Deployment := dep], Some(2));
    SmallIsWellFormed(ClientConfig("", ""));
    BeginningIsInitial(map[Deployment := dep], Some(2));
    BeginningIsHealthy(ClientConfig("", ""), map[Deployment := dep], Some(2));
    es, at := DeletionBreaksSkip(cfg, s);
  }
}
