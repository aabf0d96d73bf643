/** A sync the environment does not interrupt brings every object into its required form,
    and the next one writes nothing. */
module Convergence {
  import opened Wrappers
  import opened ClusterModel
  import opened Conditions
  import opened Applying
  import opened ApiHistory
  import opened Machine
  import opened Safety
  import StatusRuns
  import RecordedGeneration
  import Rotation

  /** Steps of one sync, with caches moving forward in between and nobody else writing. */
  predicate Alone(es: seq<Event>) {
    forall e :: e in es ==> e.Step? || (e.Environment? && e.act.Caches?)
  }

  /** A live object is in the form required by locals l. */
  predicate InForm(cfg: Config, c: Snapshot, l: Locals, k: Key)
    requires WellFormed(cfg) && k in APPLY_ORDER
  {
    k in c.objs && Agrees(k, c.objs[k], Required(cfg, k, l))
  }

  /** What is known of an applied object: that it is in form - of the Deployment, if the records
      the operator may read are not known to be honest, only that its metadata is. */
  predicate Held(cfg: Config, c: Snapshot, l: Locals, k: Key, honest: bool)
    requires WellFormed(cfg) && k in APPLY_ORDER
  {
    && k in c.objs && MetaAgrees(c.objs[k].meta, Required(cfg, k, l).meta)
    && (honest || k != Deployment ==> InForm(cfg, c, l, k))
  }

  predicate AllInForm(cfg: Config, s: State, honest: bool)
    requires WellFormed(cfg)
  {
    forall k :: k in s.l.calls && k in APPLY_ORDER ==> Held(cfg, Live(s.w), s.l, k, honest)
  }

  const VERSION_STEP := 3
  const CERT_MANAGER_STEP := 2
  const FETCH_STEP := 4
  const CRD_READ_STEP := 14
  const CRD_WRITE_STEP := 15
  const CONFIG_STEP := 19

  predicate Facts(s: State) {
    && (PastGate(s, CERT_MANAGER_STEP) ==> IssuerServed(Live(s.w)))
    && (PastGate(s, FETCH_STEP) ==> s.l.operator.Some?)
    && (PastGate(s, VERSION_STEP) ==> s.l.legacy == LegacyServer(Live(s.w).major, Live(s.w).minor))
    && (PastGate(s, CONFIG_STEP) ==> s.l.config.Some? && s.l.config == ObjectAt(Live(s.w), ConfigMap))
    && (PastGate(s, Rotation.DEPLOYMENT_STEP) ==> s.l.dep.Some? && s.l.dep == ObjectAt(Live(s.w), Deployment))
  }

  /** from is the position from which records are known to be honest, if there is one. */
  predicate LoneInv(cfg: Config, s: State, from: Option<nat>)
    requires WellFormed(cfg)
  {
    && GateInv(s) && Rotation.RunningClean(s) && (from.Some? ==> RecordedGeneration.HonestInv(s, from.value))
    && (s.err.None? ==> AllInForm(cfg, s, from.Some?) && Facts(s))
  }

  /** The required form of an object only depends on these locals. */
  predicate SameFor(l: Locals, m: Locals, k: Key) {
    && l.operator == m.operator
    && (k == JobSetCrd ==> l.legacy == m.legacy && l.bundle == m.bundle)
    && (k == Deployment ==> l.web == m.web && l.met == m.met && l.config == m.config)
  }

  lemma RequiredDepends(cfg: Config, l: Locals, m: Locals, k: Key)
    requires WellFormed(cfg) && k in APPLY_ORDER && SameFor(l, m, k)
    ensures Required(cfg, k, l) == Required(cfg, k, m)
  {
  }

  /** Which objects have been applied when a local is assigned. */
  lemma AppliedBy(n: nat, k: Key)
    requires n <= END && k in CallsUpTo(n)
    ensures k in APPLY_ORDER
    ensures n > 4
    ensures k == JobSetCrd ==> n > CRD_READ_STEP
    ensures k == Deployment ==> n > Rotation.DEPLOYMENT_STEP
  {
    hide InstrAt;
    CallsInOrder(n);
    var i :| 0 <= i < |CallsUpTo(n)| && CallsUpTo(n)[i] == k;
    assert APPLY_ORDER[i] == k;
    AppliedAt(n, i);
  }

  lemma AppliedAt(n: nat, i: nat)
    requires n <= END && i < CALLS_BEFORE[n] <= |APPLY_ORDER|
    ensures n > 4
    ensures APPLY_ORDER[i] == JobSetCrd ==> n > CRD_READ_STEP
    ensures APPLY_ORDER[i] == Deployment ==> n > Rotation.DEPLOYMENT_STEP
  {
  }

  lemma StepNumbers()
    ensures InstrAt(CERT_MANAGER_STEP) == CheckCertManager && InstrAt(VERSION_STEP) == CheckVersion
    ensures InstrAt(CRD_READ_STEP) == ReadCrd && InstrAt(CONFIG_STEP) == Apply(ConfigMap)
    ensures InstrAt(FETCH_STEP) == FetchOperator
  {
  }

  /** Apart from an apply, a step leaves the objects, the served kinds and the version alone. */
  predicate Untouched(a: Snapshot, b: Snapshot) {
    a.objs == b.objs && a.certManagerKinds == b.certManagerKinds && a.major == b.major && a.minor == b.minor
  }

  lemma UntouchedByStatus(s: State, c: Choice, base: Option<Operator>, result: Status)
    ensures Untouched(Live(s.w), Live(StepStatus(s, c, base, result).w))
  {
  }

  lemma UntouchedStep(cfg: Config, s: State, c: Choice, i: Instr)
    requires WellFormed(cfg) && !i.Apply?
    ensures Untouched(Live(s.w), Live(Perform(cfg, s, c, i).w))
  {
    hide WellFormed, StepStatus, WithCondition, FinalStatus, AvailableCondition, StepApply;
    UntouchedByStatus(s, c, BaseOperator(s.w, c),
      WithCondition(BaseStatus(s.w, c), AvailableCondition(CachedDeployment(s.w, c.listerError)), c.now));
    UntouchedByStatus(s, c, BaseOperator(s.w, c), WithCondition(BaseStatus(s.w, c), MISSING_DEPENDENCY, c.now));
    if s.l.dep.Some? {
      UntouchedByStatus(s, c, BaseOperator(s.w, c), FinalStatus(BaseStatus(s.w, c), s.l.dep.value, c.now));
    }
  }

  /** What each step that is not an apply does to the locals, when the sync goes on. */
  predicate LocalsStep(s: State, t: State, i: Instr) {
    match i
    case CheckVersion => t.l == s.l.(legacy := LegacyServer(Live(s.w).major, Live(s.w).minor))
    case FetchOperator => CachedOperator(s.w).Some? && t.l == s.l.(operator := CachedOperator(s.w))
    case GateWebhook => t.l == s.l.(webIx := t.l.webIx, web := t.l.web)
    case GateMetrics => t.l == s.l.(metIx := t.l.metIx, met := t.l.met)
    case ReadCrd => t.l == s.l.(bundle := t.l.bundle)
    case _ => t.l == s.l
  }

  lemma LocalsOf(cfg: Config, s: State, c: Choice, i: Instr)
    requires WellFormed(cfg) && !i.Apply? && s.pc < END && s.err.None?
    ensures var t := Perform(cfg, s, c, i);
            && (t.running ==> LocalsStep(s, t, i) && (i == CheckCertManager ==> IssuerServed(Live(s.w))))
            && (!t.running && t.pc != END ==> t.l == s.l)
  {
    hide WellFormed, PutStatus, StatusFails, WithCondition, FinalStatus, AvailableCondition, StepApply;
  }

  lemma FormKept(cfg: Config, s: State, t: State, honest: bool)
    requires WellFormed(cfg) && AllInForm(cfg, s, honest) && t.l.calls == s.l.calls
    requires Live(t.w).objs == Live(s.w).objs
    requires forall k :: k in s.l.calls && k in APPLY_ORDER ==> SameFor(s.l, t.l, k)
    ensures AllInForm(cfg, t, honest)
  {
    hide WellFormed, Agrees, Required;
    forall k | k in t.l.calls && k in APPLY_ORDER ensures Held(cfg, Live(t.w), t.l, k, honest) {
      assert Held(cfg, Live(s.w), s.l, k, honest);
      RequiredDepends(cfg, s.l, t.l, k);
    }
  }

  /** No local that a form already applied depends on is assigned later. */
  lemma LocalsSettled(s: State, t: State, i: Instr, k: Key)
    requires s.pc < END && i == InstrAt(s.pc) && !i.Apply? && s.l.calls == CallsUpTo(s.pc) && k in s.l.calls
    requires LocalsStep(s, t, i) || t.l == s.l
    ensures SameFor(s.l, t.l, k)
  {
    hide InstrAt, CallsUpTo;
    AppliedBy(s.pc, k);
    StepNumbers();
    Gates();
    NumbersOf(s.pc);
  }

  lemma NumbersOf(pc: nat)
    requires pc < END
    ensures InstrAt(pc) == CheckVersion ==> pc == VERSION_STEP
    ensures InstrAt(pc) == FetchOperator ==> pc == FETCH_STEP
    ensures InstrAt(pc) == ReadCrd ==> pc == CRD_READ_STEP
    ensures InstrAt(pc) == CheckCertManager ==> pc == CERT_MANAGER_STEP
    ensures InstrAt(pc) == Apply(ConfigMap) ==> pc == CONFIG_STEP
    ensures InstrAt(pc) == Apply(Deployment) ==> pc == Rotation.DEPLOYMENT_STEP
  {
  }

  lemma LonePlainStep(cfg: Config, s: State, c: Choice, from: Option<nat>)
    requires WellFormed(cfg) && LoneInv(cfg, s, from) && s.running && s.err.None? && !InstrAt(s.pc).Apply?
    ensures AllInForm(cfg, OpStep(cfg, s, c), from.Some?) && Facts(OpStep(cfg, s, c))
  {
    hide WellFormed, Perform, InstrAt, CallsUpTo, AllInForm, RecordedGeneration.HonestInv, SeenAt, Required;
    var i, t := InstrAt(s.pc), OpStep(cfg, s, c);
    FrameOf(cfg, s, c, i);
    UntouchedStep(cfg, s, c, i);
    LocalsOf(cfg, s, c, i);
    FinalLocals(cfg, s, c);
    StepNumbers();
    Rotation.DeploymentStep();
    NumbersOf(s.pc);
    forall k | k in s.l.calls && k in APPLY_ORDER ensures SameFor(s.l, t.l, k) {
      LocalsSettled(s, t, i, k);
    }
    FormKept(cfg, s, t, from.Some?);
  }

  lemma FinalLocals(cfg: Config, s: State, c: Choice)
    requires WellFormed(cfg) && s.pc < END
    ensures s.pc == END - 1 ==> OpStep(cfg, s, c).l == s.l
  {
    hide WellFormed, PutStatus, StatusFails, WithCondition, FinalStatus, AvailableCondition, StepApply;
    StatusRuns.LastStep();
  }

  /** What an apply step does to the state, whichever way it ends. */
  lemma ApplyOutcome(cfg: Config, s: State, k: Key, fault: Fault)
    requires WellFormed(cfg) && k in APPLY_ORDER
    ensures var t := StepApply(cfg, s, k, fault);
            var called := s.l.(calls := s.l.calls + [k]);
            && StepFrame(s, t) && (t.err.None? ==> s.err.None?)
            && (fault.Refused? ==> t.w == s.w)
            && (!fault.Refused? ==> t.w == ApplyWorld(s.w, k, Required(cfg, k, s.l), ExpectedGeneration(s.l)))
            && (t.running || t.err.None? ==>
                  && fault.Fine?
                  && t.l == (if k == ConfigMap then called.(config := ObjectAt(Live(t.w), k))
                             else if k == Deployment then called.(dep := ObjectAt(Live(t.w), k)) else called)
                  && ObjectAt(Live(t.w), k).Some?)
            && t.l == called.(config := t.l.config, dep := t.l.dep)
            && (!t.running && t.pc < END ==> t.l == called)
  {
    hide WellFormed, Required, ApplyWorld, ApplyObject;
    ApplyMoves(s.w, k, Required(cfg, k, s.l), ExpectedGeneration(s.l));
    ApplyFrame(cfg, s, k, fault);
  }

  lemma ApplyFacts(cfg: Config, s: State, c: Choice)
    requires WellFormed(cfg) && Facts(s) && s.running && s.err.None? && s.pc < END && InstrAt(s.pc).Apply?
    requires OpStep(cfg, s, c).err.None?
    ensures Facts(OpStep(cfg, s, c))
  {
    hide WellFormed, InstrAt, StepApply, ApplyWorld, ApplyObject, Required;
    var k := InstrAt(s.pc).k;
    ApplyOutcome(cfg, s, k, c.fault);
    ApplyMoves(s.w, k, Required(cfg, k, s.l), ExpectedGeneration(s.l));
    StepNumbers();
    Rotation.DeploymentStep();
    NumbersOf(s.pc);
  }

  lemma ApplyForms(cfg: Config, s: State, c: Choice, from: Option<nat>)
    requires WellFormed(cfg) && LoneInv(cfg, s, from) && s.running && InstrAt(s.pc).Apply?
    requires OpStep(cfg, s, c).err.None?
    ensures AllInForm(cfg, OpStep(cfg, s, c), from.Some?)
  {
    hide WellFormed, InstrAt, CallsUpTo, AllInForm, Facts, RecordedGeneration.HonestInv, SeenAt, Required, ApplyWorld,
         ApplyObject, Held, StepApply;
    var k, t := InstrAt(s.pc).k, OpStep(cfg, s, c);
    ApplyOutcome(cfg, s, k, c.fault);
    ApplyMoves(s.w, k, Required(cfg, k, s.l), ExpectedGeneration(s.l));
    ApplyHeld(cfg, s, k, from);
    NumbersOf(s.pc);
    forall j | j in t.l.calls && j in APPLY_ORDER ensures Held(cfg, Live(t.w), t.l, j, from.Some?) {
      if j == k {
        RequiredDepends(cfg, s.l, t.l, k);
        HeldMoves(cfg, Live(t.w), s.l, t.l, k, from.Some?);
      } else {
        assert j in s.l.calls;
        AppliedBy(s.pc, j);
        StillHeld(cfg, s, t, j, from.Some?);
      }
    }
    AllForms(cfg, t, from.Some?);
  }

  lemma AllForms(cfg: Config, t: State, honest: bool)
    requires WellFormed(cfg)
    requires forall k :: k in t.l.calls && k in APPLY_ORDER ==> Held(cfg, Live(t.w), t.l, k, honest)
    ensures AllInForm(cfg, t, honest)
  {
  }

  lemma ApplyHeld(cfg: Config, s: State, k: Key, from: Option<nat>)
    requires WellFormed(cfg) && k in APPLY_ORDER && s.running
    requires (from.Some? ==> RecordedGeneration.HonestInv(s, from.value))
    ensures Held(cfg, Live(ApplyWorld(s.w, k, Required(cfg, k, s.l), ExpectedGeneration(s.l))), s.l, k, from.Some?)
  {
    hide WellFormed, Required, ApplyWorld, Agrees, Applied, Drifted, MetaAgrees;
    var req, expected := Required(cfg, k, s.l), ExpectedGeneration(s.l);
    ApplyMoves(s.w, k, req, expected);
    AppliedMeta(k, ObjectAt(Live(s.w), k), req, expected, |s.w.hist|);
    if k != Deployment {
      AppliedAgrees(k, ObjectAt(Live(s.w), k), req, expected, |s.w.hist|);
    } else if from.Some? {
      RecordedGeneration.HonestNotDrifted(s.w, req, expected);
      ApplyExact(ObjectAt(Live(s.w), k), req, expected, |s.w.hist|);
    }
  }

  lemma HeldMoves(cfg: Config, c: Snapshot, l: Locals, m: Locals, k: Key, honest: bool)
    requires WellFormed(cfg) && k in APPLY_ORDER && Held(cfg, c, l, k, honest)
    requires Required(cfg, k, l) == Required(cfg, k, m)
    ensures Held(cfg, c, m, k, honest)
  {
  }

  lemma StillHeld(cfg: Config, s: State, t: State, j: Key, honest: bool)
    requires WellFormed(cfg) && AllInForm(cfg, s, honest) && j in s.l.calls && j in APPLY_ORDER && SameFor(s.l, t.l, j)
    requires ObjectAt(Live(t.w), j) == ObjectAt(Live(s.w), j)
    ensures Held(cfg, Live(t.w), t.l, j, honest)
  {
    hide WellFormed, Agrees, Required, MetaAgrees;
    assert Held(cfg, Live(s.w), s.l, j, honest);
    RequiredDepends(cfg, s.l, t.l, j);
  }

  lemma LoneStep(cfg: Config, s: State, c: Choice, from: Option<nat>)
    requires WellFormed(cfg) && LoneInv(cfg, s, from) && s.running
    ensures LoneInv(cfg, OpStep(cfg, s, c), from)
  {
    hide WellFormed, Perform, AllInForm, Facts, SeenAt, CallsUpTo, RecordedGeneration.HonestInv, InstrAt;
    GateStep(cfg, s, c);
    if from.Some? { RecordedGeneration.HonestStep(cfg, s, c, InstrAt(s.pc), from.value); }
    Rotation.StampsKept(cfg, s, c, InstrAt(s.pc));
    if OpStep(cfg, s, c).err.None? {
      if InstrAt(s.pc).Apply? {
        ApplyForms(cfg, s, c, from);
        ApplyFacts(cfg, s, c);
      } else {
        LonePlainStep(cfg, s, c, from);
      }
    }
  }

  lemma LoneCaches(cfg: Config, s: State, act: Act, from: Option<nat>)
    requires WellFormed(cfg) && LoneInv(cfg, s, from) && act.Caches?
    ensures LoneInv(cfg, After(cfg, s, Environment(act)), from)
  {
    hide WellFormed, AllInForm, GateInv, RecordedGeneration.HonestInv;
    GateEnv(cfg, s, act);
    if from.Some? { HonestCaches(cfg, s, act, from.value); }
    if s.err.None? {
      FormKept(cfg, s, After(cfg, s, Environment(act)), from.Some?);
    }
  }

  lemma HonestCaches(cfg: Config, s: State, act: Act, from: nat)
    requires WellFormed(cfg) && RecordedGeneration.HonestInv(s, from) && act.Caches?
    ensures RecordedGeneration.HonestInv(After(cfg, s, Environment(act)), from)
  {
    hide WellFormed, Honest, RecordedGeneration.AllHonest;
  }

  lemma LoneBegin(cfg: Config, s: State, from: Option<nat>)
    requires WellFormed(cfg) && (from.Some? ==> CacheHonest(s.w, from.value))
    ensures LoneInv(cfg, BeginSync(s), from)
  {
  }

  /** Every generation recorded since a position the operator's cache has reached is honest
      about the live Deployment. What was recorded before does not matter. */
  predicate CacheHonest(w: World, from: nat) {
    from <= w.operatorIx && RecordedGeneration.AllHonest(w.hist, from, Live(w))
  }

  lemma {:induction false} LoneRun(cfg: Config, s: State, es: seq<Event>, from: Option<nat>)
    requires WellFormed(cfg) && (from.Some? ==> CacheHonest(s.w, from.value)) && Alone(es)
    ensures LoneInv(cfg, Run(cfg, BeginSync(s), es), from)
    decreases |es|
  {
    hide WellFormed, LoneInv, CacheHonest;
    if es == [] {
      LoneBegin(cfg, s, from);
    } else {
      var front := es[..|es| - 1];
      LoneRun(cfg, s, front, from);
      var t, e := Run(cfg, BeginSync(s), front), es[|es| - 1];
      assert e in es;
      match e {
        case Environment(act) => LoneCaches(cfg, t, act, from);
        case Step(c) => if t.running && t.pc < END { LoneStep(cfg, t, c, from); }
      }
    }
  }

  /** Convergence, whatever the cluster holds and whatever its past: a sync that completes
      without anyone else writing leaves each object in the form it required of it - the
      Deployment as long as the generations its cache may show are honest. */
  lemma Converges(cfg: Config, s: State, es: seq<Event>, k: Key)
    requires WellFormed(cfg) && Alone(es) && k in APPLY_ORDER
    requires k == Deployment ==> CacheHonest(s.w, s.w.operatorIx)
    requires StatusRuns.Done(Run(cfg, BeginSync(s), es))
    ensures InForm(cfg, Live(Run(cfg, BeginSync(s), es).w), Run(cfg, BeginSync(s), es).l, k)
  {
    hide WellFormed, Facts, Agrees, Required, GateInv, RecordedGeneration.HonestInv, InForm, CacheHonest;
    var from := if k == Deployment then Some(s.w.operatorIx) else None;
    LoneRun(cfg, s, es, from);
    var t := Run(cfg, BeginSync(s), es);
    AllCalled(t, k);
    FormOf(cfg, t, k, from.Some?);
  }

  lemma AllCalled(t: State, k: Key)
    requires GateInv(t) && t.pc == END && k in APPLY_ORDER
    ensures k in t.l.calls
  {
    hide InstrAt, CallsUpTo;
    CallsInOrder(END);
    assert CALLS_BEFORE[END] == 13;
    assert APPLY_ORDER[..13] == APPLY_ORDER;
  }

  lemma FormOf(cfg: Config, t: State, k: Key, honest: bool)
    requires WellFormed(cfg) && AllInForm(cfg, t, honest) && k in t.l.calls && k in APPLY_ORDER
    ensures Held(cfg, Live(t.w), t.l, k, honest)
  {
  }

  // ---- The Deployment, exactly

  /** The Deployment step of a sync is about to skip over a spec that is not the required one. */
  predicate SkipsDrift(cfg: Config, t: State)
    requires WellFormed(cfg)
  {
    && t.running && t.pc == Rotation.DEPLOYMENT_STEP
    && Drifted(ObjectAt(Live(t.w), Deployment), Required(cfg, Deployment, t.l), ExpectedGeneration(t.l))
  }

  /** The step of the run at which it applies the Deployment, and what that has left. */
  lemma {:induction false} DeploymentStepOf(cfg: Config, s: State, es: seq<Event>) returns (n: nat)
    requires WellFormed(cfg) && Alone(es)
    requires var t := Run(cfg, BeginSync(s), es);
             t.pc > Rotation.DEPLOYMENT_STEP && t.err.None? && (t.running || t.pc == END)
    ensures n < |es| && es[n].Step?
    ensures var t, u := Run(cfg, BeginSync(s), es), Run(cfg, BeginSync(s), es[..n]);
            && u.running && u.pc == Rotation.DEPLOYMENT_STEP
            && (InForm(cfg, Live(t.w), t.l, Deployment) <==> !SkipsDrift(cfg, u))
    decreases |es|
  {
    hide WellFormed, InForm, SkipsDrift, OpStep, After, GateInv;
    var front, e := es[..|es| - 1], es[|es| - 1];
    assert e in es;
    LoneGates(cfg, s, front);
    var u, t := Run(cfg, BeginSync(s), front), Run(cfg, BeginSync(s), es);
    Deployments();
    assert t == After(cfg, u, e);
    if u.pc == Rotation.DEPLOYMENT_STEP && u.running && e.Step? {
      n := |es| - 1;
      DeploymentApplied(cfg, u, e.choice);
    } else {
      LaterEvent(cfg, u, e);
      n := DeploymentStepOf(cfg, s, front);
      assert es[..n] == front[..n];
    }
  }

  lemma LoneGates(cfg: Config, s: State, es: seq<Event>)
    requires WellFormed(cfg) && Alone(es)
    ensures GateInv(Run(cfg, BeginSync(s), es)) && Rotation.RunningClean(Run(cfg, BeginSync(s), es))
  {
    hide WellFormed, GateInv, AllInForm, Facts, Run;
    LoneRun(cfg, s, es, None);
  }

  lemma Deployments()
    ensures Deployment in APPLY_ORDER
  {
    assert APPLY_ORDER[12] == Deployment;
  }

  lemma DeploymentApplied(cfg: Config, u: State, c: Choice)
    requires WellFormed(cfg) && u.running && u.pc == Rotation.DEPLOYMENT_STEP && After(cfg, u, Step(c)).err.None?
    requires u.err.None?
    requires Deployment in APPLY_ORDER
    ensures var t := After(cfg, u, Step(c));
            InForm(cfg, Live(t.w), t.l, Deployment) <==> !SkipsDrift(cfg, u)
  {
    hide WellFormed, Required, Agrees, Drifted, StepApply, ApplyWorld, Applied, InstrAt, Perform;
    Rotation.DeploymentStep();
    RecordedGeneration.AppliesKey(cfg, u, c, Deployment);
    ApplyOutcome(cfg, u, Deployment, c.fault);
    var req, expected := Required(cfg, Deployment, u.l), ExpectedGeneration(u.l);
    ApplyMoves(u.w, Deployment, req, expected);
    ApplyExact(ObjectAt(Live(u.w), Deployment), req, expected, |u.w.hist|);
    RequiredDepends(cfg, u.l, OpStep(cfg, u, c).l, Deployment);
  }

  /** Any other event of a lone sync that is past the step was past it before, and does not
      matter to the Deployment. */
  lemma LaterEvent(cfg: Config, u: State, e: Event)
    requires WellFormed(cfg) && GateInv(u) && Rotation.RunningClean(u) && Deployment in APPLY_ORDER
    requires e.Step? || (e.Environment? && e.act.Caches?)
    requires !(u.pc == Rotation.DEPLOYMENT_STEP && u.running && e.Step?)
    requires var t := After(cfg, u, e); t.pc > Rotation.DEPLOYMENT_STEP && t.err.None? && (t.running || t.pc == END)
    ensures u.pc > Rotation.DEPLOYMENT_STEP && u.err.None? && (u.running || u.pc == END)
    ensures var t := After(cfg, u, e);
            InForm(cfg, Live(t.w), t.l, Deployment) <==> InForm(cfg, Live(u.w), u.l, Deployment)
  {
    hide WellFormed, Required, Agrees, Perform, InstrAt, CallsUpTo, SeenAt;
    if e.Step? && u.running {
      FrameOf(cfg, u, e.choice, InstrAt(u.pc));
      StatusRuns.LastStep();
      UntouchedStep(cfg, u, e.choice, InstrAt(u.pc));
      FinalLocals(cfg, u, e.choice);
    }
  }

  /** After a completed sync nobody else wrote in, the Deployment is in form if and only if its
      apply did not find the required metadata, the expected generation and another spec. */
  lemma DeploymentExact(cfg: Config, s: State, es: seq<Event>) returns (n: nat)
    requires WellFormed(cfg) && Alone(es) && StatusRuns.Done(Run(cfg, BeginSync(s), es)) && Deployment in APPLY_ORDER
    ensures n < |es| && es[n].Step?
    ensures var t, u := Run(cfg, BeginSync(s), es), Run(cfg, BeginSync(s), es[..n]);
            && u.running && u.pc == Rotation.DEPLOYMENT_STEP
            && (InForm(cfg, Live(t.w), t.l, Deployment) <==>
                  !Drifted(ObjectAt(Live(u.w), Deployment), Required(cfg, Deployment, u.l), ExpectedGeneration(u.l)))
  {
    hide WellFormed, Run, Drifted, InForm, Required;
    n := DeploymentStepOf(cfg, s, es);
  }

  /** Convergence from any state a run without deletions leads to. */
  lemma ConvergesInRuns(cfg: Config, s: State, before: seq<Event>, es: seq<Event>, k: Key, from: nat)
    requires WellFormed(cfg) && RecordedGeneration.HonestInv(s, from) && RecordedGeneration.Kept(cfg, s, before, from)
    requires Alone(es) && k in APPLY_ORDER
    requires !Run(cfg, s, before).running && StatusRuns.Done(Run(cfg, BeginSync(Run(cfg, s, before)), es))
    ensures var t := Run(cfg, BeginSync(Run(cfg, s, before)), es);
            InForm(cfg, Live(t.w), t.l, k)
  {
    hide WellFormed, RecordedGeneration.Kept, InForm;
    RecordedGeneration.HonestRun(cfg, s, before, from);
    Converges(cfg, Run(cfg, s, before), es, k);
  }

  // ---- The record heals

  lemma InFormHash(cfg: Config, c: Snapshot, l: Locals)
    requires WellFormed(cfg) && Deployment in APPLY_ORDER && InForm(cfg, c, l, Deployment)
    ensures SPEC_HASH in c.objs[Deployment].meta
    ensures c.objs[Deployment].meta[SPEC_HASH] == Digest(c.objs[Deployment].spec)
  {
    hide RequiredSpec;
    var req := Required(cfg, Deployment, l);
    assert req.meta[SPEC_HASH] == Digest(req.spec);
  }

  /** A past that is not honest does not last. Once the record of a completed sync that left the
      Deployment in form is the live one, the caches only have to catch up. */
  lemma RecordHeals(cfg: Config, t: State)
    requires WellFormed(cfg) && Deployment in APPLY_ORDER && InForm(cfg, Live(t.w), t.l, Deployment)
    requires Records(Live(t.w), Live(t.w).objs[Deployment].gen)
    ensures CacheHonest(CaughtUp(t.w), |t.w.hist| - 1)
  {
    hide WellFormed, Agrees, Required;
    InFormHash(cfg, Live(t.w), t.l);
  }
}
