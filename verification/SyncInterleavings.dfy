/** The static resource controller beside a whole sync: its reads, gates and status updates
    included, and however its calls end. Two interleavings of the same sync with the same static
    applies are two runs of the state machine; here is when they end alike. */
module SyncInterleavings {
  import opened Wrappers
  import opened ClusterModel
  import opened Conditions
  import opened Applying
  import opened ApiHistory
  import opened Machine
  import opened Safety
  import opened TwoWriters
  import opened StampedInterleavings
  import Convergence
  import QuietRuns
  import RecordedGeneration
  import Rotation
  import StatusRuns

  // ---- Runs that interleave

  /** A step of the sync, or an apply of the static controller. */
  datatype Move = Op(choice: Choice) | Beside(call: Call)

  /** Status updates are computed from a state not newer than the sync's beginning. */
  predicate Fit(s: State, m: Move) {
    match m
    case Op(c) => c.base < |s.w.hist|
    case Beside(call) => Known(call) && call.Static?
  }

  predicate AllFit(s: State, ms: seq<Move>) {
    forall m :: m in ms ==> Fit(s, m)
  }

  function StaticWorld(cfg: Config, w: World, call: Call): World
    requires WellFormed(cfg) && Known(call)
  {
    Call1(cfg, Progress(w, START), call).w
  }

  /** A static apply as an act of the environment; one that writes nothing is none. */
  function StaticAct(cfg: Config, w: World, call: Call): Act
    requires WellFormed(cfg) && Known(call)
  {
    if StaticWorld(cfg, w, call) == w then Caches(0, 0, 0) else Become(Live(StaticWorld(cfg, w, call)))
  }

  function EventOf(cfg: Config, w: World, m: Move): Event
    requires WellFormed(cfg) && (m.Beside? ==> Known(m.call))
  {
    match m
    case Op(c) => Step(c)
    case Beside(call) => Environment(StaticAct(cfg, w, call))
  }

  /** The moves as events of the state machine, from the beginning of a sync. */
  function Events(cfg: Config, s: State, ms: seq<Move>): seq<Event>
    requires WellFormed(cfg) && AllFit(s, ms)
    decreases |ms|
  {
    if ms == [] then []
    else
      assert Fit(s, ms[|ms| - 1]);
      var es := Events(cfg, s, ms[..|ms| - 1]);
      es + [EventOf(cfg, Run(cfg, BeginSync(s), es).w, ms[|ms| - 1])]
  }

  function After1(cfg: Config, t: State, m: Move): State
    requires WellFormed(cfg) && (m.Beside? ==> Known(m.call))
  {
    After(cfg, t, EventOf(cfg, t.w, m))
  }

  lemma OneMove(cfg: Config, s: State, ms: seq<Move>)
    requires WellFormed(cfg) && AllFit(s, ms) && ms != []
    ensures AllFit(s, ms[..|ms| - 1]) && Fit(s, ms[|ms| - 1])
    ensures Run(cfg, BeginSync(s), Events(cfg, s, ms)) ==
              After1(cfg, Run(cfg, BeginSync(s), Events(cfg, s, ms[..|ms| - 1])), ms[|ms| - 1])
  {
    hide WellFormed, After;
    var es := Events(cfg, s, ms[..|ms| - 1]);
    assert Events(cfg, s, ms)[..|es|] == es;
  }

  /** The environment may do what the static controller does, and it changes that object alone. */
  lemma StaticMoves(cfg: Config, w: World, call: Call)
    requires WellFormed(cfg) && Known(call) && call.Static?
    ensures EnvStep(w, StaticAct(cfg, w, call)) == StaticWorld(cfg, w, call)
  {
    hide WellFormed, Outcome, StaticKey;
    if StaticWorld(cfg, w, call) != w {
      StaticPermitted(cfg, w, call);
    }
  }

  lemma StaticPermitted(cfg: Config, w: World, call: Call)
    requires WellFormed(cfg) && Known(call) && call.Static? && StaticWorld(cfg, w, call) != w
    ensures Permitted(w, Live(StaticWorld(cfg, w, call)))
  {
    hide WellFormed, StaticKey;
    IsOther(call);
    var c := Live(StaticWorld(cfg, w, call));
    StoredRewritten(StaticRule(call.i), ObjectAt(Live(w), StaticKey(call.i)), call.req, |w.hist|);
    if c.operator.Some? && c.operator.value.status.recorded.Some? {
      assert Records(w.hist[|w.hist| - 1], c.operator.value.status.recorded.value);
    }
  }

  lemma StoredRewritten(k: Key, live: Option<Object>, req: Manifest, n: nat)
    ensures var o := Applied(k, live, req, -1, n); live == Some(o) || Rewritten(live, o, n)
  {
  }

  // ---- Two states of two such runs

  /** A later world of the same sync: its caches where they were. */
  predicate Since(v: World, w: World) {
    v.hist <= w.hist && w.secretIx == v.secretIx && w.deployIx == v.deployIx && w.operatorIx == v.operatorIx
  }

  ghost predicate SameOwn(c: Snapshot, d: Snapshot) {
    && (forall k :: Own(k) && k != Deployment ==> SameContent(ObjectAt(c, k), ObjectAt(d, k)))
    && c.certManagerKinds == d.certManagerKinds && c.major == d.major && c.minor == d.minor
    && c.operator.Some? && d.operator.Some?
  }

  /** The Deployment, what the sync remembers of it, and the operator resource. */
  predicate SameRest(u: State, v: State) {
    && SameContent(ObjectAt(Live(u.w), Deployment), ObjectAt(Live(v.w), Deployment))
    && SameContent(u.l.dep, v.l.dep) && Live(u.w).operator == Live(v.w).operator
  }

  predicate SameLocals(u: State, v: State) {
    && u.l == v.l.(config := u.l.config, dep := u.l.dep)
    && SameContent(u.l.config, v.l.config) && u.l.dep.Some? == v.l.dep.Some?
  }

  /** Both runs have got equally far, and differ in versions only - but in the Deployment and
      what comes of it, if the ConfigMap's version differs. */
  ghost predicate Twins(u: State, v: State) {
    && u.pc == v.pc && u.running == v.running && u.err == v.err
    && SameLocals(u, v) && SameOwn(Live(u.w), Live(v.w))
    && (u.pc <= Rotation.DEPLOYMENT_STEP || Version(u.l.config) == Version(v.l.config) ==> SameRest(u, v))
  }

  lemma TwinsBack(u: State, v: State)
    requires Twins(u, v)
    ensures Twins(v, u)
  {
  }

  lemma TwinBeside(cfg: Config, u: State, v: State, call: Call)
    requires WellFormed(cfg) && Known(call) && call.Static? && Twins(u, v)
    ensures var t := After1(cfg, u, Beside(call)); t == u.(w := StaticWorld(cfg, u.w, call)) && Twins(t, v)
  {
    hide WellFormed, StaticWorld, StaticAct, SameRest, SameContent, Version;
    StaticMoves(cfg, u.w, call);
    BesideKeeps(cfg, u, v, call);
  }

  lemma BesideKeeps(cfg: Config, u: State, v: State, call: Call)
    requires WellFormed(cfg) && Known(call) && call.Static? && SameOwn(Live(u.w), Live(v.w))
    ensures var w := StaticWorld(cfg, u.w, call);
            SameOwn(Live(w), Live(v.w)) && (SameRest(u, v) ==> SameRest(u.(w := w), v)) && Since(u.w, w)
  {
    hide WellFormed, Outcome, SameContent, Target;
    var p := Progress(u.w, START);
    CallMoves(cfg, p, call);
    IsOther(call);
    assert Live(Call1(cfg, p, call).w).operator == Live(u.w).operator;
  }

  // ---- One step of the sync in both

  /** What one world gains the other gains. */
  predicate SameGrowth(u: World, t: World, v: World, z: World) {
    |t.hist| - |u.hist| == |z.hist| - |v.hist|
  }

  /** A step of both that leaves the objects, and what is remembered of them, alone. */
  predicate Steps(u: State, v: State, t: State, z: State) {
    && t.pc == u.pc + 1 == z.pc && t.running == z.running && t.err == z.err
    && t.l.config == u.l.config && z.l.config == v.l.config && t.l.dep == u.l.dep && z.l.dep == v.l.dep
    && t.l == z.l.(config := t.l.config, dep := t.l.dep)
    && Convergence.Untouched(Live(u.w), Live(t.w)) && Convergence.Untouched(Live(v.w), Live(z.w))
    && Live(t.w).operator.Some? && Live(z.w).operator.Some?
  }

  lemma TwinsKept(u: State, v: State, t: State, z: State)
    requires Twins(u, v) && Steps(u, v, t, z)
    requires Live(u.w).operator == Live(v.w).operator ==> Live(t.w).operator == Live(z.w).operator
    ensures Twins(t, z)
  {
    hide SameContent, Live, Version;
  }

  lemma TwinsReported(u: State, v: State, t: State, z: State)
    requires Twins(u, v) && Steps(u, v, t, z)
    requires SameRest(u, v) ==> Live(t.w).operator == Live(z.w).operator
    ensures Twins(t, z)
  {
    hide SameContent, Live, Version;
  }

  /** A status update from the same base with the same result. */
  lemma TwinStatus(u: State, v: State, c: Choice, base: Option<Operator>, result: Status)
    requires Twins(u, v)
    ensures var t, z := StepStatus(u, c, base, result), StepStatus(v, c, base, result);
            Twins(t, z) && SameGrowth(u.w, t.w, v.w, z.w)
  {
    var t, z := StepStatus(u, c, base, result), StepStatus(v, c, base, result);
    StatusParts(u, c, base, result);
    StatusParts(v, c, base, result);
    hide StepStatus, SameRest, Convergence.Untouched, Live;
    TwinsKept(u, v, t, z);
  }

  /** What a status update does where there is a resource. */
  lemma StatusParts(u: State, c: Choice, base: Option<Operator>, result: Status)
    requires Live(u.w).operator.Some?
    ensures var t := StepStatus(u, c, base, result);
            var lands := base.Some? && !c.fault.Refused? && result != base.value.status;
            && t.pc == u.pc + 1 && t.l == u.l && Convergence.Untouched(Live(u.w), Live(t.w))
            && t.running == (base.Some? && c.fault.Fine? && u.pc + 1 < END)
            && t.err == (if base.None? then Some(NoOperator) else if c.fault.Fine? then u.err else Some(CallFailed))
            && |t.w.hist| == |u.w.hist| + (if lands then 1 else 0)
            && Live(t.w).operator ==
                 if lands then Some(Live(u.w).operator.value.(status := result)) else Live(u.w).operator
  {
  }

  /** Steps that read leave the world alone and depend on what they read. */
  lemma TwinsRead(u: State, v: State, t: State, z: State)
    requires Twins(u, v) && t.w == u.w && z.w == v.w && t.pc == u.pc + 1 == z.pc && t.running == z.running
    requires t.err == z.err
    requires t.l.config == u.l.config && z.l.config == v.l.config && t.l.dep == u.l.dep && z.l.dep == v.l.dep
    requires t.l == z.l.(config := t.l.config, dep := t.l.dep)
    ensures Twins(t, z)
  {
    hide SameContent, Live, Version, SameOwn;
  }

  lemma GateParts(u: State, web: bool)
    ensures var t := StepGate(u, web);
            var o := ObjectAt(u.w.hist[u.w.secretIx], if web then WebhookSecret else MetricsSecret);
            var ready := o.Some? && Ready(o.value);
            && t.w == u.w && t.pc == u.pc + 1 && t.running == (ready && u.pc + 1 < END)
            && t.err == (if o.None? then Some(SecretMissing) else if ready then u.err else Some(SecretEmpty))
            && t.l == if !ready then u.l
                      else if web then u.l.(webIx := u.w.secretIx, web := o) else u.l.(metIx := u.w.secretIx, met := o)
  {
  }

  lemma TwinGate(s: World, u: State, v: State, web: bool)
    requires Twins(u, v) && Since(s, u.w) && Since(s, v.w)
    ensures var t, z := StepGate(u, web), StepGate(v, web); Twins(t, z) && t.w == u.w && z.w == v.w
  {
    assert u.w.hist[s.secretIx] == v.w.hist[s.secretIx];
    GateParts(u, web);
    GateParts(v, web);
    hide StepGate, SameOwn, SameRest, Ready, SameContent, ObjectAt, Version;
    TwinsRead(u, v, StepGate(u, web), StepGate(v, web));
  }

  lemma SameSpec(u: State, v: State, k: Key)
    requires Twins(u, v) && Own(k) && k != Deployment
    ensures ObjectAt(Live(u.w), k).Some? == ObjectAt(Live(v.w), k).Some?
    ensures ObjectAt(Live(u.w), k).Some? ==> ObjectAt(Live(u.w), k).value.spec == ObjectAt(Live(v.w), k).value.spec
  {
    assert SameContent(ObjectAt(Live(u.w), k), ObjectAt(Live(v.w), k));
  }

  lemma TwinReadCrd(cfg: Config, u: State, v: State, c: Choice)
    requires WellFormed(cfg) && Twins(u, v)
    ensures var t, z := StepReadCrd(cfg, u, c.fault), StepReadCrd(cfg, v, c.fault);
            Twins(t, z) && t.w == u.w && z.w == v.w
  {
    hide SameOwn, SameRest, WellFormed, SameContent, ObjectAt, Live, Version;
    SameSpec(u, v, JobSetCrd);
    TwinsRead(u, v, StepReadCrd(cfg, u, c.fault), StepReadCrd(cfg, v, c.fault));
  }

  lemma ReadNothingElse(u: State, t: State)
    requires t.w == u.w
    ensures Convergence.Untouched(Live(u.w), Live(t.w))
  {
  }

  lemma SameServer(u: State, v: State)
    requires Twins(u, v)
    ensures Live(u.w).major == Live(v.w).major && Live(u.w).minor == Live(v.w).minor
  {
  }

  lemma PlainParts(cfg: Config, u: State, c: Choice, i: Instr)
    requires WellFormed(cfg) && (i == Observe || i == CheckVersion || i == FetchOperator)
    ensures var t, o := Perform(cfg, u, c, i), CachedOperator(u.w);
            var passes := if i == CheckVersion then c.fault.Fine?
                          else if i == Observe then o.Some? && Managed(o.value.management) else o.Some?;
            && t.w == u.w && t.pc == u.pc + 1 && t.running == (passes && u.pc + 1 < END)
            && t.err == (if i == CheckVersion && !passes then Some(CallFailed)
                         else if i != CheckVersion && o.None? then Some(NoOperator) else u.err)
            && t.l == if !passes || i == Observe then u.l
                      else if i == CheckVersion then u.l.(legacy := LegacyServer(Live(u.w).major, Live(u.w).minor))
                      else u.l.(operator := o)
  {
    hide WellFormed;
  }

  lemma TwinPlain(cfg: Config, s: World, u: State, v: State, c: Choice, i: Instr)
    requires WellFormed(cfg) && Twins(u, v) && Since(s, u.w) && Since(s, v.w)
    requires i == Observe || i == CheckVersion || i == FetchOperator
    ensures var t, z := Perform(cfg, u, c, i), Perform(cfg, v, c, i); Twins(t, z) && t.w == u.w && z.w == v.w
  {
    assert CachedOperator(u.w) == CachedOperator(v.w) by { assert u.w.hist[s.operatorIx] == v.w.hist[s.operatorIx]; }
    SameServer(u, v);
    PlainParts(cfg, u, c, i);
    PlainParts(cfg, v, c, i);
    hide WellFormed, Perform, SameContent, SameRest, CachedOperator, SameOwn, Version;
    TwinsRead(u, v, Perform(cfg, u, c, i), Perform(cfg, v, c, i));
  }

  /** The steps that read. */
  lemma TwinRead(cfg: Config, s: World, u: State, v: State, c: Choice, i: Instr)
    requires WellFormed(cfg) && Twins(u, v) && Since(s, u.w) && Since(s, v.w)
    requires || i == Observe || i == CheckVersion || i == FetchOperator
             || i == GateWebhook || i == GateMetrics || i == ReadCrd
    ensures var t, z := Perform(cfg, u, c, i), Perform(cfg, v, c, i); Twins(t, z) && t.w == u.w && z.w == v.w
  {
    hide StepGate, StepReadCrd, WellFormed, Twins;
    match i {
      case GateWebhook => TwinGate(s, u, v, true);
      case GateMetrics => TwinGate(s, u, v, false);
      case ReadCrd => TwinReadCrd(cfg, u, v, c);
      case _ => TwinPlain(cfg, s, u, v, c, i);
    }
  }

  lemma SameBase(s: World, u: World, c: Choice)
    requires Since(s, u) && c.base < |s.hist|
    ensures BaseOperator(u, c) == BaseOperator(s, c) && BaseStatus(u, c) == BaseStatus(s, c)
    ensures CachedDeployment(u, c.listerError) == CachedDeployment(s, c.listerError)
  {
  }

  lemma TwinAvailable(cfg: Config, s: World, u: State, v: State, c: Choice)
    requires WellFormed(cfg) && Twins(u, v) && Since(s, u.w) && Since(s, v.w) && c.base < |s.hist|
    ensures var t, z := Perform(cfg, u, c, ReportAvailable), Perform(cfg, v, c, ReportAvailable);
            Twins(t, z) && SameGrowth(u.w, t.w, v.w, z.w)
  {
    hide WellFormed, StepStatus, WithCondition, AvailableCondition, BaseOperator, BaseStatus, Twins, CachedDeployment;
    SameBase(s, u.w, c);
    SameBase(s, v.w, c);
    var available := AvailableCondition(CachedDeployment(s, c.listerError));
    TwinStatus(u, v, c, BaseOperator(s, c), WithCondition(BaseStatus(s, c), available, c.now));
  }

  lemma TwinCertManager(cfg: Config, s: World, u: State, v: State, c: Choice)
    requires WellFormed(cfg) && Twins(u, v) && Since(s, u.w) && Since(s, v.w) && c.base < |s.hist|
    ensures var t, z := Perform(cfg, u, c, CheckCertManager), Perform(cfg, v, c, CheckCertManager);
            Twins(t, z) && SameGrowth(u.w, t.w, v.w, z.w)
  {
    hide WellFormed, StepStatus, WithCondition, BaseOperator, BaseStatus, SameRest, SameContent, Version, Live,
         Convergence.Untouched;
    SameBase(s, u.w, c);
    SameBase(s, v.w, c);
    var base, result := BaseOperator(s, c), WithCondition(BaseStatus(s, c), MISSING_DEPENDENCY, c.now);
    var t, z := Perform(cfg, u, c, CheckCertManager), Perform(cfg, v, c, CheckCertManager);
    StatusParts(u, c, base, result);
    StatusParts(v, c, base, result);
    if IssuerServed(Live(u.w)) {
      ReadNothingElse(u, t);
      ReadNothingElse(v, z);
    }
    TwinsKept(u, v, t, z);
  }

  lemma TwinFinal(cfg: Config, s: World, u: State, v: State, c: Choice)
    requires WellFormed(cfg) && Twins(u, v) && Since(s, u.w) && Since(s, v.w) && c.base < |s.hist| && u.pc == END - 1
    ensures var t, z := Perform(cfg, u, c, ReportFinal), Perform(cfg, v, c, ReportFinal); Twins(t, z)
  {
    hide WellFormed, StepStatus, FinalStatus, BaseOperator, BaseStatus, SameContent, Version, Live,
         Convergence.Untouched;
    SameBase(s, u.w, c);
    SameBase(s, v.w, c);
    var t, z := Perform(cfg, u, c, ReportFinal), Perform(cfg, v, c, ReportFinal);
    if u.l.dep.Some? {
      StatusParts(u, c, BaseOperator(s, c), FinalStatus(BaseStatus(s, c), u.l.dep.value, c.now));
      StatusParts(v, c, BaseOperator(s, c), FinalStatus(BaseStatus(s, c), v.l.dep.value, c.now));
      if SameRest(u, v) { SameFinal(BaseStatus(s, c), u.l.dep.value, v.l.dep.value, c.now); }
    } else {
      ReadNothingElse(u, t);
      ReadNothingElse(v, z);
    }
    TwinsReported(u, v, t, z);
  }

  lemma SameFinal(st: Status, d: Object, e: Object, now: nat)
    requires SameContent(Some(d), Some(e))
    ensures FinalStatus(st, d, now) == FinalStatus(st, e, now)
  {
    hide WithCondition;
    assert d.(rv := 0) == e.(rv := 0);
    assert d.gen == d.(rv := 0).gen && d.available == d.(rv := 0).available && d.spec == d.(rv := 0).spec;
    assert e.gen == e.(rv := 0).gen && e.available == e.(rv := 0).available && e.spec == e.(rv := 0).spec;
  }

  lemma ApplyParts(cfg: Config, u: State, k: Key, fault: Fault)
    requires WellFormed(cfg) && k in APPLY_ORDER
    ensures var t := StepApply(cfg, u, k, fault);
            && t.pc == u.pc + 1 && t.running == (fault.Fine? && u.pc + 1 < END)
            && t.err == (if fault.Fine? then u.err else Some(CallFailed))
            && t.w == (if fault.Refused? then u.w
                       else ApplyWorld(u.w, k, Required(cfg, k, u.l), ExpectedGeneration(u.l)))
            && t.l == u.l.(calls := u.l.calls + [k],
                           config := if k == ConfigMap && fault.Fine? then ObjectAt(Live(t.w), k) else u.l.config,
                           dep := if k == Deployment && fault.Fine? then ObjectAt(Live(t.w), k) else u.l.dep)
  {
    hide WellFormed, Required, ApplyObject, ApplyWorld, ExpectedGeneration;
    ApplyMoves(u.w, k, Required(cfg, k, u.l), ExpectedGeneration(u.l));
  }

  lemma TwinRequired(cfg: Config, u: State, v: State, k: Key)
    requires WellFormed(cfg) && k in APPLY_ORDER && SameLocals(u, v)
    requires k != Deployment || Version(u.l.config) == Version(v.l.config)
    ensures Required(cfg, k, u.l) == Required(cfg, k, v.l) && ExpectedGeneration(u.l) == ExpectedGeneration(v.l)
  {
    hide WellFormed, Required, SameContent;
    var m := v.l.(dep := u.l.dep);
    SameRequired(cfg, u.l, m, k);
    Convergence.RequiredDepends(cfg, m, v.l, k);
  }

  /** The same requirement on two objects with the same content. */
  lemma TwinApplied(u: World, v: World, k: Key, req: Manifest, expected: int)
    requires SameContent(ObjectAt(Live(u), k), ObjectAt(Live(v), k))
    ensures var t, z := ApplyWorld(u, k, req, expected), ApplyWorld(v, k, req, expected);
            SameContent(ObjectAt(Live(t), k), ObjectAt(Live(z), k)) && SameGrowth(u, t, v, z)
  {
    hide Applied, SameContent, ObjectAt;
    VersionBlind(k, ObjectAt(Live(u), k), ObjectAt(Live(v), k), req, expected, |u.hist|, |v.hist|);
    SameWrites(k, ObjectAt(Live(u), k), ObjectAt(Live(v), k), req, expected, |u.hist|, |v.hist|);
  }

  /** One object of both replaced. */
  lemma OwnReplaced(c: Snapshot, d: Snapshot, x: Snapshot, y: Snapshot, k: Key)
    requires SameOwn(c, d) && x.operator == c.operator && y.operator == d.operator
    requires x.certManagerKinds == c.certManagerKinds && x.major == c.major && x.minor == c.minor
    requires y.certManagerKinds == d.certManagerKinds && y.major == d.major && y.minor == d.minor
    requires forall j :: j != k ==> ObjectAt(x, j) == ObjectAt(c, j) && ObjectAt(y, j) == ObjectAt(d, j)
    requires k == Deployment || SameContent(ObjectAt(x, k), ObjectAt(y, k))
    ensures SameOwn(x, y)
  {
    hide SameContent, ObjectAt;
  }

  lemma TwinApply(cfg: Config, u: State, v: State, c: Choice, k: Key)
    requires WellFormed(cfg) && k in APPLY_ORDER && k != ConfigMap && k != Deployment && Twins(u, v)
    ensures var t, z := StepApply(cfg, u, k, c.fault), StepApply(cfg, v, k, c.fault);
            Twins(t, z) && SameGrowth(u.w, t.w, v.w, z.w)
  {
    hide WellFormed, Required, StepApply, ApplyWorld, ApplyObject, ExpectedGeneration, SameContent, SameOwn, Version,
         Live, ObjectAt;
    var t, z := StepApply(cfg, u, k, c.fault), StepApply(cfg, v, k, c.fault);
    var req, expected := Required(cfg, k, u.l), ExpectedGeneration(u.l);
    ApplyParts(cfg, u, k, c.fault);
    ApplyParts(cfg, v, k, c.fault);
    TwinRequired(cfg, u, v, k);
    ApplyMoves(u.w, k, req, expected);
    ApplyMoves(v.w, k, req, expected);
    OwnContent(u, v, k);
    if !c.fault.Refused? {
      TwinApplied(u.w, v.w, k, req, expected);
      OwnReplaced(Live(u.w), Live(v.w), Live(t.w), Live(z.w), k);
    }
  }

  lemma OwnContent(u: State, v: State, k: Key)
    requires Twins(u, v) && k in APPLY_ORDER && k != Deployment
    ensures SameContent(ObjectAt(Live(u.w), k), ObjectAt(Live(v.w), k))
  {
    hide SameContent, SameRest, SameLocals;
    OwnKeys(k);
  }

  lemma TwinConfig(cfg: Config, u: State, v: State, c: Choice)
    requires WellFormed(cfg) && ConfigMap in APPLY_ORDER && Twins(u, v) && u.pc <= Rotation.DEPLOYMENT_STEP
    ensures var t, z := StepApply(cfg, u, ConfigMap, c.fault), StepApply(cfg, v, ConfigMap, c.fault);
            Twins(t, z)
  {
    hide WellFormed, Required, StepApply, ApplyWorld, ApplyObject, ExpectedGeneration, SameContent, SameOwn, Version,
         Live, ObjectAt;
    var k := ConfigMap;
    var t, z := StepApply(cfg, u, k, c.fault), StepApply(cfg, v, k, c.fault);
    var req, expected := Required(cfg, k, u.l), ExpectedGeneration(u.l);
    ApplyParts(cfg, u, k, c.fault);
    ApplyParts(cfg, v, k, c.fault);
    TwinRequired(cfg, u, v, k);
    ApplyMoves(u.w, k, req, expected);
    ApplyMoves(v.w, k, req, expected);
    OwnContent(u, v, k);
    if !c.fault.Refused? {
      TwinApplied(u.w, v.w, k, req, expected);
      OwnReplaced(Live(u.w), Live(v.w), Live(t.w), Live(z.w), k);
    }
  }

  lemma TwinDeployment(cfg: Config, u: State, v: State, c: Choice)
    requires WellFormed(cfg) && Deployment in APPLY_ORDER && Twins(u, v) && u.pc == Rotation.DEPLOYMENT_STEP
    ensures var t, z := StepApply(cfg, u, Deployment, c.fault), StepApply(cfg, v, Deployment, c.fault);
            Twins(t, z)
  {
    hide WellFormed, Required, StepApply, ApplyWorld, ApplyObject, ExpectedGeneration, SameContent, SameOwn, Version,
         Live, ObjectAt;
    var k := Deployment;
    var t, z := StepApply(cfg, u, k, c.fault), StepApply(cfg, v, k, c.fault);
    ApplyParts(cfg, u, k, c.fault);
    ApplyParts(cfg, v, k, c.fault);
    ApplyMoves(u.w, k, Required(cfg, k, u.l), ExpectedGeneration(u.l));
    ApplyMoves(v.w, k, Required(cfg, k, v.l), ExpectedGeneration(v.l));
    if !c.fault.Refused? {
      OwnReplaced(Live(u.w), Live(v.w), Live(t.w), Live(z.w), k);
      if Version(u.l.config) == Version(v.l.config) {
        TwinRequired(cfg, u, v, k);
        TwinApplied(u.w, v.w, k, Required(cfg, k, u.l), ExpectedGeneration(u.l));
      }
    }
  }

  lemma PlacesOf(pc: nat)
    requires pc < END
    ensures InstrAt(pc) == Apply(ConfigMap) <==> pc == Convergence.CONFIG_STEP
    ensures InstrAt(pc) == Apply(Deployment) <==> pc == Rotation.DEPLOYMENT_STEP
    ensures InstrAt(pc) == ReportFinal <==> pc == END - 1
    ensures InstrAt(pc) == FetchOperator <==> pc == Convergence.FETCH_STEP
  {
  }

  lemma TwinStep(cfg: Config, s: World, u: State, v: State, c: Choice)
    requires WellFormed(cfg) && Twins(u, v) && Since(s, u.w) && Since(s, v.w) && c.base < |s.hist| && u.pc < END
    ensures var t, z := OpStep(cfg, u, c), OpStep(cfg, v, c);
            Twins(t, z) && (u.pc < Convergence.CONFIG_STEP ==> SameGrowth(u.w, t.w, v.w, z.w))
  {
    hide WellFormed, InstrAt, StepApply, StepStatus, Twins;
    PlacesOf(u.pc);
    SamePc(u, v);
    var i := InstrAt(u.pc);
    match i {
      case ReportAvailable => TwinAvailable(cfg, s, u, v, c);
      case CheckCertManager => TwinCertManager(cfg, s, u, v, c);
      case ReportFinal => TwinFinal(cfg, s, u, v, c);
      case Apply(k) =>
        if k == ConfigMap { TwinConfig(cfg, u, v, c); }
        else if k == Deployment { TwinDeployment(cfg, u, v, c); }
        else { TwinApply(cfg, u, v, c, k); }
      case Observe => TwinRead(cfg, s, u, v, c, i);
      case CheckVersion => TwinRead(cfg, s, u, v, c, i);
      case FetchOperator => TwinRead(cfg, s, u, v, c, i);
      case GateWebhook => TwinRead(cfg, s, u, v, c, i);
      case GateMetrics => TwinRead(cfg, s, u, v, c, i);
      case ReadCrd => TwinRead(cfg, s, u, v, c, i);
    }
  }

  lemma SamePc(u: State, v: State)
    requires Twins(u, v)
    ensures u.pc == v.pc && u.running == v.running
  {
  }

  // ---- What is known of one of them

  /** A sync begun at s, n of its steps later. */
  predicate Begun(cfg: Config, s: State, u: State, n: nat)
    requires WellFormed(cfg)
  {
    && Since(s.w, u.w) && u.pc <= n && u.pc <= END && (u.running ==> u.pc == n && u.pc < END && u.err.None?)
    && (u.pc <= Convergence.CONFIG_STEP ==>
          u.l.config.None? && ObjectAt(Live(u.w), ConfigMap) == ObjectAt(Live(s.w), ConfigMap))
    && (u.running && u.pc > Convergence.FETCH_STEP ==> u.l.operator == CachedOperator(s.w))
    && (u.pc > Convergence.CONFIG_STEP && (u.running || StatusRuns.Done(u)) ==> u.l.config.Some?)
    && (u.pc > Rotation.DEPLOYMENT_STEP && (u.running || StatusRuns.Done(u)) ==> Hashes(cfg, u))
  }

  /** The live Deployment carries the hash of what the sync required. */
  predicate Hashes(cfg: Config, u: State)
    requires WellFormed(cfg)
  {
    && Deployment in APPLY_ORDER && Deployment in Live(u.w).objs && SPEC_HASH in Live(u.w).objs[Deployment].meta
    && Live(u.w).objs[Deployment].meta[SPEC_HASH] == Digest(Required(cfg, Deployment, u.l).spec)
  }

  lemma BegunBeside(cfg: Config, s: State, u: State, call: Call, n: nat)
    requires WellFormed(cfg) && Known(call) && call.Static? && Begun(cfg, s, u, n)
    ensures Begun(cfg, s, u.(w := StaticWorld(cfg, u.w, call)), n)
  {
    hide WellFormed, Outcome, Target, Required;
    var p := Progress(u.w, START);
    CallMoves(cfg, p, call);
    IsOther(call);
    assert ObjectAt(Live(StaticWorld(cfg, u.w, call)), Deployment) == ObjectAt(Live(u.w), Deployment);
  }

  lemma BegunRead(cfg: Config, s: State, u: State, c: Choice, n: nat)
    requires WellFormed(cfg) && Begun(cfg, s, u, n) && u.running && !InstrAt(u.pc).Apply?
    ensures Begun(cfg, s, OpStep(cfg, u, c), n + 1)
  {
    hide WellFormed, InstrAt, Perform, Required, SeenAt;
    var i, t := InstrAt(u.pc), OpStep(cfg, u, c);
    FrameOf(cfg, u, c, i);
    Rotation.StampsKept(cfg, u, c, i);
    Convergence.UntouchedStep(cfg, u, c, i);
    Convergence.LocalsOf(cfg, u, c, i);
    Convergence.FinalLocals(cfg, u, c);
    PlacesOf(u.pc);
  }

  lemma BegunApply(cfg: Config, s: State, u: State, c: Choice, n: nat)
    requires WellFormed(cfg) && Begun(cfg, s, u, n) && u.running && InstrAt(u.pc).Apply?
    ensures Begun(cfg, s, OpStep(cfg, u, c), n + 1)
  {
    hide WellFormed, InstrAt, StepApply, Required, ApplyWorld, ApplyObject, ExpectedGeneration, Hashes;
    var k, t := InstrAt(u.pc).k, OpStep(cfg, u, c);
    PlacesOf(u.pc);
    ApplyParts(cfg, u, k, c.fault);
    ApplyExtends(u.w, k, Required(cfg, k, u.l), ExpectedGeneration(u.l));
    ApplyMoves(u.w, k, Required(cfg, k, u.l), ExpectedGeneration(u.l));
    Ends();
    if k == Deployment && t.running { AppliedHash(cfg, u, c); }
  }

  lemma Ends()
    ensures Rotation.DEPLOYMENT_STEP + 1 == END - 1 && Convergence.CONFIG_STEP + 1 == Rotation.DEPLOYMENT_STEP
  {
  }

  lemma AppliedHash(cfg: Config, u: State, c: Choice)
    requires WellFormed(cfg) && Deployment in APPLY_ORDER && StepApply(cfg, u, Deployment, c.fault).running
    ensures Hashes(cfg, StepApply(cfg, u, Deployment, c.fault))
  {
    hide WellFormed, Applied, RequiredSpec, Required, StepApply, ApplyWorld;
    var req, t := Required(cfg, Deployment, u.l), StepApply(cfg, u, Deployment, c.fault);
    ApplyParts(cfg, u, Deployment, c.fault);
    ApplyMoves(u.w, Deployment, req, ExpectedGeneration(u.l));
    RequiredHash(cfg, u.l);
    HashTells(ObjectAt(Live(u.w), Deployment), req, ExpectedGeneration(u.l), |u.w.hist|);
    Convergence.RequiredDepends(cfg, u.l, t.l, Deployment);
  }

  lemma RequiredHash(cfg: Config, l: Locals)
    requires WellFormed(cfg) && Deployment in APPLY_ORDER
    ensures var req := Required(cfg, Deployment, l); SPEC_HASH in req.meta && req.meta[SPEC_HASH] == Digest(req.spec)
  {
  }

  lemma BegunStep(cfg: Config, s: State, u: State, c: Choice, n: nat)
    requires WellFormed(cfg) && Begun(cfg, s, u, n)
    ensures Begun(cfg, s, After(cfg, u, Step(c)), n + 1)
  {
    hide WellFormed, InstrAt, OpStep, Hashes;
    if u.running {
      if InstrAt(u.pc).Apply? { BegunApply(cfg, s, u, c, n); } else { BegunRead(cfg, s, u, c, n); }
    }
  }

  function Ops(ms: seq<Move>): seq<Choice> {
    if ms == [] then []
    else if ms[|ms| - 1].Op? then Ops(ms[..|ms| - 1]) + [ms[|ms| - 1].choice]
    else Ops(ms[..|ms| - 1])
  }

  function Besides(ms: seq<Move>): seq<Call> {
    if ms == [] then []
    else if ms[|ms| - 1].Beside? then Besides(ms[..|ms| - 1]) + [ms[|ms| - 1].call]
    else Besides(ms[..|ms| - 1])
  }

  /** The static applies before the step that applies the ConfigMap. */
  function Early(ms: seq<Move>): seq<Call> {
    if ms == [] then []
    else if ms[|ms| - 1].Beside? && |Ops(ms[..|ms| - 1])| <= Convergence.CONFIG_STEP
    then Early(ms[..|ms| - 1]) + [ms[|ms| - 1].call]
    else Early(ms[..|ms| - 1])
  }

  /** The state after the moves. */
  function At(cfg: Config, s: State, ms: seq<Move>): State
    requires WellFormed(cfg) && AllFit(s, ms)
  {
    Run(cfg, BeginSync(s), Events(cfg, s, ms))
  }

  lemma {:induction false} BegunRun(cfg: Config, s: State, ms: seq<Move>)
    requires WellFormed(cfg) && AllFit(s, ms)
    ensures Begun(cfg, s, At(cfg, s, ms), |Ops(ms)|)
    decreases |ms|
  {
    hide WellFormed, Run, After, Begun, Events, Fit;
    if ms == [] {
      NoMoves(cfg, s);
    } else {
      var front, m := ms[..|ms| - 1], ms[|ms| - 1];
      OneMove(cfg, s, ms);
      BegunRun(cfg, s, front);
      BegunMove(cfg, s, At(cfg, s, front), m, |Ops(front)|);
    }
  }

  lemma NoMoves(cfg: Config, s: State)
    requires WellFormed(cfg)
    ensures At(cfg, s, []) == BeginSync(s) && Begun(cfg, s, BeginSync(s), 0)
  {
  }

  lemma BegunMove(cfg: Config, s: State, t: State, m: Move, n: nat)
    requires WellFormed(cfg) && Fit(s, m) && Begun(cfg, s, t, n)
    ensures Begun(cfg, s, After1(cfg, t, m), if m.Op? then n + 1 else n)
  {
    hide WellFormed, Begun, StaticWorld, StaticAct;
    match m {
      case Op(c) => BegunStep(cfg, s, t, c, n);
      case Beside(call) =>
        StaticMoves(cfg, t.w, call);
        BegunBeside(cfg, s, t, call, n);
    }
  }

  // ---- The static controller's objects

  /** The static applies alone, on the cluster the sync begins with. */
  function Alone(cfg: Config, s: State, cs: seq<Call>): Progress
    requires WellFormed(cfg) && AllKnown(cs)
  {
    Calls(cfg, Origin(s), cs)
  }

  /** The world and the locals the sync's requirements on the ConfigMap come from. */
  function Origin(s: State): Progress {
    Progress(s.w, START.(operator := CachedOperator(s.w)))
  }

  lemma {:induction false} BesidesKnown(s: State, ms: seq<Move>)
    requires AllFit(s, ms)
    ensures AllKnown(Besides(ms)) && AllKnown(Early(ms)) && forall c :: c in Besides(ms) ==> c.Static?
  {
    hide Known;
    if ms != [] {
      assert Fit(s, ms[|ms| - 1]);
      BesidesKnown(s, ms[..|ms| - 1]);
    }
  }

  lemma {:induction false} StaticSide(cfg: Config, s: State, ms: seq<Move>, k: Key)
    requires WellFormed(cfg) && AllFit(s, ms) && AllKnown(Besides(ms)) && k.Other?
    ensures SameContent(ObjectAt(Live(At(cfg, s, ms).w), k), ObjectAt(Live(Alone(cfg, s, Besides(ms)).w), k))
    decreases |ms|
  {
    hide WellFormed, Run, After, Begun, Events, Fit, Known, Call1, SameContent;
    if ms == [] {
      NoMoves(cfg, s);
      StartsAlone(cfg, s, k);
    } else {
      var front, m := ms[..|ms| - 1], ms[|ms| - 1];
      OneMove(cfg, s, ms);
      BesidesKnown(s, front);
      StaticSide(cfg, s, front, k);
      BegunRun(cfg, s, front);
      match m {
        case Op(c) => OpLeavesOther(cfg, s, At(cfg, s, front), c, |Ops(front)|, k);
        case Beside(call) =>
          var cs := Besides(ms);
          assert cs[..|cs| - 1] == Besides(front);
          StepOfRun(cfg, Origin(s), cs);
          BesideSide(cfg, s, At(cfg, s, front), call, Alone(cfg, s, Besides(front)), k);
      }
    }
  }

  lemma StartsAlone(cfg: Config, s: State, k: Key)
    requires WellFormed(cfg)
    ensures SameContent(ObjectAt(Live(BeginSync(s).w), k), ObjectAt(Live(Alone(cfg, s, []).w), k))
  {
  }

  lemma OpLeavesOther(cfg: Config, s: State, u: State, c: Choice, n: nat, k: Key)
    requires WellFormed(cfg) && Begun(cfg, s, u, n) && k.Other?
    ensures ObjectAt(Live(After(cfg, u, Step(c)).w), k) == ObjectAt(Live(u.w), k)
  {
    hide WellFormed, InstrAt, OpStep, Hashes;
    if u.running {
      OtherNotApplied(u.pc, k);
      QuietRuns.OtherUntouched(cfg, u, c, k);
    }
  }

  lemma OtherNotApplied(pc: nat, k: Key)
    requires pc < END && k.Other?
    ensures InstrAt(pc) != Apply(k)
  {
    hide InstrAt;
    if InstrAt(pc) == Apply(k) { OwnKeys(InstrAt(pc).k); }
  }

  lemma BesideSide(cfg: Config, s: State, u: State, call: Call, q: Progress, k: Key)
    requires WellFormed(cfg) && Fit(s, Beside(call)) && SameContent(ObjectAt(Live(u.w), k), ObjectAt(Live(q.w), k))
    ensures Known(call)
    ensures SameContent(ObjectAt(Live(After1(cfg, u, Beside(call)).w), k), ObjectAt(Live(Call1(cfg, q, call).w), k))
  {
    hide WellFormed, Call1, SameContent, StaticAct;
    StaticMoves(cfg, u.w, call);
    StaticCall(cfg, Progress(u.w, START), q, call, k);
  }

  // ---- The ConfigMap's version

  /** The version the sync gets back, from the length of the history it finds. */
  lemma ConfigStamped(cfg: Config, s: State, u: State, c: Choice)
    requires WellFormed(cfg) && Begun(cfg, s, u, Convergence.CONFIG_STEP) && u.running && ConfigMap in APPLY_ORDER
    ensures var t := OpStep(cfg, u, c);
            t.l.config.Some? ==>
              Version(t.l.config)
              == if Writes(cfg, Origin(s), Reconcile(ConfigMap)) then |u.w.hist|
                 else Version(ObjectAt(Live(s.w), ConfigMap))
  {
    hide WellFormed, InstrAt, StepApply, Required, ApplyWorld, ApplyObject, Writes, Hashes, Version;
    var x := Progress(u.w, Origin(s).l);
    PlacesOf(u.pc);
    ApplyParts(cfg, u, ConfigMap, c.fault);
    ApplyMoves(u.w, ConfigMap, Required(cfg, ConfigMap, u.l), ExpectedGeneration(u.l));
    Convergence.RequiredDepends(cfg, u.l, x.l, ConfigMap);
    ConfigVersion(cfg, Origin(s), x);
  }

  /** The ConfigMap's versions differ by what the static controller added before, if it needs a
      write; so do the histories until then. */
  predicate Counted(u: State, x: int, v: State, y: int, writes: bool) {
    && (u.running && u.pc <= Convergence.CONFIG_STEP ==> |u.w.hist| - x == |v.w.hist| - y)
    && (u.l.config.Some? ==>
          if writes then Version(u.l.config) - x == Version(v.l.config) - y
            else Version(u.l.config) == Version(v.l.config))
  }

  lemma CountedBack(u: State, x: int, v: State, y: int, writes: bool)
    requires Counted(u, x, v, y, writes) && Twins(u, v)
    ensures Counted(v, y, u, x, writes)
  {
  }

  lemma CountedOp(cfg: Config, s: State, u: State, v: State, c: Choice, n: nat, x: int, y: int)
    requires WellFormed(cfg) && Begun(cfg, s, u, n) && Begun(cfg, s, v, n) && Twins(u, v) && ConfigMap in APPLY_ORDER
    requires c.base < |s.w.hist| && Counted(u, x, v, y, Writes(cfg, Origin(s), Reconcile(ConfigMap)))
    ensures var t, z := After(cfg, u, Step(c)), After(cfg, v, Step(c));
            Twins(t, z) && Counted(t, x, z, y, Writes(cfg, Origin(s), Reconcile(ConfigMap)))
  {
    hide WellFormed, InstrAt, OpStep, Writes, SameOwn, SameRest, Version, Hashes;
    if u.running {
      TwinStep(cfg, s.w, u, v, c);
      if u.pc == Convergence.CONFIG_STEP {
        ConfigStamped(cfg, s, u, c);
        ConfigStamped(cfg, s, v, c);
      }
      BegunStep(cfg, s, u, c, n);
      ConfigKeeps(cfg, u, c);
      ConfigKeeps(cfg, v, c);
    }
  }

  lemma ConfigKeeps(cfg: Config, u: State, c: Choice)
    requires WellFormed(cfg) && u.running && u.pc < END && u.err.None?
    ensures u.pc != Convergence.CONFIG_STEP ==> OpStep(cfg, u, c).l.config == u.l.config
    ensures OpStep(cfg, u, c).pc == u.pc + 1
  {
    hide WellFormed, InstrAt, Perform, StepApply, Required, ApplyWorld, ExpectedGeneration, SeenAt;
    var i := InstrAt(u.pc);
    PlacesOf(u.pc);
    FrameOf(cfg, u, c, i);
    if i.Apply? {
      ApplyParts(cfg, u, i.k, c.fault);
      assert OpStep(cfg, u, c) == StepApply(cfg, u, i.k, c.fault) by { RecordedGeneration.AppliesKey(cfg, u, c, i.k); }
    } else {
      Convergence.LocalsOf(cfg, u, c, i);
      Convergence.FinalLocals(cfg, u, c);
    }
  }

  /** A static apply adds to the history what it adds where only the static ones are made. */
  lemma BesideGrows(cfg: Config, u: World, call: Call, q: Progress)
    requires WellFormed(cfg) && Known(call) && call.Static?
    requires SameContent(ObjectAt(Live(u), StaticKey(call.i)), ObjectAt(Live(q.w), StaticKey(call.i)))
    ensures |StaticWorld(cfg, u, call).hist| - |u.hist| == |Call1(cfg, q, call).w.hist| - |q.w.hist|
  {
    hide WellFormed, Applied, SameContent, StaticKey, Call1;
    var p := Progress(u, START);
    CallGrows(cfg, p, call);
    CallGrows(cfg, q, call);
    SameWrites(StaticRule(call.i), ObjectAt(Live(u), StaticKey(call.i)), ObjectAt(Live(q.w), StaticKey(call.i)),
      call.req, -1, |u.hist|, |q.w.hist|);
  }

  lemma {:induction false} EarlyAll(ms: seq<Move>)
    requires |Ops(ms)| <= Convergence.CONFIG_STEP
    ensures Early(ms) == Besides(ms)
  {
    if ms != [] {
      EarlyAll(ms[..|ms| - 1]);
    }
  }

  lemma EarlyGrows(cfg: Config, s: State, a: seq<Move>)
    requires WellFormed(cfg) && AllFit(s, a) && a != [] && a[|a| - 1].Beside? && |Ops(a)| <= Convergence.CONFIG_STEP
    requires AllFit(s, a[..|a| - 1]) && AllKnown(Early(a)) && AllKnown(Early(a[..|a| - 1]))
    requires Known(a[|a| - 1].call) && a[|a| - 1].call.Static?
    ensures var u := At(cfg, s, a[..|a| - 1]);
            |StaticWorld(cfg, u.w, a[|a| - 1].call).hist| - |u.w.hist|
            == Added(cfg, Origin(s), Early(a)) - Added(cfg, Origin(s), Early(a[..|a| - 1]))
  {
    hide WellFormed, At, Calls, Call1, StaticWorld, SameContent, StaticKey;
    var front, call := a[..|a| - 1], a[|a| - 1].call;
    EarlyAll(front);
    BesidesKnown(s, front);
    StaticIsOther(call.i);
    StaticSide(cfg, s, front, StaticKey(call.i));
    var cs := Early(a);
    assert cs[..|cs| - 1] == Besides(front);
    StepOfRun(cfg, Origin(s), cs);
    BesideGrows(cfg, At(cfg, s, front).w, call, Alone(cfg, s, Besides(front)));
  }

  lemma CountedGrows(cfg: Config, s: State, u: State, n: nat, x: int, v: State, y: int, writes: bool, w: World, z: int)
    requires WellFormed(cfg) && Begun(cfg, s, u, n) && Counted(u, x, v, y, writes)
    requires if n <= Convergence.CONFIG_STEP then |w.hist| - |u.w.hist| == z - x else z == x
    ensures Counted(u.(w := w), z, v, y, writes)
  {
    hide WellFormed, Hashes, Version;
  }

  lemma CountedBeside(cfg: Config, s: State, a: seq<Move>, v: State, y: int, writes: bool)
    requires WellFormed(cfg) && AllFit(s, a) && a != [] && a[|a| - 1].Beside?
    requires AllFit(s, a[..|a| - 1]) && AllKnown(Early(a)) && AllKnown(Early(a[..|a| - 1]))
    requires Counted(At(cfg, s, a[..|a| - 1]), Added(cfg, Origin(s), Early(a[..|a| - 1])), v, y, writes)
    requires Twins(At(cfg, s, a[..|a| - 1]), v)
    ensures Twins(At(cfg, s, a), v) && Counted(At(cfg, s, a), Added(cfg, Origin(s), Early(a)), v, y, writes)
  {
    hide WellFormed, Run, Events, After, Known, Calls, Added, StaticWorld, StaticAct, Twins, Counted, Begun;
    var front, call := a[..|a| - 1], a[|a| - 1].call;
    OneMove(cfg, s, a);
    TwinBeside(cfg, At(cfg, s, front), v, call);
    BegunRun(cfg, s, front);
    if |Ops(front)| <= Convergence.CONFIG_STEP { EarlyGrows(cfg, s, a); }
    CountedGrows(cfg, s, At(cfg, s, front), |Ops(front)|, Added(cfg, Origin(s), Early(front)), v, y, writes,
      StaticWorld(cfg, At(cfg, s, front).w, call), Added(cfg, Origin(s), Early(a)));
  }

  // ---- Together

  lemma EarlyKnown(s: State, ms: seq<Move>)
    requires AllFit(s, ms)
    ensures AllKnown(Early(ms))
    ensures ms != [] ==> AllFit(s, ms[..|ms| - 1]) && AllKnown(Early(ms[..|ms| - 1])) && Fit(s, ms[|ms| - 1])
  {
    hide Fit, Known;
    BesidesKnown(s, ms);
    if ms != [] { BesidesKnown(s, ms[..|ms| - 1]); }
  }

  lemma {:induction false} Together(cfg: Config, s: State, a: seq<Move>, b: seq<Move>)
    requires WellFormed(cfg) && Live(s.w).operator.Some? && AllFit(s, a) && AllFit(s, b) && Ops(a) == Ops(b)
    requires ConfigMap in APPLY_ORDER
    ensures AllKnown(Early(a)) && AllKnown(Early(b)) && Twins(At(cfg, s, a), At(cfg, s, b))
    ensures Counted(At(cfg, s, a), Added(cfg, Origin(s), Early(a)), At(cfg, s, b), Added(cfg, Origin(s), Early(b)),
              Writes(cfg, Origin(s), Reconcile(ConfigMap)))
    decreases |a| + |b|
  {
    var writes := Writes(cfg, Origin(s), Reconcile(ConfigMap));
    hide WellFormed, Run, Events, After, Known, Calls, Added, At, Twins, Counted, Begun, Writes, Fit;
    EarlyKnown(s, a);
    EarlyKnown(s, b);
    if a != [] && a[|a| - 1].Beside? {
      Together(cfg, s, a[..|a| - 1], b);
      CountedBeside(cfg, s, a, At(cfg, s, b), Added(cfg, Origin(s), Early(b)), writes);
    } else if b != [] && b[|b| - 1].Beside? {
      var front := b[..|b| - 1];
      var x, y := Added(cfg, Origin(s), Early(a)), Added(cfg, Origin(s), Early(front));
      Together(cfg, s, a, front);
      CountedBack(At(cfg, s, a), x, At(cfg, s, front), y, writes);
      TwinsBack(At(cfg, s, a), At(cfg, s, front));
      CountedBeside(cfg, s, b, At(cfg, s, a), x, writes);
      CountedBack(At(cfg, s, b), Added(cfg, Origin(s), Early(b)), At(cfg, s, a), x, writes);
      TwinsBack(At(cfg, s, b), At(cfg, s, a));
    } else if a != [] && b != [] {
      SameOps(a, b);
      Together(cfg, s, a[..|a| - 1], b[..|b| - 1]);
      TogetherOp(cfg, s, a, b, writes);
    } else {
      TogetherAtFirst(cfg, s, writes);
    }
  }

  lemma SameOps(a: seq<Move>, b: seq<Move>)
    requires a != [] && b != [] && a[|a| - 1].Op? && b[|b| - 1].Op? && Ops(a) == Ops(b)
    ensures a[|a| - 1] == b[|b| - 1] && Ops(a[..|a| - 1]) == Ops(b[..|b| - 1])
  {
    var x, y := Ops(a), Ops(b);
    assert x[|x| - 1] == a[|a| - 1].choice && y[|y| - 1] == b[|b| - 1].choice;
    assert x[..|x| - 1] == Ops(a[..|a| - 1]) && y[..|y| - 1] == Ops(b[..|b| - 1]);
  }

  lemma TogetherOp(cfg: Config, s: State, a: seq<Move>, b: seq<Move>, writes: bool)
    requires WellFormed(cfg) && AllFit(s, a) && AllFit(s, b) && a != [] && b != [] && ConfigMap in APPLY_ORDER
    requires a[|a| - 1] == b[|b| - 1] && a[|a| - 1].Op? && |Ops(a[..|a| - 1])| == |Ops(b[..|b| - 1])|
    requires AllFit(s, a[..|a| - 1]) && AllFit(s, b[..|b| - 1])
    requires writes == Writes(cfg, Origin(s), Reconcile(ConfigMap))
    requires AllKnown(Early(a)) && AllKnown(Early(b)) && AllKnown(Early(a[..|a| - 1])) && AllKnown(Early(b[..|b| - 1]))
    requires Twins(At(cfg, s, a[..|a| - 1]), At(cfg, s, b[..|b| - 1]))
    requires Counted(At(cfg, s, a[..|a| - 1]), Added(cfg, Origin(s), Early(a[..|a| - 1])),
               At(cfg, s, b[..|b| - 1]), Added(cfg, Origin(s), Early(b[..|b| - 1])), writes)
    ensures Twins(At(cfg, s, a), At(cfg, s, b))
    ensures Counted(At(cfg, s, a), Added(cfg, Origin(s), Early(a)),
              At(cfg, s, b), Added(cfg, Origin(s), Early(b)), writes)
  {
    hide WellFormed, Run, Events, After, Known, Calls, Added, Twins, Counted, Begun, Writes;
    OneMove(cfg, s, a);
    OneMove(cfg, s, b);
    BegunRun(cfg, s, a[..|a| - 1]);
    BegunRun(cfg, s, b[..|b| - 1]);
    CountedOp(cfg, s, At(cfg, s, a[..|a| - 1]), At(cfg, s, b[..|b| - 1]), a[|a| - 1].choice, |Ops(a[..|a| - 1])|,
      Added(cfg, Origin(s), Early(a[..|a| - 1])), Added(cfg, Origin(s), Early(b[..|b| - 1])));
  }

  lemma TogetherAtFirst(cfg: Config, s: State, writes: bool)
    requires WellFormed(cfg) && Live(s.w).operator.Some?
    ensures var u := At(cfg, s, []);
            Twins(u, u) && Counted(u, Added(cfg, Origin(s), []), u, Added(cfg, Origin(s), []), writes)
  {
    hide WellFormed;
    NoMoves(cfg, s);
  }

  /** A whole sync, its reads, gates and status updates and the endings of its calls included,
      beside the same applies of the static controller in two interleavings: it gets equally
      far, with the same error, and leaves every object with the same content - the Deployment,
      and with it the reported status, if and only if the ConfigMap needs no write to begin with,
      or as many of the static applies before it write in one as in the other. */
  lemma SyncsExact(cfg: Config, s: State, a: seq<Move>, b: seq<Move>, k: Key)
    requires WellFormed(cfg) && Live(s.w).operator.Some? && AllFit(s, a) && AllFit(s, b) && ConfigMap in APPLY_ORDER
    requires Ops(a) == Ops(b) && Besides(a) == Besides(b)
    ensures AllKnown(Early(a)) && AllKnown(Early(b))
    ensures var u, v := At(cfg, s, a), At(cfg, s, b);
            var same := !Writes(cfg, Origin(s), Reconcile(ConfigMap))
                        || Added(cfg, Origin(s), Early(a)) == Added(cfg, Origin(s), Early(b));
            && u.pc == v.pc && u.running == v.running && u.err == v.err
            && (k != Deployment ==> SameContent(ObjectAt(Live(u.w), k), ObjectAt(Live(v.w), k)))
            && (same ==> SameContent(ObjectAt(Live(u.w), Deployment), ObjectAt(Live(v.w), Deployment))
                         && Live(u.w).operator == Live(v.w).operator)
            && (StatusRuns.Done(u) ==>
                  (SameContent(ObjectAt(Live(u.w), Deployment), ObjectAt(Live(v.w), Deployment)) <==> same))
  {
    var writes := Writes(cfg, Origin(s), Reconcile(ConfigMap));
    hide WellFormed, Run, Events, Known, Calls, Added, At, SameContent, Writes, Fit, SameRest, Begun, Counted, Twins;
    Together(cfg, s, a, b);
    BegunRun(cfg, s, a);
    BegunRun(cfg, s, b);
    var u, v := At(cfg, s, a), At(cfg, s, b);
    TwinObjects(u, v, k);
    if k.Other? { StaticTogether(cfg, s, a, b, k); }
    DeploymentsOf(cfg, s, u, v, |Ops(a)|, Added(cfg, Origin(s), Early(a)), Added(cfg, Origin(s), Early(b)), writes);
  }

  lemma StaticTogether(cfg: Config, s: State, a: seq<Move>, b: seq<Move>, k: Key)
    requires WellFormed(cfg) && AllFit(s, a) && AllFit(s, b) && Besides(a) == Besides(b) && k.Other?
    ensures SameContent(ObjectAt(Live(At(cfg, s, a).w), k), ObjectAt(Live(At(cfg, s, b).w), k))
  {
    hide WellFormed, At, SameContent, Known, Calls, Fit;
    BesidesKnown(s, a);
    StaticSide(cfg, s, a, k);
    StaticSide(cfg, s, b, k);
    SameBy(ObjectAt(Live(At(cfg, s, a).w), k), ObjectAt(Live(Alone(cfg, s, Besides(a)).w), k),
      ObjectAt(Live(At(cfg, s, b).w), k));
  }

  lemma TwinObjects(u: State, v: State, k: Key)
    requires Twins(u, v)
    ensures u.pc == v.pc && u.running == v.running && u.err == v.err
    ensures k != Deployment && !k.Other? ==> SameContent(ObjectAt(Live(u.w), k), ObjectAt(Live(v.w), k))
  {
    hide SameContent, SameRest, SameLocals;
  }

  /** The Deployment and the status, from the counts of the two runs. */
  lemma DeploymentsOf(cfg: Config, s: State, u: State, v: State, n: nat, x: int, y: int, writes: bool)
    requires WellFormed(cfg) && Begun(cfg, s, u, n) && Begun(cfg, s, v, n) && Twins(u, v) && Counted(u, x, v, y, writes)
    ensures !writes || x == y ==>
              && SameContent(ObjectAt(Live(u.w), Deployment), ObjectAt(Live(v.w), Deployment))
              && Live(u.w).operator == Live(v.w).operator
    ensures StatusRuns.Done(u) ==>
              (SameContent(ObjectAt(Live(u.w), Deployment), ObjectAt(Live(v.w), Deployment)) <==> !writes || x == y)
  {
    hide WellFormed, Hashes, SameContent, SameOwn, Version;
    if u.l.config.None? { SameVersions(u, v); }
    if StatusRuns.Done(u) && SameContent(ObjectAt(Live(u.w), Deployment), ObjectAt(Live(v.w), Deployment)) {
      HashesTell(cfg, u, v);
    }
  }

  lemma SameBy(x: Option<Object>, y: Option<Object>, z: Option<Object>)
    requires SameContent(x, y) && SameContent(z, y)
    ensures SameContent(x, z)
  {
  }

  lemma SameVersions(u: State, v: State)
    requires Twins(u, v) && u.l.config.None?
    ensures Version(u.l.config) == Version(v.l.config)
  {
  }

  lemma HashesTell(cfg: Config, u: State, v: State)
    requires WellFormed(cfg) && Hashes(cfg, u) && Hashes(cfg, v)
    requires SameContent(ObjectAt(Live(u.w), Deployment), ObjectAt(Live(v.w), Deployment))
    ensures Version(u.l.config) == Version(v.l.config)
  {
    hide WellFormed, Required, Version;
    var x, y := Live(u.w).objs[Deployment], Live(v.w).objs[Deployment];
    assert x.meta == x.(rv := 0).meta && y.meta == y.(rv := 0).meta;
    RequiredTells(cfg, u.l, v.l);
  }
}
