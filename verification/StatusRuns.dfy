/** What the status updates of sync leave in the operator resource, over whole runs. */
module StatusRuns {
  import opened Wrappers
  import opened ClusterModel
  import opened Conditions
  import opened ApiHistory
  import opened Machine
  import Safety

  /** The status update is computed from the operator resource that is live when it lands. */
  predicate Current(w: World, c: Choice) {
    BaseOperator(w, c) == Live(w).operator
  }

  predicate Done(s: State) {
    !s.running && s.pc == END && s.err.None?
  }

  /** The last update lands as promised unless it found its result already in a stale base:
      then it writes nothing, and the live status stays what it was. */
  lemma FinalReportExact(cfg: Config, s: State, c: Choice)
    requires WellFormed(cfg) && s.pc == END - 1 && Done(OpStep(cfg, s, c)) && Live(s.w).operator.Some?
    ensures var t := OpStep(cfg, s, c);
            && s.l.dep.Some? && Live(t.w).operator.Some?
            && (Reported(Live(t.w).operator.value.status, s.l.dep.value)
                <==>
                || !Reported(BaseStatus(s.w, c), s.l.dep.value)
                || Reported(Live(s.w).operator.value.status, s.l.dep.value))
  {
    hide WellFormed, Reported, FinalStatus;
    LastStep();
    if s.l.dep.Some? {
      FinalStatusReports(BaseStatus(s.w, c), s.l.dep.value, c.now);
      FinalStatusIdle(BaseStatus(s.w, c), s.l.dep.value, c.now);
    }
  }

  lemma LastStep()
    ensures InstrAt(END - 1) == ReportFinal
  {
  }

  /** With a current base the last update leaves the report of the Deployment the sync applied,
      and conditions of every other type as they are. */
  lemma FinalStepReports(cfg: Config, s: State, c: Choice)
    requires WellFormed(cfg) && s.pc == END - 1 && Done(OpStep(cfg, s, c)) && Current(s.w, c)
    ensures var t := OpStep(cfg, s, c);
            && s.l.dep.Some? && t.l == s.l && Live(s.w).operator.Some? && Live(t.w).operator.Some?
            && Reported(Live(t.w).operator.value.status, s.l.dep.value)
            && forall kind :: kind != AVAILABLE && kind != DEGRADED ==>
                 FindLive(Live(t.w), kind) == FindLive(Live(s.w), kind)
  {
    hide WellFormed, Reported, FinalStatus;
    LastStep();
    FinalStatusReports(BaseStatus(s.w, c), s.l.dep.value, c.now);
    FinalStatusIdle(BaseStatus(s.w, c), s.l.dep.value, c.now);
  }

  // ---- Conditions of other types, over whole runs

  function FindLive(c: Snapshot, kind: string): Option<Condition> {
    if c.operator.Some? then Find(c.operator.value.status.conditions, kind) else None
  }

  /** Status updates are computed from the live operator resource, and other writers leave the
      conditions of this type alone. */
  predicate Careful(s: State, e: Event, kind: string) {
    match e
    case Begin => true
    case Environment(act) => act.Become? && Permitted(s.w, act.c) ==> FindLive(act.c, kind) == FindLive(Live(s.w), kind)
    case Step(c) => s.running ==> Current(s.w, c)
  }

  predicate CarefulThroughout(cfg: Config, s: State, es: seq<Event>, kind: string)
    requires WellFormed(cfg)
    decreases |es|
  {
    es != [] ==>
      && CarefulThroughout(cfg, s, es[..|es| - 1], kind)
      && Careful(Run(cfg, s, es[..|es| - 1]), es[|es| - 1], kind)
  }

  lemma StatusLeaves(s: State, c: Choice, result: Status, kind: string)
    requires Current(s.w, c) && Find(result.conditions, kind) == Find(BaseStatus(s.w, c).conditions, kind)
    ensures FindLive(Live(StepStatus(s, c, BaseOperator(s.w, c), result).w), kind) == FindLive(Live(s.w), kind)
  {
  }

  lemma OneConditionSet(st: Status, cond: Condition, now: nat, kind: string)
    requires cond.kind != kind
    ensures Find(WithCondition(st, cond, now).conditions, kind) == Find(st.conditions, kind)
  {
    SetConditionFind(st.conditions, cond, now, kind);
  }

  lemma OtherStep(cfg: Config, s: State, c: Choice, i: Instr, kind: string)
    requires WellFormed(cfg) && (i.Apply? ==> i.k in APPLY_ORDER) && Current(s.w, c) && kind != AVAILABLE
    requires kind != DEGRADED
    ensures FindLive(Live(Perform(cfg, s, c, i).w), kind) == FindLive(Live(s.w), kind)
  {
    hide WellFormed, Required, ApplyObject, ApplyWorld, StepStatus, WithCondition, FinalStatus, Current,
         AvailableCondition, IssuerServed, Find;
    if i.Apply? {
      ApplyMoves(s.w, i.k, Required(cfg, i.k, s.l), ExpectedGeneration(s.l));
    }
    var st, available := BaseStatus(s.w, c), AvailableCondition(CachedDeployment(s.w, c.listerError));
    AvailableKind(CachedDeployment(s.w, c.listerError));
    OneConditionSet(st, available, c.now, kind);
    OneConditionSet(st, MISSING_DEPENDENCY, c.now, kind);
    StatusLeaves(s, c, WithCondition(st, available, c.now), kind);
    StatusLeaves(s, c, WithCondition(st, MISSING_DEPENDENCY, c.now), kind);
    if s.l.dep.Some? {
      FinalStatusReports(st, s.l.dep.value, c.now);
      StatusLeaves(s, c, FinalStatus(st, s.l.dep.value, c.now), kind);
    }
  }

  /** Over any run of careful status writers, complete syncs, failed ones and all, the operator
      never changes a condition of a type that is not its own. */
  lemma {:induction false} OtherConditionsKept(cfg: Config, s: State, es: seq<Event>, kind: string)
    requires WellFormed(cfg) && kind != AVAILABLE && kind != DEGRADED && CarefulThroughout(cfg, s, es, kind)
    ensures FindLive(Live(Run(cfg, s, es).w), kind) == FindLive(Live(s.w), kind)
    decreases |es|
  {
    hide WellFormed, Perform, InstrAt, Current, FindLive;
    if es != [] {
      OtherConditionsKept(cfg, s, es[..|es| - 1], kind);
      var t, e := Run(cfg, s, es[..|es| - 1]), es[|es| - 1];
      if e.Step? && t.running && t.pc < END {
        OtherStep(cfg, t, e.choice, InstrAt(t.pc), kind);
      } else if e.Environment? && e.act.Caches? {
        LiveStays(t.w, e.act);
      }
    }
  }

  lemma LiveStays(w: World, act: Act)
    requires act.Caches?
    ensures Live(EnvStep(w, act)) == Live(w)
  {
  }

  /** A full sync, from its beginning to its last update, with anyone writing in between: when
      it is done, Degraded is False, ready replicas are the available replicas of the
      Deployment it applied, Available says whether they are all the replicas asked for, the
      generation is recorded, and conditions of every other type are as they were before it. */
  lemma FullSyncReports(cfg: Config, s: State, es: seq<Event>, c: Choice, kind: string)
    requires WellFormed(cfg) && kind != AVAILABLE && kind != DEGRADED
    requires CarefulThroughout(cfg, BeginSync(s), es + [Step(c)], kind)
    requires Run(cfg, BeginSync(s), es).running && Run(cfg, BeginSync(s), es).pc < END
    requires Done(Run(cfg, BeginSync(s), es + [Step(c)]))
    ensures var t := Run(cfg, BeginSync(s), es + [Step(c)]);
            && t.l.dep.Some? && Live(t.w).operator.Some? && Reported(Live(t.w).operator.value.status, t.l.dep.value)
            && FindLive(Live(t.w), kind) == FindLive(Live(s.w), kind)
  {
    hide WellFormed, OpStep, Reported, FindLive, Current;
    OtherConditionsKept(cfg, BeginSync(s), es + [Step(c)], kind);
    assert (es + [Step(c)])[..|es|] == es && (es + [Step(c)])[|es|] == Step(c);
    var u := Run(cfg, BeginSync(s), es);
    assert Run(cfg, BeginSync(s), es + [Step(c)]) == OpStep(cfg, u, c);
    DoneAtLast(cfg, u, c);
    FinalStepReports(cfg, u, c);
  }

  lemma DoneAtLast(cfg: Config, u: State, c: Choice)
    requires WellFormed(cfg) && u.pc < END && Done(OpStep(cfg, u, c))
    ensures u.pc == END - 1
  {
    hide WellFormed, Perform, InstrAt;
    Safety.FrameOf(cfg, u, c, InstrAt(u.pc));
  }

  /** The Available condition of a reported status is True exactly when the replica count is
      set and equals the available replicas (which are never negative). */
  lemma AvailableExact(st: Status, dep: Object)
    requires Reported(st, dep) && dep.spec.Deploy? && dep.available >= 0
    ensures Find(st.conditions, AVAILABLE).Some?
    ensures Find(st.conditions, AVAILABLE).value.status <==> dep.spec.replicas == Some(dep.available)
    ensures Find(st.conditions, DEGRADED).Some? && !Find(st.conditions, DEGRADED).value.status
    ensures st.ready == dep.available
  {
    var a, d := Find(st.conditions, AVAILABLE).value, Find(st.conditions, DEGRADED).value;
    assert a.status == a.(since := 0).status && d.status == d.(since := 0).status;
  }

  predicate WaitingForCertManager(c: Snapshot) {
    c.operator.Some? && WaitingStatus(c.operator.value.status)
  }

  predicate WaitingStatus(st: Status) {
    && Find(st.conditions, DEGRADED).Some?
    && Find(st.conditions, DEGRADED).value.(since := 0) == MISSING_DEPENDENCY
  }

  /** Every state the operator's cache can still show reports the missing dependency. */
  predicate WaitingSince(w: World) {
    forall i :: w.operatorIx <= i < |w.hist| ==> WaitingForCertManager(w.hist[i])
  }

  /** The event is not the last update of a full sync, and other writers leave the report of
      the missing dependency alone. */
  predicate Partial(s: State, e: Event) {
    match e
    case Begin => true
    case Environment(act) => act.Become? && Permitted(s.w, act.c) ==> WaitingForCertManager(act.c)
    case Step(c) => s.running ==> s.pc != END - 1
  }

  predicate PartialThroughout(cfg: Config, s: State, es: seq<Event>)
    requires WellFormed(cfg)
  {
    forall n :: 0 <= n < |es| ==> Partial(Run(cfg, s, es[..n]), es[n])
  }

  lemma StatusKeeps(s: State, c: Choice, cond: Condition)
    requires WaitingSince(s.w) && (cond.kind != DEGRADED || cond == MISSING_DEPENDENCY)
    ensures WaitingSince(StepStatus(s, c, BaseOperator(s.w, c), WithCondition(BaseStatus(s.w, c), cond, c.now)).w)
  {
    var ix := BaseIx(s.w, c);
    assert WaitingForCertManager(s.w.hist[ix]);
    SetConditionFind(BaseStatus(s.w, c).conditions, cond, c.now, DEGRADED);
    var result := WithCondition(BaseStatus(s.w, c), cond, c.now);
    assert WaitingStatus(result);
    assert WaitingForCertManager(s.w.hist[|s.w.hist| - 1]);
  }

  lemma ApplyWaits(w: World, k: Key, req: Manifest, expected: int)
    requires WaitingSince(w)
    ensures WaitingSince(ApplyWorld(w, k, req, expected))
  {
    hide ApplyObject;
    assert WaitingForCertManager(w.hist[|w.hist| - 1]);
  }

  lemma PartialStep(cfg: Config, s: State, c: Choice, i: Instr)
    requires WellFormed(cfg) && (i.Apply? ==> i.k in APPLY_ORDER) && i != ReportFinal && WaitingSince(s.w)
    ensures WaitingSince(Perform(cfg, s, c, i).w)
  {
    hide WellFormed, Required, ApplyObject, ApplyWorld, StepStatus, WithCondition, AvailableCondition, IssuerServed,
         WaitingSince;
    if i.Apply? {
      ApplyWaits(s.w, i.k, Required(cfg, i.k, s.l), ExpectedGeneration(s.l));
    }
    AvailableKind(CachedDeployment(s.w, c.listerError));
    StatusKeeps(s, c, AvailableCondition(CachedDeployment(s.w, c.listerError)));
    StatusKeeps(s, c, MISSING_DEPENDENCY);
  }

  /** A missing cert-manager stays reported through any number of partial syncs, failed or not
      and however stale their reads, until a sync gets as far as its last update. */
  lemma {:induction false} MissingDependencySurvives(cfg: Config, s: State, es: seq<Event>)
    requires WellFormed(cfg) && WaitingSince(s.w) && PartialThroughout(cfg, s, es)
    ensures WaitingSince(Run(cfg, s, es).w) && WaitingForCertManager(Live(Run(cfg, s, es).w))
    decreases |es|
  {
    hide WellFormed, WaitingForCertManager, Perform, InstrAt, Permitted;
    if es != [] {
      var front := es[..|es| - 1];
      forall n | 0 <= n < |front| ensures Partial(Run(cfg, s, front[..n]), front[n]) {
        assert front[..n] == es[..n];
      }
      MissingDependencySurvives(cfg, s, front);
      var t := Run(cfg, s, front);
      assert Partial(t, es[|es| - 1]);
      if es[|es| - 1].Step? && t.running && t.pc < END {
        FinalOnly(t.pc);
        PartialStep(cfg, t, es[|es| - 1].choice, InstrAt(t.pc));
      }
    }
    var u := Run(cfg, s, es);
    assert Live(u.w) == u.w.hist[|u.w.hist| - 1];
  }

  lemma FinalOnly(pc: nat)
    requires pc < END
    ensures InstrAt(pc) == ReportFinal <==> pc == END - 1
  {
  }

  /** Why the base has to be current: the first update of a sync replaces the whole status by
      one computed from its base, so afterwards every other condition is the base's. */
  lemma StaleBaseOverwrites(cfg: Config, s: State, c: Choice, kind: string)
    requires WellFormed(cfg) && c.fault.Fine? && kind != AVAILABLE
    requires BaseOperator(s.w, c).Some? && Live(s.w).operator.Some?
    ensures var before := BaseOperator(s.w, c).value.status;
            var after := WithCondition(before, AvailableCondition(CachedDeployment(s.w, c.listerError)), c.now);
            var t := Perform(cfg, s, c, ReportAvailable);
            && Live(t.w).operator.Some?
            && Find(Live(t.w).operator.value.status.conditions, kind)
               == if after == before then Find(Live(s.w).operator.value.status.conditions, kind)
                  else Find(before.conditions, kind)
  {
    hide WellFormed, AvailableCondition;
    SetConditionFind(BaseOperator(s.w, c).value.status.conditions,
      AvailableCondition(CachedDeployment(s.w, c.listerError)), c.now, kind);
    AvailableKind(CachedDeployment(s.w, c.listerError));
  }

  // ---- Exactly when an update keeps a condition of another type

  /** An update that lands keeps such a condition if and only if it found its result in its base
      already and wrote nothing, or base and live status have the same one. */
  lemma KeepsExactly(s: State, c: Choice, result: Status, kind: string)
    requires !c.fault.Refused? && BaseOperator(s.w, c).Some? && Live(s.w).operator.Some?
    requires Find(result.conditions, kind) == Find(BaseStatus(s.w, c).conditions, kind)
    ensures FindLive(Live(StepStatus(s, c, BaseOperator(s.w, c), result).w), kind) == FindLive(Live(s.w), kind) <==>
              result == BaseStatus(s.w, c) || Find(BaseStatus(s.w, c).conditions, kind) == FindLive(Live(s.w), kind)
  {
  }

  lemma FirstUpdateKeeps(cfg: Config, s: State, c: Choice, kind: string)
    requires WellFormed(cfg) && kind != AVAILABLE
    requires !c.fault.Refused? && BaseOperator(s.w, c).Some? && Live(s.w).operator.Some?
    ensures FindLive(Live(Perform(cfg, s, c, ReportAvailable).w), kind) == FindLive(Live(s.w), kind) <==>
              || Holds(BaseStatus(s.w, c), AvailableCondition(CachedDeployment(s.w, c.listerError)))
              || Find(BaseStatus(s.w, c).conditions, kind) == FindLive(Live(s.w), kind)
  {
    hide WellFormed, StepStatus, WithCondition, AvailableCondition, Holds, FindLive;
    var available := AvailableCondition(CachedDeployment(s.w, c.listerError));
    AvailableKind(CachedDeployment(s.w, c.listerError));
    OneConditionSet(BaseStatus(s.w, c), available, c.now, kind);
    WithConditionIdle(BaseStatus(s.w, c), available, c.now);
    KeepsExactly(s, c, WithCondition(BaseStatus(s.w, c), available, c.now), kind);
  }

  lemma MissingUpdateKeeps(cfg: Config, s: State, c: Choice, kind: string)
    requires WellFormed(cfg) && kind != DEGRADED && !IssuerServed(Live(s.w))
    requires !c.fault.Refused? && BaseOperator(s.w, c).Some? && Live(s.w).operator.Some?
    ensures FindLive(Live(Perform(cfg, s, c, CheckCertManager).w), kind) == FindLive(Live(s.w), kind) <==>
              || Holds(BaseStatus(s.w, c), MISSING_DEPENDENCY)
              || Find(BaseStatus(s.w, c).conditions, kind) == FindLive(Live(s.w), kind)
  {
    hide WellFormed, StepStatus, WithCondition, Holds, FindLive;
    OneConditionSet(BaseStatus(s.w, c), MISSING_DEPENDENCY, c.now, kind);
    WithConditionIdle(BaseStatus(s.w, c), MISSING_DEPENDENCY, c.now);
    KeepsExactly(s, c, WithCondition(BaseStatus(s.w, c), MISSING_DEPENDENCY, c.now), kind);
  }

  lemma LastUpdateKeeps(cfg: Config, s: State, c: Choice, kind: string)
    requires WellFormed(cfg) && kind != AVAILABLE && kind != DEGRADED && s.l.dep.Some?
    requires !c.fault.Refused? && BaseOperator(s.w, c).Some? && Live(s.w).operator.Some?
    ensures FindLive(Live(Perform(cfg, s, c, ReportFinal).w), kind) == FindLive(Live(s.w), kind) <==>
              || Reported(BaseStatus(s.w, c), s.l.dep.value)
              || Find(BaseStatus(s.w, c).conditions, kind) == FindLive(Live(s.w), kind)
  {
    hide WellFormed, StepStatus, FinalStatus, Reported, FindLive;
    FinalStatusReports(BaseStatus(s.w, c), s.l.dep.value, c.now);
    FinalStatusIdle(BaseStatus(s.w, c), s.l.dep.value, c.now);
    KeepsExactly(s, c, FinalStatus(BaseStatus(s.w, c), s.l.dep.value, c.now), kind);
  }

  lemma AvailableKind(d: Listed)
    ensures AvailableCondition(d).kind == AVAILABLE
  {
  }
}
