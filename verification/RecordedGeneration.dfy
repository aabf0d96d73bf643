/** The generation feedback loop over whole runs: while the records the operator can still
    read are honest and nobody deletes the operand Deployment, no skipped Deployment apply
    leaves a drifted spec behind. */
module RecordedGeneration {
  import opened Wrappers
  import opened ClusterModel
  import opened Conditions
  import opened Applying
  import opened ApiHistory
  import opened Machine
  import opened Safety
  import Rotation
  import Template
  import Decimal

  /** Every generation recorded in a state of the history from a position on is honest about
      a state. */
  predicate AllHonest(hist: seq<Snapshot>, from: nat, c: Snapshot) {
    forall i :: from <= i < |hist| && hist[i].operator.Some? && hist[i].operator.value.status.recorded.Some? ==>
      Honest(c, hist[i].operator.value.status.recorded.value)
  }

  /** The operator's cache has come as far as from, every record from there on is honest about
      the live Deployment, and so is what a running sync has in hand. */
  predicate HonestInv(s: State, from: nat) {
    && from <= s.w.operatorIx && AllHonest(s.w.hist, from, Live(s.w))
    && (s.running ==>
          && (s.l.operator.Some? && s.l.operator.value.status.recorded.Some? ==>
               Honest(Live(s.w), s.l.operator.value.status.recorded.value))
          && (s.l.dep.Some? ==> Honest(Live(s.w), s.l.dep.value.gen)))
  }

  /** The event does not delete the Deployment, nor carry over a record older than from. */
  ghost predicate Keeps(w: World, e: Event, from: nat) {
    e.Environment? && e.act.Become? && Permitted(w, e.act.c) ==>
      && (Deployment in Live(w).objs ==> Deployment in e.act.c.objs)
      && (e.act.c.operator.Some? && e.act.c.operator.value.status.recorded.Some? ==>
            exists i :: from <= i < |w.hist| && Records(w.hist[i], e.act.c.operator.value.status.recorded.value))
  }

  ghost predicate Kept(cfg: Config, s: State, es: seq<Event>, from: nat)
    requires WellFormed(cfg)
    decreases |es|
  {
    es != [] ==> Kept(cfg, s, es[..|es| - 1], from) && Keeps(Run(cfg, s, es[..|es| - 1]).w, es[|es| - 1], from)
  }

  lemma HonestAfterEnvironment(a: Snapshot, b: Snapshot, n: nat, e: nat)
    requires EnvironmentStep(a, b, n) && Deployment in b.objs && Honest(a, e)
    ensures Honest(b, e)
  {
    assert b.objs[Deployment] == a.objs[Deployment] || Rewritten(ObjectAt(a, Deployment), b.objs[Deployment], n);
  }

  lemma HonestEnv(cfg: Config, s: State, act: Act, from: nat)
    requires WellFormed(cfg) && HonestInv(s, from) && Keeps(s.w, Environment(act), from)
    ensures HonestInv(After(cfg, s, Environment(act)), from)
  {
    hide Honest, EnvironmentStep, WellFormed;
    if act.Become? && Permitted(s.w, act.c) {
      forall e: nat | Honest(Live(s.w), e) ensures Honest(act.c, e) {
        HonestPresent(Live(s.w), e);
        HonestAfterEnvironment(Live(s.w), act.c, |s.w.hist|, e);
      }
    }
  }

  lemma HonestPresent(c: Snapshot, e: nat)
    requires Honest(c, e)
    ensures Deployment in c.objs
  {
  }

  /** A Deployment apply keeps every recorded generation honest. */
  lemma HonestAfterApply(w: World, req: Manifest, expected: int, e: nat)
    requires WellShaped(Deployment, req) && Honest(Live(w), e)
    ensures Honest(Live(ApplyWorld(w, Deployment, req, expected)), e)
  {
    var o := ApplyObject(w, Deployment, req, expected);
    assert ObjectAt(Live(ApplyWorld(w, Deployment, req, expected)), Deployment) == Some(o);
  }

  /** The object it returns is one whose generation may be recorded. */
  lemma HonestResult(w: World, req: Manifest, expected: int)
    requires WellShaped(Deployment, req)
    requires expected >= 0 ==> Honest(Live(w), expected)
    ensures Honest(Live(ApplyWorld(w, Deployment, req, expected)), ApplyObject(w, Deployment, req, expected).gen)
  {
    var o := ApplyObject(w, Deployment, req, expected);
    assert ObjectAt(Live(ApplyWorld(w, Deployment, req, expected)), Deployment) == Some(o);
  }

  lemma HonestElsewhere(w: World, k: Key, req: Manifest, expected: int, e: nat)
    requires k != Deployment && Honest(Live(w), e)
    ensures Honest(Live(ApplyWorld(w, k, req, expected)), e)
  {
    assert ObjectAt(Live(ApplyWorld(w, k, req, expected)), Deployment) == ObjectAt(Live(w), Deployment);
  }

  lemma ApplyKeepsOperator(w: World, k: Key, req: Manifest, expected: int)
    ensures Live(ApplyWorld(w, k, req, expected)).operator == Live(w).operator
    ensures ApplyWorld(w, k, req, expected).operatorIx == w.operatorIx
    ensures var h := ApplyWorld(w, k, req, expected).hist;
            h == w.hist || (|h| == |w.hist| + 1 && h[..|w.hist|] == w.hist)
  {
  }

  /** Adding a state that records no more than the last one. */
  lemma AllHonestGrows(was: seq<Snapshot>, h: seq<Snapshot>, from: nat, c: Snapshot)
    requires |was| > 0 && AllHonest(was, from, c)
    requires h == was || (|h| == |was| + 1 && h[..|was|] == was)
    requires h[|h| - 1].operator.Some? && h[|h| - 1].operator.value.status.recorded.Some? ==>
               Honest(c, h[|h| - 1].operator.value.status.recorded.value)
    ensures AllHonest(h, from, c)
  {
    hide Honest;
    forall i | from <= i < |h| && h[i].operator.Some? && h[i].operator.value.status.recorded.Some?
      ensures Honest(c, h[i].operator.value.status.recorded.value)
    {
      if i < |was| {
        assert h[..|was|][i] == h[i];
      }
    }
  }

  lemma HonestApplyStep(cfg: Config, s: State, k: Key, fault: Fault, from: nat)
    requires WellFormed(cfg) && k in APPLY_ORDER && s.running && HonestInv(s, from)
    ensures HonestInv(StepApply(cfg, s, k, fault), from)
  {
    hide Honest, Required, ApplyWorld, ApplyObject, WellFormed, WellShaped, AllHonest;
    var req, expected := Required(cfg, k, s.l), ExpectedGeneration(s.l);
    var w := ApplyWorld(s.w, k, req, expected);
    forall e: nat | Honest(Live(s.w), e) ensures Honest(Live(w), e) {
      if k == Deployment {
        HonestAfterApply(s.w, req, expected, e);
      } else {
        HonestElsewhere(s.w, k, req, expected, e);
      }
    }
    if k == Deployment { HonestResult(s.w, req, expected); }
    HonestMoves(s.w, w, k, req, expected, from);
  }

  lemma HonestMoves(w: World, t: World, k: Key, req: Manifest, expected: int, from: nat)
    requires t == ApplyWorld(w, k, req, expected) && from < |w.hist|
    requires AllHonest(w.hist, from, Live(w)) && forall e: nat :: Honest(Live(w), e) ==> Honest(Live(t), e)
    ensures AllHonest(t.hist, from, Live(t)) && t.operatorIx == w.operatorIx
  {
    hide Honest;
    ApplyKeepsOperator(w, k, req, expected);
    hide ApplyWorld;
    assert Live(w) == w.hist[|w.hist| - 1];
    AllHonestGrows(w.hist, t.hist, from, Live(t));
  }

  lemma HonestStatusStep(s: State, c: Choice, base: Option<Operator>, result: Status, from: nat)
    requires s.running && HonestInv(s, from)
    requires base.Some? && result.recorded.Some? ==> Honest(Live(s.w), result.recorded.value)
    ensures HonestInv(StepStatus(s, c, base, result), from)
  {
    hide Honest;
    if base.Some? && Live(s.w).operator.Some? && result != base.value.status {
      var t := Live(s.w).(operator := Some(Live(s.w).operator.value.(status := result)));
      SameObjects(Live(s.w), t);
      AllHonestGrows(s.w.hist, Put(s.w, t).hist, from, Live(s.w));
    }
  }

  lemma SameObjects(a: Snapshot, b: Snapshot)
    requires a.objs == b.objs
    ensures forall e: nat :: Honest(a, e) <==> Honest(b, e)
  {
  }

  lemma BaseHonest(s: State, c: Choice, from: nat)
    requires HonestInv(s, from)
    ensures BaseStatus(s.w, c).recorded.Some? ==> Honest(Live(s.w), BaseStatus(s.w, c).recorded.value)
  {
    hide Honest;
    assert s.w.hist[BaseIx(s.w, c)].operator == BaseOperator(s.w, c);
  }

  predicate ReportsStatus(i: Instr) {
    i == ReportAvailable || i == CheckCertManager || i == ReportFinal
  }

  lemma HonestReport(cfg: Config, s: State, c: Choice, i: Instr, from: nat)
    requires WellFormed(cfg) && ReportsStatus(i) && s.running && HonestInv(s, from)
    ensures HonestInv(Perform(cfg, s, c, i), from)
  {
    hide Honest, AllHonest, StepStatus, WellFormed, AvailableCondition, SetCondition, IssuerServed, CachedDeployment;
    BaseHonest(s, c, from);
    HonestStatusStep(s, c, BaseOperator(s.w, c),
      WithCondition(BaseStatus(s.w, c), AvailableCondition(CachedDeployment(s.w, c.listerError)), c.now), from);
    HonestStatusStep(s, c, BaseOperator(s.w, c), WithCondition(BaseStatus(s.w, c), MISSING_DEPENDENCY, c.now), from);
    if s.l.dep.Some? {
      HonestStatusStep(s, c, BaseOperator(s.w, c), FinalStatus(BaseStatus(s.w, c), s.l.dep.value, c.now), from);
    }
    StatusFrame(s, c, BaseOperator(s.w, c), WithCondition(BaseStatus(s.w, c), MISSING_DEPENDENCY, c.now));
  }

  lemma HonestRead(cfg: Config, s: State, c: Choice, i: Instr, from: nat)
    requires WellFormed(cfg) && !i.Apply? && !ReportsStatus(i) && s.running && HonestInv(s, from)
    ensures HonestInv(Perform(cfg, s, c, i), from)
  {
    hide Honest, AllHonest, WellFormed;
    CachedHonest(s, from);
  }

  lemma HonestStep(cfg: Config, s: State, c: Choice, i: Instr, from: nat)
    requires WellFormed(cfg) && (i.Apply? ==> i.k in APPLY_ORDER) && s.running && HonestInv(s, from)
    ensures HonestInv(Perform(cfg, s, c, i), from)
  {
    hide HonestInv, StepApply, WellFormed;
    if i.Apply? { HonestApplyStep(cfg, s, i.k, c.fault, from); }
    else if ReportsStatus(i) { HonestReport(cfg, s, c, i, from); }
    else { HonestRead(cfg, s, c, i, from); }
  }

  lemma CachedHonest(s: State, from: nat)
    requires HonestInv(s, from)
    ensures CachedOperator(s.w).Some? && CachedOperator(s.w).value.status.recorded.Some? ==>
              Honest(Live(s.w), CachedOperator(s.w).value.status.recorded.value)
  {
    hide Honest;
  }

  /** The invariant: over every run that neither deletes the Deployment nor brings back an old
      record, no generation the operator may read is ahead of the live Deployment, nor hides
      a drift. */
  lemma {:induction false} HonestRun(cfg: Config, s: State, es: seq<Event>, from: nat)
    requires WellFormed(cfg) && HonestInv(s, from) && Kept(cfg, s, es, from)
    ensures HonestInv(Run(cfg, s, es), from)
    decreases |es|
  {
    hide WellFormed, HonestInv, Keeps, Perform;
    if es != [] {
      HonestRun(cfg, s, es[..|es| - 1], from);
      var t, e := Run(cfg, s, es[..|es| - 1]), es[|es| - 1];
      match e {
        case Begin => HonestBegin(cfg, t, from);
        case Environment(act) => HonestEnv(cfg, t, act, from);
        case Step(c) => if t.running && t.pc < END { HonestStep(cfg, t, c, InstrAt(t.pc), from); }
      }
    }
  }

  lemma HonestBegin(cfg: Config, t: State, from: nat)
    requires WellFormed(cfg) && HonestInv(t, from)
    ensures HonestInv(After(cfg, t, Begin), from)
  {
    hide Honest, WellFormed;
  }

  /** The generation-guarded skip is sound in every such run: when the Deployment apply decides
      not to write, the live spec is the required one - after any user edits, any failed syncs,
      any stale read of the operator resource. */
  lemma SkipSafe(cfg: Config, s: State, es: seq<Event>, from: nat)
    requires WellFormed(cfg) && HonestInv(s, from) && Kept(cfg, s, es, from)
    requires Run(cfg, s, es).running && Run(cfg, s, es).pc == Rotation.DEPLOYMENT_STEP
    ensures var t := Run(cfg, s, es);
            var req := Required(cfg, Deployment, t.l);
            Decide(Deployment, ObjectAt(Live(t.w), Deployment), req, ExpectedGeneration(t.l)).Skip? ==>
              Live(t.w).objs[Deployment].spec == req.spec
  {
    hide WellFormed, Kept;
    HonestRun(cfg, s, es, from);
    var t := Run(cfg, s, es);
    HonestSkip(t.w, Required(cfg, Deployment, t.l), ExpectedGeneration(t.l));
  }

  lemma HonestSkip(w: World, req: Manifest, expected: int)
    requires WellShaped(Deployment, req) && (expected >= 0 ==> Honest(Live(w), expected))
    ensures Decide(Deployment, ObjectAt(Live(w), Deployment), req, expected).Skip? ==>
              Deployment in Live(w).objs && Live(w).objs[Deployment].spec == req.spec
  {
    SkipIffAgrees(Deployment, ObjectAt(Live(w), Deployment), req, expected);
  }

  /** Every Deployment apply that was not refused, written or skipped, leaves the live
      Deployment in its required form, with the two secret versions just recorded in its
      pod template annotations - unless it found the Deployment drifted behind its record. */
  lemma StampIsLive(cfg: Config, t: State, c: Choice)
    requires WellFormed(cfg) && t.running && t.pc == Rotation.DEPLOYMENT_STEP && !c.fault.Refused?
    ensures var req := Required(cfg, Deployment, t.l);
            var u := After(cfg, t, Step(c));
            && Deployment in Live(u.w).objs && |u.stamps| == |t.stamps| + 1
            && (Agrees(Deployment, Live(u.w).objs[Deployment], req) <==>
                  !Drifted(ObjectAt(Live(t.w), Deployment), req, ExpectedGeneration(t.l)))
            && (Agrees(Deployment, Live(u.w).objs[Deployment], req) ==>
                  StampedWith(Live(u.w).objs[Deployment], u.stamps[|u.stamps| - 1]))
  {
    hide Perform, WellFormed, StepApply, Required;
    Rotation.DeploymentStep();
    StampedApply(cfg, t, c.fault);
    AppliesKey(cfg, t, c, Deployment);
  }

  lemma AppliesKey(cfg: Config, t: State, c: Choice, k: Key)
    requires WellFormed(cfg) && k in APPLY_ORDER
    ensures Perform(cfg, t, c, Apply(k)) == StepApply(cfg, t, k, c.fault)
  {
    hide WellFormed, StepApply;
  }

  predicate StampedWith(dep: Object, st: Stamp) {
    && dep.spec.Deploy?
    && Template.WEBHOOK_SECRET_KEY in dep.spec.template.annotations
    && dep.spec.template.annotations[Template.WEBHOOK_SECRET_KEY] == Decimal.Render(st.web)
    && Template.METRICS_SECRET_KEY in dep.spec.template.annotations
    && dep.spec.template.annotations[Template.METRICS_SECRET_KEY] == Decimal.Render(st.met)
  }

  lemma StampedApply(cfg: Config, t: State, fault: Fault)
    requires WellFormed(cfg) && !fault.Refused? && Deployment in APPLY_ORDER
    ensures var req := Required(cfg, Deployment, t.l);
            var u := StepApply(cfg, t, Deployment, fault);
            && Deployment in Live(u.w).objs && |u.stamps| == |t.stamps| + 1
            && (Agrees(Deployment, Live(u.w).objs[Deployment], req) <==>
                  !Drifted(ObjectAt(Live(t.w), Deployment), req, ExpectedGeneration(t.l)))
            && (Agrees(Deployment, Live(u.w).objs[Deployment], req) ==>
                  StampedWith(Live(u.w).objs[Deployment], u.stamps[|u.stamps| - 1]))
  {
    hide ApplyWorld, Applied, Agrees, Drifted, WellFormed, Required, ExpectedGeneration;
    var req, expected := Required(cfg, Deployment, t.l), ExpectedGeneration(t.l);
    ApplyMoves(t.w, Deployment, req, expected);
    ApplyExact(ObjectAt(Live(t.w), Deployment), req, expected, |t.w.hist|);
    var o := ApplyObject(t.w, Deployment, req, expected);
    if Agrees(Deployment, o, req) {
      AgreedSpec(o, req);
      RequiredStamps(cfg, t.l);
    }
  }

  lemma RequiredStamps(cfg: Config, l: Locals)
    requires WellFormed(cfg) && Deployment in APPLY_ORDER
    ensures StampedWith(Object(0, 0, map[], Required(cfg, Deployment, l).spec, 0),
              Stamp(l.webIx, Version(l.web), l.metIx, Version(l.met)))
  {
    hide Template.Build;
    Template.Stamps(cfg.manifests[Deployment].spec.template, TemplateInputs(cfg, l));
  }

  lemma AgreedSpec(o: Object, req: Manifest)
    requires Agrees(Deployment, o, req)
    ensures o.spec == req.spec
  {
  }

  /** An honest expectation does not let the apply find a drifted Deployment. */
  lemma HonestNotDrifted(w: World, req: Manifest, expected: int)
    requires WellShaped(Deployment, req) && (expected >= 0 ==> Honest(Live(w), expected))
    ensures !Drifted(ObjectAt(Live(w), Deployment), req, expected)
  {
    HonestSkip(w, req, expected);
    ApplyExact(ObjectAt(Live(w), Deployment), req, expected, |w.hist|);
  }
}
