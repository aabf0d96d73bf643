/** What a sync that nobody interrupts, and none of whose calls fail, reads and leaves alone. */
module QuietRuns {
  import opened Wrappers
  import opened ClusterModel
  import opened ApiHistory
  import opened Machine
  import opened Safety
  import opened Completion
  import Convergence
  import RecordedGeneration

  /** What a quiet sync that is still going has read and written. */
  predicate Tracked(t: State) {
    && (t.pc > Convergence.FETCH_STEP ==> t.l.operator == CachedOperator(t.w) && t.l.operator.Some?)
    && (t.pc > WEBHOOK_GATE ==> t.l.web == ObjectAt(t.w.hist[t.w.secretIx], WebhookSecret))
    && (t.pc > METRICS_GATE ==> t.l.met == ObjectAt(t.w.hist[t.w.secretIx], MetricsSecret))
    && (t.pc > Convergence.CONFIG_STEP ==> t.l.config.Some? && t.l.config == ObjectAt(Live(t.w), ConfigMap))
  }

  lemma ReadTracked(cfg: Config, s: State, i: Instr)
    requires WellFormed(cfg) && s.running && s.pc < END && i == InstrAt(s.pc) && !i.Apply? && s.err.None? && Tracked(s)
    requires Perform(cfg, s, QUIET, i).running && Live(s.w).operator.Some?
    ensures Tracked(Perform(cfg, s, QUIET, i))
  {
    hide WellFormed, Perform, InstrAt;
    var t := Perform(cfg, s, QUIET, i);
    FrameOf(cfg, s, QUIET, i);
    Footing(cfg, s, i);
    Convergence.LocalsOf(cfg, s, QUIET, i);
    Convergence.UntouchedStep(cfg, s, QUIET, i);
    Convergence.StepNumbers();
    Convergence.NumbersOf(s.pc);
    Gates();
  }

  lemma ApplyTracked(cfg: Config, s: State)
    requires WellFormed(cfg) && s.running && s.pc < END && InstrAt(s.pc).Apply? && s.err.None? && Tracked(s)
    requires OpStep(cfg, s, QUIET).running && Live(s.w).operator.Some?
    ensures Tracked(OpStep(cfg, s, QUIET))
  {
    hide WellFormed, Perform, InstrAt, StepApply, ApplyWorld, ApplyObject, Required;
    var k, t := InstrAt(s.pc).k, OpStep(cfg, s, QUIET);
    RecordedGeneration.AppliesKey(cfg, s, QUIET, k);
    Footing(cfg, s, Apply(k));
    Convergence.ApplyOutcome(cfg, s, k, Fine);
    ApplyMoves(s.w, k, Required(cfg, k, s.l), ExpectedGeneration(s.l));
    Convergence.StepNumbers();
    Convergence.NumbersOf(s.pc);
    Gates();
  }

  lemma {:induction false} TrackedRun(cfg: Config, s: State, n: nat)
    requires WellFormed(cfg) && n < END && Live(s.w).operator.Some? && Healthy(cfg, s.w)
    ensures var t := Run(cfg, BeginSync(s), Quiets(n));
            Going(t, n) && SameFooting(s.w, t.w, n <= Convergence.CRD_WRITE_STEP) && Tracked(t)
    decreases n
  {
    hide WellFormed, InstrAt, Healthy, PassedUpTo, Perform, SameFooting, Run;
    HealthyPasses(cfg, s.w);
    FewerPassed(cfg, s.w, n);
    QuietRun(cfg, s, n);
    if n == 0 {
      Nothing(cfg, s);
    } else {
      TrackedRun(cfg, s, n - 1);
      var t := Run(cfg, BeginSync(s), Quiets(n - 1));
      OneMoreQuiet(cfg, BeginSync(s), n);
      OperatorThere(s.w, t.w, n - 1 <= Convergence.CRD_WRITE_STEP);
      if InstrAt(n - 1).Apply? { ApplyTracked(cfg, t); } else { ReadTracked(cfg, t, InstrAt(n - 1)); }
    }
  }

  lemma Nothing(cfg: Config, s: State)
    requires WellFormed(cfg)
    ensures Run(cfg, BeginSync(s), Quiets(0)) == BeginSync(s)
  {
  }

  // ---- The Deployment and the ConfigMap along a quiet sync

  /** None of the first n steps applies k. */
  predicate Unapplied(n: nat, k: Key)
    requires n <= END
  {
    forall m :: 0 <= m < n ==> InstrAt(m) != Apply(k)
  }

  /** An object keeps still until its own apply. */
  lemma {:induction false} Still(cfg: Config, s: State, n: nat, k: Key)
    requires WellFormed(cfg) && n < END && Live(s.w).operator.Some? && Healthy(cfg, s.w) && Unapplied(n, k)
    ensures ObjectAt(Live(Run(cfg, BeginSync(s), Quiets(n)).w), k) == ObjectAt(Live(s.w), k)
    decreases n
  {
    hide WellFormed, InstrAt, Healthy, Perform, SameFooting, Run, Tracked, StepApply, Required, ApplyWorld, ApplyObject;
    if n == 0 {
      Nothing(cfg, s);
    } else {
      Still(cfg, s, n - 1, k);
      TrackedRun(cfg, s, n - 1);
      OneMoreQuiet(cfg, BeginSync(s), n);
      OtherUntouched(cfg, Run(cfg, BeginSync(s), Quiets(n - 1)), QUIET, k);
    }
  }

  lemma UnappliedBefore(n: nat)
    requires n < END && InstrAt(n).Apply?
    ensures Unapplied(n, InstrAt(n).k)
  {
    hide InstrAt;
    forall m | 0 <= m < n ensures InstrAt(m) != InstrAt(n) { OnceEach(m, n); }
  }

  /** No object is applied twice in one sync. */
  lemma OnceEach(m: nat, n: nat)
    requires m < n < END && InstrAt(n).Apply?
    ensures InstrAt(m) != InstrAt(n)
  {
    hide InstrAt;
    if InstrAt(m) == InstrAt(n) {
      CallsGrow(m + 1, n);
      CallsPrefix(m + 1);
      CallsPrefix(n + 1);
      OrderDistinct(|CallsUpTo(m)|, |CallsUpTo(n)|);
    }
  }

  lemma {:induction false} CallsGrow(m: nat, n: nat)
    requires m <= n <= END
    ensures |CallsUpTo(m)| <= |CallsUpTo(n)|
    decreases n
  {
    hide InstrAt;
    if m < n {
      CallsGrow(m, n - 1);
    }
  }

  lemma CallsPrefix(n: nat)
    requires 0 < n <= END && InstrAt(n - 1).Apply?
    ensures |CallsUpTo(n)| == |CallsUpTo(n - 1)| + 1 <= |APPLY_ORDER|
    ensures APPLY_ORDER[|CallsUpTo(n - 1)|] == InstrAt(n - 1).k
  {
    hide InstrAt;
    CallsInOrder(n);
    assert CallsUpTo(n)[|CallsUpTo(n - 1)|] == InstrAt(n - 1).k;
  }

  lemma OtherUntouched(cfg: Config, s: State, c: Choice, k: Key)
    requires WellFormed(cfg) && s.running && s.pc < END && InstrAt(s.pc) != Apply(k)
    ensures ObjectAt(Live(OpStep(cfg, s, c).w), k) == ObjectAt(Live(s.w), k)
  {
    hide WellFormed, InstrAt, Perform, StepApply, Required, ApplyWorld, ApplyObject;
    var i := InstrAt(s.pc);
    if i.Apply? {
      RecordedGeneration.AppliesKey(cfg, s, c, i.k);
      Convergence.ApplyOutcome(cfg, s, i.k, c.fault);
      ApplyMoves(s.w, i.k, Required(cfg, i.k, s.l), ExpectedGeneration(s.l));
    } else {
      Convergence.UntouchedStep(cfg, s, c, i);
    }
  }
}
