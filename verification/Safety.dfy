/** What holds in every state of every run: the order of the calls and the secret gates,
    the history of resource versions, and the honesty of recorded generations. */
module Safety {
  import opened Wrappers
  import opened ClusterModel
  import opened Conditions
  import opened ApiHistory
  import opened Machine

  /** A run can be cut anywhere. */
  lemma {:induction false} RunSplit(cfg: Config, s: State, es: seq<Event>, n: nat)
    requires WellFormed(cfg) && n <= |es|
    ensures Run(cfg, s, es) == Run(cfg, Run(cfg, s, es[..n]), es[n..])
    decreases |es|
  {
    hide After, WellFormed;
    if n < |es| {
      RunSplit(cfg, s, es[..|es| - 1], n);
      assert es[..|es| - 1][..n] == es[..n];
      assert es[n..][..|es[n..]| - 1] == es[..|es| - 1][n..];
    } else {
      assert es[..n] == es;
    }
  }

  /** The apply calls among the first n steps. */
  function CallsUpTo(n: nat): seq<Key>
    requires n <= END
  {
    if n == 0 then []
    else if InstrAt(n - 1).Apply? then CallsUpTo(n - 1) + [InstrAt(n - 1).k]
    else CallsUpTo(n - 1)
  }

  /** In these states the given gate has been passed in the current (or last) sync. */
  predicate PastGate(s: State, gate: nat) {
    (s.running && s.pc > gate) || s.pc > gate + 1
  }

  const WEBHOOK_GATE := 10
  const METRICS_GATE := 11

  predicate SeenAt(w: World, ix: nat, k: Key, o: Option<Object>) {
    o.Some? && ix < |w.hist| && ObjectAt(w.hist[ix], k) == o && Ready(o.value)
  }

  predicate GateInv(s: State) {
    && s.pc <= END && (s.running ==> s.pc < END)
    && s.l.calls == CallsUpTo(s.pc)
    && s.l.startIx <= s.w.secretIx
    && (PastGate(s, WEBHOOK_GATE) ==>
          s.l.startIx <= s.l.webIx <= s.w.secretIx && SeenAt(s.w, s.l.webIx, WebhookSecret, s.l.web))
    && (PastGate(s, METRICS_GATE) ==>
          s.l.webIx <= s.l.metIx <= s.w.secretIx && SeenAt(s.w, s.l.metIx, MetricsSecret, s.l.met))
  }

  lemma GateEnv(cfg: Config, s: State, act: Act)
    requires WellFormed(cfg) && GateInv(s)
    ensures GateInv(After(cfg, s, Environment(act)))
  {
  }

  lemma GateStep(cfg: Config, s: State, c: Choice)
    requires WellFormed(cfg) && GateInv(s) && s.running
    ensures GateInv(OpStep(cfg, s, c))
  {
    Gates();
    FrameOf(cfg, s, c, InstrAt(s.pc));
  }

  lemma Gates()
    ensures forall i :: 0 <= i < END && InstrAt(i) == GateWebhook <==> i == WEBHOOK_GATE
    ensures forall i :: 0 <= i < END && InstrAt(i) == GateMetrics <==> i == METRICS_GATE
  {
  }

  /** Only a step's own calls change the world, and only by adding states to the history. */
  predicate StepFrame(s: State, t: State) {
    && s.w.hist <= t.w.hist && t.w.secretIx == s.w.secretIx && t.w.deployIx == s.w.deployIx
    && t.w.operatorIx == s.w.operatorIx
    && t.pc == s.pc + 1 && (t.running ==> t.pc < END)
    && t.l.startIx == s.l.startIx
  }

  /** The calls grow at Apply steps, the secrets are assigned at their gates, and nowhere else. */
  predicate LocalsFrame(s: State, t: State, i: Instr) {
    && t.l.calls == (if i.Apply? then s.l.calls + [i.k] else s.l.calls)
    && (i != GateWebhook ==> t.l.web == s.l.web && t.l.webIx == s.l.webIx)
    && (i != GateMetrics ==> t.l.met == s.l.met && t.l.metIx == s.l.metIx)
    && (i == GateWebhook && t.running ==> t.l.webIx == s.w.secretIx && SeenAt(s.w, t.l.webIx, WebhookSecret, t.l.web))
    && (i == GateMetrics && t.running ==> t.l.metIx == s.w.secretIx && SeenAt(s.w, t.l.metIx, MetricsSecret, t.l.met))
  }

  lemma StatusFrame(s: State, c: Choice, base: Option<Operator>, result: Status)
    ensures StepFrame(s, StepStatus(s, c, base, result))
    ensures StepStatus(s, c, base, result).l == s.l
  {
  }

  lemma ApplyFrame(cfg: Config, s: State, k: Key, fault: Fault)
    requires WellFormed(cfg) && k in APPLY_ORDER
    ensures StepFrame(s, StepApply(cfg, s, k, fault)) && LocalsFrame(s, StepApply(cfg, s, k, fault), Apply(k))
  {
    hide StepApply, StepFrame, LocalsFrame, WellFormed;
    ApplyWorldFrame(cfg, s, k, fault);
    ApplyLocalsFrame(cfg, s, k, fault);
  }

  lemma ApplyWorldFrame(cfg: Config, s: State, k: Key, fault: Fault)
    requires WellFormed(cfg) && k in APPLY_ORDER
    ensures StepFrame(s, StepApply(cfg, s, k, fault))
  {
    hide Required, ApplyObject, ApplyWorld, ExpectedGeneration, WellFormed;
    ApplyExtends(s.w, k, Required(cfg, k, s.l), ExpectedGeneration(s.l));
  }

  lemma ApplyLocalsFrame(cfg: Config, s: State, k: Key, fault: Fault)
    requires WellFormed(cfg) && k in APPLY_ORDER
    ensures LocalsFrame(s, StepApply(cfg, s, k, fault), Apply(k))
  {
    hide Required, ApplyObject, ApplyWorld, ExpectedGeneration, WellFormed, SeenAt;
  }

  lemma GateFrame(s: State, web: bool)
    ensures StepFrame(s, StepGate(s, web)) && LocalsFrame(s, StepGate(s, web), if web then GateWebhook else GateMetrics)
  {
  }

  lemma CrdFrame(cfg: Config, s: State, fault: Fault)
    requires WellFormed(cfg)
    ensures StepFrame(s, StepReadCrd(cfg, s, fault)) && LocalsFrame(s, StepReadCrd(cfg, s, fault), ReadCrd)
  {
  }

  lemma StatusStepFrame(cfg: Config, s: State, c: Choice, i: Instr)
    requires WellFormed(cfg) && (i == ReportAvailable || i == CheckCertManager || i == ReportFinal)
    ensures StepFrame(s, Perform(cfg, s, c, i)) && LocalsFrame(s, Perform(cfg, s, c, i), i)
  {
    hide StepStatus, StepApply, StepGate, StepReadCrd, WithCondition, FinalStatus, AvailableCondition, WellFormed,
         SeenAt;
    var base, st := BaseOperator(s.w, c), BaseStatus(s.w, c);
    StatusFrame(s, c, base, WithCondition(st, AvailableCondition(CachedDeployment(s.w, c.listerError)), c.now));
    StatusFrame(s, c, base, WithCondition(st, MISSING_DEPENDENCY, c.now));
    if s.l.dep.Some? {
      StatusFrame(s, c, base, FinalStatus(st, s.l.dep.value, c.now));
    }
  }

  lemma FrameOf(cfg: Config, s: State, c: Choice, i: Instr)
    requires WellFormed(cfg) && (i.Apply? ==> i.k in APPLY_ORDER)
    ensures StepFrame(s, Perform(cfg, s, c, i)) && LocalsFrame(s, Perform(cfg, s, c, i), i)
  {
    hide StepStatus, StepApply, StepGate, StepReadCrd, WellFormed, SeenAt;
    match i {
      case Observe =>
      case ReportAvailable => StatusStepFrame(cfg, s, c, i);
      case CheckCertManager => StatusStepFrame(cfg, s, c, i);
      case CheckVersion =>
      case FetchOperator =>
      case Apply(k) => ApplyFrame(cfg, s, k, c.fault);
      case GateWebhook => GateFrame(s, true);
      case GateMetrics => GateFrame(s, false);
      case ReadCrd => CrdFrame(cfg, s, c.fault);
      case ReportFinal => StatusStepFrame(cfg, s, c, i);
    }
  }

  /** The invariant is inductive: every step of anyone keeps it. */
  lemma GateInductive(cfg: Config, s: State, t: State)
    requires WellFormed(cfg) && GateInv(s) && Next(cfg, s, t)
    ensures GateInv(t)
  {
    hide WellFormed, GateInv;
    var e :| t == After(cfg, s, e);
    match e {
      case Begin => GateBegin(cfg, s);
      case Environment(act) => GateEnv(cfg, s, act);
      case Step(c) => if s.running { GateStep(cfg, s, c); }
    }
  }

  lemma GateBegin(cfg: Config, s: State)
    requires WellFormed(cfg) && GateInv(s)
    ensures GateInv(After(cfg, s, Begin))
  {
  }

  lemma {:induction false} GateRun(cfg: Config, s: State, es: seq<Event>)
    requires WellFormed(cfg) && Initial(s)
    ensures GateInv(Run(cfg, s, es))
    decreases |es|
  {
    if es != [] {
      GateRun(cfg, s, es[..|es| - 1]);
      GateInductive(cfg, Run(cfg, s, es[..|es| - 1]), Run(cfg, s, es));
    }
  }

  // ---- Order of the calls and the two gates

  /** How many apply calls come before each step. */
  const CALLS_BEFORE: seq<nat> := [0, 0, 0, 0, 0, 0, 1, 2, 3, 4, 5, 5, 5, 6, 7, 7, 8, 9, 10, 11, 12, 13, 13]

  lemma CallTable(n: nat)
    requires n < END
    ensures CALLS_BEFORE[n] <= CALLS_BEFORE[n + 1] <= |APPLY_ORDER|
    ensures InstrAt(n).Apply? ==>
              CALLS_BEFORE[n + 1] == CALLS_BEFORE[n] + 1 && InstrAt(n).k == APPLY_ORDER[CALLS_BEFORE[n]]
    ensures !InstrAt(n).Apply? ==> CALLS_BEFORE[n + 1] == CALLS_BEFORE[n]
    ensures CALLS_BEFORE[n + 1] > 5 ==> n > METRICS_GATE
  {
  }

  lemma {:induction false} CallsInOrder(n: nat)
    requires n <= END
    ensures CALLS_BEFORE[n] <= |APPLY_ORDER| && CallsUpTo(n) == APPLY_ORDER[..CALLS_BEFORE[n]]
    ensures |CallsUpTo(n)| > 5 ==> n > METRICS_GATE + 1
  {
    hide InstrAt, WellFormed;
    if n > 0 {
      CallsInOrder(n - 1);
      CallTable(n - 1);
      TakeOne(APPLY_ORDER, CALLS_BEFORE[n - 1]);
    }
  }

  lemma TakeOne(s: seq<Key>, m: nat)
    ensures m < |s| ==> s[..m + 1] == s[..m] + [s[m]]
  {
  }

  /** In every state of every run, the apply calls of the current or last sync are a prefix
      of the fixed order, and if any of those behind the gates was made then both secrets
      were seen in that sync, at or after its start, with a certificate and a key. */
  lemma GateAndPrefix(cfg: Config, s: State, es: seq<Event>)
    requires WellFormed(cfg) && Initial(s)
    ensures var t := Run(cfg, s, es);
            && t.l.calls <= APPLY_ORDER
            && ((exists k :: k in t.l.calls && k in APPLY_ORDER[5..]) ==>
                  && t.l.startIx <= t.l.webIx <= t.l.metIx
                  && SeenAt(t.w, t.l.webIx, WebhookSecret, t.l.web)
                  && SeenAt(t.w, t.l.metIx, MetricsSecret, t.l.met))
  {
    hide Run, WellFormed, Initial, InstrAt, SeenAt, CallsUpTo;
    GateRun(cfg, s, es);
    var t := Run(cfg, s, es);
    CallsInOrder(t.pc);
    if k :| k in t.l.calls && k in APPLY_ORDER[5..] {
      var i :| 0 <= i < |t.l.calls| && t.l.calls[i] == k;
      assert APPLY_ORDER[i] == k;
      var j :| 0 <= j < |APPLY_ORDER[5..]| && APPLY_ORDER[5..][j] == k;
      assert APPLY_ORDER[5 + j] == k;
      OrderDistinct(i, 5 + j);
    }
  }

  lemma OrderDistinct(i: nat, j: nat)
    requires i < |APPLY_ORDER| && j < |APPLY_ORDER| && APPLY_ORDER[i] == APPLY_ORDER[j]
    ensures i == j
  {
  }

  // ---- Resource versions along the history

  lemma ChainedEnv(cfg: Config, w: World, act: Act)
    requires Chained(w.hist)
    ensures Chained(EnvStep(w, act).hist)
  {
    if act.Become? && Permitted(w, act.c) {
      ChainedPut(w, act.c);
    }
  }

  lemma ChainedStatus(s: State, c: Choice, base: Option<Operator>, result: Status)
    requires Chained(s.w.hist)
    ensures Chained(StepStatus(s, c, base, result).w.hist)
  {
    if base.Some? && Live(s.w).operator.Some? {
      ChainedPut(s.w, Live(s.w).(operator := Some(Live(s.w).operator.value.(status := result))));
    }
  }

  lemma ChainedStep(cfg: Config, s: State, c: Choice, i: Instr)
    requires WellFormed(cfg) && (i.Apply? ==> i.k in APPLY_ORDER) && Chained(s.w.hist)
    ensures Chained(Perform(cfg, s, c, i).w.hist)
  {
    hide WithCondition, FinalStatus, AvailableCondition, WellFormed, Chained, Required, ApplyWorld, ApplyObject,
         PutStatus, StepStatus;
    ChainedStatus(s, c, BaseOperator(s.w, c),
      WithCondition(BaseStatus(s.w, c), AvailableCondition(CachedDeployment(s.w, c.listerError)), c.now));
    ChainedStatus(s, c, BaseOperator(s.w, c), WithCondition(BaseStatus(s.w, c), MISSING_DEPENDENCY, c.now));
    if s.l.dep.Some? {
      ChainedStatus(s, c, BaseOperator(s.w, c), FinalStatus(BaseStatus(s.w, c), s.l.dep.value, c.now));
    }
    if i.Apply? {
      ChainedApply(s.w, i.k, Required(cfg, i.k, s.l), ExpectedGeneration(s.l));
    }
  }

  lemma {:induction false} ChainedRun(cfg: Config, s: State, es: seq<Event>)
    requires WellFormed(cfg) && Initial(s)
    ensures Chained(Run(cfg, s, es).w.hist)
    decreases |es|
  {
    if es != [] {
      ChainedRun(cfg, s, es[..|es| - 1]);
      var t, e := Run(cfg, s, es[..|es| - 1]), es[|es| - 1];
      match e {
        case Begin =>
        case Environment(act) => ChainedEnv(cfg, t.w, act);
        case Step(c) => if t.running && t.pc < END { ChainedStep(cfg, t, c, InstrAt(t.pc)); }
      }
    }
  }
}
