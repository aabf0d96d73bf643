/** A sync under a plan of the environment: what other actors do between any two calls, and
    how each call ends. Every such execution is a run of the state machine. */
module Plans {
  import opened Wrappers
  import opened ClusterModel
  import opened Conditions
  import opened ApiHistory
  import opened Machine
  import opened Safety

  /** What the environment does before a call, and how it lets the call end. */
  datatype Gap = Gap(acts: seq<Act>, choice: Choice)

  function Head(plan: seq<Gap>): Gap {
    if plan == [] then Gap([], QUIET) else plan[0]
  }

  function Tail(plan: seq<Gap>): seq<Gap> {
    if plan == [] then [] else plan[1..]
  }

  function EnvAll(w: World, acts: seq<Act>): World
    decreases |acts|
  {
    if acts == [] then w else EnvAll(EnvStep(w, acts[0]), acts[1..])
  }

  function Turned(cfg: Config, s: State, g: Gap): State
    requires WellFormed(cfg) && s.pc < END
  {
    OpStep(cfg, s.(w := EnvAll(s.w, g.acts)), g.choice)
  }

  lemma TurnedPc(cfg: Config, s: State, g: Gap)
    requires WellFormed(cfg) && s.pc < END
    ensures Turned(cfg, s, g).pc == s.pc + 1
  {
    hide WellFormed, Perform, InstrAt, EnvAll;
    FrameOf(cfg, s.(w := EnvAll(s.w, g.acts)), g.choice, InstrAt(s.pc));
  }

  /** The state a started sync ends in, under a plan of the environment. */
  function Exec(cfg: Config, s: State, plan: seq<Gap>): State
    requires WellFormed(cfg)
    decreases END - s.pc
  {
    if !s.running || s.pc >= END then s else
    TurnedPc(cfg, s, Head(plan));
    Exec(cfg, Turned(cfg, s, Head(plan)), Tail(plan))
  }

  function ActEvents(acts: seq<Act>): (es: seq<Event>)
    ensures |es| == |acts|
  {
    if acts == [] then [] else [Environment(acts[0])] + ActEvents(acts[1..])
  }

  function EventsOf(cfg: Config, s: State, plan: seq<Gap>): seq<Event>
    requires WellFormed(cfg)
    decreases END - s.pc
  {
    if !s.running || s.pc >= END then [] else
    TurnedPc(cfg, s, Head(plan));
    ActEvents(Head(plan).acts) + [Step(Head(plan).choice)] + EventsOf(cfg, Turned(cfg, s, Head(plan)), Tail(plan))
  }

  lemma {:induction false} ActsRun(cfg: Config, s: State, acts: seq<Act>)
    requires WellFormed(cfg)
    ensures Run(cfg, s, ActEvents(acts)) == s.(w := EnvAll(s.w, acts))
    decreases |acts|
  {
    hide WellFormed, EnvStep;
    if acts != [] {
      var es := ActEvents(acts);
      RunSplit(cfg, s, es, 1);
      assert es[..1][..0] == [] && es[1..] == ActEvents(acts[1..]);
      assert Run(cfg, s, es[..1]) == After(cfg, s, Environment(acts[0]));
      ActsRun(cfg, After(cfg, s, Environment(acts[0])), acts[1..]);
    }
  }

  lemma TurnRun(cfg: Config, s: State, g: Gap)
    requires WellFormed(cfg) && s.running && s.pc < END
    ensures Run(cfg, s, ActEvents(g.acts) + [Step(g.choice)]) == Turned(cfg, s, g)
  {
    hide WellFormed, OpStep, EnvAll, ActEvents;
    ActsRun(cfg, s, g.acts);
    StepLast(cfg, s, ActEvents(g.acts), g.choice);
  }

  lemma StepLast(cfg: Config, s: State, es: seq<Event>, c: Choice)
    requires WellFormed(cfg)
    ensures Run(cfg, s, es + [Step(c)]) == After(cfg, Run(cfg, s, es), Step(c))
  {
    hide WellFormed, After;
    assert (es + [Step(c)])[..|es|] == es;
  }

  /** Whatever the environment plans, a sync is a run of the state machine. */
  lemma {:induction false} ExecIsRun(cfg: Config, s: State, plan: seq<Gap>)
    requires WellFormed(cfg)
    ensures Exec(cfg, s, plan) == Run(cfg, s, EventsOf(cfg, s, plan))
    decreases END - s.pc
  {
    hide WellFormed, Turned, After;
    if s.running && s.pc < END {
      var g := Head(plan);
      var first, rest := ActEvents(g.acts) + [Step(g.choice)], EventsOf(cfg, Turned(cfg, s, g), Tail(plan));
      TurnedPc(cfg, s, g);
      ExecIsRun(cfg, Turned(cfg, s, g), Tail(plan));
      TurnRun(cfg, s, g);
      RunSplit(cfg, s, first + rest, |first|);
      assert (first + rest)[..|first|] == first && (first + rest)[|first|..] == rest;
    }
  }

  lemma ExecStep(cfg: Config, s: State, plan: seq<Gap>)
    requires WellFormed(cfg) && s.running && s.pc < END
    ensures Exec(cfg, s, plan) == Exec(cfg, Turned(cfg, s, Head(plan)), Tail(plan))
  {
  }

  function Start(w: World): State {
    BeginSync(State(w, false, 0, START, None, []))
  }

  /** A sync that observes a management state other than these two strings ends there, without an
      error, and the cluster is what the environment has made of it. */
  lemma UnmanagedExec(cfg: Config, w: World, plan: seq<Gap>)
    requires WellFormed(cfg)
    ensures var v := EnvAll(w, Head(plan).acts);
            var o, t := v.hist[v.operatorIx].operator, Exec(cfg, Start(w), plan);
            o.Some? && o.value.management != "" && o.value.management != "Managed" ==> t.w == v && t.err.None?
  {
    hide WellFormed, EnvAll;
    ObservesFirst();
    ExecStep(cfg, Start(w), plan);
  }

  lemma ObservesFirst()
    ensures InstrAt(0) == Observe
  {
  }

  // ---- One sync among others

  /** States that differ in the record of template writes only. */
  predicate SameButStamps(s: State, t: State) {
    s == t.(stamps := s.stamps)
  }

  lemma PerformBlind(cfg: Config, s: State, t: State, c: Choice, i: Instr)
    requires WellFormed(cfg) && (i.Apply? ==> i.k in APPLY_ORDER) && SameButStamps(s, t)
    ensures SameButStamps(Perform(cfg, s, c, i), Perform(cfg, t, c, i))
  {
    hide WellFormed, StepStatus, StepApply, WithCondition, FinalStatus, AvailableCondition;
    StatusBlind(s, t, c, BaseOperator(s.w, c),
      WithCondition(BaseStatus(s.w, c), AvailableCondition(CachedDeployment(s.w, c.listerError)), c.now));
    StatusBlind(s, t, c, BaseOperator(s.w, c), WithCondition(BaseStatus(s.w, c), MISSING_DEPENDENCY, c.now));
    if s.l.dep.Some? {
      StatusBlind(s, t, c, BaseOperator(s.w, c), FinalStatus(BaseStatus(s.w, c), s.l.dep.value, c.now));
    }
    if i.Apply? { ApplyBlind(cfg, s, t, i.k, c.fault); }
  }

  lemma StatusBlind(s: State, t: State, c: Choice, base: Option<Operator>, result: Status)
    requires SameButStamps(s, t)
    ensures SameButStamps(StepStatus(s, c, base, result), StepStatus(t, c, base, result))
    ensures StepStatus(s, c, base, result).err == StepStatus(t, c, base, result).err
  {
  }

  lemma ApplyBlind(cfg: Config, s: State, t: State, k: Key, fault: Fault)
    requires WellFormed(cfg) && k in APPLY_ORDER && SameButStamps(s, t)
    ensures SameButStamps(StepApply(cfg, s, k, fault), StepApply(cfg, t, k, fault))
  {
    hide WellFormed, Required, ApplyWorld, ApplyObject;
  }

  lemma {:induction false} ExecBlind(cfg: Config, s: State, t: State, plan: seq<Gap>)
    requires WellFormed(cfg) && SameButStamps(s, t)
    ensures SameButStamps(Exec(cfg, s, plan), Exec(cfg, t, plan))
    decreases END - s.pc
  {
    hide WellFormed, Perform, EnvAll, InstrAt;
    if s.running && s.pc < END {
      var g := Head(plan);
      TurnedPc(cfg, s, g);
      var w := EnvAll(s.w, g.acts);
      PerformBlind(cfg, s.(w := w), t.(w := w), g.choice, InstrAt(s.pc));
      ExecBlind(cfg, Turned(cfg, s, g), Turned(cfg, t, g), Tail(plan));
    }
  }

  /** A sync that starts after any run that left the worker idle ends as one more stretch of
      that run ends: in the same world, with the same error. So what holds in every run holds
      of every sync. */
  lemma SyncInRun(cfg: Config, s: State, before: seq<Event>, plan: seq<Gap>)
    requires WellFormed(cfg) && !Run(cfg, s, before).running
    ensures var t := Run(cfg, s, before);
            var u := Run(cfg, s, before + [Begin] + EventsOf(cfg, BeginSync(t), plan));
            SameButStamps(Exec(cfg, Start(t.w), plan), u)
  {
    hide WellFormed, After, Exec, EventsOf;
    var t := Run(cfg, s, before);
    var es := EventsOf(cfg, BeginSync(t), plan);
    ExecBlind(cfg, Start(t.w), BeginSync(t), plan);
    ExecIsRun(cfg, BeginSync(t), plan);
    RunSplit(cfg, s, before + [Begin] + es, |before + [Begin]|);
    assert (before + [Begin] + es)[..|before + [Begin]|] == before + [Begin];
    assert (before + [Begin] + es)[|before + [Begin]|..] == es;
    assert (before + [Begin])[..|before|] == before;
    Begun(cfg, t);
  }

  lemma Begun(cfg: Config, t: State)
    requires WellFormed(cfg) && !t.running
    ensures After(cfg, t, Begin) == BeginSync(t)
  {
  }
}
