/** Two writers of the conversion webhook's CA bundle: cert-manager, which injects it, and
    the operator, which writes back the bundle it read from the live CRD. */
module CaBundle {
  import opened Wrappers
  import opened ClusterModel
  import opened Applying
  import opened ApiHistory
  import opened Machine
  import opened Safety
  import opened Plans
  import Completion
  import Convergence
  import RecordedGeneration

  /** The bundle of a live CRD that has a webhook client configuration. */
  function Bundle(c: Snapshot): Option<string> {
    if JobSetCrd in c.objs && c.objs[JobSetCrd].spec.Crd? && c.objs[JobSetCrd].spec.conversion.ClientConfig? then
      Some(c.objs[JobSetCrd].spec.conversion.bundle)
    else None
  }

  predicate AssetHasWebhook(cfg: Config) {
    && JobSetCrd in cfg.manifests
    && cfg.manifests[JobSetCrd].spec.Crd? && cfg.manifests[JobSetCrd].spec.conversion.ClientConfig?
  }

  /** manageCRD has read the live CRD and not yet written it. */
  predicate Between(s: State) {
    s.running && s.pc == Convergence.CRD_WRITE_STEP
  }

  lemma CrdSteps(pc: nat)
    requires pc < END
    ensures InstrAt(pc) == ReadCrd <==> pc == Convergence.CRD_READ_STEP
    ensures InstrAt(pc) == Apply(JobSetCrd) <==> pc == Convergence.CRD_WRITE_STEP
  {
  }

  /** The bundle a sync writes: the one it read, or the asset's if there was no CRD to read. */
  function ToWrite(cfg: Config, read: Option<string>): string
    requires AssetHasWebhook(cfg)
  {
    Deref(read, cfg.manifests[JobSetCrd].spec.conversion.bundle)
  }

  /** What the apply of the CRD leaves there. */
  lemma WrittenBundle(cfg: Config, s: State, c: Choice)
    requires WellFormed(cfg) && AssetHasWebhook(cfg) && Between(s) && !c.fault.Refused?
    ensures Bundle(Live(OpStep(cfg, s, c).w)) == Some(ToWrite(cfg, s.l.bundle))
  {
    hide WellFormed, InstrAt, StepApply, ApplyWorld, Required, RequiredSpec, Owned;
    CrdSteps(s.pc);
    Convergence.ApplyOutcome(cfg, s, JobSetCrd, c.fault);
    RecordedGeneration.AppliesKey(cfg, s, c, JobSetCrd);
    hide Perform;
    WrittenSpec(s.w, Required(cfg, JobSetCrd, s.l), ExpectedGeneration(s.l));
    RequiredBundle(cfg, s.l);
  }

  lemma WrittenSpec(w: World, req: Manifest, expected: int)
    ensures var t := ApplyWorld(w, JobSetCrd, req, expected);
            JobSetCrd in Live(t).objs && Live(t).objs[JobSetCrd].spec == req.spec
  {
    ApplyMoves(w, JobSetCrd, req, expected);
    AppliedAgrees(JobSetCrd, ObjectAt(Live(w), JobSetCrd), req, expected, |w.hist|);
    AgreedCrd(ApplyObject(w, JobSetCrd, req, expected), req);
  }

  lemma AgreedCrd(o: Object, req: Manifest)
    requires Agrees(JobSetCrd, o, req)
    ensures o.spec == req.spec
  {
  }

  lemma RequiredBundle(cfg: Config, l: Locals)
    requires WellFormed(cfg) && AssetHasWebhook(cfg)
    ensures var spec := Required(cfg, JobSetCrd, l).spec;
            spec.Crd? && spec.conversion.ClientConfig? && spec.conversion.bundle == ToWrite(cfg, l.bundle)
  {
  }

  /** manageCRD reads the bundle once and writes it once. Whatever anyone does in between -
      create the CRD, inject a bundle, take one out - the bundle after the write is the one
      that was read, or the asset's if there was no CRD yet. So a bundle that is live before
      the write survives it exactly when it is that one. */
  lemma InjectionSurvives(cfg: Config, s: State, read: Choice, acts: seq<Act>, write: Choice)
    requires WellFormed(cfg) && AssetHasWebhook(cfg) && s.running && s.err.None? && s.pc == Convergence.CRD_READ_STEP
    requires read.fault.Fine? && !write.fault.Refused? && (JobSetCrd !in Live(s.w).objs || Bundle(Live(s.w)).Some?)
    ensures var t := OpStep(cfg, s, read);
            var before := t.(w := EnvAll(t.w, acts));
            var after := OpStep(cfg, before, write);
            && Between(before)
            && Bundle(Live(after.w)) == Some(ToWrite(cfg, Bundle(Live(s.w))))
            && (Bundle(Live(before.w)).Some? ==>
                  (Bundle(Live(after.w)) == Bundle(Live(before.w)) <==>
                    Bundle(Live(before.w)).value == ToWrite(cfg, Bundle(Live(s.w)))))
  {
    hide WellFormed, InstrAt, EnvAll, ToWrite, Perform;
    CrdSteps(s.pc);
    BundleRead(cfg, s, read);
    var t := OpStep(cfg, s, read);
    var before := t.(w := EnvAll(t.w, acts));
    WrittenBundle(cfg, before, write);
  }

  lemma BundleRead(cfg: Config, s: State, c: Choice)
    requires WellFormed(cfg) && AssetHasWebhook(cfg) && s.running && s.pc == Convergence.CRD_READ_STEP && c.fault.Fine?
    requires JobSetCrd !in Live(s.w).objs || Bundle(Live(s.w)).Some?
    ensures var t := Perform(cfg, s, c, ReadCrd); Between(t) && t.l.bundle == Bundle(Live(s.w))
  {
    hide WellFormed;
  }

  /** The read panics exactly when there is a live CRD, the asset has a webhook client
      configuration and the live CRD has none. */
  lemma PanicExact(cfg: Config, s: State, c: Choice)
    requires WellFormed(cfg) && s.running && s.err.None? && s.pc == Convergence.CRD_READ_STEP && c.fault.Fine?
    ensures OpStep(cfg, s, c).err == Some(Panic) <==>
              AssetHasWebhook(cfg) && JobSetCrd in Live(s.w).objs && Bundle(Live(s.w)).None?
  {
    hide InstrAt;
    CrdSteps(s.pc);
    InstrAtRead(s.pc);
  }

  lemma InstrAtRead(pc: nat)
    requires pc < END && InstrAt(pc) == ReadCrd
    ensures pc + 1 < END
  {
  }

  /** A CRD without a client configuration stops every quiet sync there: in a cluster that is
      healthy otherwise, the sync gets as far as the read and panics. */
  lemma PanicReached(cfg: Config, s: State)
    requires WellFormed(cfg) && AssetHasWebhook(cfg) && Live(s.w).operator.Some?
    requires Completion.Observed(s.w) && IssuerServed(Live(s.w))
    requires Completion.ReadyAt(s.w, WebhookSecret) && Completion.ReadyAt(s.w, MetricsSecret)
    requires JobSetCrd in Live(s.w).objs && Bundle(Live(s.w)).None?
    ensures Run(cfg, BeginSync(s), Completion.Quiets(15)).err == Some(Panic)
  {
    hide WellFormed, InstrAt, Run, OpStep, Completion.Passing;
    forall j | 0 <= j < Convergence.CRD_READ_STEP ensures Completion.Passing(cfg, s.w, InstrAt(j)) {
      Completion.PassesBeforeRead(cfg, s.w, j);
    }
    Completion.QuietRun(cfg, s, Convergence.CRD_READ_STEP);
    Completion.OneMoreQuiet(cfg, BeginSync(s), 15);
    PanicExact(cfg, Run(cfg, BeginSync(s), Completion.Quiets(14)), QUIET);
  }

  /** There is such a cluster: its CRD was there before, with no conversion webhook. */
  lemma PanicHappens() returns (cfg: Config, s: State)
    ensures WellFormed(cfg) && AssetHasWebhook(cfg) && Initial(s)
    ensures Run(cfg, BeginSync(s), Completion.Quiets(15)).err == Some(Panic)
  {
    hide WellFormed, Run, Completion.Small;
    var crd := Object(0, 1, map[], Crd(NoClientConfig, ""), 0);
    cfg, s := Completion.Small(ClientConfig("", "")), Completion.Beginning(map[JobSetCrd := crd], None);
    Completion.SmallIsWellFormed(ClientConfig("", ""));
    Completion.SmallKeys(ClientConfig("", ""));
    Completion.BeginningIsInitial(map[JobSetCrd := crd], None);
    Completion.BeginningParts(map[JobSetCrd := crd], None);
    assert JobSetCrd in APPLY_ORDER by { assert APPLY_ORDER[7] == JobSetCrd; }
    PanicReached(cfg, s);
  }

  // ---- Over whole runs

  /** Nobody changes the bundle while manageCRD is between its read and its write. Anything else
      about the CRD may change there. */
  predicate Calm(cfg: Config, s: State, es: seq<Event>)
    requires WellFormed(cfg)
    decreases |es|
  {
    es != [] ==>
      var t, e := Run(cfg, s, es[..|es| - 1]), es[|es| - 1];
      && Calm(cfg, s, es[..|es| - 1])
      && (Between(t) && e.Environment? && e.act.Become? && Permitted(t.w, e.act.c) ==>
           Bundle(e.act.c) == Bundle(Live(t.w)))
  }

  /** Between read and write, a bundle that is there is the one that was read. */
  predicate ReadFresh(s: State) {
    Between(s) && Bundle(Live(s.w)).Some? ==> s.l.bundle == Bundle(Live(s.w))
  }

  lemma FreshStep(cfg: Config, s: State, c: Choice)
    requires WellFormed(cfg) && AssetHasWebhook(cfg) && s.running && s.pc < END
    ensures ReadFresh(OpStep(cfg, s, c))
  {
    hide WellFormed, InstrAt, Perform;
    CrdSteps(s.pc);
    FrameOf(cfg, s, c, InstrAt(s.pc));
    if s.pc == Convergence.CRD_READ_STEP {
      ReadStep(cfg, s, c);
    }
  }

  lemma ReadStep(cfg: Config, s: State, c: Choice)
    requires WellFormed(cfg) && AssetHasWebhook(cfg)
    ensures ReadFresh(Perform(cfg, s, c, ReadCrd))
  {
  }

  lemma {:induction false} FreshRun(cfg: Config, s: State, es: seq<Event>)
    requires WellFormed(cfg) && AssetHasWebhook(cfg) && Initial(s) && Calm(cfg, s, es)
    ensures ReadFresh(Run(cfg, s, es))
    decreases |es|
  {
    hide WellFormed, InstrAt, Perform, OpStep, Bundle, Permitted;
    if es != [] {
      FreshRun(cfg, s, es[..|es| - 1]);
      var t, e := Run(cfg, s, es[..|es| - 1]), es[|es| - 1];
      match e {
        case Begin =>
        case Environment(act) => FreshEnvironment(cfg, t, act);
        case Step(c) => if t.running && t.pc < END { FreshStep(cfg, t, c); }
      }
    }
  }

  lemma FreshEnvironment(cfg: Config, t: State, act: Act)
    requires WellFormed(cfg) && ReadFresh(t)
    requires Between(t) && act.Become? && Permitted(t.w, act.c) ==> Bundle(act.c) == Bundle(Live(t.w))
    ensures ReadFresh(After(cfg, t, Environment(act)))
  {
    hide WellFormed, Permitted;
  }

  /** In every run in which nobody changes the bundle between read and write, no step of the
      operator ever changes the bundle of a live CRD: a bundle cert-manager injected is never
      replaced by the asset's, and whatever the bundle's history is, it is the injector's
      alone. (A live CRD without a webhook client configuration has no bundle to keep; there
      the read panics, see PanicExact.) */
  lemma BundleNeverLost(cfg: Config, s: State, es: seq<Event>, c: Choice)
    requires WellFormed(cfg) && AssetHasWebhook(cfg) && Initial(s) && Calm(cfg, s, es)
    ensures var before, after := Live(Run(cfg, s, es).w), Live(Run(cfg, s, es + [Step(c)]).w);
            Bundle(before).Some? ==> Bundle(after) == Bundle(before)
  {
    hide WellFormed, InstrAt, Perform, OpStep, ReadFresh;
    FreshRun(cfg, s, es);
    var t := Run(cfg, s, es);
    assert (es + [Step(c)])[..|es|] == es;
    if t.running && t.pc < END && Bundle(Live(t.w)).Some? {
      KeepsBundle(cfg, t, c);
    }
  }

  lemma KeepsBundle(cfg: Config, t: State, c: Choice)
    requires WellFormed(cfg) && AssetHasWebhook(cfg) && ReadFresh(t) && t.running && t.pc < END
    requires Bundle(Live(t.w)).Some?
    ensures Bundle(Live(OpStep(cfg, t, c).w)) == Bundle(Live(t.w))
  {
    hide WellFormed, InstrAt, Perform, StepApply, Required, ApplyWorld, ApplyObject;
    CrdSteps(t.pc);
    if t.pc == Convergence.CRD_WRITE_STEP && !c.fault.Refused? {
      WrittenBundle(cfg, t, c);
    } else if InstrAt(t.pc).Apply? {
      var k := InstrAt(t.pc).k;
      Convergence.ApplyOutcome(cfg, t, k, c.fault);
      ApplyMoves(t.w, k, Required(cfg, k, t.l), ExpectedGeneration(t.l));
      OtherObject(Live(t.w), Live(OpStep(cfg, t, c).w));
      RecordedGeneration.AppliesKey(cfg, t, c, k);
    } else {
      Convergence.UntouchedStep(cfg, t, c, InstrAt(t.pc));
    }
  }

  lemma OtherObject(a: Snapshot, b: Snapshot)
    ensures ObjectAt(a, JobSetCrd) == ObjectAt(b, JobSetCrd) ==> Bundle(a) == Bundle(b)
  {
  }
}
