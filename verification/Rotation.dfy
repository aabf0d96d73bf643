/** Rotated secrets reach the operand and are never rolled back: the secret versions written
    into the pod template only move forward, over every run. */
module Rotation {
  import opened ClusterModel
  import opened Conditions
  import opened ApiHistory
  import opened Machine
  import opened Safety

  const DEPLOYMENT_STEP := 20

  lemma DeploymentStep()
    ensures forall i :: 0 <= i < END && InstrAt(i) == Apply(Deployment) <==> i == DEPLOYMENT_STEP
  {
  }

  predicate HeldAt(w: World, ix: nat, k: Key, version: nat) {
    ix < |w.hist| && k in w.hist[ix].objs && w.hist[ix].objs[k].rv == version
  }

  predicate StampInv(s: State) {
    && (forall st :: st in s.stamps ==>
          && st.webIx <= st.metIx <= s.w.secretIx
          && HeldAt(s.w, st.webIx, WebhookSecret, st.web) && HeldAt(s.w, st.metIx, MetricsSecret, st.met))
    && (forall i, j :: 0 <= i < j < |s.stamps| ==>
         s.stamps[i].webIx <= s.stamps[j].webIx && s.stamps[i].metIx <= s.stamps[j].metIx)
    && (s.pc <= DEPLOYMENT_STEP ==> forall st :: st in s.stamps ==> st.metIx <= s.l.startIx)
    && (s.pc == END && !s.running && s.err.None? ==>
          |s.stamps| > 0 && s.stamps[|s.stamps| - 1] == Stamp(s.l.webIx, Version(s.l.web), s.l.metIx, Version(s.l.met)))
    && (s.running && s.pc > DEPLOYMENT_STEP ==>
          |s.stamps| > 0 && s.stamps[|s.stamps| - 1] == Stamp(s.l.webIx, Version(s.l.web), s.l.metIx, Version(s.l.met)))
  }

  lemma StampEnv(cfg: Config, s: State, act: Act)
    requires WellFormed(cfg) && StampInv(s)
    ensures StampInv(After(cfg, s, Environment(act)))
  {
  }

  lemma StampsKept(cfg: Config, s: State, c: Choice, i: Instr)
    requires WellFormed(cfg) && (i.Apply? ==> i.k in APPLY_ORDER)
    ensures var t := Perform(cfg, s, c, i);
            && t.stamps == (if i == Apply(Deployment) && !c.fault.Refused?
                            then s.stamps + [Stamp(s.l.webIx, Version(s.l.web), s.l.metIx, Version(s.l.met))]
                            else s.stamps)
            && (t.running ==> t.err == s.err)
            && (i == Apply(Deployment) && t.running ==> !c.fault.Refused?)
            && (!t.running && t.err.None? && s.err.None? ==> i == Observe || s.pc + 1 >= END)
  {
    hide WithCondition, FinalStatus, AvailableCondition, WellFormed, Required, ApplyWorld, ApplyObject, PutStatus,
         StatusFails;
  }

  lemma StampStep(cfg: Config, s: State, c: Choice)
    requires WellFormed(cfg) && GateInv(s) && StampInv(s) && s.running && s.err.None?
    ensures StampInv(OpStep(cfg, s, c))
  {
    hide Perform, InstrAt, SeenAt, StampInv;
    DeploymentStep();
    Gates();
    Ends();
    var t := OpStep(cfg, s, c);
    FrameOf(cfg, s, c, InstrAt(s.pc));
    StampsKept(cfg, s, c, InstrAt(s.pc));
    if s.pc == DEPLOYMENT_STEP {
      SeenVersions(s.w, s.l);
      NewStamp(s, t);
    } else {
      SameStamps(s, t);
    }
  }

  lemma SameStamps(s: State, t: State)
    requires StampInv(s) && s.running && StepFrame(s, t) && s.pc != DEPLOYMENT_STEP && s.pc < END
    requires t.stamps == s.stamps
    requires s.pc > METRICS_GATE ==>
               t.l.web == s.l.web && t.l.webIx == s.l.webIx && t.l.met == s.l.met && t.l.metIx == s.l.metIx
    requires t.pc == END && !t.running && t.err.None? ==> s.pc + 1 == END
    ensures StampInv(t)
  {
  }

  lemma NewStamp(s: State, t: State)
    requires StampInv(s) && s.running && StepFrame(s, t) && s.pc == DEPLOYMENT_STEP
    requires s.l.startIx <= s.l.webIx <= s.l.metIx <= s.w.secretIx
    requires HeldAt(s.w, s.l.webIx, WebhookSecret, Version(s.l.web))
    requires HeldAt(s.w, s.l.metIx, MetricsSecret, Version(s.l.met))
    requires || t.stamps == s.stamps
             || t.stamps == s.stamps + [Stamp(s.l.webIx, Version(s.l.web), s.l.metIx, Version(s.l.met))]
    requires t.running ==> t.stamps != s.stamps
    requires t.l.web == s.l.web && t.l.webIx == s.l.webIx && t.l.met == s.l.met && t.l.metIx == s.l.metIx
    ensures StampInv(t)
  {
    if t.stamps != s.stamps {
      var st := Stamp(s.l.webIx, Version(s.l.web), s.l.metIx, Version(s.l.met));
      forall i, j | 0 <= i < j < |t.stamps|
        ensures t.stamps[i].webIx <= t.stamps[j].webIx && t.stamps[i].metIx <= t.stamps[j].metIx
      {
        assert t.stamps[i] in s.stamps;
      }
    }
  }

  lemma Ends()
    ensures InstrAt(0) == Observe && forall i :: 0 < i < END ==> InstrAt(i) != Observe
    ensures InstrAt(END - 1) == ReportFinal
  {
  }

  lemma SeenVersions(w: World, l: Locals)
    requires SeenAt(w, l.webIx, WebhookSecret, l.web) && SeenAt(w, l.metIx, MetricsSecret, l.met)
    ensures HeldAt(w, l.webIx, WebhookSecret, Version(l.web)) && HeldAt(w, l.metIx, MetricsSecret, Version(l.met))
  {
  }

  predicate RunningClean(s: State) {
    s.running ==> s.err.None?
  }

  lemma {:induction false} StampRun(cfg: Config, s: State, es: seq<Event>)
    requires WellFormed(cfg) && Initial(s)
    ensures StampInv(Run(cfg, s, es)) && GateInv(Run(cfg, s, es)) && RunningClean(Run(cfg, s, es))
    decreases |es|
  {
    GateRun(cfg, s, es);
    if es != [] {
      StampRun(cfg, s, es[..|es| - 1]);
      var t, e := Run(cfg, s, es[..|es| - 1]), es[|es| - 1];
      match e {
        case Begin =>
        case Environment(act) => StampEnv(cfg, t, act);
        case Step(c) =>
          if t.running {
            StampStep(cfg, t, c);
            StampsKept(cfg, t, c, InstrAt(t.pc));
          }
      }
    }
  }

  /** Over any run, the secret versions of successive template writes never decrease. */
  lemma RotationForward(cfg: Config, s: State, es: seq<Event>, i: nat, j: nat)
    requires WellFormed(cfg) && Initial(s)
    requires i <= j < |Run(cfg, s, es).stamps|
    ensures var st := Run(cfg, s, es).stamps;
            st[i].web <= st[j].web && st[i].met <= st[j].met
  {
    hide WellFormed, Initial, StampInv, GateInv, RunningClean, Chained;
    StampRun(cfg, s, es);
    ChainedRun(cfg, s, es);
    StampsForward(Run(cfg, s, es), i, j);
  }

  lemma StampsForward(t: State, i: nat, j: nat)
    requires StampInv(t) && Chained(t.w.hist) && i <= j < |t.stamps|
    ensures t.stamps[i].web <= t.stamps[j].web && t.stamps[i].met <= t.stamps[j].met
  {
    var a, b := t.stamps[i], t.stamps[j];
    assert a in t.stamps && b in t.stamps;
    VersionsForward(t.w.hist, a.webIx, b.webIx, WebhookSecret);
    VersionsForward(t.w.hist, a.metIx, b.metIx, MetricsSecret);
  }

  /** A sync that completes has stamped the secrets its cache held at the gates, and no
      version older than any its cache had shown by the time the sync began. */
  lemma RotationReaches(cfg: Config, s: State, es: seq<Event>, ix: nat)
    requires WellFormed(cfg) && Initial(s)
    requires var t := Run(cfg, s, es); !t.running && t.pc == END && t.err.None? && ix <= t.l.startIx
    ensures var t := Run(cfg, s, es);
            && |t.stamps| > 0
            && var last := t.stamps[|t.stamps| - 1];
               && HeldAt(t.w, last.webIx, WebhookSecret, last.web) && HeldAt(t.w, last.metIx, MetricsSecret, last.met)
               && t.l.startIx <= last.webIx && t.l.startIx <= last.metIx
               && (WebhookSecret in t.w.hist[ix].objs ==> t.w.hist[ix].objs[WebhookSecret].rv <= last.web)
               && (MetricsSecret in t.w.hist[ix].objs ==> t.w.hist[ix].objs[MetricsSecret].rv <= last.met)
  {
    hide WellFormed, Initial, Chained;
    StampRun(cfg, s, es);
    ChainedRun(cfg, s, es);
    var t := Run(cfg, s, es);
    var last := t.stamps[|t.stamps| - 1];
    assert last in t.stamps;
    if WebhookSecret in t.w.hist[ix].objs { VersionsForward(t.w.hist, ix, last.webIx, WebhookSecret); }
    if MetricsSecret in t.w.hist[ix].objs { VersionsForward(t.w.hist, ix, last.metIx, MetricsSecret); }
  }
}
