/** While the operator resource that sync observes asks not to be managed, the operator
    writes nothing. */
module Management {
  import opened ApiHistory
  import opened Machine
  import opened Safety

  predicate ObservedUnmanaged(w: World) {
    && CachedOperator(w).Some?
    && CachedOperator(w).value.management != "" && CachedOperator(w).value.management != "Managed"
  }

  /** The world as the environment alone would have left it. */
  function EnvironmentOnly(w: World, es: seq<Event>): World
    decreases |es|
  {
    if es == [] then w else
    var before := EnvironmentOnly(w, es[..|es| - 1]);
    match es[|es| - 1]
    case Environment(act) => EnvStep(before, act)
    case _ => before
  }

  predicate UnmanagedThroughout(cfg: Config, s: State, es: seq<Event>)
    requires WellFormed(cfg)
  {
    forall n :: 0 <= n <= |es| ==> ObservedUnmanaged(Run(cfg, s, es[..n]).w)
  }

  lemma ObserveFirst()
    ensures InstrAt(0) == Observe
  {
  }

  lemma {:induction false} IdleWhileUnmanaged(cfg: Config, s: State, es: seq<Event>)
    requires WellFormed(cfg) && !s.running && UnmanagedThroughout(cfg, s, es)
    ensures var t := Run(cfg, s, es);
            t.w == EnvironmentOnly(s.w, es) && (t.running ==> t.pc == 0)
    decreases |es|
  {
    hide EnvStep, ObservedUnmanaged, InstrAt, WellFormed;
    if es != [] {
      var front := es[..|es| - 1];
      forall n | 0 <= n <= |front| ensures ObservedUnmanaged(Run(cfg, s, front[..n]).w) {
        assert front[..n] == es[..n];
      }
      IdleWhileUnmanaged(cfg, s, front);
      var t := Run(cfg, s, front);
      assert ObservedUnmanaged(t.w);
      if es[|es| - 1].Step? && t.running {
        ObserveFirst();
        ObserveOnly(cfg, t, es[|es| - 1].choice);
      }
    }
  }

  lemma ObserveOnly(cfg: Config, t: State, c: Choice)
    requires WellFormed(cfg) && ObservedUnmanaged(t.w)
    ensures Perform(cfg, t, c, Observe) == t.(running := false, pc := t.pc + 1)
  {
  }

  /** Once the observed management state is neither empty nor Managed, only the rest of the
      single sync in flight can still write: from the first moment the worker is idle, the
      whole cluster, operator status included, is exactly what the environment makes of it,
      however many syncs start, until the observed state changes back. */
  lemma UnmanagedFrame(cfg: Config, s: State, es: seq<Event>, n: nat)
    requires WellFormed(cfg) && UnmanagedThroughout(cfg, s, es)
    requires n <= |es| && !Run(cfg, s, es[..n]).running
    ensures Run(cfg, s, es).w == EnvironmentOnly(Run(cfg, s, es[..n]).w, es[n..])
  {
    hide EnvironmentOnly, ObservedUnmanaged;
    var t := Run(cfg, s, es[..n]);
    forall m | 0 <= m <= |es[n..]| ensures ObservedUnmanaged(Run(cfg, t, es[n..][..m]).w) {
      RunSplit(cfg, s, es[..n + m], n);
      assert es[..n + m][..n] == es[..n] && es[..n + m][n..] == es[n..][..m];
    }
    IdleWhileUnmanaged(cfg, t, es[n..]);
    RunSplit(cfg, s, es, n);
  }
}
