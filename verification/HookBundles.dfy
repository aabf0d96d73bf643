/** The CA bundles of the two webhook configurations: cert-manager injects them, and the operator
    never takes them away, however often it rewrites the configurations around them. */
module HookBundles {
  import opened Wrappers
  import opened ClusterModel
  import opened Applying
  import opened ApiHistory
  import opened Machine
  import Convergence
  import RecordedGeneration

  // ---- The loop that copies them

  function BundleMap(from: seq<Hook>): (m: map<string, Option<string>>)
    ensures forall name :: name in m <==> BundleOf(from, name).Some?
    ensures forall name :: name in m ==> BundleOf(from, name) == Some(m[name])
  {
    if from == [] then map[] else BundleMap(from[..|from| - 1])[from[|from| - 1].name := from[|from| - 1].bundle]
  }

  /** copyValidatingWebhookCABundle and its mutating twin: the bundles that are set, by name, into
      the required webhooks that have none, in their places. */
  method CopyCABundles(from: seq<Hook>, to: array<Hook>)
    modifies to
    ensures to[..] == KeepBundles(from, old(to[..]))
    ensures forall i :: 0 <= i < to.Length ==> to[i] == old(to[i]).(bundle := to[i].bundle)
    ensures forall i :: 0 <= i < to.Length && old(to[i]).bundle.Some? ==> to[i].bundle == old(to[i]).bundle
    ensures forall i, j :: 0 <= i < to.Length && old(to[i]).bundle.None? && LastNamed(from, j, old(to[i]).name) ==>
              to[i].bundle == from[j].bundle
  {
    var fromMap: map<string, Option<string>> := map[];
    for n := 0 to |from|
      invariant fromMap == BundleMap(from[..n])
    {
      assert from[..n + 1][..n] == from[..n];
      fromMap := fromMap[from[n].name := from[n].bundle];
    }
    assert from[..|from|] == from;
    for i := 0 to to.Length
      invariant forall j :: 0 <= j < i ==> to[j] == KeepBundle(from, old(to[j]))
      invariant forall j :: i <= j < to.Length ==> to[j] == old(to[j])
    {
      var wh := to[i];
      if wh.name in fromMap && wh.bundle.None? {
        to[i] := wh.(bundle := fromMap[wh.name]);
      }
    }
    forall i, j | 0 <= i < to.Length && old(to[i]).bundle.None? && LastNamed(from, j, old(to[i]).name)
      ensures to[i].bundle == from[j].bundle
    {
      BundleOfLast(from, j, old(to[i]).name);
    }
  }

  // ---- Over runs

  /** The live webhook of this name has this bundle, or has none. */
  ghost predicate BundleIs(c: Snapshot, k: Key, name: string, bundle: Option<string>) {
    && k in c.objs && c.objs[k].spec.Hooks?
    && exists j :: LastNamed(c.objs[k].spec.hooks, j, name) && c.objs[k].spec.hooks[j].bundle == bundle
  }

  /** A webhook of the asset whose bundle the asset leaves to others. */
  predicate LeftOpen(cfg: Config, k: Key, i: nat) {
    && (k == ValidatingWebhook || k == MutatingWebhook) && k in cfg.manifests && cfg.manifests[k].spec.Hooks?
    && i < |cfg.manifests[k].spec.hooks| && cfg.manifests[k].spec.hooks[i].bundle.None?
  }

  lemma RequiredHooks(cfg: Config, k: Key, l: Locals)
    requires WellFormed(cfg) && k in APPLY_ORDER && (k == ValidatingWebhook || k == MutatingWebhook)
    ensures k in cfg.manifests && Required(cfg, k, l).spec == cfg.manifests[k].spec
    ensures cfg.manifests[k].spec.Hooks? && DistinctNames(cfg.manifests[k].spec.hooks)
  {
  }

  lemma ApplyKeepsBundle(w: World, k: Key, req: Manifest, expected: int, i: nat, bundle: Option<string>)
    requires k == ValidatingWebhook || k == MutatingWebhook
    requires req.spec.Hooks? && DistinctNames(req.spec.hooks) && i < |req.spec.hooks| && req.spec.hooks[i].bundle.None?
    requires BundleIs(Live(w), k, req.spec.hooks[i].name, bundle)
    ensures BundleIs(Live(ApplyWorld(w, k, req, expected)), k, req.spec.hooks[i].name, bundle)
  {
    var live, name := ObjectAt(Live(w), k), req.spec.hooks[i].name;
    ApplyMoves(w, k, req, expected);
    BundlesKept(k, live, req, expected, |w.hist|, i);
    var o := ApplyObject(w, k, req, expected);
    forall j | i < j < |o.spec.hooks| ensures o.spec.hooks[j].name != name {
      BundlesKept(k, live, req, expected, |w.hist|, j);
    }
    assert LastNamed(o.spec.hooks, i, name);
  }

  /** No step of the operator changes such a bundle, in whatever state it is made. */
  lemma StepKeepsBundle(cfg: Config, s: State, c: Choice, k: Key, i: nat, bundle: Option<string>)
    requires WellFormed(cfg) && s.running && s.pc < END && LeftOpen(cfg, k, i)
    requires BundleIs(Live(s.w), k, cfg.manifests[k].spec.hooks[i].name, bundle)
    ensures BundleIs(Live(OpStep(cfg, s, c).w), k, cfg.manifests[k].spec.hooks[i].name, bundle)
  {
    hide WellFormed, InstrAt, Perform, StepApply, Required, ApplyWorld, ApplyObject, BundleIs;
    var instr := InstrAt(s.pc);
    if instr.Apply? {
      RecordedGeneration.AppliesKey(cfg, s, c, instr.k);
      Convergence.ApplyOutcome(cfg, s, instr.k, c.fault);
      if instr.k == k {
        RequiredHooks(cfg, k, s.l);
        ApplyKeepsBundle(s.w, k, Required(cfg, k, s.l), ExpectedGeneration(s.l), i, bundle);
      } else {
        ApplyMoves(s.w, instr.k, Required(cfg, instr.k, s.l), ExpectedGeneration(s.l));
        SameBundle(Live(s.w), Live(OpStep(cfg, s, c).w), k, cfg.manifests[k].spec.hooks[i].name, bundle);
      }
    } else {
      Convergence.UntouchedStep(cfg, s, c, instr);
      SameBundle(Live(s.w), Live(OpStep(cfg, s, c).w), k, cfg.manifests[k].spec.hooks[i].name, bundle);
    }
  }

  lemma SameBundle(a: Snapshot, b: Snapshot, k: Key, name: string, bundle: Option<string>)
    requires BundleIs(a, k, name, bundle) && ObjectAt(a, k) == ObjectAt(b, k)
    ensures BundleIs(b, k, name, bundle)
  {
  }

  /** Nobody but the operator changes it in this run. */
  ghost predicate OthersKeep(cfg: Config, s: State, es: seq<Event>, k: Key, name: string, bundle: Option<string>)
    requires WellFormed(cfg)
    decreases |es|
  {
    es != [] ==>
      var t, e := Run(cfg, s, es[..|es| - 1]), es[|es| - 1];
      && OthersKeep(cfg, s, es[..|es| - 1], k, name, bundle)
      && (e.Environment? && e.act.Become? && Permitted(t.w, e.act.c) ==> BundleIs(e.act.c, k, name, bundle))
  }

  /** So a bundle once injected stays, over any run, through every rewrite of its configuration,
      until somebody else changes it. */
  lemma {:induction false} InjectedStays(cfg: Config, s: State, es: seq<Event>, k: Key, i: nat, bundle: Option<string>)
    requires WellFormed(cfg) && LeftOpen(cfg, k, i)
    requires BundleIs(Live(s.w), k, cfg.manifests[k].spec.hooks[i].name, bundle)
    requires OthersKeep(cfg, s, es, k, cfg.manifests[k].spec.hooks[i].name, bundle)
    ensures BundleIs(Live(Run(cfg, s, es).w), k, cfg.manifests[k].spec.hooks[i].name, bundle)
    decreases |es|
  {
    hide WellFormed, BundleIs, OpStep, Permitted;
    if es != [] {
      var front, e := es[..|es| - 1], es[|es| - 1];
      InjectedStays(cfg, s, front, k, i, bundle);
      var t := Run(cfg, s, front);
      if e.Step? && t.running && t.pc < END {
        StepKeepsBundle(cfg, t, e.choice, k, i, bundle);
      }
    }
  }
}
