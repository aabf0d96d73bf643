/** What library-go's apply functions and the API server do with one object, and when a
    live object already agrees with its required form. */
module Applying {
  import opened Wrappers
  import opened ClusterModel

  datatype Decision = Skip | Write(meta: Meta, spec: Spec)

  /** The last bundle recorded for a webhook name. */
  function BundleOf(from: seq<Hook>, name: string): Option<Option<string>> {
    if from == [] then None
    else if from[|from| - 1].name == name then Some(from[|from| - 1].bundle)
    else BundleOf(from[..|from| - 1], name)
  }

  function KeepBundle(from: seq<Hook>, h: Hook): Hook {
    if h.bundle.None? && BundleOf(from, h.name).Some? then h.(bundle := BundleOf(from, h.name).value) else h
  }

  /** copyValidatingWebhookCABundle and its mutating twin. */
  function KeepBundles(from: seq<Hook>, to: seq<Hook>): seq<Hook> {
    seq(|to|, i requires 0 <= i < |to| => KeepBundle(from, to[i]))
  }

  predicate SameService(live: Spec, req: Spec) {
    && live.ServiceSpec? && req.ServiceSpec?
    && live.selector == req.selector
    && (live.kind == req.kind || (req.kind == "" && live.kind == "ClusterIP"))
  }

  /** The decision of the apply function used for each kind of object. The expected
      generation matters for the Deployment only. */
  function Decide(k: Key, live: Option<Object>, req: Manifest, expected: int): Decision {
    if live.None? then Write(req.meta, req.spec) else
    var o := live.value;
    var merged := o.meta + req.meta;
    match k
    case Deployment =>
      if merged == o.meta && o.gen == expected then Skip else Write(merged, req.spec)
    case WebhookService =>
      if merged == o.meta && SameService(o.spec, req.spec) then Skip else Write(merged, req.spec)
    case ValidatingWebhook => DecideHooks(o, req, merged)
    case MutatingWebhook => DecideHooks(o, req, merged)
    case _ =>
      if merged == o.meta && o.spec == req.spec then Skip else Write(merged, req.spec)
  }

  function DecideHooks(o: Object, req: Manifest, merged: Meta): Decision {
    var spec := if o.spec.Hooks? && req.spec.Hooks? then Hooks(KeepBundles(o.spec.hooks, req.spec.hooks)) else req.spec;
    if merged == o.meta && o.spec == spec then Skip else Write(merged, spec)
  }

  /** What the API server stores for a write at revision n: an update that changes nothing
      leaves the object alone, and only a change of spec moves the generation. */
  function Stored(live: Option<Object>, meta: Meta, spec: Spec, n: nat): Object {
    if live.None? then Object(n, 1, meta, spec, 0)
    else if live.value.meta == meta && live.value.spec == spec then live.value
    else Object(n, live.value.gen + (if live.value.spec == spec then 0 else 1), meta, spec, live.value.available)
  }

  function Applied(k: Key, live: Option<Object>, req: Manifest, expected: int, n: nat): Object {
    match Decide(k, live, req, expected)
    case Skip => live.value
    case Write(meta, spec) => Stored(live, meta, spec, n)
  }

  /** The required metadata is all there; more may be. */
  predicate MetaAgrees(live: Meta, req: Meta) {
    forall m :: m in req ==> m in live && live[m] == req[m]
  }

  predicate HookAgrees(live: Hook, req: Hook) {
    live.name == req.name && live.rest == req.rest && (req.bundle.Some? ==> live.bundle == req.bundle)
  }

  predicate HooksAgree(live: seq<Hook>, req: seq<Hook>) {
    |live| == |req| && forall i :: 0 <= i < |req| ==> HookAgrees(live[i], req[i])
  }

  /** A live object is in its required form. A Service may differ from it beyond selector
      and type, a webhook configuration in bundles the operator leaves to cert-manager. */
  predicate Agrees(k: Key, live: Object, req: Manifest) {
    && MetaAgrees(live.meta, req.meta)
    && match k
       case WebhookService => SameService(live.spec, req.spec)
       case ValidatingWebhook => live.spec.Hooks? && req.spec.Hooks? && HooksAgree(live.spec.hooks, req.spec.hooks)
       case MutatingWebhook => live.spec.Hooks? && req.spec.Hooks? && HooksAgree(live.spec.hooks, req.spec.hooks)
       case _ => live.spec == req.spec
  }

  predicate DistinctNames(hs: seq<Hook>) {
    forall i, j :: 0 <= i < j < |hs| ==> hs[i].name != hs[j].name
  }

  /** The asset of each key has the shape its apply function expects. */
  predicate WellShaped(k: Key, req: Manifest) {
    match k
    case WebhookService => req.spec.ServiceSpec?
    case ValidatingWebhook => req.spec.Hooks? && DistinctNames(req.spec.hooks)
    case MutatingWebhook => req.spec.Hooks? && DistinctNames(req.spec.hooks)
    case Deployment => req.spec.Deploy? && SPEC_HASH in req.meta && req.meta[SPEC_HASH] == Digest(req.spec)
    case _ => true
  }

  lemma MergedIdle(live: Meta, req: Meta)
    ensures live + req == live <==> MetaAgrees(live, req)
  {
    if MetaAgrees(live, req) {
      assert (live + req).Keys == live.Keys;
    } else {
      var m :| m in req && (m !in live || live[m] != req[m]);
      assert m in live + req && (live + req)[m] == req[m];
    }
  }

  lemma {:induction false} BundleAt(from: seq<Hook>, i: nat)
    requires i < |from| && DistinctNames(from)
    ensures BundleOf(from, from[i].name) == Some(from[i].bundle)
  {
    if i < |from| - 1 {
      assert from[..|from| - 1][i] == from[i];
      BundleAt(from[..|from| - 1], i);
    }
  }

  lemma {:induction false} NoBundle(from: seq<Hook>, name: string)
    ensures BundleOf(from, name).None? <==> forall i :: 0 <= i < |from| ==> from[i].name != name
  {
    if from != [] {
      NoBundle(from[..|from| - 1], name);
      assert forall i :: 0 <= i < |from| - 1 ==> from[..|from| - 1][i] == from[i];
    }
  }

  /** Copying bundles into the required webhooks gives back the live ones exactly when the
      two agree. */
  lemma KeepBundlesIdle(live: seq<Hook>, req: seq<Hook>)
    requires DistinctNames(req)
    ensures KeepBundles(live, req) == live <==> HooksAgree(live, req)
  {
    if HooksAgree(live, req) {
      assert DistinctNames(live);
      forall i | 0 <= i < |req| ensures KeepBundle(live, req[i]) == live[i] {
        assert HookAgrees(live[i], req[i]);
        BundleAt(live, i);
      }
    }
  }

  lemma KeptBundlesAgree(live: seq<Hook>, req: seq<Hook>)
    ensures HooksAgree(KeepBundles(live, req), req)
  {
  }

  /** No write is decided exactly when the live object agrees. The Deployment is the
      exception: its spec is not compared, its generation is. */
  lemma SkipIffAgrees(k: Key, live: Option<Object>, req: Manifest, expected: int)
    requires WellShaped(k, req)
    ensures k != Deployment ==> (Decide(k, live, req, expected).Skip? <==> live.Some? && Agrees(k, live.value, req))
    ensures k == Deployment ==>
              (Decide(k, live, req, expected).Skip? <==>
                live.Some? && MetaAgrees(live.value.meta, req.meta) && live.value.gen == expected)
  {
    if live.Some? {
      MergedIdle(live.value.meta, req.meta);
      if (k == ValidatingWebhook || k == MutatingWebhook) && live.value.spec.Hooks? {
        KeepBundlesIdle(live.value.spec.hooks, req.spec.hooks);
      }
    }
  }

  /** An apply leaves the object in its required form, whatever was there before - for the
      Deployment unless it skipped over a spec that had drifted. */
  lemma AppliedAgrees(k: Key, live: Option<Object>, req: Manifest, expected: int, n: nat)
    requires WellShaped(k, req)
    ensures Agrees(k, Applied(k, live, req, expected, n), req) ||
              (k == Deployment && Decide(k, live, req, expected).Skip?)
  {
    SkipIffAgrees(k, live, req, expected);
    if live.Some? {
      MergedAgrees(live.value.meta, req.meta);
      if (k == ValidatingWebhook || k == MutatingWebhook) && live.value.spec.Hooks? {
        KeptBundlesAgree(live.value.spec.hooks, req.spec.hooks);
      }
    }
  }

  /** The metadata is in its required form after every apply, the skipped ones included. */
  lemma AppliedMeta(k: Key, live: Option<Object>, req: Manifest, expected: int, n: nat)
    ensures MetaAgrees(Applied(k, live, req, expected, n).meta, req.meta)
  {
    if live.Some? {
      MergedAgrees(live.value.meta, req.meta);
      MergedIdle(live.value.meta, req.meta);
    }
  }

  lemma MergedAgrees(live: Meta, req: Meta)
    ensures MetaAgrees(live + req, req)
  {
  }

  /** The Deployment apply finds the required metadata, the expected generation - and another
      spec than the required one. */
  predicate Drifted(live: Option<Object>, req: Manifest, expected: int) {
    live.Some? && MetaAgrees(live.value.meta, req.meta) && live.value.gen == expected && live.value.spec != req.spec
  }

  /** That is the one thing that keeps an apply from bringing the Deployment into form. */
  lemma ApplyExact(live: Option<Object>, req: Manifest, expected: int, n: nat)
    requires WellShaped(Deployment, req)
    ensures Agrees(Deployment, Applied(Deployment, live, req, expected, n), req) <==> !Drifted(live, req, expected)
    ensures Drifted(live, req, expected) <==>
              Decide(Deployment, live, req, expected).Skip? && live.Some? && live.value.spec != req.spec
  {
    SkipIffAgrees(Deployment, live, req, expected);
    AppliedAgrees(Deployment, live, req, expected, n);
  }

  // ---- What an apply writes

  /** No webhook configuration: the spec of an apply that writes is the required one. */
  predicate WholeSpec(k: Key) {
    k != ValidatingWebhook && k != MutatingWebhook
  }

  /** Whatever the object, an apply leaves it just as it is or writes the required spec whole and
      the required metadata over the live one, where every other entry stays. */
  lemma AppliedWhole(k: Key, live: Option<Object>, req: Manifest, expected: int, n: nat)
    ensures var o := Applied(k, live, req, expected, n);
            live != Some(o) ==>
              && o.rv == n
              && (forall m :: m in req.meta ==> m in o.meta && o.meta[m] == req.meta[m])
              && (forall m :: m !in req.meta ==> (m in o.meta <==> live.Some? && m in live.value.meta))
              && (live.Some? ==> forall m :: m !in req.meta && m in live.value.meta ==> o.meta[m] == live.value.meta[m])
              && (WholeSpec(k) || live.None? ==> o.spec == req.spec)
  {
  }

  /** A Service stays as it is when it has the required metadata, selector and type, whatever its
      other fields; an open type is ClusterIP. */
  lemma ServiceStays(live: Object, selector: string, kind: string, ports: string, meta: Meta, expected: int, n: nat)
    requires forall m :: m in meta ==> m in live.meta && live.meta[m] == meta[m]
    requires live.spec.ServiceSpec?
    ensures Applied(WebhookService, Some(live), Manifest(meta, ServiceSpec(selector, kind, ports)), expected, n) == live
            <==>
            live.spec.selector == selector && (live.spec.kind == kind || (kind == "" && live.spec.kind == "ClusterIP"))
  {
    MergedIdle(live.meta, meta);
  }

  /** The live hook of a name: the last one, if there are more. */
  predicate LastNamed(hooks: seq<Hook>, i: int, name: string) {
    0 <= i < |hooks| && hooks[i].name == name && forall j :: i < j < |hooks| ==> hooks[j].name != name
  }

  lemma {:induction false} BundleOfLast(hooks: seq<Hook>, i: int, name: string)
    requires LastNamed(hooks, i, name)
    ensures BundleOf(hooks, name) == Some(hooks[i].bundle)
    decreases |hooks|
  {
    var front := hooks[..|hooks| - 1];
    if i < |hooks| - 1 {
      assert hooks[|hooks| - 1].name != name;
      assert LastNamed(front, i, name);
      BundleOfLast(front, i, name);
    }
  }

  /** The bundles of a webhook configuration after an apply, whatever else of it is new - other
      metadata, other hooks, another order. Hook by hook, in the asset's order: a bundle the
      asset sets wins; one it leaves open is that of the live hook of the same name; and where
      there is no such hook there is none. */
  lemma BundlesKept(k: Key, live: Option<Object>, req: Manifest, expected: int, n: nat, i: nat)
    requires k == ValidatingWebhook || k == MutatingWebhook
    requires req.spec.Hooks? && DistinctNames(req.spec.hooks) && i < |req.spec.hooks|
    requires live.Some? ==> live.value.spec.Hooks?
    ensures var o, h := Applied(k, live, req, expected, n), req.spec.hooks[i];
            && o.spec.Hooks? && |o.spec.hooks| == |req.spec.hooks|
            && o.spec.hooks[i].name == h.name && o.spec.hooks[i].rest == h.rest
            && (h.bundle.Some? ==> o.spec.hooks[i].bundle == h.bundle)
            && (h.bundle.None? && live.Some? ==>
                  forall j :: LastNamed(live.value.spec.hooks, j, h.name) ==>
                    o.spec.hooks[i].bundle == live.value.spec.hooks[j].bundle)
            && (h.bundle.None? && (live.None? || forall j :: 0 <= j < |live.value.spec.hooks| ==>
                                                   live.value.spec.hooks[j].name != h.name) ==>
                  o.spec.hooks[i].bundle.None?)
  {
    if live.Some? {
      var hooks, h := live.value.spec.hooks, req.spec.hooks[i];
      NoBundle(hooks, h.name);
      forall j | LastNamed(hooks, j, h.name) ensures BundleOf(hooks, h.name) == Some(hooks[j].bundle) {
        BundleOfLast(hooks, j, h.name);
      }
      assert Applied(k, live, req, expected, n).spec.hooks == KeepBundles(hooks, req.spec.hooks);
    }
  }
}
