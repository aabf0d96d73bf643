/** ApplyDeployment does not compare specs: it trusts the spec hash in the metadata and the
    generation recorded in the operator status. This module says when that is enough. */
module GenerationGuard {
  import opened Wrappers
  import opened ClusterModel
  import opened Applying

  /** A user replaces the spec; the API server moves the generation if it changed. */
  function Edit(dep: Object, spec: Spec): Object {
    dep.(spec := spec, gen := if spec == dep.spec then dep.gen else dep.gen + 1)
  }

  function Edits(dep: Object, specs: seq<Spec>): Object
    decreases |specs|
  {
    if specs == [] then dep else Edits(Edit(dep, specs[0]), specs[1..])
  }

  lemma {:induction false} EditsForward(dep: Object, specs: seq<Spec>)
    decreases |specs|
    ensures Edits(dep, specs).gen >= dep.gen && Edits(dep, specs).meta == dep.meta
    ensures Edits(dep, specs).gen == dep.gen ==> Edits(dep, specs).spec == dep.spec
  {
    if specs != [] {
      EditsForward(Edit(dep, specs[0]), specs[1..]);
    }
  }

  /** n edits, each of which changes the spec. */
  function Drift(n: nat, spec: Spec): seq<Spec>
    requires spec.Deploy?
  {
    if n == 0 then [] else
    var next := spec.(rest := spec.rest + "x");
    [next] + Drift(n - 1, next)
  }

  lemma {:induction false} DriftReaches(dep: Object, n: nat)
    requires dep.spec.Deploy?
    decreases n
    ensures var live := Edits(dep, Drift(n, dep.spec));
            && live.gen == dep.gen + n && live.spec.Deploy?
            && |live.spec.rest| == |dep.spec.rest| + n && live.spec.replicas == dep.spec.replicas
  {
    if n > 0 {
      var next := dep.spec.(rest := dep.spec.rest + "x");
      assert |next.rest| == |dep.spec.rest| + 1;
      DriftReaches(Edit(dep, next), n - 1);
      assert Drift(n, dep.spec)[1..] == Drift(n - 1, next);
    }
  }

  /** The skip of ApplyDeployment leaves a Deployment that is in its required form. */
  predicate SkipSound(live: Object, req: Manifest, expected: int) {
    Decide(Deployment, Some(live), req, expected).Skip? ==> live.spec == req.spec
  }

  /** After the operator's last write of a Deployment, the skip is sound for every later
      requirement whatever users do to the spec, if and only if the recorded generation is
      not ahead of the generation that write produced. */
  lemma GuardExact(dep: Object, recorded: nat)
    requires dep.spec.Deploy? && SPEC_HASH in dep.meta && dep.meta[SPEC_HASH] == Digest(dep.spec)
    ensures (forall specs: seq<Spec>, req: Manifest ::
              WellShaped(Deployment, req) ==> SkipSound(Edits(dep, specs), req, recorded))
       <==> recorded <= dep.gen
  {
    if recorded <= dep.gen {
      forall specs: seq<Spec>, req: Manifest | WellShaped(Deployment, req)
        ensures SkipSound(Edits(dep, specs), req, recorded)
      {
        EditsForward(dep, specs);
        MergedIdle(Edits(dep, specs).meta, req.meta);
      }
    } else {
      var n := recorded - dep.gen;
      var live, req := Edits(dep, Drift(n, dep.spec)), Manifest(dep.meta, dep.spec);
      DriftReaches(dep, n);
      EditsForward(dep, Drift(n, dep.spec));
      MergedIdle(live.meta, req.meta);
      assert WellShaped(Deployment, req) && !SkipSound(live, req, recorded);
    }
  }

  /** The skip is sound for every later edit of the Deployment and every later requirement. */
  ghost predicate SoundForever(dep: Object, recorded: nat) {
    forall specs: seq<Spec>, req: Manifest ::
      WellShaped(Deployment, req) ==> SkipSound(Edits(dep, specs), req, recorded)
  }

  /** The metadata carries the hash of some Deployment spec. */
  predicate Hashed(dep: Object) {
    SPEC_HASH in dep.meta && dep.meta[SPEC_HASH].Digest? && dep.meta[SPEC_HASH].of.Deploy?
  }

  /** Edits to any generation beyond the present one, ending in another spec than a given one. */
  lemma EditsAround(dep: Object, n: nat, avoid: Spec) returns (specs: seq<Spec>)
    requires dep.spec.Deploy? && n > 0
    ensures Edits(dep, specs).gen == dep.gen + n && Edits(dep, specs).spec != avoid
  {
    specs := Drift(n, dep.spec);
    DriftReaches(dep, n);
    if Edits(dep, specs).spec == avoid {
      var other := dep.spec.(replicas := Some(if dep.spec.replicas == Some(0) then 1 else 0));
      specs := [other] + Drift(n - 1, other);
      DriftReaches(Edit(dep, other), n - 1);
      assert specs[1..] == Drift(n - 1, other);
    }
  }

  /** The same for any Deployment, drifted or not: the skip is sound from here on if and only if
      no spec hash can mislead it, or the recorded generation is not ahead of the Deployment's
      and, if it is the Deployment's, the hash is that of the spec there. */
  lemma GuardExactAnywhere(dep: Object, recorded: nat)
    requires dep.spec.Deploy?
    ensures SoundForever(dep, recorded) <==>
              || !Hashed(dep)
              || recorded < dep.gen
              || (recorded == dep.gen && dep.meta[SPEC_HASH] == Digest(dep.spec))
  {
    if !Hashed(dep) || recorded < dep.gen || (recorded == dep.gen && dep.meta[SPEC_HASH] == Digest(dep.spec)) {
      forall specs: seq<Spec>, req: Manifest | WellShaped(Deployment, req)
        ensures SkipSound(Edits(dep, specs), req, recorded)
      {
        EditsForward(dep, specs);
        MergedIdle(Edits(dep, specs).meta, req.meta);
      }
    } else {
      var req := Manifest(dep.meta, dep.meta[SPEC_HASH].of);
      var specs: seq<Spec> := [];
      if recorded > dep.gen { specs := EditsAround(dep, recorded - dep.gen, req.spec); }
      EditsForward(dep, specs);
      MergedIdle(Edits(dep, specs).meta, req.meta);
      assert WellShaped(Deployment, req) && !SkipSound(Edits(dep, specs), req, recorded);
    }
  }

  /** A Deployment that was deleted and created again by the operator starts over at
      generation 1, so a generation recorded before the deletion can be ahead of it. */
  lemma RecreatedExact(req: Manifest, expected: int, n: nat, recorded: nat)
    requires WellShaped(Deployment, req)
    ensures (forall specs: seq<Spec>, later: Manifest :: WellShaped(Deployment, later) ==>
              SkipSound(Edits(Applied(Deployment, None, req, expected, n), specs), later, recorded))
       <==> recorded <= 1
  {
    GuardExact(Applied(Deployment, None, req, expected, n), recorded);
  }
}
