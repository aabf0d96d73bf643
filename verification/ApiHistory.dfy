/** The API server as the list of all its states so far, and the informer caches as
    positions in that list that only move forward. The revision of a state is its index. */
module ApiHistory {
  import opened Wrappers
  import opened ClusterModel
  import opened Applying

  datatype Store = Store(hist: seq<Snapshot>, secretIx: nat, deployIx: nat, operatorIx: nat)

  const EMPTY := Snapshot(map[], None, None, 1, 34)

  type World = s: Store | 0 < |s.hist| && s.secretIx < |s.hist| && s.deployIx < |s.hist| && s.operatorIx < |s.hist|
    witness Store([EMPTY], 0, 0, 0)

  function Live(w: World): Snapshot {
    w.hist[|w.hist| - 1]
  }

  function ObjectAt(c: Snapshot, k: Key): Option<Object> {
    if k in c.objs then Some(c.objs[k]) else None
  }

  function Put(w: World, c: Snapshot): World {
    w.(hist := w.hist + [c])
  }

  /** One apply call: the object returned, and the world after it. */
  function ApplyObject(w: World, k: Key, req: Manifest, expected: int): Object {
    Applied(k, ObjectAt(Live(w), k), req, expected, |w.hist|)
  }

  function ApplyWorld(w: World, k: Key, req: Manifest, expected: int): (r: World)
    ensures ObjectAt(Live(r), k) == Some(ApplyObject(w, k, req, expected))
    ensures forall j :: j != k ==> ObjectAt(Live(r), j) == ObjectAt(Live(w), j)
  {
    var o := ApplyObject(w, k, req, expected);
    if ObjectAt(Live(w), k) == Some(o) then w else Put(w, Live(w).(objs := Live(w).objs[k := o]))
  }

  function MoveCaches(w: World, secret: nat, deploy: nat, operator: nat): World {
    var last := |w.hist| - 1;
    w.(secretIx := Clip(w.secretIx, secret, last),
      deployIx := Clip(w.deployIx, deploy, last), operatorIx := Clip(w.operatorIx, operator, last))
  }

  /** All three caches have caught up. */
  function CaughtUp(w: World): World {
    MoveCaches(w, |w.hist|, |w.hist|, |w.hist|)
  }

  /** How anything but the operator may change the cluster at revision n: every object it
      writes gets that revision; generations follow the API server's rule; the spec-hash
      annotation of the Deployment is kept or dropped, never made up. */
  predicate EnvironmentStep(a: Snapshot, b: Snapshot, n: nat) {
    && (forall k :: k in b.objs ==> (k in a.objs && b.objs[k] == a.objs[k]) || Rewritten(ObjectAt(a, k), b.objs[k], n))
    && (Deployment in b.objs && SPEC_HASH in b.objs[Deployment].meta ==>
          Deployment in a.objs && SPEC_HASH in a.objs[Deployment].meta
          && b.objs[Deployment].meta[SPEC_HASH] == a.objs[Deployment].meta[SPEC_HASH])
  }

  predicate Rewritten(a: Option<Object>, b: Object, n: nat) {
    && b.rv == n
    && b.gen == if a.None? then 1 else if a.value.spec == b.spec then a.value.gen else a.value.gen + 1
  }

  /** The generation recorded in the operator status is written by the operator alone; other
      writers of the status can only carry over a value that was there at some time. */
  predicate RecordedBefore(hist: seq<Snapshot>, b: Snapshot) {
    b.operator.Some? && b.operator.value.status.recorded.Some? ==>
      exists i :: 0 <= i < |hist| && Records(hist[i], b.operator.value.status.recorded.value)
  }

  predicate Records(c: Snapshot, generation: nat) {
    c.operator.Some? && c.operator.value.status.recorded == Some(generation)
  }

  predicate Permitted(w: World, b: Snapshot) {
    EnvironmentStep(Live(w), b, |w.hist|) && RecordedBefore(w.hist, b)
  }

  /** The revisions of a history: an object is either carried over or new. */
  predicate Chained(hist: seq<Snapshot>) {
    && (|hist| > 0 ==> forall k :: k in hist[0].objs ==> hist[0].objs[k].rv == 0)
    && forall i :: 0 < i < |hist| ==> Carried(hist[i - 1], hist[i], i)
  }

  predicate Carried(a: Snapshot, b: Snapshot, n: nat) {
    forall k :: k in b.objs ==> (k in a.objs && b.objs[k] == a.objs[k]) || b.objs[k].rv == n
  }

  lemma {:induction false} VersionBound(hist: seq<Snapshot>, i: nat, k: Key)
    requires Chained(hist) && i < |hist| && k in hist[i].objs
    ensures hist[i].objs[k].rv <= i
  {
    if i > 0 {
      assert Carried(hist[i - 1], hist[i], i);
      if hist[i].objs[k].rv != i {
        VersionBound(hist, i - 1, k);
      }
    }
  }

  /** Later states hold the same object or one with a higher resource version, even if the
      object was deleted and created again in between. */
  lemma {:induction false} VersionsForward(hist: seq<Snapshot>, i: nat, j: nat, k: Key)
    requires Chained(hist) && i <= j < |hist| && k in hist[i].objs && k in hist[j].objs
    ensures hist[i].objs[k].rv <= hist[j].objs[k].rv
    ensures hist[i].objs[k].rv == hist[j].objs[k].rv ==> hist[i].objs[k] == hist[j].objs[k]
    decreases j
  {
    if i < j {
      assert Carried(hist[j - 1], hist[j], j);
      if k in hist[j - 1].objs && hist[j].objs[k] == hist[j - 1].objs[k] {
        VersionsForward(hist, i, j - 1, k);
      } else {
        VersionBound(hist, i, k);
      }
    }
  }

  lemma ChainedPut(w: World, c: Snapshot)
    requires Chained(w.hist) && Carried(Live(w), c, |w.hist|)
    ensures Chained(Put(w, c).hist)
  {
    var h := Put(w, c).hist;
    forall i | 0 < i < |h| ensures Carried(h[i - 1], h[i], i) {
      if i < |w.hist| {
        assert Carried(w.hist[i - 1], w.hist[i], i);
      }
    }
  }

  lemma ChainedApply(w: World, k: Key, req: Manifest, expected: int)
    requires Chained(w.hist)
    ensures Chained(ApplyWorld(w, k, req, expected).hist)
  {
    var o := ApplyObject(w, k, req, expected);
    if ObjectAt(Live(w), k) != Some(o) {
      ChainedPut(w, Live(w).(objs := Live(w).objs[k := o]));
    }
  }

  lemma ApplyExtends(w: World, k: Key, req: Manifest, expected: int)
    ensures var t := ApplyWorld(w, k, req, expected);
            w.hist <= t.hist && t.secretIx == w.secretIx && t.deployIx == w.deployIx && t.operatorIx == w.operatorIx
  {
  }

  /** An apply touches one object and nothing else. */
  lemma ApplyMoves(w: World, k: Key, req: Manifest, expected: int)
    ensures var t := ApplyWorld(w, k, req, expected);
            && ObjectAt(Live(t), k) == Some(ApplyObject(w, k, req, expected))
            && (forall j :: j != k ==> ObjectAt(Live(t), j) == ObjectAt(Live(w), j))
            && Live(t).certManagerKinds == Live(w).certManagerKinds && Live(t).major == Live(w).major
            && Live(t).minor == Live(w).minor
            && Live(t).operator == Live(w).operator
  {
  }
}
