/** The API server as one client of the operator resource sees it: the list of the
    resource's states, to which others may add between any two calls of the client. */
module OperatorStore {
  import opened Wrappers

  /** What happens before a call: states others write, how far the client's cache has moved,
      which state a read at some version may be served from; and how the call ends. */
  datatype Gap<R> = Gap(writes: seq<Option<R>>, cache: nat, serve: nat, fault: Fault, now: nat)

  datatype Answer<+T> = Ok(value: T) | NotFound | Conflict | Failed

  function Last<R>(h: seq<Option<R>>): Option<R>
    requires |h| > 0
  {
    h[|h| - 1]
  }

  /** The resource version of a state is the position of the last change up to it. */
  function VersionAt<R(==)>(h: seq<Option<R>>, i: nat): (v: nat)
    requires i < |h|
    ensures v <= i && h[v] == h[i]
  {
    if i == 0 then 0 else if h[i] == h[i - 1] then VersionAt(h, i - 1) else i
  }

  /** Equal versions mean that nothing happened in between: not even a change that was
      undone, or a deletion followed by the same resource again. */
  lemma {:induction false} SameVersion<R>(h: seq<Option<R>>, i: nat, j: nat)
    requires i <= j < |h|
    ensures VersionAt(h, i) <= VersionAt(h, j)
    ensures VersionAt(h, i) == VersionAt(h, j) <==> forall k :: i <= k <= j ==> h[k] == h[i]
    decreases j
  {
    if i < j {
      SameVersion(h, i, j - 1);
    }
  }

  lemma {:induction false} VersionPrefix<R>(h: seq<Option<R>>, t: seq<Option<R>>, i: nat)
    requires i < |h| && h <= t
    ensures VersionAt(t, i) == VersionAt(h, i)
  {
    if i > 0 {
      VersionPrefix(h, t, i - 1);
    }
  }

  function Head<R>(plan: seq<Gap<R>>): Gap<R> {
    if plan == [] then Gap([], 0, 0, Fine, 0) else plan[0]
  }

  function Tail<R>(plan: seq<Gap<R>>): seq<Gap<R>> {
    if plan == [] then [] else plan[1..]
  }

  /** The server and the client's cache, and what is going to happen, as a value. */
  datatype Site<R> = Site(hist: seq<Option<R>>, cacheIx: nat, plan: seq<Gap<R>>)

  predicate Sited<R>(s: Site<R>) {
    s.cacheIx < |s.hist|
  }

  /** Others write, and the cache moves forward. */
  function Turned<R>(s: Site<R>): (t: Site<R>)
    requires Sited(s)
    ensures Sited(t) && t.hist == s.hist + Head(s.plan).writes && s.cacheIx <= t.cacheIx
  {
    var h := s.hist + Head(s.plan).writes;
    Site(h, Clip(s.cacheIx, Head(s.plan).cache, |h| - 1), Tail(s.plan))
  }

  class ApiServer<R(==)> {
    var hist: seq<Option<R>>
    var cacheIx: nat
    var plan: seq<Gap<R>>

    predicate Valid()
      reads this
    {
      cacheIx < |hist|
    }

    constructor (hist: seq<Option<R>>, cacheIx: nat, plan: seq<Gap<R>>)
      requires cacheIx < |hist|
      ensures Valid() && this.hist == hist && this.cacheIx == cacheIx && this.plan == plan
    {
      this.hist, this.cacheIx, this.plan := hist, cacheIx, plan;
    }

    function View(): Site<R>
      reads this
    {
      Site(hist, cacheIx, plan)
    }

    method Turn() returns (g: Gap<R>)
      requires Valid()
      modifies this
      ensures Valid() && g == Head(old(plan)) && plan == Tail(old(plan)) && View() == Turned(old(View()))
      ensures hist == old(hist) + g.writes && old(cacheIx) <= cacheIx
    {
      g := Head(plan);
      plan := Tail(plan);
      hist := hist + g.writes;
      cacheIx := Clip(cacheIx, g.cache, |hist| - 1);
    }

    /** The object at a position, with its resource version. */
    function At(ix: nat): Answer<(R, nat)>
      requires ix < |hist|
      reads this
    {
      if hist[ix].Some? then Ok((hist[ix].value, VersionAt(hist, ix))) else NotFound
    }

    /** The client's own read of its cache. */
    method Cached() returns (r: Answer<(R, nat)>, ghost ix: nat)
      requires Valid()
      modifies this
      ensures Valid() && plan == Tail(old(plan)) && hist == old(hist) + Head(old(plan)).writes
      ensures View() == Turned(old(View()))
      ensures old(cacheIx) <= ix == cacheIx && r == At(ix)
    {
      var _ := Turn();
      ix := cacheIx;
      r := At(cacheIx);
    }

    /** A Get: of the latest state, or of one at least as new as a given version. */
    method Get(version: Option<nat>) returns (r: Answer<(R, nat)>, ghost ix: nat)
      requires Valid() && (version.Some? ==> version.value < |hist|)
      modifies this
      ensures Valid() && plan == Tail(old(plan)) && hist == old(hist) + Head(old(plan)).writes
      ensures old(cacheIx) <= cacheIx && View() == Turned(old(View()))
      ensures ix < |hist|
      ensures if version.Some? then version.value <= ix == Clip(version.value, Head(old(plan)).serve, |hist| - 1)
              else ix == |hist| - 1
      ensures r == if Head(old(plan)).fault.Fine? then At(ix) else Failed
    {
      var g := Turn();
      var at := if version.Some? then Clip(version.value, g.serve, |hist| - 1) else |hist| - 1;
      ix := at;
      r := if g.fault.Fine? then At(at) else Failed;
    }
  }
}
