/** The status update with its retries, for every history, every plan of the other users of the
    server and every way its calls can end: when it must succeed, and what it tells when it does
    not. */
module StatusRetries {
  import opened Wrappers
  import opened OperatorStore
  import opened OperatorUpdates

  type Place = s: Site<Resource> | s.cacheIx < |s.hist| witness Site([None], 0, [])

  /** What happens before the i-th call from now. */
  function GapAt(plan: seq<Gap<Resource>>, i: nat): Gap<Resource> {
    if i < |plan| then plan[i] else Gap([], 0, 0, Fine, 0)
  }

  /** What is left of a plan after n calls. */
  function Rest(plan: seq<Gap<Resource>>, n: nat): seq<Gap<Resource>> {
    if n <= |plan| then plan[n..] else []
  }

  lemma RestOn(plan: seq<Gap<Resource>>, m: nat, n: nat)
    ensures Rest(Rest(plan, m), n) == Rest(plan, m + n) && GapAt(Rest(plan, m), n) == GapAt(plan, m + n)
  {
  }

  lemma FirstGaps(plan: seq<Gap<Resource>>)
    ensures Head(plan) == GapAt(plan, 0) && Head(Tail(plan)) == GapAt(plan, 1)
    ensures Head(Tail(Tail(plan))) == GapAt(plan, 2) && Head(Tail(Tail(Tail(plan)))) == GapAt(plan, 3)
    ensures Tail(plan) == Rest(plan, 1) && Tail(Tail(plan)) == Rest(plan, 2)
    ensures Tail(Tail(Tail(plan))) == Rest(plan, 3) && Tail(Tail(Tail(Tail(plan)))) == Rest(plan, 4)
  {
  }

  // ---- When an attempt must succeed

  /** Nobody writes before the i-th call from now, and it works. */
  predicate Calm(plan: seq<Gap<Resource>>, i: nat) {
    GapAt(plan, i).writes == [] && GapAt(plan, i).fault == Fine
  }

  lemma CalmOn(plan: seq<Gap<Resource>>, m: nat, n: nat)
    ensures Calm(Rest(plan, m), n) == Calm(plan, m + n)
  {
    RestOn(plan, m, n);
  }

  /** From a state that is live, with nobody writing before the fetch and before the update. */
  lemma WrittenLands(t: Place, base: nat, f: Status -> Status)
    requires base < |t.hist| && t.hist[base].Some? && forall k :: base <= k < |t.hist| ==> t.hist[k] == t.hist[base]
    requires f(t.hist[base].value.status) != t.hist[base].value.status ==> Calm(t.plan, 0) && Calm(t.plan, 1)
    ensures var was, e := t.hist[base].value, Written(t, base, f);
            && e.answer == Ok(f(was.status)) && (e.updated <==> f(was.status) != was.status)
            && e.site.hist == if e.updated then t.hist + [Some(was.(status := f(was.status)))] else t.hist
  {
    var was, v := t.hist[base].value, VersionAt(t.hist, base);
    if f(was.status) != was.status {
      FirstGaps(t.plan);
      SameVersion(t.hist, v, base);
      VersionHeld(t.hist, base);
      var at := Clip(v, Head(t.plan).serve, |t.hist| - 1);
      assert t.hist + [] == t.hist;
      assert t.hist[at] == t.hist[base];
      UpdateExact(t.hist, at, StatusHalf(f(was.status)));
    }
  }

  /** From its version to a position nothing has changed. */
  lemma {:induction false} VersionHeld(h: seq<Option<Resource>>, i: nat)
    requires i < |h|
    ensures forall k :: VersionAt(h, i) <= k <= i ==> h[k] == h[i]
    decreases i
  {
    if i > 0 && h[i] == h[i - 1] {
      VersionHeld(h, i - 1);
    }
  }

  /** The history at the next call, and at the one after it if nothing is written at the next. */
  function Next(s: Place): (h: seq<Option<Resource>>)
    ensures |h| > 0 && s.hist <= h
  {
    s.hist + GapAt(s.plan, 0).writes
  }

  function Second(s: Place): (h: seq<Option<Resource>>)
    ensures |h| > 0 && s.hist <= h
  {
    Next(s) + GapAt(s.plan, 1).writes
  }

  /** Where an attempt reads: the cache once synced, the live state before. */
  function ReadAt(s: Place, synced: bool): (b: nat)
    ensures b < |Next(s)|
  {
    if synced then Clip(s.cacheIx, GapAt(s.plan, 0).cache, |Next(s)| - 1) else |Next(s)| - 1
  }

  /** What it reads is there, and has not been seen to fail before. */
  predicate ReadsNew(s: Place, synced: bool, previous: Option<nat>) {
    var h, b := Next(s), ReadAt(s, synced);
    (synced || GapAt(s.plan, 0).fault == Fine) && h[b].Some? && previous != Some(VersionAt(h, b))
  }

  lemma SeenFirst(s: Place, synced: bool, previous: Option<nat>)
    requires ReadsNew(s, synced, previous)
    ensures var t, b := Turned(s), ReadAt(s, synced);
            && t.hist == Next(s) && b < |t.hist| && t.hist[b].Some?
            && Seen(s, synced, previous) == (t, Ok((t.hist[b].value, VersionAt(t.hist, b))), b)
  {
    FirstGaps(s.plan);
    hide VersionAt;
  }

  lemma SeenAgain(s: Place, synced: bool, previous: Option<nat>)
    requires synced || GapAt(s.plan, 0).fault == Fine
    requires var h, b := Next(s), ReadAt(s, synced);
             h[b].Some? && previous == Some(VersionAt(h, b))
    requires GapAt(s.plan, 1).fault == Fine
    ensures var u := Turned(Turned(s));
            && u.hist == Second(s)
            && (Last(u.hist).Some? ==>
                  Seen(s, synced, previous) ==
                    (u, Ok((Last(u.hist).value, VersionAt(u.hist, |u.hist| - 1))), |u.hist| - 1))
  {
    FirstGaps(s.plan);
    hide VersionAt;
  }

  /** If what it reads is live, its calls work and nobody writes after the read, it succeeds: the
      status is what the functions make of the live one, over everything else as it was. */
  lemma Uncontested(s: Place, synced: bool, f: Status -> Status, previous: Option<nat>)
    requires ReadsNew(s, synced, previous)
    requires var h, b := Next(s), ReadAt(s, synced);
             && (forall k :: b <= k < |h| ==> h[k] == h[b])
             && (f(h[b].value.status) != h[b].value.status ==> Calm(s.plan, 1) && Calm(s.plan, 2))
    ensures var h, b := Next(s), ReadAt(s, synced);
            var was, e := h[b].value, Attempted(s, synced, f, previous);
            && e.answer == Ok(f(was.status)) && (e.updated <==> f(was.status) != was.status) && e.base == b
            && e.site.hist == if e.updated then h + [Some(was.(status := f(was.status)))] else h
  {
    hide Written, VersionAt;
    FirstGaps(s.plan);
    RestOn(s.plan, 1, 0);
    RestOn(s.plan, 1, 1);
    SeenFirst(s, synced, previous);
    hide Seen;
    WrittenLands(Turned(s), ReadAt(s, synced), f);
  }

  /** If the cache still shows the version that failed before, the live resource is read, and
      then it succeeds if nobody writes after that. */
  lemma UncontestedAgain(s: Place, synced: bool, f: Status -> Status, previous: Option<nat>)
    requires synced || GapAt(s.plan, 0).fault == Fine
    requires var h, b := Next(s), ReadAt(s, synced);
             h[b].Some? && previous == Some(VersionAt(h, b))
    requires GapAt(s.plan, 1).fault == Fine
    requires var h := Second(s);
             var live := h[|h| - 1];
             live.Some? && (f(live.value.status) != live.value.status ==> Calm(s.plan, 2) && Calm(s.plan, 3))
    ensures var h := Second(s);
            var was, e := h[|h| - 1].value, Attempted(s, synced, f, previous);
            && e.answer == Ok(f(was.status)) && (e.updated <==> f(was.status) != was.status) && e.base == |h| - 1
            && e.site.hist == if e.updated then h + [Some(was.(status := f(was.status)))] else h
  {
    hide Written, VersionAt, Attempted;
    FirstGaps(s.plan);
    CalmOn(s.plan, 2, 0);
    CalmOn(s.plan, 2, 1);
    AttemptedAgain(s, synced, f, previous);
    hide Second, Next, ReadAt, Calm, Rest, Turned;
    var u := Turned(Turned(s));
    WrittenLands(u, |u.hist| - 1, f);
  }

  lemma AttemptedAgain(s: Place, synced: bool, f: Status -> Status, previous: Option<nat>)
    requires synced || GapAt(s.plan, 0).fault == Fine
    requires var h, b := Next(s), ReadAt(s, synced); h[b].Some? && previous == Some(VersionAt(h, b))
    requires GapAt(s.plan, 1).fault == Fine && Last(Second(s)).Some?
    ensures var u := Turned(Turned(s));
            && u.hist == Second(s) && u.plan == Tail(Tail(s.plan))
            && Attempted(s, synced, f, previous) == Written(u, |u.hist| - 1, f)
  {
    hide VersionAt, Written, Seen;
    SeenAgain(s, synced, previous);
  }

  // ---- The attempts of one call

  /** Where the i-th attempt begins, if it is reached, and the version that failed before it. */
  function Reached(s: Place, synced: bool, f: Status -> Status, previous: Option<nat>, i: nat)
    : (r: Option<(Site<Resource>, Option<nat>)>)
    ensures r.Some? ==> Sited(r.value.0)
    decreases i
  {
    if i == 0 then Some((s, previous)) else
    var e := Attempted(s, synced, f, previous);
    if e.answer.Conflict? then Reached(e.site, synced, f, e.version, i - 1) else None
  }

  /** The call ends as the first attempt does that does not end in a conflict. */
  lemma {:induction false} EndsAt(s: Place, synced: bool, f: Status -> Status, previous: Option<nat>, n: nat, i: nat)
    requires i < n && Reached(s, synced, f, previous, i).Some?
    requires var u := Reached(s, synced, f, previous, i).value; !Attempted(u.0, synced, f, u.1).answer.Conflict?
    ensures var u := Reached(s, synced, f, previous, i).value;
            Retried(s, synced, f, previous, n) == Attempted(u.0, synced, f, u.1)
    decreases i
  {
    hide Attempted;
    if i > 0 {
      var e := Attempted(s, synced, f, previous);
      EndsAt(e.site, synced, f, e.version, n - 1, i - 1);
    }
  }

  /** So the call succeeds if any attempt that is reached is uncontested. */
  lemma SucceedsAt(s: Place, synced: bool, f: Status -> Status, n: nat, i: nat, u: Place, previous: Option<nat>)
    requires i < n && Reached(s, synced, f, None, i) == Some((u, previous)) && ReadsNew(u, synced, previous)
    requires var h, b := Next(u), ReadAt(u, synced);
             && (forall k :: b <= k < |h| ==> h[k] == h[b])
             && (f(h[b].value.status) != h[b].value.status ==> Calm(u.plan, 1) && Calm(u.plan, 2))
    ensures var h, b, e := Next(u), ReadAt(u, synced), Retried(s, synced, f, None, n);
            var was := h[b].value;
            && e.answer == Ok(f(was.status)) && (e.updated <==> f(was.status) != was.status)
            && e.site.hist == if e.updated then h + [Some(was.(status := f(was.status)))] else h
  {
    hide Attempted, Retried, Reached;
    Uncontested(u, synced, f, previous);
    EndsAt(s, synced, f, None, n, i);
  }

  // ---- What an ending tells

  /** An update takes one call that fails, or two. */
  lemma HalvedTells(s: Place, version: nat, half: Half)
    requires version < |s.hist|
    ensures var (t, r) := Halved(s, version, half);
            && s.hist <= t.hist
            && (r.Failed? ==> (GapAt(s.plan, 0).fault != Fine && t.plan == Rest(s.plan, 1))
                              || (GapAt(s.plan, 1).fault != Fine && t.plan == Rest(s.plan, 2)))
            && (r.Ok? || r.Conflict? ==> t.plan == Rest(s.plan, 2))
            && (r.NotFound? ==> exists i :: version <= i < |t.hist| && t.hist[i].None?)
  {
    FirstGaps(s.plan);
    hide VersionAt;
  }

  /** If it conflicts, what it fetched - no older than the version asked for - is no longer live. */
  lemma HalvedConflict(s: Place, version: nat, half: Half) returns (fetched: nat, stale: nat)
    requires version < |s.hist| && Halved(s, version, half).1.Conflict?
    ensures var h := Halved(s, version, half).0.hist;
            && h == s.hist + GapAt(s.plan, 0).writes + GapAt(s.plan, 1).writes
            && version <= fetched < stale < |h| && h[fetched].Some? && h[stale] != h[fetched]
  {
    FirstGaps(s.plan);
    var t := Turned(s);
    var h := Turned(t).hist;
    fetched := Clip(version, Head(s.plan).serve, |t.hist| - 1);
    UpdateExact(h, fetched, half);
    stale :| fetched <= stale < |h| && h[stale] != h[fetched];
  }

  /** What an attempt uses of the plan. */
  lemma SeenTells(s: Place, synced: bool, previous: Option<nat>)
    ensures var (t, got, base) := Seen(s, synced, previous);
            && s.hist <= t.hist && s.cacheIx <= t.cacheIx && (if synced then s.cacheIx else |s.hist| - 1) <= base
            && (t.plan == Rest(s.plan, 1) || t.plan == Rest(s.plan, 2))
            && (got.Failed? ==> (GapAt(s.plan, 0).fault != Fine && t.plan == Rest(s.plan, 1))
                                || (GapAt(s.plan, 1).fault != Fine && t.plan == Rest(s.plan, 2)))
  {
    FirstGaps(s.plan);
    hide VersionAt;
  }

  /** The last call an attempt made failed, if the attempt did. */
  lemma AttemptFails(s: Place, synced: bool, f: Status -> Status, previous: Option<nat>) returns (i: nat)
    requires Attempted(s, synced, f, previous).answer.Failed?
    ensures GapAt(s.plan, i).fault != Fine && Attempted(s, synced, f, previous).site.plan == Rest(s.plan, i + 1)
  {
    hide Seen, Halved, VersionAt;
    SeenTells(s, synced, previous);
    var (t, got, base) := Seen(s, synced, previous);
    var m := if t.plan == Rest(s.plan, 1) then 1 else 2;
    if got.Ok? {
      HalvedTells(t, VersionAt(t.hist, base), StatusHalf(f(t.hist[base].value.status)));
      RestOn(s.plan, m, 0);
      RestOn(s.plan, m, 1);
      RestOn(s.plan, m, 2);
      i := if GapAt(t.plan, 0).fault != Fine && Attempted(s, synced, f, previous).site.plan == Rest(t.plan, 1)
           then m else m + 1;
    } else {
      i := if GapAt(s.plan, 0).fault != Fine && t.plan == Rest(s.plan, 1) then 0 else 1;
    }
  }

  /** A conflict has used three or four calls, and lost nothing that others wrote. */
  lemma AttemptConflicts(s: Place, synced: bool, f: Status -> Status, previous: Option<nat>)
    returns (n: nat, fetched: nat, stale: nat)
    requires Attempted(s, synced, f, previous).answer.Conflict?
    ensures var e := Attempted(s, synced, f, previous);
            && e.site.plan == Rest(s.plan, n) && 3 <= n <= 4 && s.hist <= e.site.hist
            && s.cacheIx <= e.site.cacheIx && !e.updated && e.base < |e.site.hist|
            && (if synced then s.cacheIx else |s.hist| - 1) <= e.base
            && fetched < stale < |e.site.hist| && e.site.hist[fetched].Some?
            && e.site.hist[stale] != e.site.hist[fetched]
            && VersionAt(e.site.hist, e.base) <= fetched && e.version == Some(VersionAt(e.site.hist, e.base))
  {
    hide Seen, Halved, VersionAt;
    SeenTells(s, synced, previous);
    var (t, got, base) := Seen(s, synced, previous);
    var half := StatusHalf(f(t.hist[base].value.status));
    var v := VersionAt(t.hist, base);
    HalvedTells(t, v, half);
    HalvedCache(t, v, half);
    fetched, stale := HalvedConflict(t, v, half);
    var m := if t.plan == Rest(s.plan, 1) then 1 else 2;
    RestOn(s.plan, m, 2);
    n := m + 2;
    VersionPrefix(t.hist, Attempted(s, synced, f, previous).site.hist, base);
  }

  lemma HalvedCache(s: Place, version: nat, half: Half)
    requires version < |s.hist|
    ensures s.cacheIx <= Halved(s, version, half).0.cacheIx
  {
    hide VersionAt;
  }

  lemma AttemptMisses(s: Place, synced: bool, f: Status -> Status, previous: Option<nat>) returns (i: nat)
    requires Attempted(s, synced, f, previous).answer.NotFound?
    ensures var h := Attempted(s, synced, f, previous).site.hist;
            (if synced then s.cacheIx else |s.hist| - 1) <= i < |h| && h[i].None?
  {
    hide Seen, Halved;
    SeenTells(s, synced, previous);
    var (t, got, base) := Seen(s, synced, previous);
    if got.Ok? {
      var v := VersionAt(t.hist, base);
      HalvedTells(t, v, StatusHalf(f(t.hist[base].value.status)));
      var h := Attempted(s, synced, f, previous).site.hist;
      i :| v <= i < |h| && h[i].None?;
      if i < base {
        VersionHeld(t.hist, base);
      }
    } else {
      i := base;
    }
  }

  /** Failed: the last call that was made had a fault. */
  lemma {:induction false} FailedTells(s: Place, synced: bool, f: Status -> Status, previous: Option<nat>, n: nat)
    returns (i: nat)
    requires n > 0 && Retried(s, synced, f, previous, n).answer.Failed?
    ensures GapAt(s.plan, i).fault != Fine && Retried(s, synced, f, previous, n).site.plan == Rest(s.plan, i + 1)
    decreases n
  {
    hide Attempted;
    var e := Attempted(s, synced, f, previous);
    if e.answer.Failed? {
      i := AttemptFails(s, synced, f, previous);
    } else {
      var m, fetched, stale := AttemptConflicts(s, synced, f, previous);
      var j := FailedTells(e.site, synced, f, e.version, n - 1);
      RestOn(s.plan, m, j);
      RestOn(s.plan, m, j + 1);
      i := m + j;
    }
  }

  /** NotFound: the resource was missing in a state no older than the cache's, or than the live
      one before the informer has synced. */
  lemma {:induction false} NotFoundTells(s: Place, synced: bool, f: Status -> Status, previous: Option<nat>, n: nat)
    returns (i: nat)
    requires n > 0 && Retried(s, synced, f, previous, n).answer.NotFound?
    ensures var h := Retried(s, synced, f, previous, n).site.hist;
            (if synced then s.cacheIx else |s.hist| - 1) <= i < |h| && h[i].None?
    decreases n
  {
    hide Attempted;
    var e := Attempted(s, synced, f, previous);
    if e.answer.NotFound? {
      i := AttemptMisses(s, synced, f, previous);
    } else {
      var m, fetched, stale := AttemptConflicts(s, synced, f, previous);
      i := NotFoundTells(e.site, synced, f, e.version, n - 1);
    }
  }

  /** One attempt that ended in a conflict: the length of the history when it was refused, what it
      had read, what it had fetched, and a later state that differs. */
  datatype Clash = Clash(length: nat, base: nat, fetched: nat, stale: nat)

  predicate Clashed(h: seq<Option<Resource>>, c: Clash) {
    && c.length <= |h| && c.base < c.length && c.fetched < c.stale < c.length
    && h[c.fetched].Some? && h[c.stale] != h[c.fetched] && VersionAt(h[..c.length], c.base) <= c.fetched
  }

  /** Conflict: there were n attempts, one after the other, and in each of them what had been
      fetched was no longer live. */
  lemma {:induction false} ConflictTells(s: Place, synced: bool, f: Status -> Status, previous: Option<nat>, n: nat)
    returns (cs: seq<Clash>)
    requires n > 0 && Retried(s, synced, f, previous, n).answer.Conflict?
    ensures var h := Retried(s, synced, f, previous, n).site.hist;
            && |cs| == n && s.hist <= h && !Retried(s, synced, f, previous, n).updated
            && (forall i :: 0 <= i < n ==> Clashed(h, cs[i]) && |s.hist| <= cs[i].length)
            && (forall i, j :: 0 <= i < j < n ==> cs[i].length <= cs[j].length)
    decreases n
  {
    hide Attempted, VersionAt;
    var e := Attempted(s, synced, f, previous);
    var m, fetched, stale := AttemptConflicts(s, synced, f, previous);
    var first := Clash(|e.site.hist|, e.base, fetched, stale);
    var h := Retried(s, synced, f, previous, n).site.hist;
    if n == 1 {
      cs := [first];
      assert h[..first.length] == e.site.hist;
    } else {
      var more := ConflictTells(e.site, synced, f, e.version, n - 1);
      assert h[..first.length] == e.site.hist;
      cs := [first] + more;
      assert forall i :: 1 <= i < n ==> cs[i] == more[i - 1];
    }
  }

  // ---- A server nobody else writes to

  ghost predicate Quiet(plan: seq<Gap<Resource>>) {
    forall i: nat :: Calm(plan, i)
  }

  ghost predicate CacheStays(s: Place) {
    forall i: nat :: GapAt(s.plan, i).cache <= s.cacheIx
  }

  predicate AllThere(h: seq<Option<Resource>>) {
    forall i :: 0 <= i < |h| ==> h[i].Some?
  }

  lemma QuietRest(plan: seq<Gap<Resource>>, n: nat)
    requires Quiet(plan)
    ensures Quiet(Rest(plan, n))
  {
    forall i: nat ensures Calm(Rest(plan, n), i) {
      RestOn(plan, n, i);
      assert Calm(plan, n + i);
    }
  }

  /** There an attempt succeeds unless it has read the cache, the cache is behind, and it shows
      another version than the last attempt saw. */
  lemma QuietAttempt(s: Place, synced: bool, f: Status -> Status, previous: Option<nat>)
    requires Quiet(s.plan) && AllThere(s.hist)
    ensures var e, last := Attempted(s, synced, f, previous), |s.hist| - 1;
            && (e.answer.Ok? || e.answer.Conflict?)
            && (e.answer.Conflict? ==>
                  && synced && s.cacheIx <= e.base <= e.site.cacheIx && e.site.hist == s.hist && Quiet(e.site.plan)
                  && e.base == Clip(s.cacheIx, GapAt(s.plan, 0).cache, last)
                  && VersionAt(s.hist, e.base) < VersionAt(s.hist, last)
                  && e.version == Some(VersionAt(s.hist, e.base)) && previous != e.version
                  && f(s.hist[e.base].value.status) != s.hist[e.base].value.status)
  {
    hide Attempted, VersionAt;
    var h, b := s.hist, ReadAt(s, synced);
    assert Calm(s.plan, 0) && Calm(s.plan, 1) && Calm(s.plan, 2) && Calm(s.plan, 3);
    assert h + [] == h;
    SameVersion(h, b, |h| - 1);
    if previous == Some(VersionAt(h, b)) {
      UncontestedAgain(s, synced, f, previous);
    } else if VersionAt(h, b) == VersionAt(h, |h| - 1) {
      Uncontested(s, synced, f, previous);
    } else {
      QuietStale(s, f, previous);
    }
  }

  lemma QuietStale(s: Place, f: Status -> Status, previous: Option<nat>)
    requires Quiet(s.plan) && AllThere(s.hist) && ReadAt(s, true) < |s.hist|
    requires previous != Some(VersionAt(s.hist, ReadAt(s, true)))
    ensures var e, b := Attempted(s, true, f, previous), ReadAt(s, true);
            && (e.answer.Ok? || e.answer.Conflict?)
            && (e.answer.Conflict? ==>
                  && e.base == b && b <= e.site.cacheIx && e.site.hist == s.hist && Quiet(e.site.plan)
                  && e.version == Some(VersionAt(s.hist, b))
                  && f(s.hist[b].value.status) != s.hist[b].value.status)
  {
    hide Attempted, VersionAt, Seen;
    assert Calm(s.plan, 0);
    assert s.hist + [] == s.hist;
    SeenFirst(s, true, previous);
    FirstGaps(s.plan);
    QuietRest(s.plan, 1);
    AttemptedFrom(s, f, previous);
    QuietWritten(Turned(s), ReadAt(s, true), f);
  }

  lemma AttemptedFrom(s: Place, f: Status -> Status, previous: Option<nat>)
    requires ReadsNew(s, true, previous)
    ensures var t, b := Turned(s), ReadAt(s, true);
            b < |t.hist| && t.hist[b].Some? && Attempted(s, true, f, previous) == Written(t, b, f)
  {
    hide VersionAt, Written, Seen;
    SeenFirst(s, true, previous);
  }

  lemma QuietWritten(t: Place, base: nat, f: Status -> Status)
    requires Quiet(t.plan) && AllThere(t.hist) && base < |t.hist|
    ensures var e := Written(t, base, f);
            && (e.answer.Ok? || e.answer.Conflict?)
            && (e.answer.Conflict? ==>
                  && t.cacheIx <= e.site.cacheIx && e.site.hist == t.hist && Quiet(e.site.plan)
                  && e.version == Some(VersionAt(t.hist, base))
                  && f(t.hist[base].value.status) != t.hist[base].value.status)
  {
    hide VersionAt, Halved;
    var was := t.hist[base].value.status;
    if f(was) != was { QuietHalved(t, base, StatusHalf(f(was))); }
  }

  lemma QuietHalved(t: Place, base: nat, half: Half)
    requires Quiet(t.plan) && AllThere(t.hist) && base < |t.hist|
    ensures var (u, r) := Halved(t, VersionAt(t.hist, base), half);
            && (r.Ok? || r.Conflict?)
            && (r.Conflict? ==> t.cacheIx <= u.cacheIx && u.hist == t.hist && Quiet(u.plan))
  {
    hide VersionAt, Quiet, With;
    CalmFirst(t.plan);
    FirstGaps(t.plan);
    QuietRest(t.plan, 2);
    assert t.hist + [] == t.hist;
  }

  lemma CalmFirst(plan: seq<Gap<Resource>>)
    requires Quiet(plan)
    ensures Calm(plan, 0) && Calm(plan, 1)
  {
  }

  /** So does the call if the cache does not move: by its second attempt, however stale it is. */
  lemma StuckCache(s: Place, f: Status -> Status, n: nat)
    requires Quiet(s.plan) && AllThere(s.hist) && n >= 2 && CacheStays(s)
    ensures Retried(s, true, f, None, n) == Retried(s, true, f, None, 2)
    ensures Retried(s, true, f, None, n).answer.Ok?
  {
    hide Attempted, VersionAt;
    QuietAttempt(s, true, f, None);
    var e := Attempted(s, true, f, None);
    if e.answer.Conflict? {
      var m, fetched, stale := AttemptConflicts(s, true, f, None);
      StillStuck(s, f);
      QuietAttempt(e.site, true, f, e.version);
      RestOn(s.plan, m, 0);
    }
  }

  lemma StillStuck(s: Place, f: Status -> Status)
    requires Quiet(s.plan) && AllThere(s.hist) && CacheStays(s)
    ensures Attempted(s, true, f, None).answer.Conflict? ==> Attempted(s, true, f, None).site.cacheIx == s.cacheIx
  {
    hide VersionAt;
    FirstGaps(s.plan);
    assert forall i: nat :: i < 3 ==> GapAt(s.plan, i).cache <= s.cacheIx;
  }

  /** Before the informer has synced the first attempt reads what is live. */
  lemma QuietUnsynced(s: Place, f: Status -> Status, n: nat)
    requires Quiet(s.plan) && AllThere(s.hist) && n > 0
    ensures Retried(s, false, f, None, n).answer.Ok?
  {
    hide Attempted, VersionAt;
    QuietAttempt(s, false, f, None);
  }

  /** States the cache can show one after the other from a position on, each of a newer version
      than the one before, none of them live, and each changed by the functions. */
  predicate Lagging(h: seq<Option<Resource>>, from: nat, f: Status -> Status, ps: seq<nat>)
    decreases |ps|
  {
    ps != [] ==>
      && from <= ps[0] < |h| && h[ps[0]].Some? && VersionAt(h, ps[0]) < VersionAt(h, |h| - 1)
      && f(h[ps[0]].value.status) != h[ps[0]].value.status
      && Lagging(h, ps[0], f, ps[1..])
      && (|ps| > 1 ==> VersionAt(h, ps[0]) < VersionAt(h, ps[1]))
  }

  /** Only a cache that lags behind in each of the n attempts, and moves in between, exhausts them. */
  lemma {:induction false} QuietConflict(s: Place, f: Status -> Status, previous: Option<nat>, n: nat)
    returns (ps: seq<nat>)
    requires Quiet(s.plan) && AllThere(s.hist) && n > 0 && Retried(s, true, f, previous, n).answer.Conflict?
    requires previous.Some? ==> previous.value <= VersionAt(s.hist, s.cacheIx)
    ensures |ps| == n && Lagging(s.hist, s.cacheIx, f, ps)
    ensures previous.Some? ==> previous.value < VersionAt(s.hist, ps[0])
    decreases n
  {
    hide Attempted, VersionAt;
    QuietAttempt(s, true, f, previous);
    var e := Attempted(s, true, f, previous);
    var h := s.hist;
    SameVersion(h, s.cacheIx, e.base);
    if n == 1 {
      ps := [e.base];
    } else {
      SameVersion(h, e.base, e.site.cacheIx);
      var more := QuietConflict(e.site, f, e.version, n - 1);
      ps := [e.base] + more;
      OneMoreLagging(h, s.cacheIx, e.site.cacheIx, f, e.base, more);
    }
  }

  lemma OneMoreLagging(h: seq<Option<Resource>>, c: nat, d: nat, f: Status -> Status, p: nat, more: seq<nat>)
    requires |more| > 0 && Lagging(h, d, f, more) && c <= p <= d && p < |h| && h[p].Some?
    requires VersionAt(h, p) < VersionAt(h, |h| - 1)
    requires VersionAt(h, p) < VersionAt(h, more[0]) && f(h[p].value.status) != h[p].value.status
    ensures Lagging(h, c, f, [p] + more)
  {
    hide VersionAt;
    assert ([p] + more)[1..] == more;
  }

  // ---- Exactly when a quiet server can exhaust the attempts

  /** The cache moves to these positions, one before each attempt; fetches are served as old as
      they may be. */
  function Moving(ps: seq<nat>): seq<Gap<Resource>> {
    if ps == [] then []
    else [Gap([], ps[0], 0, Fine, 0), Gap([], 0, 0, Fine, 0), Gap([], 0, 0, Fine, 0)] + Moving(ps[1..])
  }

  lemma {:induction false} MovingQuiet(ps: seq<nat>)
    ensures Quiet(Moving(ps))
    decreases |ps|
  {
    var plan := Moving(ps);
    if ps != [] {
      MovingQuiet(ps[1..]);
      forall i: nat ensures Calm(plan, i) {
        if i >= 3 {
          assert Calm(Moving(ps[1..]), i - 3);
          assert GapAt(plan, i) == GapAt(Moving(ps[1..]), i - 3);
        }
      }
    }
  }

  lemma {:induction false} VersionOfVersion(h: seq<Option<Resource>>, i: nat)
    requires i < |h|
    ensures VersionAt(h, VersionAt(h, i)) == VersionAt(h, i)
    decreases i
  {
    if i > 0 && h[i] == h[i - 1] {
      VersionOfVersion(h, i - 1);
    }
  }

  lemma {:induction false} MovingConflicts(h: seq<Option<Resource>>, c: nat, f: Status -> Status, ps: seq<nat>,
          previous: Option<nat>)
    requires AllThere(h) && c < |h| && |ps| > 0 && Lagging(h, c, f, ps)
    requires previous.Some? ==> previous.value < VersionAt(h, ps[0])
    ensures Retried(Site(h, c, Moving(ps)), true, f, previous, |ps|).answer.Conflict?
    decreases |ps|
  {
    hide Attempted, VersionAt;
    MovingAttempt(h, c, f, ps, previous);
    if |ps| > 1 {
      var e := Attempted(Site(h, c, Moving(ps)), true, f, previous);
      MovingConflicts(h, ps[0], f, ps[1..], e.version);
    }
  }

  lemma MovingAttempt(h: seq<Option<Resource>>, c: nat, f: Status -> Status, ps: seq<nat>, previous: Option<nat>)
    requires AllThere(h) && c < |h| && |ps| > 0 && Lagging(h, c, f, ps)
    requires previous.Some? ==> previous.value < VersionAt(h, ps[0])
    ensures var e := Attempted(Site(h, c, Moving(ps)), true, f, previous);
            && e.answer.Conflict? && e.version == Some(VersionAt(h, ps[0]))
            && e.site == Site(h, ps[0], Moving(ps[1..]))
  {
    hide VersionAt, Attempted, Halved, Lagging;
    var s, t := Site(h, c, Moving(ps)), Site(h, ps[0], Tail(Moving(ps)));
    FirstLagging(h, c, f, ps);
    assert h + [] == h;
    AttemptedFrom(s, f, previous);
    MovingHalved(h, ps, StatusHalf(f(h[ps[0]].value.status)));
  }

  lemma FirstLagging(h: seq<Option<Resource>>, c: nat, f: Status -> Status, ps: seq<nat>)
    requires |ps| > 0 && Lagging(h, c, f, ps)
    ensures c <= ps[0] < |h| && h[ps[0]].Some? && VersionAt(h, ps[0]) < VersionAt(h, |h| - 1)
    ensures f(h[ps[0]].value.status) != h[ps[0]].value.status
  {
  }

  const STILL: Gap<Resource> := Gap([], 0, 0, Fine, 0)

  lemma StillTurn(t: Place)
    requires GapAt(t.plan, 0) == STILL
    ensures Turned(t) == t.(plan := Tail(t.plan)) && Head(t.plan) == STILL
  {
    assert t.hist + [] == t.hist;
  }

  lemma StaleHalved(t: Place, v: nat, half: Half)
    requires AllThere(t.hist) && GapAt(t.plan, 0) == STILL && GapAt(t.plan, 1) == STILL
    requires v < |t.hist| && VersionAt(t.hist, v) != VersionAt(t.hist, |t.hist| - 1)
    ensures Halved(t, v, half) == (t.(plan := Rest(t.plan, 2)), Conflict)
  {
    hide VersionAt, With, Turned;
    FirstGaps(t.plan);
    StillTurn(t);
    StillTurn(t.(plan := Tail(t.plan)));
  }

  lemma ThreeGaps(a: Gap<Resource>, rest: seq<Gap<Resource>>)
    ensures var plan := [a, STILL, STILL] + rest;
            && Head(plan) == a && GapAt(Tail(plan), 0) == STILL && GapAt(Tail(plan), 1) == STILL
            && Rest(Tail(plan), 2) == rest
  {
    var plan := [a, STILL, STILL] + rest;
    assert Tail(plan) == [STILL, STILL] + rest;
    assert Rest(Tail(plan), 2) == rest;
  }

  lemma MovingParts(ps: seq<nat>)
    requires |ps| > 0
    ensures var plan := Tail(Moving(ps));
            GapAt(plan, 0) == STILL && GapAt(plan, 1) == STILL && Rest(plan, 2) == Moving(ps[1..])
  {
    hide Rest, GapAt, Tail;
    ThreeGaps(Gap([], ps[0], 0, Fine, 0), Moving(ps[1..]));
  }

  lemma MovingHalved(h: seq<Option<Resource>>, ps: seq<nat>, half: Half)
    requires AllThere(h) && |ps| > 0 && ps[0] < |h| && VersionAt(h, ps[0]) < VersionAt(h, |h| - 1)
    ensures Halved(Site(h, ps[0], Tail(Moving(ps))), VersionAt(h, ps[0]), half)
            == (Site(h, ps[0], Moving(ps[1..])), Conflict)
  {
    hide VersionAt, Halved, Rest, GapAt, Tail, Moving;
    MovingParts(ps);
    VersionOfVersion(h, ps[0]);
    StaleHalved(Site(h, ps[0], Tail(Moving(ps))), VersionAt(h, ps[0]), half);
  }

  /** With nobody else writing, every call working and the resource there all the time, the call
      succeeds whatever the cache does if and only if there are not four such states for it to
      show. (Then it can conflict in all four attempts: the live read is only made when the
      cache shows the same version twice.) */
  lemma QuietExact(h: seq<Option<Resource>>, c: nat, f: Status -> Status)
    requires AllThere(h) && c < |h|
    ensures (forall plan :: Quiet(plan) ==> Retried(Site(h, c, plan), true, f, None, 4).answer.Ok?) <==>
              !exists ps :: |ps| == 4 && Lagging(h, c, f, ps)
  {
    hide Retried, Lagging, Moving, Quiet, VersionAt;
    if ps :| |ps| == 4 && Lagging(h, c, f, ps) {
      MovingQuiet(ps);
      MovingConflicts(h, c, f, ps, None);
    } else {
      forall plan | Quiet(plan) ensures Retried(Site(h, c, plan), true, f, None, 4).answer.Ok? {
        QuietNoFault(Site(h, c, plan), f, None, 4);
        if Retried(Site(h, c, plan), true, f, None, 4).answer.Conflict? {
          var ps := QuietConflict(Site(h, c, plan), f, None, 4);
        }
      }
    }
  }

  lemma {:induction false} QuietNoFault(s: Place, f: Status -> Status, previous: Option<nat>, n: nat)
    requires Quiet(s.plan) && AllThere(s.hist) && n > 0
    ensures Retried(s, true, f, previous, n).answer.Ok? || Retried(s, true, f, previous, n).answer.Conflict?
    decreases n
  {
    hide Attempted, VersionAt;
    QuietAttempt(s, true, f, previous);
    var e := Attempted(s, true, f, previous);
    if e.answer.Conflict? && n > 1 {
      QuietNoFault(e.site, f, e.version, n - 1);
    }
  }

  /** There are such states: five of the resource, each with another status. */
  lemma QuietCanFail(ready: nat -> Status, mine: Status) returns (s: Site<Resource>)
    requires forall i, j :: 0 <= i < j < 5 ==> ready(i) != ready(j)
    requires forall i :: 0 <= i < 5 ==> ready(i) != mine
    ensures Sited(s) && Quiet(s.plan) && AllThere(s.hist) && Retried(s, true, _ => mine, None, 4).answer.Conflict?
  {
    var h := seq(5, i requires 0 <= i < 5 => Some(Resource("", ready(i), "")));
    var ps := [0, 1, 2, 3];
    forall i | 0 <= i < 5 ensures VersionAt(h, i) == i {
      assert i > 0 ==> h[i].value.status == ready(i) && h[i - 1].value.status == ready(i - 1);
    }
    s := Site(h, 0, Moving(ps));
    MovingQuiet(ps);
    assert ps[1..] == [1, 2, 3] && [1, 2, 3][1..] == [2, 3] && [2, 3][1..] == [3];
    assert Lagging(h, 2, _ => mine, [3]) && Lagging(h, 1, _ => mine, [2, 3]) && Lagging(h, 0, _ => mine, [1, 2, 3]);
    hide Retried, Moving, Lagging, Quiet, VersionAt;
    MovingConflicts(h, 0, _ => mine, ps, None);
  }

  // ---- A whole call

  /** What a call with four attempts must come to, and what its ending tells. */
  lemma Ending(s: Place, synced: bool, f: Status -> Status)
    ensures var e := Retried(s, synced, f, None, 4);
            && (e.answer.Failed? ==>
                  exists i: nat :: GapAt(s.plan, i).fault != Fine && e.site.plan == Rest(s.plan, i + 1))
            && (e.answer.NotFound? ==>
                  exists i :: (if synced then s.cacheIx else |s.hist| - 1) <= i < |e.site.hist|
                              && e.site.hist[i].None?)
            && (e.answer.Conflict? ==>
                  exists cs: seq<Clash> :: |cs| == 4 && forall i :: 0 <= i < 4 ==> Clashed(e.site.hist, cs[i]))
            && (Quiet(s.plan) && AllThere(s.hist) && (!synced || CacheStays(s)) ==> e.answer.Ok?)
    ensures CalmCall(s, synced) ==> Retried(s, synced, f, None, 4).answer.Ok?
  {
    hide Attempted, Retried, Quiet, Calm, Clashed, VersionAt;
    var e := Retried(s, synced, f, None, 4);
    if e.answer.Failed? { var i := FailedTells(s, synced, f, None, 4); }
    if e.answer.NotFound? { var i := NotFoundTells(s, synced, f, None, 4); }
    if e.answer.Conflict? { var cs := ConflictTells(s, synced, f, None, 4); }
    if Quiet(s.plan) && AllThere(s.hist) {
      if !synced {
        QuietUnsynced(s, f, 4);
      } else if CacheStays(s) {
        StuckCache(s, f, 4);
      }
    }
    if CalmCall(s, synced) { FirstUncontested(s, synced, f); }
  }

  /** The first read shows what is live, the calls work, and nobody writes after it. */
  predicate CalmCall(s: Place, synced: bool) {
    var h, b := Next(s), ReadAt(s, synced);
    && (synced || GapAt(s.plan, 0).fault == Fine) && h[b].Some? && (forall k :: b <= k < |h| ==> h[k] == h[b])
    && Calm(s.plan, 1) && Calm(s.plan, 2)
  }

  lemma FirstUncontested(s: Place, synced: bool, f: Status -> Status)
    requires CalmCall(s, synced)
    ensures Retried(s, synced, f, None, 4).answer.Ok?
  {
    hide Attempted, Retried, Calm, VersionAt, Next, ReadAt;
    SucceedsAt(s, synced, f, 4, 0, s, None);
  }
}
