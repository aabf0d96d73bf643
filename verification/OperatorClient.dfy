/** The operator client: its reads, its versioned updates of the operator resource, and the
    retry loop around the status update. */
module OperatorClient {
  import opened Wrappers
  import opened OperatorStore
  import opened OperatorUpdates
  import opened StatusRetries

  class JobSetOperatorClient {
    const server: ApiServer<Resource>
    var synced: bool

    constructor (server: ApiServer<Resource>)
      ensures this.server == server && !synced
    {
      this.server := server;
      synced := false;
    }

    method GetOperatorStateWithQuorum() returns (r: Answer<(Resource, nat)>, ghost ix: nat)
      requires server.Valid()
      modifies server
      ensures server.Valid() && server.hist == old(server.hist) + Head(old(server.plan)).writes
      ensures server.plan == Tail(old(server.plan)) && server.View() == Turned(old(server.View()))
      ensures old(server.cacheIx) <= server.cacheIx && ix == |server.hist| - 1
      ensures r == if Head(old(server.plan)).fault.Fine? then server.At(ix) else Failed
    {
      r, ix := server.Get(None);
    }

    /** The cache once the informer has synced, the live resource before. */
    method GetOperatorState() returns (r: Answer<(Resource, nat)>, ghost ix: nat)
      requires server.Valid()
      modifies server
      ensures server.Valid() && server.hist == old(server.hist) + Head(old(server.plan)).writes
      ensures server.plan == Tail(old(server.plan)) && server.View() == Turned(old(server.View()))
      ensures old(server.cacheIx) <= server.cacheIx && ix == if synced then server.cacheIx else |server.hist| - 1
      ensures r == if synced || Head(old(server.plan)).fault.Fine? then server.At(ix) else Failed
    {
      if !synced {
        r, ix := GetOperatorStateWithQuorum();
        return;
      }
      r, ix := server.Cached();
    }

    /** The metadata, read the same way. */
    method GetObjectMeta() returns (r: Answer<string>, ghost ix: nat)
      requires server.Valid()
      modifies server
      ensures server.Valid() && server.hist == old(server.hist) + Head(old(server.plan)).writes
      ensures ix == if synced then server.cacheIx else |server.hist| - 1
      ensures r == if !synced && !Head(old(server.plan)).fault.Fine? then Failed
                   else if server.hist[ix].Some? then Ok(server.hist[ix].value.meta) else NotFound
    {
      var instance;
      if synced {
        instance, ix := server.Cached();
      } else {
        instance, ix := server.Get(None);
      }
      if !instance.Ok? {
        return if instance.NotFound? then NotFound else Failed, ix;
      }
      r := Ok(instance.value.0.meta);
    }

    /** What UpdateOperatorSpec and UpdateOperatorStatus share: fetch an object at least as new
        as the version given, replace the half, and update. before is the history the update
        meets, f the position of what was fetched. */
    method UpdateHalf(version: nat, half: Half)
      returns (r: Answer<Resource>, ghost f: nat, ghost before: seq<Option<Resource>>)
      requires server.Valid() && version < |server.hist|
      modifies server
      ensures server.Valid() && old(server.hist) <= before && old(server.cacheIx) <= server.cacheIx
      ensures version <= f < |before|
      ensures Landed(before, f, half, server.hist, r)
      ensures (server.View(), r) == Halved(old(server.View()), version, half)
      ensures r.Failed? ==> !Head(old(server.plan)).fault.Fine? || !Head(Tail(old(server.plan))).fault.Fine?
    {
      var got;
      got, f := server.Get(Some(version));
      before := server.hist;
      if !got.Ok? {
        return if got.NotFound? then NotFound else Failed, f, before;
      }
      var original := With(got.value.0, half);
      ghost var seen := server.hist;
      var g := server.Turn();
      before := server.hist;
      VersionPrefix(seen, before, f);
      if g.fault.Refused? { return Failed, f, before; }
      r := Put(original, got.value.1, half, f);
      if g.fault.Lost? { r := Failed; }
    }

    /** How an update can end: its answer tells what the server did, unless it failed, when
        the update may or may not have landed. */
    static ghost predicate Landed(before: seq<Option<Resource>>, f: nat, half: Half, after: seq<Option<Resource>>,
            r: Answer<Resource>)
    {
      match r
      case Ok(o) => f < |before| && before[f].Some? && Updated(before, f, half) == Ok(after) && Last(after) == Some(o)
      case Failed => after == before || (f < |before| && before[f].Some? && Updated(before, f, half) == Ok(after))
      case Conflict => after == before && f < |before| && before[f].Some? && Updated(before, f, half).Conflict?
      case NotFound => after == before && f < |before| && (before[f].None? || Last(before).None?)
    }

    /** The server's side of the update: original carries the version of what was fetched. */
    method Put(original: Resource, version: nat, half: Half, ghost f: nat) returns (r: Answer<Resource>)
      requires server.Valid() && f < |server.hist| && server.At(f).Ok? && server.At(f).value.1 == version
      requires original == With(server.At(f).value.0, half)
      modifies server`hist
      ensures server.Valid() && Landed(old(server.hist), f, half, server.hist, r) && !r.Failed?
      ensures match Updated(old(server.hist), f, half)
              case Ok(h) => server.hist == h && r == Ok(original)
              case _ => server.hist == old(server.hist) && r.Ok? == false
                        && (r.Conflict? <==> Updated(old(server.hist), f, half).Conflict?)
    {
      var live := server.hist[|server.hist| - 1];
      if live.None? { return NotFound; }
      SameVersion(server.hist, f, |server.hist| - 1);
      if VersionAt(server.hist, |server.hist| - 1) != version { return Conflict; }
      if original != live.value {
        server.hist := server.hist + [Some(original)];
      }
      r := Ok(original);
    }

    method UpdateOperatorSpec(version: nat, spec: string)
      returns (r: Answer<string>, ghost f: nat, ghost before: seq<Option<Resource>>)
      requires server.Valid() && version < |server.hist|
      modifies server
      ensures server.Valid() && old(server.hist) <= before && version <= f < |before|
      ensures r.Ok? ==> before[f].Some? && Updated(before, f, SpecHalf(spec)) == Ok(server.hist) && r.value == spec
      ensures r.Conflict? || r.NotFound? ==> server.hist == before
      ensures r.Failed? ==>
                server.hist == before || (before[f].Some? && Updated(before, f, SpecHalf(spec)) == Ok(server.hist))
      ensures r.Failed? ==> !Head(old(server.plan)).fault.Fine? || !Head(Tail(old(server.plan))).fault.Fine?
    {
      var out;
      out, f, before := UpdateHalf(version, SpecHalf(spec));
      match out {
        case Ok(o) => UpdateExact(before, f, SpecHalf(spec)); r := Ok(o.spec);
        case NotFound => r := NotFound;
        case Conflict => r := Conflict;
        case Failed => r := Failed;
      }
    }

    method UpdateOperatorStatus(version: nat, status: Status)
      returns (r: Answer<Status>, ghost f: nat, ghost before: seq<Option<Resource>>)
      requires server.Valid() && version < |server.hist|
      modifies server
      ensures server.Valid() && old(server.hist) <= before && version <= f < |before|
      ensures old(server.cacheIx) <= server.cacheIx
      ensures var e := Halved(old(server.View()), version, StatusHalf(status));
              server.View() == e.0 && r == StatusOf(e.1)
      ensures r.Ok? ==>
                before[f].Some? && Updated(before, f, StatusHalf(status)) == Ok(server.hist) && r.value == status
      ensures r.Conflict? || r.NotFound? ==> server.hist == before
      ensures r.Failed? ==>
                server.hist == before || (before[f].Some? && Updated(before, f, StatusHalf(status)) == Ok(server.hist))
      ensures r.Failed? ==> !Head(old(server.plan)).fault.Fine? || !Head(Tail(old(server.plan))).fault.Fine?
    {
      var out;
      out, f, before := UpdateHalf(version, StatusHalf(status));
      match out {
        case Ok(o) => UpdateExact(before, f, StatusHalf(status)); r := Ok(o.status);
        case NotFound => r := NotFound;
        case Conflict => r := Conflict;
        case Failed => r := Failed;
      }
    }

    /** The rest of an attempt, once it has read: compute and, if that changes anything, update.
        before is the history the update meets, or the read if it comes to none. */
    method Submit(f: Status -> Status, seen: (Resource, nat), ghost base: nat)
      returns (r: Answer<Status>, updated: bool, ghost before: seq<Option<Resource>>)
      requires server.Valid() && base < |server.hist| && server.At(base) == Ok(seen)
      modifies server
      ensures server.Valid() && old(server.hist) <= before && old(server.cacheIx) <= server.cacheIx
      ensures Ended(server.View(), r, updated, Some(seen.1), base) == Written(old(server.View()), base, f)
      ensures r.Ok? ==> r.value == f(seen.0.status)
      ensures r.Ok? && !updated ==> server.hist == before && f(seen.0.status) == seen.0.status
      ensures r.Ok? && updated ==>
                (Last(before).Some? && before <= server.hist
                 && Last(server.hist) == Some(Last(before).value.(status := f(seen.0.status))))
      ensures r.Conflict? || r.NotFound? ==> !updated && server.hist == before
    {
      hide Halved;
      before, updated := server.hist, false;
      var status := f(seen.0.status);
      if status == seen.0.status {
        r := Ok(status);
        return;
      }
      ghost var fetched;
      r, fetched, before := UpdateOperatorStatus(seen.1, status);
      updated := r.Ok?;
      if updated { UpdateExact(before, fetched, StatusHalf(status)); }
    }

    /** The read of an attempt: of the cache or, if that shows what the last attempt has seen
        fail already, of the live resource. */
    method Read(previous: Option<nat>) returns (got: Answer<(Resource, nat)>, ghost base: nat)
      requires server.Valid()
      modifies server
      ensures server.Valid() && old(server.hist) <= server.hist && old(server.cacheIx) <= server.cacheIx
      ensures (server.View(), got, base) == Seen(old(server.View()), synced, previous)
      ensures base < |server.hist| && (got.Ok? ==> server.At(base) == got && (synced ==> old(server.cacheIx) <= base))
    {
      got, base := GetOperatorState();
      if got.Ok? && previous == Some(got.value.1) {
        got, base := GetOperatorStateWithQuorum();
      }
    }

    /** One attempt: read, compute and update. */
    method Attempt(f: Status -> Status, previous: Option<nat>)
      returns (r: Answer<Status>, updated: bool, version: Option<nat>,
        ghost base: nat, ghost before: seq<Option<Resource>>)
      requires server.Valid()
      modifies server
      ensures server.Valid() && old(server.hist) <= before && old(server.cacheIx) <= server.cacheIx
      ensures Ended(server.View(), r, updated, version, base) == Attempted(old(server.View()), synced, f, previous)
      ensures r.Ok? ==> base < |before| && (synced ==> old(server.cacheIx) <= base)
      ensures r.Ok? ==> before[base].Some? && r.value == f(before[base].value.status)
      ensures r.Ok? && !updated ==> server.hist == before && f(before[base].value.status) == before[base].value.status
      ensures r.Ok? && updated ==>
                (Last(before).Some? && before <= server.hist
                 && Last(server.hist) == Some(Last(before).value.(status := f(before[base].value.status))))
      ensures r.Conflict? || r.NotFound? ==> !updated && server.hist == before
    {
      hide Written, Seen;
      var got;
      got, base := Read(previous);
      before, updated, version := server.hist, false, previous;
      if !got.Ok? {
        r := if got.NotFound? then NotFound else Failed;
        return;
      }
      version := Some(got.value.1);
      ghost var seen := server.hist;
      r, updated, before := Submit(f, got.value, base);
      assert before[base] == seen[base];
    }

    /** v1helpers.UpdateStatus: at most four attempts, as long as they end in conflicts. It ends
        well in one of two ways: the functions changed nothing, and nothing was written; or what
        they made of one state at or after the cache's was written over the whole status of the
        live resource, and over nothing else. It does when its first attempt is uncontested, and
        on a quiet server with a cache that stays where it is; Failed means that a call had a
        fault, NotFound that the resource was missing, Conflict that what was fetched was no
        longer live, four times. (StatusRetries has the later attempts and the moving caches.) */
    method UpdateStatus(f: Status -> Status)
      returns (r: Answer<Status>, updated: bool, attempts: nat, ghost base: nat, ghost before: seq<Option<Resource>>)
      requires server.Valid()
      modifies server
      ensures server.Valid() && old(server.hist) <= before && attempts <= 4 && (r.Conflict? ==> attempts == 4)
      ensures var e := Retried(old(server.View()), synced, f, None, 4);
              server.View() == e.site && r == e.answer && updated == e.updated && base == e.base
      ensures r.Ok? ==> base < |before| && (synced ==> old(server.cacheIx) <= base)
      ensures r.Ok? ==> before[base].Some? && r.value == f(before[base].value.status)
      ensures r.Ok? && !updated ==> server.hist == before && f(before[base].value.status) == before[base].value.status
      ensures r.Ok? && updated ==>
                (Last(before).Some? && before <= server.hist
                 && Last(server.hist) == Some(Last(before).value.(status := f(before[base].value.status))))
      ensures r.Conflict? || r.NotFound? ==> server.hist == before
      ensures r.Failed? ==>
                exists i: nat ::
                  GapAt(old(server.plan), i).fault != Fine && server.plan == Rest(old(server.plan), i + 1)
      ensures r.NotFound? ==>
                exists i :: (if synced then old(server.cacheIx) else |old(server.hist)| - 1) <= i < |server.hist|
                            && server.hist[i].None?
      ensures r.Conflict? ==>
                exists cs: seq<Clash> :: |cs| == 4 && forall i :: 0 <= i < 4 ==> Clashed(server.hist, cs[i])
      ensures CalmCall(old(server.View()), synced) ==> r.Ok?
      ensures var s := old(server.View());
              Quiet(s.plan) && AllThere(s.hist) && (!synced || CacheStays(s)) ==> r.Ok?
    {
      hide Attempted, Quiet, CalmCall, Clashed, CacheStays;
      ghost var s := server.View();
      var previous: Option<nat>;
      r, updated, previous, base, before := Attempt(f, None);
      attempts := 1;
      while attempts < 4 && r.Conflict?
        invariant server.Valid() && old(server.hist) <= before && old(server.cacheIx) <= server.cacheIx
        invariant 1 <= attempts <= 4
        invariant var e := Ended(server.View(), r, updated, previous, base);
                  Retried(old(server.View()), synced, f, None, 4) ==
                    if r.Conflict? && attempts < 4
                    then Retried(server.View(), synced, f, previous, 4 - attempts) else e
        invariant r.Ok? ==> base < |before| && (synced ==> old(server.cacheIx) <= base)
        invariant r.Ok? ==> before[base].Some? && r.value == f(before[base].value.status)
        invariant r.Ok? && !updated ==>
                    server.hist == before && f(before[base].value.status) == before[base].value.status
        invariant r.Ok? && updated ==>
                    (Last(before).Some? && before <= server.hist
                     && Last(server.hist) == Some(Last(before).value.(status := f(before[base].value.status))))
        invariant r.Conflict? || r.NotFound? ==> server.hist == before
        decreases 4 - attempts
      {
        r, updated, previous, base, before := Attempt(f, previous);
        attempts := attempts + 1;
      }
      Ending(s, synced, f);
    }
  }
}
