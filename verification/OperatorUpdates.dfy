/** The versioned read-modify-writes of the operator resource as values: what the server answers
    to one update, and what the retry loop library-go puts around the status update makes of
    a server and a plan of its other users. */
module OperatorUpdates {
  import opened Wrappers
  import opened OperatorStore
  import ClusterModel

  type Status = ClusterModel.Status

  datatype Resource = Resource(spec: string, status: Status, meta: string)

  /** What an update carries: the subresource decides which half the server looks at. */
  datatype Half = SpecHalf(spec: string) | StatusHalf(status: Status)

  function With(r: Resource, half: Half): Resource {
    match half
    case SpecHalf(spec) => r.(spec := spec)
    case StatusHalf(status) => r.(status := status)
  }

  /** The half of r that an update with this half would overwrite. */
  function Overwritten(r: Resource, half: Half): Half {
    match half
    case SpecHalf(_) => SpecHalf(r.spec)
    case StatusHalf(_) => StatusHalf(r.status)
  }

  /** The server's answer to an update of the object fetched at position f. */
  function Updated(h: seq<Option<Resource>>, f: nat, half: Half): Answer<seq<Option<Resource>>>
    requires f < |h| && h[f].Some?
  {
    if Last(h).None? then NotFound
    else if VersionAt(h, f) != VersionAt(h, |h| - 1) then Conflict
    else if With(Last(h).value, half) == Last(h).value then Ok(h)
    else Ok(h + [Some(With(Last(h).value, half))])
  }

  /** An update lands exactly when what was fetched is still live without interruption; then
      it changes its own half of what is live and nothing else. */
  lemma UpdateExact(h: seq<Option<Resource>>, f: nat, half: Half)
    requires f < |h| && h[f].Some?
    ensures Updated(h, f, half).Ok? <==> forall k :: f <= k < |h| ==> h[k] == h[f]
    ensures Updated(h, f, half).Ok? ==>
              var t := Updated(h, f, half).value;
              && h <= t && Last(t) == Some(With(h[f].value, half))
              && Overwritten(Last(t).value, half) == half
              && (half.SpecHalf? ==> Last(t).value.status == Last(h).value.status)
              && (half.StatusHalf? ==> Last(t).value.spec == Last(h).value.spec)
              && Last(t).value.meta == Last(h).value.meta
  {
    SameVersion(h, f, |h| - 1);
  }

  /** Isolation of the read-modify-write. The caller computed the new half from the state at
      base. If the object fetched has the base's version, nobody wrote in between and no other
      writer's update is lost; in general the update that lands loses somebody's exactly when
      the half it overwrites is no longer the base's. */
  lemma NothingLost(h: seq<Option<Resource>>, base: nat, f: nat, half: Half)
    requires base <= f < |h| && h[base].Some? && h[f].Some? && Updated(h, f, half).Ok?
    ensures VersionAt(h, f) == VersionAt(h, base) ==> forall k :: base <= k < |h| ==> h[k] == h[base]
    ensures VersionAt(h, f) == VersionAt(h, base) ==> Last(Updated(h, f, half).value) == Some(With(h[base].value, half))
    ensures Last(Updated(h, f, half).value) == Some(With(h[f].value, half))
    ensures Overwritten(Last(h).value, half) == Overwritten(h[base].value, half) <==>
              Overwritten(h[f].value, half) == Overwritten(h[base].value, half)
  {
    UpdateExact(h, f, half);
    SameVersion(h, base, f);
    SameVersion(h, f, |h| - 1);
  }

  /** The hypothesis is needed: between the caller's read and the fetch another writer may
      put any status, and the update then succeeds over it. */
  lemma LostUpdate(r: Resource, theirs: Status, mine: Status)
    requires theirs != r.status && mine != theirs
    ensures var h := [Some(r), Some(r.(status := theirs))];
            && Updated(h, 1, StatusHalf(mine)).Ok?
            && Last(Updated(h, 1, StatusHalf(mine)).value) == Some(r.(status := mine))
            && Updated(h, 0, StatusHalf(mine)) == Conflict
  {
    var h := [Some(r), Some(r.(status := theirs))];
    assert VersionAt(h, 0) == 0 && VersionAt(h, 1) == 1;
  }

  // ---- The status update as a value

  /** An update of one half: what it leaves and answers. */
  function Halved(s: Site<Resource>, version: nat, half: Half): (e: (Site<Resource>, Answer<Resource>))
    requires Sited(s) && version < |s.hist|
    ensures Sited(e.0)
  {
    var t := Turned(s);
    var f := Clip(version, Head(s.plan).serve, |t.hist| - 1);
    if !Head(s.plan).fault.Fine? then (t, Failed)
    else if t.hist[f].None? then (t, NotFound)
    else
      var u, fault := Turned(t), Head(t.plan).fault;
      if fault.Refused? then (u, Failed)
      else match Updated(u.hist, f, half)
        case Ok(h) => (u.(hist := h), if fault.Lost? then Failed else Ok(With(u.hist[f].value, half)))
        case NotFound => (u, if fault.Lost? then Failed else NotFound)
        case Conflict => (u, if fault.Lost? then Failed else Conflict)
        case Failed => (u, Failed)
  }

  function StatusOf(r: Answer<Resource>): Answer<Status> {
    match r
    case Ok(o) => Ok(o.status)
    case NotFound => NotFound
    case Conflict => Conflict
    case Failed => Failed
  }

  /** How an attempt ends, the version it has read and the position of that read. */
  datatype Ended = Ended(site: Site<Resource>, answer: Answer<Status>, updated: bool, version: Option<nat>, base: nat)

  /** The second half of an attempt, from what has been read. */
  function Written(s: Site<Resource>, base: nat, f: Status -> Status): (e: Ended)
    requires Sited(s) && base < |s.hist| && s.hist[base].Some?
    ensures Sited(e.site) && e.base == base
  {
    var was, version := s.hist[base].value.status, VersionAt(s.hist, base);
    if f(was) == was then Ended(s, Ok(f(was)), false, Some(version), base)
    else
      var e := Halved(s, version, StatusHalf(f(was)));
      Ended(e.0, StatusOf(e.1), e.1.Ok?, Some(version), base)
  }

  /** The read of an attempt, after one that has read the previous version: of the cache, or of
      the live resource if the cache shows that version still. */
  function Seen(s: Site<Resource>, synced: bool, previous: Option<nat>)
    : (x: (Site<Resource>, Answer<(Resource, nat)>, nat))
    requires Sited(s)
    ensures Sited(x.0) && x.2 < |x.0.hist|
    ensures x.1.Ok? ==> x.0.hist[x.2] == Some(x.1.value.0) && x.1.value.1 == VersionAt(x.0.hist, x.2)
    ensures x.1.NotFound? ==> x.0.hist[x.2].None?
    ensures !x.1.Conflict?
  {
    var t := Turned(s);
    var base := if synced then t.cacheIx else |t.hist| - 1;
    if !synced && !Head(s.plan).fault.Fine? then (t, Failed, base)
    else if t.hist[base].None? then (t, NotFound, base)
    else if previous == Some(VersionAt(t.hist, base)) then
      var u := Turned(t);
      var last := |u.hist| - 1;
      if !Head(t.plan).fault.Fine? then (u, Failed, last)
      else if u.hist[last].None? then (u, NotFound, last)
      else (u, Ok((u.hist[last].value, VersionAt(u.hist, last))), last)
    else (t, Ok((t.hist[base].value, VersionAt(t.hist, base))), base)
  }

  /** One attempt. */
  function Attempted(s: Site<Resource>, synced: bool, f: Status -> Status, previous: Option<nat>): (e: Ended)
    requires Sited(s)
    ensures Sited(e.site)
  {
    var x := Seen(s, synced, previous);
    match x.1
    case Ok(_) => Written(x.0, x.2, f)
    case NotFound => Ended(x.0, NotFound, false, previous, x.2)
    case _ => Ended(x.0, Failed, false, previous, x.2)
  }

  /** Attempts until one does not end in a conflict, n at most. */
  function Retried(s: Site<Resource>, synced: bool, f: Status -> Status, previous: Option<nat>, n: nat): (e: Ended)
    requires Sited(s) && n > 0
    ensures Sited(e.site)
    decreases n
  {
    var e := Attempted(s, synced, f, previous);
    if e.answer.Conflict? && n > 1 then Retried(e.site, synced, f, e.version, n - 1) else e
  }
}
