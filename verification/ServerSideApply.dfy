/** ApplyOperatorSpec and ApplyOperatorStatus: skip if the field manager already owns just
    what is asked for, otherwise a forced server-side apply. */
module ServerSideApply {
  import opened Wrappers
  import opened OperatorStore

  /** Fields by name; a condition is a field of its own, as the server merges them by type. */
  datatype Field = Plain(name: string) | ConditionOf(kind: string)

  /** status and time are those of a condition; time is None where it is not given. */
  datatype Value = Value(text: string, status: string, time: Option<nat>)

  type Configuration = map<Field, Value>

  /** The fields of the spec or the status, and which of them each manager owns. */
  datatype Area = Area(fields: map<Field, Value>, owners: map<string, set<Field>>)

  datatype Resource = Resource(spec: Area, status: Area)

  const EMPTY := Area(map[], map[])

  predicate Sound(a: Area) {
    forall m :: m in a.owners ==> a.owners[m] <= a.fields.Keys
  }

  /** The configuration a manager owns, if it owns one. */
  function Extract(a: Area, manager: string): Option<Configuration> {
    if manager in a.owners then Some(map k | k in a.fields && k in a.owners[manager] :: a.fields[k]) else None
  }

  predicate OwnedByOthers(a: Area, manager: string, k: Field) {
    exists m :: m in a.owners && m != manager && k in a.owners[m]
  }

  /** Force: desired values win, fields the manager gives up go unless someone else owns them,
      and others lose the fields whose values were changed. */
  function Forced(a: Area, manager: string, desired: Configuration): Area {
    var mine := if manager in a.owners then a.owners[manager] else {};
    var fields := (map k | k in a.fields && (k !in mine || k in desired || OwnedByOthers(a, manager, k)) :: a.fields[k])
      + desired;
    var owners := map m | m in a.owners && m != manager ::
                    (set k | k in a.owners[m] && !(k in desired && k in a.fields && a.fields[k] != desired[k]));
    Area(fields, owners[manager := desired.Keys])
  }

  /** After a forced apply the manager owns exactly what it asked for; every other manager
      keeps exactly the fields the apply did not change, with their values; and fields nobody
      gave up stay. */
  lemma ForcedOwns(a: Area, manager: string, desired: Configuration)
    requires Sound(a)
    ensures var b := Forced(a, manager, desired);
            && Sound(b) && Extract(b, manager) == Some(desired)
            && (forall m, k :: m in a.owners && m != manager && k in a.owners[m] ==>
                  && k in b.fields && m in b.owners
                  && (k in b.owners[m] <==> b.fields[k] == a.fields[k]))
            && (forall k :: k in a.fields && k !in b.fields ==> manager in a.owners && k in a.owners[manager])
  {
    var b := Forced(a, manager, desired);
    forall m, k | m in a.owners && m != manager && k in a.owners[m]
      ensures k in b.fields && m in b.owners && (k in b.owners[m] <==> b.fields[k] == a.fields[k])
    {
      assert OwnedByOthers(a, manager, k);
    }
    forall m | m in b.owners ensures b.owners[m] <= b.fields.Keys {
      if m != manager {
        forall k | k in b.owners[m] ensures k in b.fields {
          assert k in a.owners[m];
          assert OwnedByOthers(a, manager, k);
        }
      }
    }
    assert Extract(b, manager).value == desired;
  }

  // ---- Transition times

  function Timed(v: Value, was: Option<Value>, now: nat): Value {
    var time := if was.Some? && was.value.status == v.status then was.value.time else v.time;
    v.(time := if time.None? then Some(now) else time)
  }

  /** SetApplyConditionsLastTransitionTime. */
  function WithTimes(desired: Configuration, original: Configuration, now: nat): Configuration {
    map k | k in desired ::
      if k.ConditionOf? then Timed(desired[k], if k in original then Some(original[k]) else None, now)
      else desired[k]
  }

  predicate SameButTimes(a: Configuration, b: Configuration) {
    && a.Keys == b.Keys
    && forall k :: k in a ==> if k.ConditionOf? then a[k].(time := None) == b[k].(time := None) else a[k] == b[k]
  }

  /** Only times are filled in, every condition gets one, and the time a condition had is kept
      as long as its status is. */
  lemma TimesOnly(desired: Configuration, original: Configuration, now: nat)
    ensures var t := WithTimes(desired, original, now);
            && SameButTimes(t, desired)
            && (forall k :: k in t && k.ConditionOf? ==> t[k].time.Some?)
            && (forall k ::
                 k in t && k.ConditionOf? && k in original && original[k].status == desired[k].status
                 && original[k].time.Some? ==>
                  t[k].time == original[k].time)
  {
  }

  lemma SelfTimes(a: Configuration)
    ensures SameButTimes(a, a)
  {
  }

  lemma RequestTimes(found: Option<Resource>, manager: string, desired: Configuration, now: nat)
    ensures var original := OwnedStatus(found, manager);
            SameButTimes(WithTimes(desired, if original.Some? then original.value else map[], now), desired)
  {
  }

  /** What a manager owns of the spec or status of a resource that may not be there. */
  function OwnedSpec(r: Option<Resource>, manager: string): Option<Configuration> {
    if r.Some? then Extract(r.value.spec, manager) else None
  }

  function OwnedStatus(r: Option<Resource>, manager: string): Option<Configuration> {
    if r.Some? then Extract(r.value.status, manager) else None
  }

  // ---- The two calls

  ghost predicate AllSound(h: seq<Option<Resource>>) {
    forall i :: 0 <= i < |h| && h[i].Some? ==> Sound(h[i].value.spec) && Sound(h[i].value.status)
  }

  /** Whatever others write, they write through the same server. */
  ghost predicate SoundPlan(plan: seq<Gap<Resource>>) {
    forall i :: 0 <= i < |plan| ==> AllSound(plan[i].writes)
  }

  class ApplyClient {
    const server: ApiServer<Resource>

    constructor (server: ApiServer<Resource>)
      ensures this.server == server
    {
      this.server := server;
    }

    ghost predicate Ready()
      reads server
    {
      server.Valid() && AllSound(server.hist) && SoundPlan(server.plan)
    }

    /** The history gained at most one state beyond what others wrote: the live resource with
        one area force-applied, the other as it was. */
    static ghost predicate SpecApplied(h: seq<Option<Resource>>, t: seq<Option<Resource>>, manager: string,
            desired: Configuration)
    {
      |h| > 0 && (t == h ||
        var base := if Last(h).Some? then Last(h).value else Resource(EMPTY, EMPTY);
        t == h + [Some(base.(spec := Forced(base.spec, manager, desired)))])
    }

    static ghost predicate StatusApplied(h: seq<Option<Resource>>, t: seq<Option<Resource>>, manager: string,
            desired: Configuration)
    {
      |h| > 0 && (t == h ||
        (Last(h).Some? && t == h + [Some(Last(h).value.(status := Forced(Last(h).value.status, manager, desired)))]))
    }

    /** A forced apply of the spec creates the resource if it is not there. */
    method ApplySpec(manager: string, desired: Configuration) returns (failed: bool)
      requires Ready()
      modifies server
      ensures Ready() && old(server.hist) <= server.hist
      ensures SpecApplied(old(server.hist) + Head(old(server.plan)).writes, server.hist, manager, desired)
      ensures failed <==> !Head(old(server.plan)).fault.Fine?
      ensures !failed ==> Last(server.hist).Some? && Extract(Last(server.hist).value.spec, manager) == Some(desired)
    {
      var g := server.Turn();
      if g.fault.Refused? { return true; }
      var live := server.hist[|server.hist| - 1];
      var base := if live.Some? then live.value else Resource(EMPTY, EMPTY);
      ForcedOwns(base.spec, manager, desired);
      var applied := Some(base.(spec := Forced(base.spec, manager, desired)));
      if applied != live {
        server.hist := server.hist + [applied];
      }
      failed := g.fault.Lost?;
    }

    /** The status of a resource that is not there cannot be applied. */
    method ApplyStatus(manager: string, desired: Configuration) returns (failed: bool)
      requires Ready()
      modifies server
      ensures Ready() && old(server.hist) <= server.hist
      ensures StatusApplied(old(server.hist) + Head(old(server.plan)).writes, server.hist, manager, desired)
      ensures failed <==>
                !Head(old(server.plan)).fault.Fine? || Last(old(server.hist) + Head(old(server.plan)).writes).None?
      ensures !failed ==> Last(server.hist).Some? && Extract(Last(server.hist).value.status, manager) == Some(desired)
    {
      var g := server.Turn();
      if g.fault.Refused? || server.hist[|server.hist| - 1].None? { return true; }
      var live := server.hist[|server.hist| - 1].value;
      ForcedOwns(live.status, manager, desired);
      var applied := live.(status := Forced(live.status, manager, desired));
      if applied != live {
        server.hist := server.hist + [Some(applied)];
      }
      failed := g.fault.Lost?;
    }

    /** A state of the resource during a call that started at position n. */
    ghost predicate OwnsAt(i: nat, n: nat, manager: string, desired: Configuration)
      reads server
    {
      n <= i < |server.hist| && server.hist[i].Some? && Extract(server.hist[i].value.spec, manager) == Some(desired)
    }

    ghost predicate OwnsStatusAt(i: nat, n: nat, manager: string, desired: Configuration)
      reads server
    {
      && n <= i < |server.hist| && server.hist[i].Some? && Extract(server.hist[i].value.status, manager).Some?
      && SameButTimes(Extract(server.hist[i].value.status, manager).value, desired)
    }

    /** When it succeeds, there was a moment during the call - at is its position - at which
        the manager owned exactly the fields asked for, with the values asked for, whether the
        resource was missing, already as desired, or applied to. */
    method ApplyOperatorSpec(manager: string, desired: Option<Configuration>) returns (failed: bool, ghost at: nat)
      requires Ready()
      modifies server
      ensures Ready() && old(server.hist) <= server.hist
      ensures !failed ==> desired.Some? && OwnsAt(at, |old(server.hist)| - 1, manager, desired.value)
      ensures desired.Some? && Head(old(server.plan)).fault.Fine? ==>
                var h := old(server.hist) + Head(old(server.plan)).writes;
                if OwnedSpec(Last(h), manager) == desired then !failed && server.hist == h
                else SpecApplied(h + Head(Tail(old(server.plan))).writes, server.hist, manager, desired.value)
      ensures desired.Some? && Head(old(server.plan)).fault.Fine? ==>
                var h := old(server.hist) + Head(old(server.plan)).writes;
                failed <==> OwnedSpec(Last(h), manager) != desired && !Head(Tail(old(server.plan))).fault.Fine?
      ensures !Head(old(server.plan)).fault.Fine? ==>
                failed && (desired.Some? ==> server.hist == old(server.hist) + Head(old(server.plan)).writes)
      ensures desired.None? ==> failed && server.hist == old(server.hist)
    {
      at := 0;
      if desired.None? { return true, at; }
      var instance, ix := server.Get(None);
      if !instance.Ok? && !instance.NotFound? {
        return true, at;
      }
      if instance.Ok? {
        var original := Extract(instance.value.0.spec, manager);
        if original == desired {
          return false, ix;
        }
      }
      failed := ApplySpec(manager, desired.value);
      at := |server.hist| - 1;
    }

    /** What is to be applied to the status found, if anything: nothing if the manager owns just
        that, else the request with its transition times. */
    static method StatusRequest(found: Option<Resource>, manager: string, desired: Configuration, now: nat)
      returns (config: Option<Configuration>)
      ensures var original := OwnedStatus(found, manager);
              config == if original == Some(desired) then None
                        else Some(WithTimes(desired, if original.Some? then original.value else map[], now))
    {
      if found.None? {
        return Some(WithTimes(desired, map[], now));
      }
      var original := Extract(found.value.status, manager);
      if original == Some(desired) {
        return None;
      }
      config := Some(WithTimes(desired, if original.Some? then original.value else map[], now));
    }

    /** The same for the status, up to transition times. */
    method ApplyOperatorStatus(manager: string, desired: Option<Configuration>, now: nat)
      returns (failed: bool, ghost at: nat)
      requires Ready()
      modifies server
      ensures Ready() && old(server.hist) <= server.hist
      ensures !failed ==> desired.Some? && OwnsStatusAt(at, |old(server.hist)| - 1, manager, desired.value)
      ensures desired.Some? && Head(old(server.plan)).fault.Fine? ==>
                var h := old(server.hist) + Head(old(server.plan)).writes;
                var original := OwnedStatus(Last(h), manager);
                if original == desired then !failed && server.hist == h
                else StatusApplied(h + Head(Tail(old(server.plan))).writes, server.hist, manager,
                                   WithTimes(desired.value, if original.Some? then original.value else map[], now))
      ensures desired.Some? && Head(old(server.plan)).fault.Fine? ==>
                var h := old(server.hist) + Head(old(server.plan)).writes;
                var t := h + Head(Tail(old(server.plan))).writes;
                failed <==> OwnedStatus(Last(h), manager) != desired
                            && (!Head(Tail(old(server.plan))).fault.Fine? || Last(t).None?)
      ensures !Head(old(server.plan)).fault.Fine? ==>
                failed && (desired.Some? ==> server.hist == old(server.hist) + Head(old(server.plan)).writes)
      ensures desired.None? ==> failed && server.hist == old(server.hist)
    {
      at := 0;
      if desired.None? { return true, at; }
      hide WithTimes, Forced, Extract, StatusApplied;
      var instance, ix := server.Get(None);
      if !instance.Ok? && !instance.NotFound? {
        return true, at;
      }
      var found := if instance.Ok? then Some(instance.value.0) else None;
      var config := StatusRequest(found, manager, desired.value, now);
      if config.None? {
        SelfTimes(desired.value);
        return false, ix;
      }
      RequestTimes(found, manager, desired.value, now);
      failed := ApplyStatus(manager, config.value);
      at := |server.hist| - 1;
    }
  }
}
