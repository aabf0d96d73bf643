/** The shared informer factory: a state machine whose steps are its critical sections, the
    class that takes those steps, and what holds over every interleaving of them. */
module InformerFactory {
  import opened Wrappers

  /** The settings every informer of the factory is made with. */
  datatype Options = Options(defaultResync: nat, customResync: map<string, nat>, transform: bool)

  /** Informers are told apart by id; kind is the type they are for. */
  datatype Informer = Informer(id: nat, kind: string, resync: nat, transformed: bool)

  /** ran has every goroutine ever launched, finished those that have ended; synced and
      cancelled are the informers' and the context's own doing. */
  datatype Factory = Factory(
    informers: map<string, Informer>,
    started: set<string>,
    shuttingDown: bool,
    ran: multiset<Informer>,
    finished: multiset<Informer>,
    made: nat,
    synced: set<nat>,
    cause: Option<string>)

  const NEW := Factory(map[], {}, false, multiset{}, multiset{}, 0, {}, None)

  function Make(o: Options, id: nat, kind: string): Informer {
    Informer(id, kind, if kind in o.customResync then o.customResync[kind] else o.defaultResync, o.transform)
  }

  /** InformerFor, in one critical section. */
  function Registered(o: Options, f: Factory, kind: string): Factory {
    if kind in f.informers then f
    else f.(informers := f.informers[kind := Make(o, f.made, kind)], made := f.made + 1)
  }

  /** The goroutines a start would launch. */
  function Pending(f: Factory): set<Informer> {
    set t | t in f.informers && t !in f.started :: f.informers[t]
  }

  /** StartWithContext, in one critical section. */
  function Started(f: Factory): Factory {
    if f.shuttingDown then f
    else f.(started := f.started + f.informers.Keys, ran := f.ran + multiset(Pending(f)))
  }

  /** The wait group's counter. */
  function Running(f: Factory): multiset<Informer> {
    f.ran - f.finished
  }

  datatype Event =
    | Register(kind: string)
    | Start
    | BeginShutdown
    | Finish(informer: Informer)
    | Sync(id: nat)
    | Cancel(why: string)

  /** Anyone's step; a goroutine can only end while it runs, and a context only be cancelled
      once. */
  function After(o: Options, f: Factory, e: Event): Factory {
    match e
    case Register(kind) => Registered(o, f, kind)
    case Start => Started(f)
    case BeginShutdown => f.(shuttingDown := true)
    case Finish(i) => if i in Running(f) then f.(finished := f.finished + multiset{i}) else f
    case Sync(id) => f.(synced := f.synced + {id})
    case Cancel(why) => if f.cause.None? then f.(cause := Some(why)) else f
  }

  function Run(o: Options, f: Factory, es: seq<Event>): Factory
    decreases |es|
  {
    if es == [] then f else Run(o, After(o, f, es[0]), es[1..])
  }

  /** Started types are registered; informers are kept under their types; the goroutines
      launched are those of the started types, one each. */
  ghost predicate Inv(f: Factory) {
    && f.started <= f.informers.Keys
    && (forall t :: t in f.informers ==> f.informers[t].kind == t)
    && f.ran == multiset(Of(f, f.started))
    && f.finished <= f.ran
  }

  function Of(f: Factory, kinds: set<string>): set<Informer> {
    set t | t in kinds && t in f.informers :: f.informers[t]
  }

  lemma InvStart(f: Factory)
    requires Inv(f)
    ensures Inv(Started(f))
  {
    if !f.shuttingDown {
      var g := Started(f);
      assert Of(g, g.started) == Of(f, f.started) + Pending(f);
      forall i | i in Of(f, f.started) ensures i !in Pending(f) {
        var t :| t in f.started && f.informers[t] == i;
        assert i.kind == t;
      }
    }
  }

  lemma InvRegister(o: Options, f: Factory, kind: string)
    requires Inv(f)
    ensures Inv(Registered(o, f, kind))
  {
    var g := Registered(o, f, kind);
    assert Of(g, g.started) == Of(f, f.started);
  }

  lemma InvFinish(f: Factory, i: Informer)
    requires Inv(f) && i in Running(f)
    ensures Inv(f.(finished := f.finished + multiset{i}))
  {
    var g := f.(finished := f.finished + multiset{i});
    assert Of(g, g.started) == Of(f, f.started);
  }

  lemma InvStep(o: Options, f: Factory, e: Event)
    requires Inv(f)
    ensures Inv(After(o, f, e))
  {
    hide Inv, Registered, Started;
    match e {
      case Register(kind) => InvRegister(o, f, kind);
      case Start => InvStart(f);
      case Finish(i) => if i in Running(f) { InvFinish(f, i); }
      case _ => InvSame(f, After(o, f, e));
    }
  }

  lemma InvSame(f: Factory, g: Factory)
    requires Inv(f) && g == f.(shuttingDown := g.shuttingDown, synced := g.synced, cause := g.cause)
    ensures Inv(g)
  {
    assert Of(g, g.started) == Of(f, f.started);
  }

  lemma {:induction false} InvRun(o: Options, f: Factory, es: seq<Event>)
    requires Inv(f)
    ensures Inv(Run(o, f, es))
    decreases |es|
  {
    if es != [] {
      InvStep(o, f, es[0]);
      InvRun(o, After(o, f, es[0]), es[1..]);
    }
  }

  /** What no step takes back. */
  predicate Grows(f: Factory, g: Factory) {
    && (forall t :: t in f.informers ==> t in g.informers && g.informers[t] == f.informers[t])
    && f.started <= g.started && f.ran <= g.ran && f.finished <= g.finished && f.synced <= g.synced && f.made <= g.made
    && (f.shuttingDown ==> g.shuttingDown && g.ran == f.ran && g.started == f.started)
    && (f.cause.Some? ==> g.cause == f.cause)
  }

  lemma GrowsStep(o: Options, f: Factory, e: Event)
    ensures Grows(f, After(o, f, e))
  {
    hide Make, Pending;
  }

  lemma GrowsOn(f: Factory, g: Factory, h: Factory)
    requires Grows(f, g) && Grows(g, h)
    ensures Grows(f, h)
  {
  }

  lemma {:induction false} GrowsRun(o: Options, f: Factory, es: seq<Event>)
    ensures Grows(f, Run(o, f, es))
    decreases |es|
  {
    hide Grows, After;
    if es == [] {
      GrowsSelf(f);
    } else {
      GrowsStep(o, f, es[0]);
      GrowsRun(o, After(o, f, es[0]), es[1..]);
      GrowsOn(f, After(o, f, es[0]), Run(o, f, es));
    }
  }

  lemma GrowsSelf(f: Factory)
    ensures Grows(f, f)
  {
  }

  /** No two informers share an id: newFunc makes a new one every time it is called. */
  ghost predicate OwnIds(f: Factory) {
    && (forall t :: t in f.informers ==> f.informers[t].id < f.made)
    && (forall s, t :: s in f.informers && t in f.informers && s != t ==> f.informers[s].id != f.informers[t].id)
  }

  lemma {:induction false} OwnIdsRun(o: Options, f: Factory, es: seq<Event>)
    requires OwnIds(f)
    ensures OwnIds(Run(o, f, es))
    decreases |es|
  {
    if es != [] {
      OwnIdsStep(o, f, es[0]);
      OwnIdsRun(o, After(o, f, es[0]), es[1..]);
    }
  }

  lemma OwnIdsStep(o: Options, f: Factory, e: Event)
    requires OwnIds(f)
    ensures OwnIds(After(o, f, e))
  {
    hide Pending, Running;
  }

  lemma {:induction false} OfSize(f: Factory, kinds: set<string>)
    requires Inv(f) && kinds <= f.informers.Keys
    ensures |Of(f, kinds)| == |kinds|
    decreases kinds
  {
    if kinds != {} {
      var t :| t in kinds;
      OfSize(f, kinds - {t});
      assert Of(f, kinds) == Of(f, kinds - {t}) + {f.informers[t]};
      assert f.informers[t] !in Of(f, kinds - {t});
    } else {
      assert Of(f, kinds) == {};
    }
  }

  /** Exactly-once start, over any interleaving of registrations, starts, shutdowns and
      everything the informers do: one informer per type, whose identity never changes; every
      informer is run at most once, and just those of the started types, which are registered
      types; the goroutines launched are as many as the started types. */
  lemma ExactlyOnce(o: Options, es: seq<Event>, later: seq<Event>)
    ensures var f := Run(o, NEW, es);
            var g := Run(o, f, later);
            && (forall t :: t in f.informers ==> t in g.informers && g.informers[t] == f.informers[t])
            && (forall s, t ::
                 s in f.informers && t in f.informers && f.informers[s].id == f.informers[t].id ==> s == t)
            && (forall i :: f.ran[i] <= 1)
            && (forall t :: t in f.informers ==> (f.informers[t] in f.ran <==> t in f.started))
            && f.started <= f.informers.Keys && |f.ran| == |f.started|
  {
    assert Of(NEW, {}) == {};
    InvRun(o, NEW, es);
    OwnIdsRun(o, NEW, es);
    var f := Run(o, NEW, es);
    GrowsRun(o, f, later);
    hide Run;
    OfSize(f, f.started);
    forall t | t in f.informers ensures f.informers[t] in f.ran <==> t in f.started {
      if f.informers[t] in f.ran {
        var s :| s in f.started && f.informers[s] == f.informers[t];
        assert f.informers[s].kind == s;
      }
    }
  }

  /** Nothing is started once a shutdown has begun; and when the wait group lets Shutdown
      return, no goroutine runs, then or ever after. */
  lemma ShutdownIsFinal(o: Options, es: seq<Event>, later: seq<Event>)
    requires Run(o, NEW, es).shuttingDown
    ensures var f := Run(o, NEW, es);
            var g := Run(o, f, later);
            && g.shuttingDown && g.ran == f.ran && g.started == f.started
            && (Running(f) == multiset{} ==> Running(g) == multiset{})
  {
    GrowsRun(o, Run(o, NEW, es), later);
  }

  // ---- The factory as an object

  /** The critical sections of other threads, before one of ours. */
  type Plan = seq<seq<Event>>

  datatype SyncResult = SyncResult(synced: map<string, bool>, err: Option<string>)

  class SharedInformerFactory {
    const options: Options
    var informers: map<string, Informer>
    var startedInformers: map<string, bool>
    var shuttingDown: bool
    var made: nat
    // the wait group and the goroutines it counts
    var ran: multiset<Informer>
    var finished: multiset<Informer>
    // the informers' and the context's state
    var synced: set<nat>
    var cause: Option<string>
    // whether the name the factory registers its informers under has been given back
    var nameReleased: bool
    // what other threads are going to do
    var plan: Plan

    ghost predicate Valid()
      reads this
    {
      (forall t :: t in startedInformers ==> startedInformers[t]) && Inv(View())
    }

    function View(): Factory
      reads this
    {
      Factory(informers, startedInformers.Keys, shuttingDown, ran, finished, made, synced, cause)
    }

    constructor (options: Options, plan: Plan)
      ensures Valid() && View() == NEW && this.plan == plan && this.options == options && !nameReleased
    {
      this.options, this.plan := options, plan;
      informers, startedInformers, shuttingDown, made := map[], map[], false, 0;
      ran, finished, synced, cause, nameReleased := multiset{}, multiset{}, {}, None, false;
      new;
      assert Of(NEW, {}) == {};
    }

    method Become(f: Factory)
      modifies this
      ensures View() == f && plan == old(plan) && nameReleased == old(nameReleased)
      ensures forall t :: t in startedInformers ==> startedInformers[t]
    {
      informers, shuttingDown, made, ran, finished, synced, cause :=
        f.informers, f.shuttingDown, f.made, f.ran, f.finished, f.synced, f.cause;
      startedInformers := map t | t in f.started :: true;
      assert startedInformers.Keys == f.started;
    }

    /** Other threads take their steps. */
    method Turn()
      requires Valid()
      modifies this
      ensures Valid() && plan == (if old(plan) == [] then [] else old(plan)[1..]) && nameReleased == old(nameReleased)
      ensures View() == Run(options, old(View()), if old(plan) == [] then [] else old(plan)[0])
      ensures Grows(old(View()), View())
    {
      hide Inv, Grows, Run, After;
      var es := if plan == [] then [] else plan[0];
      GrowsRun(options, View(), es);
      InvRun(options, View(), es);
      plan := if plan == [] then [] else plan[1..];
      Become(Run(options, View(), es));
    }

    method InformerFor(kind: string) returns (informer: Informer)
      requires Valid()
      modifies `informers, `made
      ensures Valid() && View() == Registered(options, old(View()), kind)
      ensures kind in informers && informer == informers[kind] && informer.kind == kind
      ensures informers == old(informers)[kind := informer]
      ensures kind in old(informers) ==> informer == old(informers)[kind]
      ensures kind !in old(informers) ==>
                informer == Informer(old(made), kind,
                                     if kind in options.customResync then options.customResync[kind]
                                     else options.defaultResync, options.transform)
    {
      hide Inv;
      InvRegister(options, View(), kind);
      KindOf(View(), kind);
      if kind in informers {
        return informers[kind];
      }
      informer := NewInformer(kind);
      informers := informers[kind := informer];
      made := made + 1;
      assert View() == Registered(options, old(View()), kind);
    }

    method NewInformer(kind: string) returns (informer: Informer)
      ensures informer == Make(options, made, kind) && informer.kind == kind
    {
      var resyncPeriod;
      if kind in options.customResync {
        resyncPeriod := options.customResync[kind];
      } else {
        resyncPeriod := options.defaultResync;
      }
      informer := Informer(made, kind, resyncPeriod, false);
      if options.transform {
        informer := informer.(transformed := true);
      }
    }

    /** Launches a goroutine for every informer not started yet, in any order. */
    method StartWithContext()
      requires Valid()
      modifies `startedInformers, `ran
      ensures Valid() && View() == Started(old(View()))
      ensures !old(shuttingDown) ==>
                && startedInformers.Keys == informers.Keys
                && ran == old(ran) + multiset(set t | t in informers && t !in old(startedInformers) :: informers[t])
      ensures old(shuttingDown) ==> startedInformers == old(startedInformers) && ran == old(ran)
    {
      hide Inv;
      ghost var f := View();
      InvStart(f);
      StartedKeys(f);
      if shuttingDown {
        return;
      }
      LaunchAll();
      assert startedInformers.Keys == f.started + informers.Keys;
      assert View() == Started(f);
    }

    /** The loop over the registered informers. */
    method LaunchAll()
      requires Valid()
      modifies `startedInformers, `ran
      ensures forall t :: t in startedInformers ==> startedInformers[t]
      ensures forall t :: t in startedInformers <==> t in old(startedInformers) || t in informers
      ensures ran == old(ran) + multiset(Pending(old(View())))
    {
      hide Inv, PendingBut, Pending;
      ghost var f := View();
      var todo := informers.Keys;
      NoneYet(f);
      while todo != {}
        invariant f.informers == informers && Inv(f) && todo <= informers.Keys
        invariant forall t :: t in startedInformers ==> startedInformers[t]
        invariant forall t :: t in startedInformers <==> t in f.started || (t in informers && t !in todo)
        invariant ran == f.ran + multiset(PendingBut(f, todo))
        decreases todo
      {
        var informerType :| informerType in todo;
        OneMore(f, todo, informerType);
        Launch(informerType, informers[informerType]);
        todo := todo - {informerType};
      }
    }

    method Launch(informerType: string, informer: Informer)
      requires forall t :: t in startedInformers ==> startedInformers[t]
      modifies `startedInformers, `ran
      ensures forall t :: t in startedInformers ==> startedInformers[t]
      ensures forall t :: t in startedInformers <==> t in old(startedInformers) || t == informerType
      ensures ran == old(ran) + if informerType in old(startedInformers) then multiset{} else multiset{informer}
    {
      if informerType !in startedInformers || !startedInformers[informerType] {
        ran := ran + multiset{informer};
        startedInformers := startedInformers[informerType := true];
      }
    }

    /** The critical section of Shutdown; the wait for the goroutines comes after it. */
    method BeginShutdownSection()
      requires Valid()
      modifies this
      ensures Valid() && View() == old(View()).(shuttingDown := true) && plan == old(plan)
      ensures nameReleased == old(nameReleased)
    {
      InvStep(options, View(), BeginShutdown);
      shuttingDown := true;
    }

    /** Shutdown returns, and gives back the factory's name, only when every goroutine has ended;
        none will run after it. If the other threads' plan is over before that, it is still
        waiting. */
    method Shutdown() returns (returned: bool)
      requires Valid()
      modifies this
      ensures Valid() && shuttingDown && Grows(old(View()), View())
      ensures returned <==> ran - finished == multiset{}
      ensures nameReleased <==> returned || old(nameReleased)
      ensures !returned ==> plan == []
    {
      hide Inv, Run, After;
      BeginShutdownSection();
      while Running(View()) != multiset{} && plan != []
        invariant Valid() && shuttingDown && Grows(old(View()), View()) && nameReleased == old(nameReleased)
        decreases |plan|
      {
        Turn();
      }
      returned := Running(View()) == multiset{};
      if returned {
        nameReleased := true;
      }
    }

    /** The snapshot of the started informers, in one critical section. */
    method Snapshot() returns (snapshot: map<string, Informer>)
      requires Valid()
      ensures forall t :: t in snapshot <==> t in informers && t in startedInformers
      ensures forall t :: t in snapshot ==> snapshot[t] == informers[t]
    {
      snapshot := map[];
      var todo := informers.Keys;
      while todo != {}
        invariant todo <= informers.Keys
        invariant forall t :: t in snapshot <==> t in informers && t !in todo && t in startedInformers
        invariant forall t :: t in snapshot ==> snapshot[t] == informers[t]
        decreases todo
      {
        var informerType :| informerType in todo;
        if informerType in startedInformers && startedInformers[informerType] {
          snapshot := snapshot[informerType := informers[informerType]];
        }
        todo := todo - {informerType};
      }
    }

    /** cache.WaitFor: until all of them have synced or the context is cancelled. */
    method WaitFor(snapshot: map<string, Informer>) returns (returned: bool)
      requires Valid()
      modifies this
      ensures Valid() && Grows(old(View()), View())
      ensures returned ==> (forall t :: t in snapshot ==> snapshot[t].id in synced) || cause.Some?
      ensures (forall t :: t in snapshot ==> snapshot[t].id in old(synced)) || old(cause).Some? ==>
                returned && plan == old(plan)
      ensures !returned ==> plan == [] && cause.None? && exists t :: t in snapshot && snapshot[t].id !in synced
    {
      while !AllSynced(View(), snapshot) && cause.None? && plan != []
        invariant Valid() && Grows(old(View()), View())
        invariant AllSynced(old(View()), snapshot) || old(cause).Some? ==> plan == old(plan)
        decreases |plan|
      {
        Turn();
      }
      returned := AllSynced(View(), snapshot) || cause.Some?;
    }

    /** Reports on exactly the informers registered and started when it is called, all of which
        are still there and still started when it returns, whatever other threads register and start
        meanwhile. Every report is true to a moment between the snapshot and the return, and
        the error is unset exactly when every reported informer has synced; unless the context
        has been cancelled by then, all of them have. None means that it
        is still waiting when the other threads' plan is over. */
    method WaitForCacheSyncWithContext() returns (r: Option<SyncResult>, ghost snapshot: map<string, Informer>)
      requires Valid()
      modifies this
      ensures Valid() && Grows(old(View()), View())
      ensures forall t :: t in snapshot <==> t in old(informers) && t in old(startedInformers)
      ensures forall t :: t in snapshot ==> snapshot[t] == old(informers)[t]
      ensures forall t :: t in snapshot ==> t in informers && informers[t] == snapshot[t] && t in startedInformers
      ensures r.Some? ==> forall t :: t in r.value.synced <==> t in old(informers) && t in old(startedInformers)
      ensures r.Some? && cause.None? ==>
                && r.value.err.None?
                && forall t :: t in old(informers) && t in old(startedInformers) ==>
                     old(informers)[t].id in synced && t in r.value.synced && r.value.synced[t]
      ensures r.Some? ==>
                && r.value.synced.Keys == snapshot.Keys
                && (forall t :: t in snapshot && r.value.synced[t] ==> snapshot[t].id in synced)
                && (forall t :: t in snapshot && snapshot[t].id in old(synced) ==> r.value.synced[t])
                && (r.value.err.None? <==> forall t :: t in snapshot ==> r.value.synced[t])
                && (r.value.err.Some? ==> r.value.err == cause)
      ensures r.None? ==> plan == [] && cause.None?
      ensures r.None? ==>
                exists t :: t in old(informers) && t in old(startedInformers) && old(informers)[t].id !in synced
    {
      hide Inv, Run, After;
      var started := Snapshot();
      snapshot := started;
      var returned := WaitFor(started);
      if !returned {
        return None, snapshot;
      }
      var res, failed := Report(started);
      r := Some(SyncResult(res, if failed then cause else None));
    }

    /** The loop that asks every informer of the snapshot. */
    method Report(started: map<string, Informer>) returns (res: map<string, bool>, failed: bool)
      requires Valid() && (AllSynced(View(), started) || cause.Some?)
      modifies this
      ensures Valid() && Grows(old(View()), View()) && res.Keys == started.Keys
      ensures forall t :: t in res ==> (res[t] ==> started[t].id in synced) && (started[t].id in old(synced) ==> res[t])
      ensures failed <==> exists t :: t in res && !res[t]
      ensures failed ==> cause.Some?
    {
      hide Inv, Run, After;
      res, failed := map[], false;
      var todo := started.Keys;
      while todo != {}
        invariant Valid() && Grows(old(View()), View())
        invariant todo <= started.Keys && res.Keys == started.Keys - todo
        invariant AllSynced(View(), started) || cause.Some?
        invariant forall t :: t in res ==>
                  (res[t] ==> started[t].id in synced) && (started[t].id in old(synced) ==> res[t])
        invariant failed ==> exists t :: t in res && !res[t]
        invariant !failed ==> forall t :: t in res ==> res[t]
        invariant failed ==> cause.Some?
        decreases todo
      {
        Turn();
        var informType :| informType in todo;
        var hasSynced := started[informType].id in synced;
        if !hasSynced {
          failed := true;
        }
        ghost var was := res;
        res := res[informType := hasSynced];
        assert forall t :: t in was ==> t in res && res[t] == was[t];
        todo := todo - {informType};
      }
    }
  }

  /** The goroutines launched while todo is still to be looked at. */
  function PendingBut(f: Factory, todo: set<string>): set<Informer> {
    set t | t in f.informers && t !in todo && t !in f.started :: f.informers[t]
  }

  lemma NoneYet(f: Factory)
    ensures multiset(PendingBut(f, f.informers.Keys)) == multiset{} && PendingBut(f, {}) == Pending(f)
  {
    assert PendingBut(f, f.informers.Keys) == {};
  }

  lemma StartedKeys(f: Factory)
    requires Inv(f)
    ensures f.started + f.informers.Keys == f.informers.Keys
  {
  }

  lemma KindOf(f: Factory, kind: string)
    requires Inv(f)
    ensures kind in f.informers ==> f.informers[kind].kind == kind
  {
  }

  lemma OneMore(f: Factory, todo: set<string>, t: string)
    requires Inv(f) && t in f.informers && t in todo
    ensures multiset(PendingBut(f, todo - {t})) ==
              multiset(PendingBut(f, todo)) + (if t in f.started then multiset{} else multiset{f.informers[t]})
  {
    assert f.informers[t] !in PendingBut(f, todo);
    assert PendingBut(f, todo - {t}) == PendingBut(f, todo) + (if t in f.started then {} else {f.informers[t]});
  }

  predicate AllSynced(f: Factory, snapshot: map<string, Informer>) {
    forall t :: t in snapshot ==> snapshot[t].id in f.synced
  }
}
