/** The one thing that can differ between two interleavings of the two writers' applies is the
    Deployment, through the resource version of the ConfigMap stamped into its template. Here
    is what decides it, to be read off before the first call. */
module StampedInterleavings {
  import opened Wrappers
  import opened ClusterModel
  import opened Applying
  import opened ApiHistory
  import opened Machine
  import opened TwoWriters
  import Completion

  // ---- Which calls write

  predicate Writes(cfg: Config, p: Progress, c: Call)
    requires WellFormed(cfg) && Known(c)
  {
    ObjectAt(Live(p.w), Target(c)) != Some(Outcome(cfg, p, c))
  }

  /** A call writes exactly if what it leaves differs in more than the version. */
  lemma WritesContent(k: Key, live: Option<Object>, req: Manifest, expected: int, n: nat)
    ensures live == Some(Applied(k, live, req, expected, n)) <==>
              SameContent(live, Some(Applied(k, live, req, expected, n)))
  {
  }

  /** So whether it writes does not depend on versions either. */
  lemma SameWrites(k: Key, a: Option<Object>, b: Option<Object>, req: Manifest, expected: int, m: nat, n: nat)
    requires SameContent(a, b)
    ensures a == Some(Applied(k, a, req, expected, m)) <==> b == Some(Applied(k, b, req, expected, n))
  {
    hide Applied;
    WritesContent(k, a, req, expected, m);
    WritesContent(k, b, req, expected, n);
    VersionBlind(k, a, b, req, expected, m, n);
  }

  lemma CallGrows(cfg: Config, p: Progress, c: Call)
    requires WellFormed(cfg) && Known(c)
    ensures |Call1(cfg, p, c).w.hist| == |p.w.hist| + (if Writes(cfg, p, c) then 1 else 0)
  {
    hide WellFormed, Outcome, Target;
  }

  /** What a list of calls adds to the history. */
  function Added(cfg: Config, p: Progress, cs: seq<Call>): int
    requires WellFormed(cfg) && AllKnown(cs)
  {
    |Calls(cfg, p, cs).w.hist| - |p.w.hist|
  }

  // ---- The parts of an interleaving

  /** The reconciler's calls alone. */
  function Lone(ks: seq<Key>): seq<Call> {
    if ks == [] then [] else Lone(ks[..|ks| - 1]) + [Reconcile(ks[|ks| - 1])]
  }

  lemma {:induction false} LoneParts(ks: seq<Key>)
    requires forall k :: k in ks ==> k in APPLY_ORDER
    ensures Reconciles(Lone(ks)) == ks && Statics(Lone(ks)) == [] && AllKnown(Lone(ks))
  {
    if ks != [] {
      LoneParts(ks[..|ks| - 1]);
      var cs := Lone(ks);
      assert cs[..|cs| - 1] == Lone(ks[..|ks| - 1]);
      assert ks == ks[..|ks| - 1] + [ks[|ks| - 1]];
    }
  }

  lemma {:induction false} StaticParts(cs: seq<Call>)
    requires AllKnown(cs)
    ensures AllKnown(Statics(cs)) && Reconciles(Statics(cs)) == [] && Statics(Statics(cs)) == Statics(cs)
  {
    if cs != [] {
      StaticParts(cs[..|cs| - 1]);
      if cs[|cs| - 1].Static? {
        assert Statics(cs)[..|Statics(cs)| - 1] == Statics(cs[..|cs| - 1]);
      }
    }
  }

  lemma OrderedKeys(ks: seq<Key>)
    requires InOrder(ks)
    ensures forall k :: k in ks ==> k in APPLY_ORDER
  {
    assert forall i :: 0 <= i < |ks| ==> ks[i] == APPLY_ORDER[i];
  }

  lemma StepOfRun(cfg: Config, p: Progress, cs: seq<Call>)
    requires WellFormed(cfg) && AllKnown(cs) && cs != []
    ensures AllKnown(cs[..|cs| - 1]) && Known(cs[|cs| - 1])
    ensures Calls(cfg, p, cs) == Call1(cfg, Calls(cfg, p, cs[..|cs| - 1]), cs[|cs| - 1])
  {
    hide WellFormed, Call1, Known;
  }

  /** A static call writes in an interleaving exactly if it does among the static calls alone. */
  lemma StaticWrites(cfg: Config, p: Progress, cs: seq<Call>, c: Call)
    requires WellFormed(cfg) && AllKnown(cs) && Known(c) && c.Static? && AllKnown(Statics(cs))
    ensures Writes(cfg, Calls(cfg, p, cs), c) <==> Writes(cfg, Calls(cfg, p, Statics(cs)), c)
  {
    hide WellFormed, Calls, Applied, SameContent, StaticKey;
    StaticParts(cs);
    StaticIsOther(c.i);
    TwoStaticRuns(cfg, p, cs, Statics(cs), StaticKey(c.i));
    var x, y := Calls(cfg, p, cs), Calls(cfg, p, Statics(cs));
    SameWrites(StaticRule(c.i), ObjectAt(Live(x.w), StaticKey(c.i)), ObjectAt(Live(y.w), StaticKey(c.i)), c.req, -1,
      |x.w.hist|, |y.w.hist|);
  }

  /** And one of the reconciler's exactly if it does among its own. */
  lemma ReconcileWrites(cfg: Config, p: Progress, cs: seq<Call>, k: Key)
    requires WellFormed(cfg) && AllKnown(cs) && InOrder(Reconciles(cs)) && AllKnown(Lone(Reconciles(cs)))
    requires k in APPLY_ORDER && k != Deployment
    ensures Writes(cfg, Calls(cfg, p, cs), Reconcile(k)) <==>
              Writes(cfg, Calls(cfg, p, Lone(Reconciles(cs))), Reconcile(k))
  {
    hide WellFormed, Calls, Applied, SameContent, Required, ExpectedGeneration, InOrder, Agree;
    OrderedKeys(Reconciles(cs));
    LoneParts(Reconciles(cs));
    var x, y := Calls(cfg, p, cs), Calls(cfg, p, Lone(Reconciles(cs)));
    TwoRuns(cfg, p, cs, Lone(Reconciles(cs)));
    OwnKeys(k);
    Agreed(x, y, k);
    SameRequired(cfg, y.l, x.l, k);
    SameWrites(k, ObjectAt(Live(x.w), k), ObjectAt(Live(y.w), k), Required(cfg, k, x.l), ExpectedGeneration(x.l),
      |x.w.hist|, |y.w.hist|);
  }

  lemma OwnKeys(k: Key)
    requires k in APPLY_ORDER
    ensures Own(k)
  {
  }

  /** Before the Deployment apply, an interleaving adds to the history what the static calls
      and the reconciler's add when run alone. */
  lemma {:induction false} AddedParts(cfg: Config, p: Progress, cs: seq<Call>)
    requires WellFormed(cfg) && AllKnown(cs) && InOrder(Reconciles(cs)) && |Reconciles(cs)| < 13
    ensures AllKnown(Statics(cs)) && AllKnown(Lone(Reconciles(cs)))
    ensures Added(cfg, p, cs) == Added(cfg, p, Statics(cs)) + Added(cfg, p, Lone(Reconciles(cs)))
    decreases |cs|
  {
    hide WellFormed, Call1, Writes, InOrder, Known;
    StaticParts(cs);
    OrderedKeys(Reconciles(cs));
    LoneParts(Reconciles(cs));
    if cs != [] {
      var front, c := cs[..|cs| - 1], cs[|cs| - 1];
      StepOfRun(cfg, p, cs);
      CallGrows(cfg, Calls(cfg, p, front), c);
      if c.Static? {
        AddedParts(cfg, p, front);
        StaticWrites(cfg, p, front, c);
        assert Statics(cs)[..|Statics(cs)| - 1] == Statics(front);
        StepOfRun(cfg, p, Statics(cs));
        CallGrows(cfg, Calls(cfg, p, Statics(front)), c);
      } else {
        LastInOrder(Reconciles(cs));
        assert Reconciles(cs)[..|Reconciles(cs)| - 1] == Reconciles(front);
        AddedParts(cfg, p, front);
        ReconcileWrites(cfg, p, front, c.k);
        var lone := Lone(Reconciles(cs));
        assert lone[..|lone| - 1] == Lone(Reconciles(front)) && lone[|lone| - 1] == c;
        StepOfRun(cfg, p, lone);
        CallGrows(cfg, Calls(cfg, p, Lone(Reconciles(front))), c);
      }
    }
  }

  // ---- The ConfigMap's call

  /** The position of the ConfigMap's apply. */
  function Place(cs: seq<Call>): (n: nat)
    ensures n <= |cs|
  {
    if cs == [] then 0
    else if Place(cs[..|cs| - 1]) < |cs| - 1 || cs[|cs| - 1] == Reconcile(ConfigMap) then Place(cs[..|cs| - 1])
    else |cs|
  }

  /** The static calls before it. */
  function Before(cs: seq<Call>): seq<Call> {
    Statics(cs[..Place(cs)])
  }

  lemma TakeKnown(cs: seq<Call>, n: nat)
    requires AllKnown(cs) && n <= |cs|
    ensures AllKnown(cs[..n])
  {
  }

  lemma Eleventh(ks: seq<Key>)
    requires InOrder(ks + [ConfigMap])
    ensures ks == APPLY_ORDER[..11]
  {
    var all := ks + [ConfigMap];
    assert APPLY_ORDER[|ks|] == all[|ks|] == ConfigMap;
    ConfigMapPlace(|ks|);
    assert forall i :: 0 <= i < |ks| ==> ks[i] == all[i];
  }

  lemma ConfigMapPlace(i: nat)
    requires i < |APPLY_ORDER|
    ensures APPLY_ORDER[i] == ConfigMap <==> i == 11
  {
  }

  lemma {:induction false} Placed(cs: seq<Call>)
    requires AllKnown(cs) && InOrder(Reconciles(cs))
    ensures var n := Place(cs);
            && (n == |cs| ==> ConfigMap !in Reconciles(cs))
            && (n < |cs| ==>
                 cs[n] == Reconcile(ConfigMap) && Reconciles(cs[..n]) == APPLY_ORDER[..11] && |Reconciles(cs)| > 11)
    decreases |cs|
  {
    hide InOrder, Known;
    if cs != [] {
      var front, c := cs[..|cs| - 1], cs[|cs| - 1];
      if c.Reconcile? {
        LastInOrder(Reconciles(cs));
        assert Reconciles(cs)[..|Reconciles(cs)| - 1] == Reconciles(front);
      }
      Placed(front);
      if Place(front) < |front| {
        assert cs[..Place(front)] == front[..Place(front)];
      } else if c == Reconcile(ConfigMap) {
        assert cs[..|front|] == front && front[..|front|] == front;
        Eleventh(Reconciles(front));
      }
    }
  }

  lemma NotTwice(ks: seq<Key>, k: Key)
    requires InOrder(ks + [k]) && |ks| > 11
    ensures k != ConfigMap
  {
    assert APPLY_ORDER[|ks|] == (ks + [k])[|ks|];
    ConfigMapPlace(|ks|);
  }

  /** What the reconciler remembers of the ConfigMap is what that one call returned. */
  lemma {:induction false} ConfigFrom(cfg: Config, p: Progress, cs: seq<Call>)
    requires WellFormed(cfg) && AllKnown(cs) && InOrder(Reconciles(cs)) && Place(cs) < |cs| && ConfigMap in APPLY_ORDER
    ensures AllKnown(cs[..Place(cs)])
    ensures Calls(cfg, p, cs).l.config == Some(Outcome(cfg, Calls(cfg, p, cs[..Place(cs)]), Reconcile(ConfigMap)))
    decreases |cs|
  {
    hide WellFormed, Call1, Known, InOrder, Outcome;
    TakeKnown(cs, Place(cs));
    var front, c := cs[..|cs| - 1], cs[|cs| - 1];
    StepOfRun(cfg, p, cs);
    CallLocals(cfg, Calls(cfg, p, front), c);
    if c.Reconcile? {
      LastInOrder(Reconciles(cs));
      assert Reconciles(cs)[..|Reconciles(cs)| - 1] == Reconciles(front);
    }
    if Place(front) < |front| {
      assert cs[..Place(front)] == front[..Place(front)];
      Placed(front);
      if c.Reconcile? { NotTwice(Reconciles(front), c.k); }
      ConfigFrom(cfg, p, front);
    }
  }

  /** Until its own apply nobody touches it. */
  lemma {:induction false} Unmet(cfg: Config, p: Progress, cs: seq<Call>, k: Key)
    requires WellFormed(cfg) && AllKnown(cs) && k !in Reconciles(cs) && k in APPLY_ORDER
    ensures ObjectAt(Live(Calls(cfg, p, cs).w), k) == ObjectAt(Live(p.w), k)
    ensures k == ConfigMap ==> Calls(cfg, p, cs).l == p.l
    decreases |cs|
  {
    hide WellFormed, Call1, Known, Outcome;
    if cs != [] {
      var front, c := cs[..|cs| - 1], cs[|cs| - 1];
      StepOfRun(cfg, p, cs);
      Unmet(cfg, p, front, k);
      CallMoves(cfg, Calls(cfg, p, front), c);
      CallLocals(cfg, Calls(cfg, p, front), c);
      OwnKeys(k);
      if c.Static? { IsOther(c); } else { OwnTarget(c); }
    }
  }

  /** The version the ConfigMap's apply returns. */
  lemma ConfigVersion(cfg: Config, p: Progress, x: Progress)
    requires WellFormed(cfg) && ConfigMap in APPLY_ORDER
    requires x.l == p.l && ObjectAt(Live(x.w), ConfigMap) == ObjectAt(Live(p.w), ConfigMap)
    ensures Writes(cfg, x, Reconcile(ConfigMap)) <==> Writes(cfg, p, Reconcile(ConfigMap))
    ensures Version(Some(Outcome(cfg, x, Reconcile(ConfigMap)))) ==
              if Writes(cfg, p, Reconcile(ConfigMap)) then |x.w.hist| else Version(ObjectAt(Live(p.w), ConfigMap))
  {
    hide WellFormed, Required, ExpectedGeneration, Applied;
    var live, req, e := ObjectAt(Live(p.w), ConfigMap), Required(cfg, ConfigMap, p.l), ExpectedGeneration(p.l);
    SameWrites(ConfigMap, live, live, req, e, |x.w.hist|, |p.w.hist|);
    WrittenVersion(ConfigMap, live, req, e, |x.w.hist|);
  }

  lemma WrittenVersion(k: Key, live: Option<Object>, req: Manifest, expected: int, n: nat)
    ensures live != Some(Applied(k, live, req, expected, n)) ==> Applied(k, live, req, expected, n).rv == n
  {
  }

  /** Where that is, counted from p: the writes before it of either writer alone. */
  lemma StampedVersion(cfg: Config, p: Progress, a: seq<Call>)
    requires WellFormed(cfg) && AllKnown(a) && Reconciles(a) == APPLY_ORDER && ConfigMap in APPLY_ORDER
    ensures AllKnown(Before(a)) && AllKnown(Lone(APPLY_ORDER[..11]))
    ensures Version(Calls(cfg, p, a).l.config) ==
              if Writes(cfg, p, Reconcile(ConfigMap))
              then |p.w.hist| + Added(cfg, p, Before(a)) + Added(cfg, p, Lone(APPLY_ORDER[..11]))
              else Version(ObjectAt(Live(p.w), ConfigMap))
  {
    hide WellFormed, InOrder, Known, Calls, Writes, Outcome;
    InOrderAll();
    Placed(a);
    var head := a[..Place(a)];
    ConfigFrom(cfg, p, a);
    FirstEleven(head);
    AddedParts(cfg, p, head);
    Unmet(cfg, p, head, ConfigMap);
    ConfigVersion(cfg, p, Calls(cfg, p, head));
  }

  lemma FirstEleven(head: seq<Call>)
    requires Reconciles(head) == APPLY_ORDER[..11]
    ensures InOrder(Reconciles(head)) && |Reconciles(head)| < 13 && ConfigMap !in Reconciles(head)
  {
    if i :| 0 <= i < 11 && APPLY_ORDER[..11][i] == ConfigMap {
      ConfigMapPlace(i);
    }
  }

  /** Two interleavings of the same applies of both writers leave every object with the same
      content - the Deployment if and only if the ConfigMap needs no write to begin with, or as
      many of the static applies before it write in one as in the other. */
  lemma InterleavingsExact(cfg: Config, p: Progress, a: seq<Call>, b: seq<Call>, k: Key)
    requires WellFormed(cfg) && AllKnown(a) && AllKnown(b) && ConfigMap in APPLY_ORDER
    requires Reconciles(a) == Reconciles(b) == APPLY_ORDER && Statics(a) == Statics(b)
    ensures AllKnown(Before(a)) && AllKnown(Before(b))
    ensures var s, t := Live(Calls(cfg, p, a).w), Live(Calls(cfg, p, b).w);
            && (k != Deployment ==> SameContent(ObjectAt(s, k), ObjectAt(t, k)))
            && (SameContent(ObjectAt(s, Deployment), ObjectAt(t, Deployment)) <==>
                  !Writes(cfg, p, Reconcile(ConfigMap)) || Added(cfg, p, Before(a)) == Added(cfg, p, Before(b)))
  {
    hide WellFormed, Calls, Writes, SameContent, Version;
    Interleavings(cfg, p, a, b, k);
    StampedVersion(cfg, p, a);
    StampedVersion(cfg, p, b);
  }

  /** Needing no write is being in form. */
  lemma WritesUnlessInForm(cfg: Config, p: Progress)
    requires WellFormed(cfg) && ConfigMap in APPLY_ORDER
    ensures Writes(cfg, p, Reconcile(ConfigMap)) <==>
              !(ConfigMap in Live(p.w).objs &&
                Agrees(ConfigMap, Live(p.w).objs[ConfigMap], Required(cfg, ConfigMap, p.l)))
  {
    hide WellFormed, Required;
    var live, req := ObjectAt(Live(p.w), ConfigMap), Required(cfg, ConfigMap, p.l);
    SkipIffAgrees(ConfigMap, live, req, ExpectedGeneration(p.l));
  }

  // ---- Two interleavings that differ

  lemma OneStatic(cfg: Config, p: Progress, i: nat, req: Manifest)
    requires WellFormed(cfg) && i < |STATIC| && StaticKey(i) !in Live(p.w).objs
    ensures AllKnown([Static(i, req)]) && Added(cfg, p, [Static(i, req)]) == 1 && Added(cfg, p, []) == 0
  {
    hide WellFormed, StaticKey, Outcome;
    var cs := [Static(i, req)];
    assert cs[..0] == [] && Known(cs[0]);
    StepOfRun(cfg, p, cs);
    CallGrows(cfg, p, cs[0]);
    AbsentWrites(cfg, p, cs[0]);
  }

  lemma AbsentWrites(cfg: Config, p: Progress, c: Call)
    requires WellFormed(cfg) && Known(c) && Target(c) !in Live(p.w).objs
    ensures Writes(cfg, p, c)
  {
    hide WellFormed, Outcome, Target;
  }

  lemma {:induction false} PartsOfSum(a: seq<Call>, b: seq<Call>)
    ensures Reconciles(a + b) == Reconciles(a) + Reconciles(b) && Statics(a + b) == Statics(a) + Statics(b)
    decreases |b|
  {
    if b == [] {
      assert a + b == a;
    } else {
      var front := b[..|b| - 1];
      PartsOfSum(a, front);
      assert (a + b)[..|a + b| - 1] == a + front;
    }
  }

  lemma {:induction false} PlaceBehind(c: Call, cs: seq<Call>)
    requires c.Static?
    ensures Place([c] + cs) == Place(cs) + 1
  {
    if cs == [] {
      assert [c][..0] == [];
    } else {
      PlaceBehind(c, cs[..|cs| - 1]);
      assert ([c] + cs)[..|cs|] == [c] + cs[..|cs| - 1];
    }
  }

  lemma PlaceBefore(cs: seq<Call>, c: Call)
    requires Place(cs) < |cs|
    ensures Place(cs + [c]) == Place(cs)
  {
    assert (cs + [c])[..|cs|] == cs;
  }

  /** One static apply first, or last. */
  lemma FirstOrLast(c: Call)
    requires Known(c) && c.Static?
    ensures var a, b := [c] + Lone(APPLY_ORDER), Lone(APPLY_ORDER) + [c];
            && AllKnown(a) && AllKnown(b) && Reconciles(a) == Reconciles(b) == APPLY_ORDER
            && Statics(a) == Statics(b) && Before(a) == [c] && Before(b) == []
  {
    hide Place, Known, InOrder, Statics, Reconciles, Lone, Before;
    InOrderAll();
    OrderedKeys(APPLY_ORDER);
    LoneParts(APPLY_ORDER);
    Placed(Lone(APPLY_ORDER));
    EndsOfOrder();
    FirstOrLastOf(c, Lone(APPLY_ORDER), APPLY_ORDER);
  }

  lemma FirstOrLastOf(c: Call, lone: seq<Call>, ks: seq<Key>)
    requires Known(c) && c.Static? && AllKnown(lone) && Reconciles(lone) == ks && Statics(lone) == []
    requires Place(lone) < |lone|
    ensures var a, b := [c] + lone, lone + [c];
            && AllKnown(a) && AllKnown(b) && Reconciles(a) == Reconciles(b) == ks
            && Statics(a) == Statics(b) && Before(a) == [c] && Before(b) == []
  {
    hide Place, Known, Statics, Reconciles;
    SinglePart(c);
    PartsOfSum([c], lone);
    PartsOfSum(lone, [c]);
    PlaceBehind(c, lone);
    PlaceBefore(lone, c);
    TakenParts(c, lone, Place(lone));
  }

  /** Where the ConfigMap is missing, one static object is missing too, and its apply comes
      first in one interleaving and last in the other, the two leave different Deployments. */
  lemma InterleavingsDiffer(cfg: Config, p: Progress, i: nat, req: Manifest)
    requires WellFormed(cfg) && i < |STATIC| && StaticKey(i) !in Live(p.w).objs && ConfigMap !in Live(p.w).objs
    ensures var a, b := [Static(i, req)] + Lone(APPLY_ORDER), Lone(APPLY_ORDER) + [Static(i, req)];
            && AllKnown(a) && AllKnown(b) && Reconciles(a) == Reconciles(b) == APPLY_ORDER && Statics(a) == Statics(b)
            && !SameContent(ObjectAt(Live(Calls(cfg, p, a).w), Deployment),
                 ObjectAt(Live(Calls(cfg, p, b).w), Deployment))
  {
    var c := Static(i, req);
    assert Known(c);
    FirstOrLast(c);
    OneStatic(cfg, p, i, req);
    EndsOfOrder();
    AbsentWrites(cfg, p, Reconcile(ConfigMap));
    hide WellFormed, Calls, StaticKey, Outcome, SameContent, Before, Known, AllKnown, Writes, Added, Lone, Reconciles,
         Statics;
    InterleavingsExact(cfg, p, [c] + Lone(APPLY_ORDER), Lone(APPLY_ORDER) + [c], Deployment);
  }

  lemma SinglePart(c: Call)
    requires c.Static?
    ensures Reconciles([c]) == [] && Statics([c]) == [c]
  {
    assert [c][..0] == [];
  }

  lemma EndsOfOrder()
    ensures ConfigMap in APPLY_ORDER
  {
    assert APPLY_ORDER[11] == ConfigMap;
  }

  lemma TakenParts(c: Call, cs: seq<Call>, n: nat)
    requires c.Static? && n <= |cs| && Statics(cs) == [] && Reconciles([c]) == [] && Statics([c]) == [c]
    ensures Statics(([c] + cs)[..n + 1]) == [c] && Statics((cs + [c])[..n]) == []
  {
    hide Statics, Reconciles;
    assert ([c] + cs)[..n + 1] == [c] + cs[..n] && (cs + [c])[..n] == cs[..n] && cs == cs[..n] + cs[n..];
    PartsOfSum(cs[..n], cs[n..]);
    PartsOfSum([c], cs[..n]);
  }

  /** There is such a beginning. */
  lemma DifferenceHappens() returns (cfg: Config, p: Progress, a: seq<Call>, b: seq<Call>)
    ensures WellFormed(cfg) && AllKnown(a) && AllKnown(b)
    ensures Reconciles(a) == Reconciles(b) == APPLY_ORDER && Statics(a) == Statics(b)
    ensures !SameContent(ObjectAt(Live(Calls(cfg, p, a).w), Deployment), ObjectAt(Live(Calls(cfg, p, b).w), Deployment))
  {
    hide WellFormed, Calls, SameContent, Completion.Small;
    cfg := Completion.Small(ClientConfig("", ""));
    Completion.SmallIsWellFormed(ClientConfig("", ""));
    p := Progress(Completion.Beginning(map[], None).w, START);
    var req := Manifest(map[], Plain(""));
    StaticIsOther(0);
    InterleavingsDiffer(cfg, p, 0, req);
    a, b := [Static(0, req)] + Lone(APPLY_ORDER), Lone(APPLY_ORDER) + [Static(0, req)];
  }
}
