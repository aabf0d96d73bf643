/** The static resource controller writes beside the target config reconciler. They never
    meet: however their applies interleave, the cluster ends up the same. */
module TwoWriters {
  import opened Wrappers
  import opened ClusterModel
  import opened Applying
  import opened ApiHistory
  import opened Machine
  import Template

  datatype Id = Id(kind: string, name: string)

  /** The objects of the reconciler, by kind and name. */
  function NameOf(k: Key): Id {
    match k
    case NetworkPolicy => Id("NetworkPolicy", "jobset-operand")
    case WebhookService => Id("Service", "jobset-webhook-service")
    case Issuer => Id("Issuer", "jobset-selfsigned-issuer")
    case ServingCert => Id("Certificate", "jobset-serving-cert")
    case MetricsCert => Id("Certificate", "jobset-metrics-cert")
    case ValidatingWebhook => Id("ValidatingWebhookConfiguration", "jobset-validating-webhook-configuration")
    case MutatingWebhook => Id("MutatingWebhookConfiguration", "jobset-mutating-webhook-configuration")
    case JobSetCrd => Id("CustomResourceDefinition", "jobsets.jobset.x-k8s.io")
    case PrometheusRole => Id("Role", "jobset-prometheus-k8s")
    case PrometheusRoleBinding => Id("RoleBinding", "jobset-prometheus-k8s")
    case ServiceMonitor => Id("ServiceMonitor", "jobset-controller-manager-metrics-monitor")
    case ConfigMap => Id("ConfigMap", "jobset-manager-config")
    case Deployment => Id("Deployment", "jobset-controller-manager")
    case WebhookSecret => Id("Secret", "webhook-server-cert")
    case MetricsSecret => Id("Secret", "metrics-server-cert")
    case Other(id) => Id("", id)
  }

  /** The asset list of the static resource controller, in its order. */
  const STATIC: seq<Id> := [
    Id("ServiceAccount", "jobset-controller-manager"),
    Id("ClusterRole", "jobset-manager-role"),
    Id("ClusterRole", "jobset-metrics-reader"),
    Id("ClusterRole", "jobset-proxy-role"),
    Id("ClusterRoleBinding", "jobset-manager-rolebinding"),
    Id("ClusterRoleBinding", "jobset-metrics-reader-rolebinding"),
    Id("ClusterRoleBinding", "jobset-proxy-rolebinding"),
    Id("Role", "jobset-leader-election-role"),
    Id("Role", "jobset-manager-secrets-role"),
    Id("RoleBinding", "jobset-leader-election-rolebinding"),
    Id("RoleBinding", "jobset-manager-secrets-rolebinding"),
    Id("Service", "jobset-controller-manager-metrics-service")]

  /** The key an object is stored under. */
  function KeyOf(id: Id, among: seq<Key>): Key {
    if among == [] then Other(id.kind + "/" + id.name)
    else if NameOf(among[0]) == id then among[0]
    else KeyOf(id, among[1..])
  }

  const WATCHED: seq<Key> := APPLY_ORDER + [WebhookSecret, MetricsSecret]

  function StaticKey(i: nat): Key
    requires i < |STATIC|
  {
    KeyOf(STATIC[i], WATCHED)
  }

  /** The two lists of objects have nothing in common, nor does the static list contain a
      secret the reconciler reads. */
  lemma Disjoint(i: nat, k: Key)
    requires i < |STATIC| && k in WATCHED
    ensures NameOf(k) != STATIC[i]
  {
    Lengths(i, k);
  }

  /** Objects of one kind in both lists have names of different lengths. */
  lemma Lengths(i: nat, k: Key)
    requires i < |STATIC| && k in WATCHED
    ensures || |NameOf(k).kind| != |STATIC[i].kind|
            || NameOf(k).kind != STATIC[i].kind || |NameOf(k).name| != |STATIC[i].name|
  {
  }

  lemma {:induction false} KeyOfOther(id: Id, among: seq<Key>)
    requires forall k :: k in among ==> NameOf(k) != id
    ensures KeyOf(id, among) == Other(id.kind + "/" + id.name)
  {
    hide NameOf;
    if among != [] {
      assert among[0] in among;
      KeyOfOther(id, among[1..]);
    }
  }

  lemma StaticIsOther(i: nat)
    requires i < |STATIC|
    ensures StaticKey(i).Other?
  {
    hide NameOf;
    forall k | k in WATCHED ensures NameOf(k) != STATIC[i] { Disjoint(i, k); }
    KeyOfOther(STATIC[i], WATCHED);
  }

  // ---- Interleaving the applies

  datatype Call = Reconcile(k: Key) | Static(i: nat, req: Manifest)

  datatype Progress = Progress(w: World, l: Locals)

  /** The static controller applies services as the reconciler does. */
  function StaticRule(i: nat): Key
    requires i < |STATIC|
  {
    if STATIC[i].kind == "Service" then WebhookService else NetworkPolicy
  }

  function Known(c: Call): bool {
    match c
    case Reconcile(k) => k in APPLY_ORDER
    case Static(i, _) => i < |STATIC|
  }

  function Target(c: Call): Key
    requires Known(c)
  {
    match c
    case Reconcile(k) => k
    case Static(i, _) => StaticKey(i)
  }

  /** The object a call leaves at its target. The reconciler's requirement is a function of
      its own locals alone, the static controller's of nothing in the cluster. */
  function Outcome(cfg: Config, p: Progress, c: Call): Object
    requires WellFormed(cfg) && Known(c)
  {
    match c
    case Reconcile(k) => ApplyObject(p.w, k, Required(cfg, k, p.l), ExpectedGeneration(p.l))
    case Static(i, req) => Applied(StaticRule(i), ObjectAt(Live(p.w), StaticKey(i)), req, -1, |p.w.hist|)
  }

  /** One apply of either writer; the reconciler remembers the ConfigMap it got back. */
  function Call1(cfg: Config, p: Progress, c: Call): Progress
    requires WellFormed(cfg) && Known(c)
  {
    var o := Outcome(cfg, p, c);
    var w := if ObjectAt(Live(p.w), Target(c)) == Some(o) then p.w
             else Put(p.w, Live(p.w).(objs := Live(p.w).objs[Target(c) := o]));
    Progress(w, if c == Reconcile(ConfigMap) then p.l.(config := Some(o)) else p.l)
  }

  function Calls(cfg: Config, p: Progress, cs: seq<Call>): Progress
    requires WellFormed(cfg) && forall c :: c in cs ==> Known(c)
    decreases |cs|
  {
    if cs == [] then p else Call1(cfg, Calls(cfg, p, cs[..|cs| - 1]), cs[|cs| - 1])
  }

  function Reconciles(cs: seq<Call>): seq<Key> {
    if cs == [] then []
    else if cs[|cs| - 1].Reconcile? then Reconciles(cs[..|cs| - 1]) + [cs[|cs| - 1].k]
    else Reconciles(cs[..|cs| - 1])
  }

  function Statics(cs: seq<Call>): seq<Call> {
    if cs == [] then []
    else if cs[|cs| - 1].Static? then Statics(cs[..|cs| - 1]) + [cs[|cs| - 1]]
    else Statics(cs[..|cs| - 1])
  }

  /** Equal but for the resource version. */
  predicate SameContent(a: Option<Object>, b: Option<Object>) {
    a.Some? == b.Some? && (a.Some? ==> a.value.(rv := 0) == b.value.(rv := 0))
  }

  /** No apply decides or writes by resource version. */
  lemma VersionBlind(k: Key, a: Option<Object>, b: Option<Object>, req: Manifest, expected: int, m: nat, n: nat)
    requires SameContent(a, b)
    ensures SameContent(Some(Applied(k, a, req, expected, m)), Some(Applied(k, b, req, expected, n)))
  {
  }

  lemma CallMoves(cfg: Config, p: Progress, c: Call)
    requires WellFormed(cfg) && Known(c)
    ensures ObjectAt(Live(Call1(cfg, p, c).w), Target(c)) == Some(Outcome(cfg, p, c))
    ensures forall k :: k != Target(c) ==> ObjectAt(Live(Call1(cfg, p, c).w), k) == ObjectAt(Live(p.w), k)
  {
    hide Outcome, WellFormed, Target;
  }

  /** A key of the reconciler's; the static controller never writes there. */
  predicate Own(k: Key) {
    !k.Other?
  }

  /** The two progresses agree on what the reconciler wrote, but for the Deployment if the
      ConfigMap's versions differ. */
  ghost predicate Agree(p: Progress, q: Progress) {
    && (forall k :: Own(k) && k != Deployment ==> SameContent(ObjectAt(Live(p.w), k), ObjectAt(Live(q.w), k)))
    && p.l == q.l.(config := p.l.config) && SameContent(p.l.config, q.l.config)
    && (SameContent(ObjectAt(Live(p.w), Deployment), ObjectAt(Live(q.w), Deployment)) ||
         Version(p.l.config) != Version(q.l.config))
  }

  lemma SameRequired(cfg: Config, l: Locals, m: Locals, k: Key)
    requires WellFormed(cfg) && k in APPLY_ORDER && m == l.(config := m.config)
    requires k != Deployment || Version(l.config) == Version(m.config)
    ensures Required(cfg, k, l) == Required(cfg, k, m) && ExpectedGeneration(l) == ExpectedGeneration(m)
  {
  }

  /** The same call of the reconciler after both. */
  lemma AgreeCall(cfg: Config, p: Progress, q: Progress, k: Key)
    requires WellFormed(cfg) && k in APPLY_ORDER && Agree(p, q)
    requires k != ConfigMap || SameContent(ObjectAt(Live(p.w), Deployment), ObjectAt(Live(q.w), Deployment))
    ensures var p1, q1 := Call1(cfg, p, Reconcile(k)), Call1(cfg, q, Reconcile(k));
            && Agree(p1, q1)
            && (k != Deployment ==> ObjectAt(Live(p1.w), Deployment) == ObjectAt(Live(p.w), Deployment)
                                    && ObjectAt(Live(q1.w), Deployment) == ObjectAt(Live(q.w), Deployment))
  {
    hide WellFormed, Required, Call1, Applied, ExpectedGeneration, SameContent, Version, Agree;
    var c := Reconcile(k);
    Agreed(p, q, k);
    CallMoves(cfg, p, c);
    CallMoves(cfg, q, c);
    CallLocals(cfg, p, c);
    CallLocals(cfg, q, c);
    if k != Deployment || Version(p.l.config) == Version(q.l.config) {
      SameRequired(cfg, q.l, p.l, k);
      if k != Deployment || SameContent(ObjectAt(Live(p.w), Deployment), ObjectAt(Live(q.w), Deployment)) {
        VersionBlind(k, ObjectAt(Live(p.w), k), ObjectAt(Live(q.w), k), Required(cfg, k, p.l), ExpectedGeneration(p.l),
          |p.w.hist|, |q.w.hist|);
      }
    }
    AgreeMoves(p, q, Call1(cfg, p, c), Call1(cfg, q, c), k);
  }

  lemma Agreed(p: Progress, q: Progress, k: Key)
    requires Agree(p, q)
    ensures Own(k) && k != Deployment ==> SameContent(ObjectAt(Live(p.w), k), ObjectAt(Live(q.w), k))
    ensures p.l == q.l.(config := p.l.config)
    ensures SameContent(ObjectAt(Live(p.w), Deployment), ObjectAt(Live(q.w), Deployment)) ||
              Version(p.l.config) != Version(q.l.config)
  {
  }

  lemma AgreeMoves(p: Progress, q: Progress, s: Progress, t: Progress, k: Key)
    requires Agree(p, q) && Own(k) && s.l == p.l.(config := s.l.config) && t.l == q.l.(config := t.l.config)
    requires forall j :: j != k ==>
               ObjectAt(Live(s.w), j) == ObjectAt(Live(p.w), j) && ObjectAt(Live(t.w), j) == ObjectAt(Live(q.w), j)
    requires k != Deployment ==> SameContent(ObjectAt(Live(s.w), k), ObjectAt(Live(t.w), k))
    requires if k == ConfigMap then s.l.config == ObjectAt(Live(s.w), k) && t.l.config == ObjectAt(Live(t.w), k)
               else s.l == p.l && t.l == q.l
    requires k == ConfigMap ==> SameContent(ObjectAt(Live(p.w), Deployment), ObjectAt(Live(q.w), Deployment))
    requires k == Deployment ==>
               SameContent(ObjectAt(Live(s.w), Deployment), ObjectAt(Live(t.w), Deployment)) ||
                 Version(s.l.config) != Version(t.l.config)
    ensures Agree(s, t)
  {
    hide SameContent, Version, Live, ObjectAt;
  }

  lemma CallLocals(cfg: Config, p: Progress, c: Call)
    requires WellFormed(cfg) && Known(c)
    ensures Call1(cfg, p, c).l == if c == Reconcile(ConfigMap) then p.l.(config := Some(Outcome(cfg, p, c))) else p.l
  {
    hide WellFormed, Outcome, Target;
  }

  /** A call of the static controller after one of them. */
  lemma AgreeStatic(cfg: Config, p: Progress, q: Progress, c: Call)
    requires WellFormed(cfg) && Known(c) && c.Static? && Agree(p, q)
    ensures Agree(Call1(cfg, p, c), q)
    ensures ObjectAt(Live(Call1(cfg, p, c).w), Deployment) == ObjectAt(Live(p.w), Deployment)
  {
    hide WellFormed, Outcome, Call1;
    CallMoves(cfg, p, c);
    CallLocals(cfg, p, c);
    StaticIsOther(c.i);
  }

  lemma AgreeBack(p: Progress, q: Progress)
    requires Agree(p, q)
    ensures Agree(q, p)
  {
  }

  predicate AllKnown(cs: seq<Call>) {
    forall c :: c in cs ==> Known(c)
  }

  predicate InOrder(ks: seq<Key>) {
    ks <= APPLY_ORDER
  }

  lemma LastInOrder(ks: seq<Key>)
    requires InOrder(ks) && |ks| > 0
    ensures InOrder(ks[..|ks| - 1]) && ks[|ks| - 1] in APPLY_ORDER
    ensures |ks| <= 13 && (ks[|ks| - 1] == Deployment ==> |ks| == 13)
  {
    assert ks[|ks| - 1] == APPLY_ORDER[|ks| - 1];
  }

  lemma SamePlace(c: Snapshot, d: Snapshot, k: Key)
    requires ObjectAt(c, k) == ObjectAt(d, k)
    ensures SameContent(ObjectAt(c, k), ObjectAt(d, k))
  {
  }

  lemma {:induction false} TwoRuns(cfg: Config, p: Progress, a: seq<Call>, b: seq<Call>)
    requires WellFormed(cfg) && AllKnown(a) && AllKnown(b) && Reconciles(a) == Reconciles(b) && InOrder(Reconciles(a))
    ensures Agree(Calls(cfg, p, a), Calls(cfg, p, b))
    ensures |Reconciles(a)| < 13 ==>
              && ObjectAt(Live(Calls(cfg, p, a).w), Deployment) == ObjectAt(Live(p.w), Deployment)
              && ObjectAt(Live(Calls(cfg, p, b).w), Deployment) == ObjectAt(Live(p.w), Deployment)
    decreases |a| + |b|
  {
    hide WellFormed, Agree, Call1, InOrder, Known;
    if a != [] && a[|a| - 1].Static? {
      TwoRuns(cfg, p, a[..|a| - 1], b);
      AgreeStatic(cfg, Calls(cfg, p, a[..|a| - 1]), Calls(cfg, p, b), a[|a| - 1]);
    } else if b != [] && b[|b| - 1].Static? {
      TwoRuns(cfg, p, a, b[..|b| - 1]);
      AgreeBack(Calls(cfg, p, a), Calls(cfg, p, b[..|b| - 1]));
      AgreeStatic(cfg, Calls(cfg, p, b[..|b| - 1]), Calls(cfg, p, a), b[|b| - 1]);
      AgreeBack(Calls(cfg, p, b), Calls(cfg, p, a));
    } else if a != [] && b != [] {
      var front, k := Reconciles(a[..|a| - 1]), a[|a| - 1].k;
      assert Reconciles(a) == front + [k] && Reconciles(b) == Reconciles(b[..|b| - 1]) + [b[|b| - 1].k];
      assert (front + [k])[..|front|] == front && Reconciles(b)[..|Reconciles(b)| - 1] == Reconciles(b[..|b| - 1]);
      LastInOrder(Reconciles(a));
      TwoRuns(cfg, p, a[..|a| - 1], b[..|b| - 1]);
      SamePlace(Live(Calls(cfg, p, a[..|a| - 1]).w), Live(Calls(cfg, p, b[..|b| - 1]).w), Deployment);
      AgreeCall(cfg, Calls(cfg, p, a[..|a| - 1]), Calls(cfg, p, b[..|b| - 1]), k);
    } else {
      AgreeSelf(p);
    }
  }

  lemma AgreeSelf(p: Progress)
    ensures Agree(p, p)
  {
  }

  /** The static controller's objects come out the same in both, too. */
  lemma {:induction false} TwoStaticRuns(cfg: Config, p: Progress, a: seq<Call>, b: seq<Call>, k: Key)
    requires WellFormed(cfg) && AllKnown(a) && AllKnown(b) && Statics(a) == Statics(b) && k.Other?
    ensures SameContent(ObjectAt(Live(Calls(cfg, p, a).w), k), ObjectAt(Live(Calls(cfg, p, b).w), k))
    decreases |a| + |b|
  {
    hide WellFormed, Call1, Known, Outcome, Target;
    if a != [] && a[|a| - 1].Reconcile? {
      TwoStaticRuns(cfg, p, a[..|a| - 1], b, k);
      OwnCall(cfg, Calls(cfg, p, a[..|a| - 1]), a[|a| - 1], k);
    } else if b != [] && b[|b| - 1].Reconcile? {
      TwoStaticRuns(cfg, p, a, b[..|b| - 1], k);
      OwnCall(cfg, Calls(cfg, p, b[..|b| - 1]), b[|b| - 1], k);
    } else if a != [] && b != [] {
      assert Statics(a) == Statics(a[..|a| - 1]) + [a[|a| - 1]] && Statics(b) == Statics(b[..|b| - 1]) + [b[|b| - 1]];
      assert Statics(a)[..|Statics(a)| - 1] == Statics(a[..|a| - 1]);
      assert Statics(b)[..|Statics(b)| - 1] == Statics(b[..|b| - 1]);
      TwoStaticRuns(cfg, p, a[..|a| - 1], b[..|b| - 1], k);
      StaticCall(cfg, Calls(cfg, p, a[..|a| - 1]), Calls(cfg, p, b[..|b| - 1]), a[|a| - 1], k);
    }
  }

  lemma OwnCall(cfg: Config, p: Progress, c: Call, k: Key)
    requires WellFormed(cfg) && Known(c) && c.Reconcile? && k.Other?
    ensures ObjectAt(Live(Call1(cfg, p, c).w), k) == ObjectAt(Live(p.w), k)
  {
    hide WellFormed, Outcome, Call1;
    CallMoves(cfg, p, c);
  }

  lemma StaticCall(cfg: Config, p: Progress, q: Progress, c: Call, k: Key)
    requires WellFormed(cfg) && Known(c) && c.Static?
    requires SameContent(ObjectAt(Live(p.w), k), ObjectAt(Live(q.w), k))
    ensures SameContent(ObjectAt(Live(Call1(cfg, p, c).w), k), ObjectAt(Live(Call1(cfg, q, c).w), k))
  {
    hide WellFormed, Applied, Call1, StaticKey, SameContent;
    CallMoves(cfg, p, c);
    CallMoves(cfg, q, c);
    if k == StaticKey(c.i) {
      VersionBlind(StaticRule(c.i), ObjectAt(Live(p.w), k), ObjectAt(Live(q.w), k), c.req, -1, |p.w.hist|, |q.w.hist|);
    }
  }

  /** What is left of a Deployment apply says which template was required. */
  lemma HashTells(live: Option<Object>, req: Manifest, expected: int, n: nat)
    requires SPEC_HASH in req.meta && req.meta[SPEC_HASH] == Digest(req.spec)
    ensures var o := Applied(Deployment, live, req, expected, n);
            SPEC_HASH in o.meta && o.meta[SPEC_HASH] == Digest(req.spec)
  {
    if live.Some? {
      assert (live.value.meta + req.meta)[SPEC_HASH] == req.meta[SPEC_HASH];
    }
  }

  lemma RequiredTells(cfg: Config, l: Locals, m: Locals)
    requires WellFormed(cfg) && Required(cfg, Deployment, l).spec == Required(cfg, Deployment, m).spec
    ensures Version(l.config) == Version(m.config)
  {
    hide Template.Build;
    Template.RolloutExact(cfg.manifests[Deployment].spec.template, TemplateInputs(cfg, l), TemplateInputs(cfg, m));
  }

  lemma DeploymentTells(cfg: Config, p: Progress, q: Progress)
    requires WellFormed(cfg)
    requires var c := Reconcile(Deployment);
             SameContent(ObjectAt(Live(Call1(cfg, p, c).w), Deployment), ObjectAt(Live(Call1(cfg, q, c).w), Deployment))
    ensures Version(p.l.config) == Version(q.l.config)
  {
    hide WellFormed, Required, Applied, Call1;
    var c := Reconcile(Deployment);
    CallMoves(cfg, p, c);
    CallMoves(cfg, q, c);
    var r, t := Required(cfg, Deployment, p.l), Required(cfg, Deployment, q.l);
    HashTells(ObjectAt(Live(p.w), Deployment), r, ExpectedGeneration(p.l), |p.w.hist|);
    HashTells(ObjectAt(Live(q.w), Deployment), t, ExpectedGeneration(q.l), |q.w.hist|);
    assert Outcome(cfg, p, c).meta == Outcome(cfg, q, c).meta;
    RequiredTells(cfg, p.l, q.l);
  }

  /** Two interleavings of the same applies of both writers - one of them may well be one
      writer after the other - leave every object with the same content, resource versions
      aside; the Deployment too, exactly if the ConfigMap its template is stamped with got the
      same resource version in both. */
  lemma Interleavings(cfg: Config, p: Progress, a: seq<Call>, b: seq<Call>, k: Key)
    requires WellFormed(cfg) && AllKnown(a) && AllKnown(b)
    requires Reconciles(a) == Reconciles(b) == APPLY_ORDER && Statics(a) == Statics(b)
    ensures var s, t := Calls(cfg, p, a), Calls(cfg, p, b);
            && (k != Deployment ==> SameContent(ObjectAt(Live(s.w), k), ObjectAt(Live(t.w), k)))
            && (SameContent(ObjectAt(Live(s.w), Deployment), ObjectAt(Live(t.w), Deployment)) <==>
                 Version(s.l.config) == Version(t.l.config))
  {
    hide WellFormed, Call1, InOrder, Known;
    assert InOrder(APPLY_ORDER) by { assert APPLY_ORDER <= APPLY_ORDER; InOrderAll(); }
    TwoRuns(cfg, p, a, b);
    if k.Other? { TwoStaticRuns(cfg, p, a, b, k); }
    if SameContent(ObjectAt(Live(Calls(cfg, p, a).w), Deployment), ObjectAt(Live(Calls(cfg, p, b).w), Deployment)) {
      var x, c := BeforeDeployment(cfg, p, a);
      var y, d := BeforeDeployment(cfg, p, b);
      DeploymentTells(cfg, x, y);
    }
  }

  lemma InOrderAll()
    ensures InOrder(APPLY_ORDER)
  {
  }

  /** The Deployment apply is the reconciler's last call; whatever follows leaves it alone. */
  lemma {:induction false} BeforeDeployment(cfg: Config, p: Progress, a: seq<Call>) returns (x: Progress, n: nat)
    requires WellFormed(cfg) && AllKnown(a) && Reconciles(a) == APPLY_ORDER
    ensures x.l.config == Calls(cfg, p, a).l.config
    ensures ObjectAt(Live(Call1(cfg, x, Reconcile(Deployment)).w), Deployment) ==
              ObjectAt(Live(Calls(cfg, p, a).w), Deployment)
    decreases |a|
  {
    hide WellFormed, Call1, Outcome, Known;
    var front, c := a[..|a| - 1], a[|a| - 1];
    n := |front|;
    if c.Static? {
      x, n := BeforeDeployment(cfg, p, front);
      CallMoves(cfg, Calls(cfg, p, front), c);
      CallLocals(cfg, Calls(cfg, p, front), c);
      IsOther(c);
    } else {
      assert Reconciles(a)[12] == Deployment;
      x := Calls(cfg, p, front);
      CallLocals(cfg, x, c);
    }
  }

  lemma IsOther(c: Call)
    requires Known(c) && c.Static?
    ensures Target(c).Other?
  {
    StaticIsOther(c.i);
  }

  /** The one thing that can differ: whether the ConfigMap needs a write is decided the same
      in every interleaving, and if it needs none its version, and with it the Deployment, is
      the same. */
  lemma {:induction false} QuietConfigMap(cfg: Config, p: Progress, a: seq<Call>)
    requires WellFormed(cfg) && AllKnown(a) && InOrder(Reconciles(a))
    requires ConfigMap in Live(p.w).objs && Agrees(ConfigMap, Live(p.w).objs[ConfigMap], Required(cfg, ConfigMap, p.l))
    ensures var s := Calls(cfg, p, a);
            && ObjectAt(Live(s.w), ConfigMap) == ObjectAt(Live(p.w), ConfigMap)
            && s.l == p.l.(config := s.l.config)
            && (ConfigMap in Reconciles(a) ==> s.l.config == ObjectAt(Live(p.w), ConfigMap))
            && (ConfigMap !in Reconciles(a) ==> s.l == p.l)
    decreases |a|
  {
    hide WellFormed, Call1, Outcome, Known, InOrder, Required, Agrees;
    if a != [] {
      var front, c := a[..|a| - 1], a[|a| - 1];
      if c.Reconcile? {
        LastInOrder(Reconciles(a));
        assert Reconciles(a)[..|Reconciles(a)| - 1] == Reconciles(front);
      }
      QuietConfigMap(cfg, p, front);
      CallMoves(cfg, Calls(cfg, p, front), c);
      CallLocals(cfg, Calls(cfg, p, front), c);
      if c == Reconcile(ConfigMap) {
        QuietOutcome(cfg, p, Calls(cfg, p, front));
      } else if c.Static? {
        IsOther(c);
      } else {
        OwnTarget(c);
      }
    }
  }

  lemma OwnTarget(c: Call)
    requires Known(c) && c.Reconcile?
    ensures Target(c) == c.k
  {
  }

  lemma QuietOutcome(cfg: Config, p: Progress, s: Progress)
    requires WellFormed(cfg) && ConfigMap in APPLY_ORDER
    requires ConfigMap in Live(p.w).objs && Agrees(ConfigMap, Live(p.w).objs[ConfigMap], Required(cfg, ConfigMap, p.l))
    requires ObjectAt(Live(s.w), ConfigMap) == ObjectAt(Live(p.w), ConfigMap) && s.l == p.l.(config := s.l.config)
    ensures Some(Outcome(cfg, s, Reconcile(ConfigMap))) == ObjectAt(Live(p.w), ConfigMap)
  {
    hide WellFormed, Required, Agrees;
    SameRequired(cfg, p.l, s.l, ConfigMap);
    SkipIffAgrees(ConfigMap, ObjectAt(Live(s.w), ConfigMap), Required(cfg, ConfigMap, s.l), ExpectedGeneration(s.l));
  }

  /** When it needs one, the version is the position of the write in the whole cluster's
      history, so an apply of the static controller before it rather than after it shows. */
  lemma StampCanDiffer(cfg: Config, p: Progress, i: nat, req: Manifest)
    requires WellFormed(cfg) && i < |STATIC| && ConfigMap !in Live(p.w).objs && StaticKey(i) !in Live(p.w).objs
    ensures ConfigMap in APPLY_ORDER && Known(Static(i, req)) && Known(Reconcile(ConfigMap))
    ensures var before := Call1(cfg, Call1(cfg, p, Static(i, req)), Reconcile(ConfigMap));
            var after := Call1(cfg, Call1(cfg, p, Reconcile(ConfigMap)), Static(i, req));
            Version(before.l.config) == |p.w.hist| + 1 && Version(after.l.config) == |p.w.hist|
  {
    hide StaticKey, WellFormed, Required;
    StaticIsOther(i);
  }

  /** Nothing the reconciler reads or writes is changed by an apply of the static controller. */
  lemma StaticInvisible(cfg: Config, p: Progress, c: Call)
    requires WellFormed(cfg) && Known(c) && c.Static?
    ensures var q := Call1(cfg, p, c);
            && (forall k :: k in WATCHED ==> ObjectAt(Live(q.w), k) == ObjectAt(Live(p.w), k))
            && Live(q.w).operator == Live(p.w).operator && Live(q.w).certManagerKinds == Live(p.w).certManagerKinds
            && Live(q.w).major == Live(p.w).major && Live(q.w).minor == Live(p.w).minor && q.l == p.l
  {
    hide Outcome, WellFormed, Target;
    CallMoves(cfg, p, c);
    IsOther(c);
  }
}
