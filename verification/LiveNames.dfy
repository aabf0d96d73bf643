/** From the edits of the decoded assets to the live objects: what the loops write into the
    manifests is what a completed sync leaves in the cluster. */
module LiveNames {
  import opened Wrappers
  import opened ClusterModel
  import opened ApiHistory
  import opened Machine
  import opened Safety
  import opened NameInjection
  import opened AssetEdits
  import opened CrdFixes
  import Convergence
  import StatusRuns

  /** How the parts that are edited are written into the text of a spec, and read back. */
  datatype Texts = Texts(
    writeNames: seq<string> -> string, readNames: string -> seq<string>,
    writeTls: seq<Tls> -> string, readTls: string -> seq<Tls>,
    writeRules: seq<Rule> -> string, readRules: string -> seq<Rule>)
  {
    ghost predicate Faithful() {
      && (forall names :: readNames(writeNames(names)) == names)
      && (forall tls :: readTls(writeTls(tls)) == tls)
      && (forall rules :: readRules(writeRules(rules)) == rules)
    }
  }

  function MetricsNamesIn(namespace: string): seq<string> {
    InjectedAll(METRICS_PREFIX, METRICS_DNS_NAMES, METRICS_SERVICE_NAME, namespace)
  }

  function RetargetedAll(tls: seq<Tls>, namespace: string): seq<Tls> {
    seq(|tls|, i requires 0 <= i < |tls| => Retargeted(tls[i], METRICS_SERVICE_NAME, namespace))
  }

  function Views(endpoints: seq<Endpoint>): seq<Tls>
    requires forall i :: 0 <= i < |endpoints| ==> endpoints[i].tls != null
    reads set e | e in endpoints :: e.tls
  {
    seq(|endpoints|,
      i requires 0 <= i < |endpoints| && endpoints[i].tls != null
        reads if 0 <= i < |endpoints| then {endpoints[i].tls} else {}
        => endpoints[i].tls.View())
  }

  /** The certificate and the ServiceMonitor, edited and written. */
  method MetricsSpecs(cert: Certificate, endpoints: array<Endpoint>, x: Texts, namespace: string)
    returns (certSpec: Spec, monitorSpec: Spec)
    requires cert.dnsNames == Names(METRICS_DNS_NAMES) && Unshared(endpoints[..])
    requires forall i :: 0 <= i < endpoints.Length ==> endpoints[i].tls != null
    modifies cert`dnsNames, endpoints, set e | e in endpoints[..] :: e.tls
    ensures certSpec == Plain(x.writeNames(MetricsNamesIn(namespace)))
    ensures monitorSpec == Plain(x.writeTls(RetargetedAll(old(Views(endpoints[..])), namespace)))
  {
    ghost var before := Views(endpoints[..]);
    var failed := SetDNSNames(cert, METRICS_PREFIX, METRICS_SERVICE_NAME, namespace);
    var panicked := RetargetEndpoints(endpoints, METRICS_SERVICE_NAME, namespace);
    certSpec := Plain(x.writeNames(cert.dnsNames.names));
    assert Views(endpoints[..]) == RetargetedAll(before, namespace);
    monitorSpec := Plain(x.writeTls(Views(endpoints[..])));
  }

  /** The manifests the reconciler applies are the edited ones. */
  predicate Edited(cfg: Config, x: Texts, tls: seq<Tls>, rules: seq<Rule>, namespace: string)
    requires WellFormed(cfg)
  {
    && MetricsCert in cfg.manifests && cfg.manifests[MetricsCert].spec == Plain(x.writeNames(MetricsNamesIn(namespace)))
    && ServiceMonitor in cfg.manifests
    && cfg.manifests[ServiceMonitor].spec == Plain(x.writeTls(RetargetedAll(tls, namespace)))
    && cfg.manifests[JobSetCrd].spec.versions == x.writeRules(rules)
    && cfg.legacyCrd.versions == x.writeRules(FixAll(rules))
  }

  lemma LiveSpec(cfg: Config, s: State, es: seq<Event>, k: Key)
    requires WellFormed(cfg) && Convergence.Alone(es) && StatusRuns.Done(Run(cfg, BeginSync(s), es))
    requires k in APPLY_ORDER && (k == MetricsCert || k == ServiceMonitor || k == JobSetCrd)
    ensures var t := Run(cfg, BeginSync(s), es);
            k in Live(t.w).objs && Live(t.w).objs[k].spec == RequiredSpec(cfg, k, t.l)
  {
    hide WellFormed, Run, RequiredSpec;
    Convergence.Converges(cfg, s, es, k);
  }

  lemma MonitoringKeys()
    ensures MetricsCert in APPLY_ORDER && ServiceMonitor in APPLY_ORDER && JobSetCrd in APPLY_ORDER
  {
    assert APPLY_ORDER[4] == MetricsCert && APPLY_ORDER[10] == ServiceMonitor && APPLY_ORDER[7] == JobSetCrd;
  }

  /** After any completed sync nobody interrupted, every endpoint of the live ServiceMonitor checks
      for a name that is among the DNS names of the live certificate. */
  lemma LiveNamesCovered(cfg: Config, s: State, es: seq<Event>, x: Texts, tls: seq<Tls>, rules: seq<Rule>,
          namespace: string)
    requires WellFormed(cfg) && x.Faithful() && Edited(cfg, x, tls, rules, namespace) && KubeName(namespace)
    requires forall i :: 0 <= i < |tls| ==> tls[i].serverName == Some(METRICS_SERVER_NAME)
    requires Convergence.Alone(es) && StatusRuns.Done(Run(cfg, BeginSync(s), es))
    ensures var c := Live(Run(cfg, BeginSync(s), es).w);
            && MetricsCert in c.objs && c.objs[MetricsCert].spec.Plain?
            && ServiceMonitor in c.objs && c.objs[ServiceMonitor].spec.Plain?
            && |x.readTls(c.objs[ServiceMonitor].spec.text)| == |tls|
            && forall live :: live in x.readTls(c.objs[ServiceMonitor].spec.text) ==>
                 && live.serverName == Some(METRICS_SERVICE_NAME + "." + namespace + ".svc")
                 && live.serverName.value in x.readNames(c.objs[MetricsCert].spec.text)
  {
    hide WellFormed, Run, Injected, InjectedAll, KubeName;
    MonitoringKeys();
    LiveSpec(cfg, s, es, MetricsCert);
    LiveSpec(cfg, s, es, ServiceMonitor);
    ServerNameCovered(namespace);
  }

  /** And the validation rules of the live CRD are the asset's, fixed exactly if the server is an
      old one. */
  lemma LiveRules(cfg: Config, s: State, es: seq<Event>, x: Texts, tls: seq<Tls>, rules: seq<Rule>, namespace: string)
    requires WellFormed(cfg) && x.Faithful() && Edited(cfg, x, tls, rules, namespace)
    requires Convergence.Alone(es) && StatusRuns.Done(Run(cfg, BeginSync(s), es))
    ensures var c := Live(Run(cfg, BeginSync(s), es).w);
            && JobSetCrd in c.objs && c.objs[JobSetCrd].spec.Crd?
            && x.readRules(c.objs[JobSetCrd].spec.versions)
               == if LegacyServer(c.major, c.minor) then FixAll(rules) else rules
  {
    hide Run, FixAll, MetricsNamesIn, RetargetedAll, GateInv, Convergence.AllInForm, IssuerServed;
    MonitoringKeys();
    LiveSpec(cfg, s, es, JobSetCrd);
    Convergence.LoneRun(cfg, s, es, None);
  }
}
