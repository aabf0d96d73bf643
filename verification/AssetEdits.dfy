/** The loops that put names into decoded assets, in place. */
module AssetEdits {
  import opened Wrappers
  import opened Placeholders
  import opened NameInjection

  // ---- Certificates

  /** .spec.dnsNames of an unstructured certificate. */
  datatype DnsNames = Missing | NotStrings | Names(names: seq<string>)

  class Certificate {
    var name: string
    var dnsNames: DnsNames
    var rest: string
  }

  /** setDNSNamesToUnstructured: every entry is injected, in its place, and nothing else of
      the certificate changes; without a list of strings there is an error and no change. */
  method SetDNSNames(cert: Certificate, prefix: string, service: string, namespace: string) returns (failed: bool)
    modifies cert`dnsNames
    ensures failed <==> !old(cert.dnsNames).Names?
    ensures cert.dnsNames == if failed then old(cert.dnsNames)
                             else Names(InjectedAll(prefix, old(cert.dnsNames).names, service, namespace))
  {
    match cert.dnsNames {
      case Missing => return true;
      case NotStrings => return true;
      case Names(found) =>
        var dnsNames := new string[|found|](i requires 0 <= i < |found| => found[i]);
        for i := 0 to dnsNames.Length
          invariant forall j :: 0 <= j < i ==> dnsNames[j] == Injected(prefix, found[j], service, namespace)
          invariant forall j :: i <= j < |found| ==> dnsNames[j] == found[j]
        {
          dnsNames[i] := InjectService(prefix, dnsNames[i], service, namespace);
        }
        assert dnsNames[..] == InjectedAll(prefix, found, service, namespace);
        cert.dnsNames := Names(dnsNames[..]);
        return false;
    }
  }

  // ---- The ServiceMonitor

  const CLIENT_CERTS := "/etc/prometheus/secrets/metrics-client-certs/"

  datatype Tls = Tls(serverName: Option<string>, certSecret: Option<string>, certConfigMap: Option<string>,
                     keySecret: Option<string>, certFile: string, keyFile: string, rest: string)

  /** Endpoints are copied by the loop, the TLS configuration they point to is not. */
  class TlsConfig {
    var serverName: Option<string>
    var certSecret: Option<string>
    var certConfigMap: Option<string>
    var keySecret: Option<string>
    var certFile: string
    var keyFile: string
    var rest: string

    function View(): Tls
      reads this
    {
      Tls(serverName, certSecret, certConfigMap, keySecret, certFile, keyFile, rest)
    }
  }

  datatype Endpoint = Endpoint(tls: TlsConfig?, rest: string)

  /** The server name injected, the references cleared, the mounted files set. (The directory
      already ends in a slash, so the paths have two.) */
  function Retargeted(t: Tls, service: string, namespace: string): Tls {
    Tls(Some(Injected(METRICS_PREFIX, Deref(t.serverName, ""), service, namespace)), None, None, None,
        CLIENT_CERTS + "/" + "tls.crt", CLIENT_CERTS + "/" + "tls.key", t.rest)
  }

  /** The files, written out. */
  lemma ClientFiles()
    ensures CLIENT_CERTS + "/" + "tls.crt" == "/etc/prometheus/secrets/metrics-client-certs//tls.crt"
    ensures CLIENT_CERTS + "/" + "tls.key" == "/etc/prometheus/secrets/metrics-client-certs//tls.key"
  {
  }

  /** Decoding gives every endpoint a TLS configuration of its own, or none. */
  ghost predicate Unshared(endpoints: seq<Endpoint>) {
    forall i, j :: 0 <= i < j < |endpoints| && endpoints[i].tls != null ==> endpoints[i].tls != endpoints[j].tls
  }

  /** The endpoint loop of manageServiceMonitor: every endpoint is retargeted and stays in its
      place. It panics at an endpoint without a TLS configuration. */
  method RetargetEndpoints(endpoints: array<Endpoint>, service: string, namespace: string) returns (panicked: bool)
    requires Unshared(endpoints[..])
    modifies endpoints, set e | e in endpoints[..] :: e.tls
    ensures endpoints[..] == old(endpoints[..])
    ensures panicked <==> exists i :: 0 <= i < endpoints.Length && endpoints[i].tls == null
    ensures !panicked ==> forall i :: 0 <= i < endpoints.Length ==>
              endpoints[i].tls.View() == Retargeted(old(endpoints[i].tls.View()), service, namespace)
    ensures !panicked ==> forall i :: 0 <= i < endpoints.Length ==>
              && endpoints[i].tls.certFile == "/etc/prometheus/secrets/metrics-client-certs//tls.crt"
              && endpoints[i].tls.keyFile == "/etc/prometheus/secrets/metrics-client-certs//tls.key"
              && endpoints[i].tls.certSecret.None? && endpoints[i].tls.certConfigMap.None?
              && endpoints[i].tls.keySecret.None? && endpoints[i].tls.rest == old(endpoints[i].tls.rest)
  {
    ClientFiles();
    ghost var before := endpoints[..];
    for i := 0 to endpoints.Length
      invariant endpoints[..] == before
      invariant forall j :: 0 <= j < i ==>
                  && before[j].tls != null
                  && before[j].tls.View() == Retargeted(old(before[j].tls.View()), service, namespace)
      invariant forall j :: i <= j < |before| && before[j].tls != null ==>
                before[j].tls.View() == old(before[j].tls.View())
    {
      var endpoint := endpoints[i];
      assert endpoint == before[i];
      if endpoint.tls == null {
        return true;
      }
      var injected := InjectService(METRICS_PREFIX, Deref(endpoint.tls.serverName, ""), service, namespace);
      endpoint.tls.serverName := Some(injected);
      endpoint.tls.certSecret := None;
      endpoint.tls.certConfigMap := None;
      endpoint.tls.keySecret := None;
      endpoint.tls.certFile := CLIENT_CERTS + "/" + "tls.crt";
      endpoint.tls.keyFile := CLIENT_CERTS + "/" + "tls.key";
      endpoints[i] := endpoint;
    }
    return false;
  }

  /** The metrics certificate and the ServiceMonitor of one sync, from their assets: in every
      namespace, every endpoint checks for a server name the certificate carries. */
  method NameMetrics(cert: Certificate, endpoints: array<Endpoint>, namespace: string)
    returns (failed: bool, panicked: bool)
    requires KubeName(namespace) && cert.dnsNames == Names(METRICS_DNS_NAMES) && Unshared(endpoints[..])
    requires forall i :: 0 <= i < endpoints.Length ==>
               endpoints[i].tls != null && endpoints[i].tls.serverName == Some(METRICS_SERVER_NAME)
    modifies cert`dnsNames, endpoints, set e | e in endpoints[..] :: e.tls
    ensures !failed && !panicked && cert.dnsNames.Names? && |cert.dnsNames.names| == 2
    ensures endpoints[..] == old(endpoints[..])
    ensures forall i :: 0 <= i < endpoints.Length ==>
              && endpoints[i].tls.serverName == Some(METRICS_SERVICE_NAME + "." + namespace + ".svc")
              && endpoints[i].tls.serverName.value in cert.dnsNames.names
  {
    hide Injected;
    ServerNameCovered(namespace);
    failed := SetDNSNames(cert, METRICS_PREFIX, METRICS_SERVICE_NAME, namespace);
    panicked := RetargetEndpoints(endpoints, METRICS_SERVICE_NAME, namespace);
    forall i | 0 <= i < endpoints.Length
      ensures endpoints[i].tls.serverName ==
                Some(Injected(METRICS_PREFIX, METRICS_SERVER_NAME, METRICS_SERVICE_NAME, namespace))
    {
      assert endpoints[i].tls.View().serverName == endpoints[i].tls.serverName;
    }
  }

  // ---- The injection annotation

  const INJECT_CA_FROM := "cert-manager.io/inject-ca-from"
  const CERTIFICATE_PREFIX := "CERTIFICATE"
  const SERVING_CERT := "jobset-serving-cert"

  class ObjectMeta {
    var annotations: map<string, string>
    var rest: string
  }

  function CaSource(value: string, namespace: string): string {
    ReplaceFirst(ReplaceFirst(value, NamespaceIn(Paren, CERTIFICATE_PREFIX), namespace),
      NameIn(Paren, CERTIFICATE_PREFIX), SERVING_CERT)
  }

  /** injectCertManagerCA: the one annotation is rewritten; without it there is an error. */
  method InjectCertManagerCA(obj: ObjectMeta, namespace: string) returns (failed: bool)
    modifies obj`annotations
    ensures failed <==> INJECT_CA_FROM !in old(obj.annotations)
    ensures obj.annotations == if failed then old(obj.annotations)
                               else old(obj.annotations)[INJECT_CA_FROM :=
                                      CaSource(old(obj.annotations)[INJECT_CA_FROM], namespace)]
  {
    var annotations := obj.annotations;
    if INJECT_CA_FROM !in annotations {
      return true;
    }
    var injectAnnotation := annotations[INJECT_CA_FROM];
    injectAnnotation := ReplaceFirst(injectAnnotation, "$(" + ("CERTIFICATE" + "_NAMESPACE") + ")", namespace);
    injectAnnotation := ReplaceFirst(injectAnnotation, "$(" + ("CERTIFICATE" + "_NAME") + ")", SERVING_CERT);
    annotations := annotations[INJECT_CA_FROM := injectAnnotation];
    obj.annotations := annotations;
    return false;
  }

  /** injectCertManagerCA replaces the namespace first and injectService the name; on every
      value with a parenthesised placeholder they agree, and the assets' annotation ends up
      naming the serving certificate in the operator's namespace. */
  lemma CaSourceAgrees(value: string, namespace: string)
    requires KubeName(namespace)
    ensures SyntaxOf(value) == Some(Paren) ==>
              CaSource(value, namespace) == Injected(CERTIFICATE_PREFIX, value, SERVING_CERT, namespace)
    ensures CaSource(NamespaceIn(Paren, CERTIFICATE_PREFIX) + "/" + NameIn(Paren, CERTIFICATE_PREFIX), namespace) ==
              namespace + "/" + SERVING_CERT
  {
    CertificateNames();
    var n, p := NamespaceIn(Paren, CERTIFICATE_PREFIX), NameIn(Paren, CERTIFICATE_PREFIX);
    Words(Paren, CERTIFICATE_PREFIX);
    if SyntaxOf(value) == Some(Paren) {
      InjectedExact(CERTIFICATE_PREFIX, value, SERVING_CERT, namespace, Paren, p);
    }
    hide NameIn, NamespaceIn, Index;
    FirstBehind("", n, "/" + p);
    assert n + "/" + p == "" + n + ("/" + p);
    assert "" + namespace + ("/" + p) == (namespace + "/") + p + "";
    FirstBehind(namespace + "/", p, "");
    assert (namespace + "/") + SERVING_CERT + "" == namespace + "/" + SERVING_CERT;
  }

  /** The annotation of the assets, written out. */
  lemma CaWords(namespace: string)
    requires KubeName(namespace)
    ensures CaSource("$(CERTIFICATE_NAMESPACE)" + "/" + "$(CERTIFICATE_NAME)", namespace)
            == namespace + "/" + "jobset-serving-cert"
  {
    assert NamespaceIn(Paren, CERTIFICATE_PREFIX) == "$(CERTIFICATE_NAMESPACE)";
    assert NameIn(Paren, CERTIFICATE_PREFIX) == "$(CERTIFICATE_NAME)";
    hide CaSource, NameIn, NamespaceIn;
    CaSourceAgrees("", namespace);
  }

  lemma CertificateNames()
    ensures Prefix(CERTIFICATE_PREFIX) && KubeName(SERVING_CERT)
  {
  }
}
