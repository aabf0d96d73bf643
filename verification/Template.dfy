/** The pod template manageDeployment builds, and when two syncs build the same one. */
module Template {
  import opened ClusterModel
  import Decimal

  const PLACEHOLDER_IMAGE := "${CONTROLLER_IMAGE}:latest"
  const SCC := "openshift.io/required-scc"
  const FALLBACK := "FallbackToLogsOnError"
  const WEBHOOK_SECRET_KEY := "secrets/webhook-server-cert"
  const METRICS_SECRET_KEY := "secrets/metrics-server-cert"
  const CONFIG_MAP_KEY := "configmaps/jobset-manager-config"

  /** Everything the template depends on besides the asset. */
  datatype Inputs = Inputs(image: string, logLevel: string, webhook: nat, metrics: nat, config: nat)

  predicate Verbose(logLevel: string) {
    logLevel == "Debug" || logLevel == "Trace" || logLevel == "TraceAll"
  }

  function ZapLevel(logLevel: string): string {
    if Verbose(logLevel) then "debug" else "info"
  }

  function Args(logLevel: string): seq<string> {
    ["--config=/controller_manager_config.yaml", "--zap-log-level=" + ZapLevel(logLevel)]
  }

  function SpecAnnotations(webhook: nat, metrics: nat, config: nat): map<string, string> {
    map[WEBHOOK_SECRET_KEY := Decimal.Render(webhook),
        METRICS_SECRET_KEY := Decimal.Render(metrics),
        CONFIG_MAP_KEY := Decimal.Render(config)]
  }

  function Rewritten(c: Container, first: bool, image: string, logLevel: string): Container {
    Container(if c.image == PLACEHOLDER_IMAGE then image else c.image,
              if first then Args(logLevel) else c.args, FALLBACK, c.rest)
  }

  function Build(asset: PodTemplate, x: Inputs): PodTemplate {
    PodTemplate(
      asset.annotations + SpecAnnotations(x.webhook, x.metrics, x.config) + map[SCC := "restricted-v2"],
      seq(|asset.containers|, i requires 0 <= i < |asset.containers| =>
        Rewritten(asset.containers[i], i == 0, x.image, x.logLevel)),
      seq(|asset.initContainers|, i requires 0 <= i < |asset.initContainers| =>
        asset.initContainers[i].(terminationPolicy := FALLBACK)),
      asset.rest)
  }

  predicate UsesImage(asset: PodTemplate) {
    exists i :: 0 <= i < |asset.containers| && asset.containers[i].image == PLACEHOLDER_IMAGE
  }

  /** The stamps can be read back from the template. */
  lemma Stamps(asset: PodTemplate, x: Inputs)
    ensures var a := Build(asset, x).annotations;
            && WEBHOOK_SECRET_KEY in a && a[WEBHOOK_SECRET_KEY] == Decimal.Render(x.webhook)
            && METRICS_SECRET_KEY in a && a[METRICS_SECRET_KEY] == Decimal.Render(x.metrics)
            && CONFIG_MAP_KEY in a && a[CONFIG_MAP_KEY] == Decimal.Render(x.config)
            && SCC in a && a[SCC] == "restricted-v2"
  {
    DistinctKeys();
  }

  /** What the template says, written out: the operator's arguments in the first container and
      its log level there, the operand image for its placeholder, the termination policy
      everywhere, four annotations - and everything else as the asset has it. */
  lemma Promised(asset: PodTemplate, x: Inputs)
    ensures var t := Build(asset, x);
            && |t.containers| == |asset.containers| && |t.initContainers| == |asset.initContainers|
            && t.rest == asset.rest
            && (|asset.containers| > 0 ==>
                  t.containers[0].args ==
                  ["--config=/controller_manager_config.yaml",
                   if x.logLevel in {"Debug", "Trace", "TraceAll"} then "--zap-log-level=debug"
                   else "--zap-log-level=info"])
            && (forall i :: 0 < i < |asset.containers| ==> t.containers[i].args == asset.containers[i].args)
            && (forall i :: 0 <= i < |asset.containers| ==>
                  && t.containers[i].terminationPolicy == "FallbackToLogsOnError"
                  && t.containers[i].rest == asset.containers[i].rest
                  && t.containers[i].image == if asset.containers[i].image == "${CONTROLLER_IMAGE}:latest" then x.image
                                              else asset.containers[i].image)
            && (forall i :: 0 <= i < |asset.initContainers| ==>
                  t.initContainers[i] == asset.initContainers[i].(terminationPolicy := "FallbackToLogsOnError"))
    ensures var own := {"secrets/webhook-server-cert", "secrets/metrics-server-cert",
                        "configmaps/jobset-manager-config", "openshift.io/required-scc"};
            var a := Build(asset, x).annotations;
            && a.Keys == asset.annotations.Keys + own
            && (forall k :: k in asset.annotations && k !in own ==> a[k] == asset.annotations[k])
            && a["secrets/webhook-server-cert"] == Decimal.Render(x.webhook)
            && a["secrets/metrics-server-cert"] == Decimal.Render(x.metrics)
            && a["configmaps/jobset-manager-config"] == Decimal.Render(x.config)
            && a["openshift.io/required-scc"] == "restricted-v2"
  {
    Levels(x.logLevel);
    Stamps(asset, x);
  }

  lemma Levels(logLevel: string)
    ensures "--zap-log-level=" + ZapLevel(logLevel)
            == if logLevel in {"Debug", "Trace", "TraceAll"} then "--zap-log-level=debug" else "--zap-log-level=info"
  {
    assert "--zap-log-level=" + "debug" == "--zap-log-level=debug";
    assert "--zap-log-level=" + "info" == "--zap-log-level=info";
  }

  lemma DistinctKeys()
    ensures WEBHOOK_SECRET_KEY != METRICS_SECRET_KEY
    ensures WEBHOOK_SECRET_KEY != CONFIG_MAP_KEY && METRICS_SECRET_KEY != CONFIG_MAP_KEY
    ensures SCC !in {WEBHOOK_SECRET_KEY, METRICS_SECRET_KEY, CONFIG_MAP_KEY}
  {
    assert WEBHOOK_SECRET_KEY[8] == 'w' && METRICS_SECRET_KEY[8] == 'm';
    assert WEBHOOK_SECRET_KEY[0] == 's' && METRICS_SECRET_KEY[0] == 's' && CONFIG_MAP_KEY[0] == 'c' && SCC[0] == 'o';
  }

  /** Rollout exactness: the template, and with it the need for a rollout, is determined by
      the image, the log level class and the three versions, and each of them matters (the
      image as long as some container asks for it). */
  lemma RolloutExact(asset: PodTemplate, x: Inputs, y: Inputs)
    requires |asset.containers| > 0
    ensures Build(asset, x) == Build(asset, y) <==>
              && (UsesImage(asset) ==> x.image == y.image)
              && Verbose(x.logLevel) == Verbose(y.logLevel)
              && x.webhook == y.webhook && x.metrics == y.metrics && x.config == y.config
  {
    if Build(asset, x) == Build(asset, y) {
      Stamps(asset, x);
      Stamps(asset, y);
      Decimal.RenderInjective(x.webhook, y.webhook);
      Decimal.RenderInjective(x.metrics, y.metrics);
      Decimal.RenderInjective(x.config, y.config);
      SameContainers(asset, x, y);
    } else if Verbose(x.logLevel) == Verbose(y.logLevel) && (UsesImage(asset) ==> x.image == y.image) {
      forall i | 0 <= i < |asset.containers|
        ensures Build(asset, x).containers[i] == Build(asset, y).containers[i]
      {
        assert asset.containers[i].image == PLACEHOLDER_IMAGE ==> UsesImage(asset);
      }
      assert Build(asset, x).containers == Build(asset, y).containers;
    }
  }

  lemma SameContainers(asset: PodTemplate, x: Inputs, y: Inputs)
    requires |asset.containers| > 0 && Build(asset, x).containers == Build(asset, y).containers
    ensures Verbose(x.logLevel) == Verbose(y.logLevel)
    ensures UsesImage(asset) ==> x.image == y.image
  {
    assert Build(asset, x).containers[0].args[1] == Build(asset, y).containers[0].args[1];
    var p, a, b := "--zap-log-level=", ZapLevel(x.logLevel), ZapLevel(y.logLevel);
    assert (p + a)[|p|] == a[0] && (p + b)[|p|] == b[0];
    if i :| 0 <= i < |asset.containers| && asset.containers[i].image == PLACEHOLDER_IMAGE {
      assert Build(asset, x).containers[i].image == Build(asset, y).containers[i].image;
    }
  }

  /** MergeMap for required keys that do not end in '-' (none of the operator's do). */
  method MergeMap(existing: map<string, string>, required: map<string, string>) returns (merged: map<string, string>)
    ensures merged == existing + required
  {
    merged := existing;
    var todo := required.Keys;
    while todo != {}
      invariant todo <= required.Keys
      invariant merged.Keys == existing.Keys + (required.Keys - todo)
      invariant forall k :: k in merged ==>
                merged[k] == if k in required && k !in todo then required[k] else existing[k]
      decreases todo
    {
      var k :| k in todo;
      if k !in merged || merged[k] != required[k] {
        merged := merged[k := required[k]];
      }
      todo := todo - {k};
    }
  }

  function WithImage(c: Container, image: string): Container {
    if c.image == PLACEHOLDER_IMAGE then c.(image := image) else c
  }

  /** The image loop over the container slice. */
  method FillImages(containers: array<Container>, image: string)
    modifies containers
    ensures forall j :: 0 <= j < containers.Length ==>
              containers[j] == WithImage(old(containers[j]), image)
  {
    for i := 0 to containers.Length
      invariant forall j :: i <= j < containers.Length ==> containers[j] == old(containers[j])
      invariant forall j :: 0 <= j < i ==>
                  containers[j] == WithImage(old(containers[j]), image)
    {
      if containers[i].image == PLACEHOLDER_IMAGE {
        containers[i] := containers[i].(image := image);
      }
    }
  }

  /** The loops that set the termination message policy. */
  method FallBack(containers: array<Container>)
    modifies containers
    ensures forall j :: 0 <= j < containers.Length ==>
              containers[j] == old(containers[j]).(terminationPolicy := FALLBACK)
  {
    for i := 0 to containers.Length
      invariant forall j :: i <= j < containers.Length ==> containers[j] == old(containers[j])
      invariant forall j :: 0 <= j < i ==> containers[j] == old(containers[j]).(terminationPolicy := FALLBACK)
    {
      containers[i] := containers[i].(terminationPolicy := FALLBACK);
    }
  }

  /** The switch on the operator's log level. */
  method LevelOf(logLevel: string) returns (level: string)
    ensures level == ZapLevel(logLevel)
    ensures level == "debug" <==> logLevel in ["Debug", "Trace", "TraceAll"]
  {
    level := "";
    match logLevel {
      case "Normal" => level := "info";
      case "Debug" => level := "debug";
      case "Trace" => level := "debug";
      case "TraceAll" => level := "debug";
      case _ => level := "info";
    }
    assert "info"[0] != "debug"[0];
  }

  /** The part of manageDeployment that rewrites the decoded asset in place. The two arrays
      are the container slices of the asset, annotations is its template annotation map. */
  method ManageTemplate(annotations: map<string, string>, containers: array<Container>,
          initContainers: array<Container>, rest: string, image: string, logLevel: string,
          specAnnotations: map<string, string>)
    returns (built: PodTemplate)
    requires containers != initContainers && containers.Length > 0
    modifies containers, initContainers
    ensures built.containers == containers[..] && built.initContainers == initContainers[..]
    ensures containers[0].args ==
              ["--config=/controller_manager_config.yaml",
               if logLevel in {"Debug", "Trace", "TraceAll"} then "--zap-log-level=debug" else "--zap-log-level=info"]
    ensures forall w: nat, m: nat, c: nat :: specAnnotations == SpecAnnotations(w, m, c) ==>
              built == Build(PodTemplate(annotations, old(containers[..]), old(initContainers[..]), rest),
                Inputs(image, logLevel, w, m, c))
  {
    ghost var cs, ics := containers[..], initContainers[..];
    FillImages(containers, image);
    var level := LevelOf(logLevel);
    Levels(logLevel);
    containers[0] := containers[0].(args := ["--config=/controller_manager_config.yaml", "--zap-log-level=" + level]);
    var merged := MergeMap(annotations, specAnnotations);
    merged := merged[SCC := "restricted-v2"];
    FallBack(containers);
    FallBack(initContainers);
    built := PodTemplate(merged, containers[..], initContainers[..], rest);
    assert forall i :: 0 <= i < |cs| ==> containers[i] == Rewritten(cs[i], i == 0, image, logLevel);
    assert forall i :: 0 <= i < |ics| ==> initContainers[i] == ics[i].(terminationPolicy := FALLBACK);
    forall w: nat, m: nat, c: nat | specAnnotations == SpecAnnotations(w, m, c)
      ensures built == Build(PodTemplate(annotations, cs, ics, rest), Inputs(image, logLevel, w, m, c))
    {
      Assembled(PodTemplate(annotations, cs, ics, rest), Inputs(image, logLevel, w, m, c), built);
    }
  }

  lemma Assembled(asset: PodTemplate, x: Inputs, t: PodTemplate)
    requires t.annotations ==
               (asset.annotations + SpecAnnotations(x.webhook, x.metrics, x.config))[SCC := "restricted-v2"]
    requires t.rest == asset.rest && |t.containers| == |asset.containers|
    requires |t.initContainers| == |asset.initContainers|
    requires forall i :: 0 <= i < |asset.containers| ==>
               t.containers[i] == Rewritten(asset.containers[i], i == 0, x.image, x.logLevel)
    requires forall i :: 0 <= i < |asset.initContainers| ==>
               t.initContainers[i] == asset.initContainers[i].(terminationPolicy := FALLBACK)
    ensures t == Build(asset, x)
  {
    assert t.containers == Build(asset, x).containers;
    assert t.initContainers == Build(asset, x).initContainers;
  }
}
