/** customCRDfixes: for old API servers one validation rule of the CRD is rewritten. The loop
    variable and every map lookup are copies, but the slice of rules inside them is not. */
module CrdFixes {
  import opened Wrappers
  import opened ClusterModel

  datatype Rule = Rule(message: string, rule: string, rest: string)

  /** JSONSchemaProps as far as the fix-up walks it. A nil pointer is None; the rules are a
      slice, that is, a reference that copies of the schema share. */
  datatype Schema = Schema(properties: map<string, Schema>, items: Option<Items>, rules: array<Rule>)
  datatype Items = Items(schema: Option<Schema>)
  datatype Validation = Validation(openApi: Option<Schema>)
  datatype Version = Version(name: string, schema: Option<Validation>)

  const FIXED_VERSION := "v1alpha2"
  const FIXED_MESSAGE := "namespace cannot be set for VolumeClaimPolicies templates"
  const FIXED_RULE := "self.templates.all(t, !has(t.metadata.__namespace__) || size(t.metadata.__namespace__) == 0)"

  /** The rules the path leads to, or None if following it dereferences nil. Looking up a
      missing property gives an empty schema, whose items are nil. */
  function Target(v: Version): Option<array<Rule>> {
    if v.schema.None? || v.schema.value.openApi.None? then None else
    var root := v.schema.value.openApi.value;
    if "spec" !in root.properties then None else
    var spec := root.properties["spec"];
    if "volumeClaimPolicies" !in spec.properties then None else
    var policies := spec.properties["volumeClaimPolicies"];
    if policies.items.None? || policies.items.value.schema.None? then None
    else Some(policies.items.value.schema.value.rules)
  }

  /** Exactly the path spec.volumeClaimPolicies[].x-kubernetes-validations is followed. */
  lemma TargetPath(v: Version, root: Schema, rules: array<Rule>)
    requires v.schema == Some(Validation(Some(root)))
    ensures Target(v) == Some(rules) <==>
              && "spec" in root.properties && "volumeClaimPolicies" in root.properties["spec"].properties
              && var items := root.properties["spec"].properties["volumeClaimPolicies"].items;
                 items.Some? && items.value.schema.Some? && items.value.schema.value.rules == rules
  {
  }

  /** The walk itself. A missing property is an empty schema, and its items are nil; None is the
      panic of a nil dereference. */
  method Walk(v: Version) returns (validations: Option<array<Rule>>)
    ensures validations == Target(v)
  {
    if v.schema.None? || v.schema.value.openApi.None? { return None; }
    var properties := v.schema.value.openApi.value.properties;
    properties := if "spec" in properties then properties["spec"].properties else map[];
    if "volumeClaimPolicies" !in properties { return None; }
    var items := properties["volumeClaimPolicies"].items;
    if items.None? || items.value.schema.None? { return None; }
    validations := Some(items.value.schema.value.rules);
  }

  predicate Broken(v: Version) {
    v.name == FIXED_VERSION && Target(v).None?
  }

  /** How many versions are visited before one of them makes the walk panic. */
  function Visited(versions: seq<Version>): (n: nat)
    ensures n <= |versions| && (n < |versions| ==> Broken(versions[n]))
    ensures forall i :: 0 <= i < n ==> !Broken(versions[i])
  {
    if versions == [] || Broken(versions[0]) then 0 else 1 + Visited(versions[1..])
  }

  /** The rule slices the fix-up writes to. */
  function Targets(versions: seq<Version>): set<array<Rule>> {
    set v | v in versions && v.name == FIXED_VERSION && Target(v).Some? :: Target(v).value
  }

  function Fix(r: Rule): Rule {
    if r.message == FIXED_MESSAGE then r.(rule := FIXED_RULE) else r
  }

  function FixAll(rs: seq<Rule>): seq<Rule> {
    seq(|rs|, i requires 0 <= i < |rs| => Fix(rs[i]))
  }

  /** What the fix-up means: the same rules in the same order, messages included, and every
      rule with the message reads the way an old server understands. */
  lemma FixAllExact(rs: seq<Rule>, ts: seq<Rule>)
    ensures var message := "namespace cannot be set for VolumeClaimPolicies templates";
            var rule := "self.templates.all(t, !has(t.metadata.__namespace__) || size(t.metadata.__namespace__) == 0)";
            ts == FixAll(rs) <==>
              && |ts| == |rs|
              && forall i :: 0 <= i < |rs| ==>
                   ts[i].message == rs[i].message && ts[i].rest == rs[i].rest
                   && ts[i].rule == if rs[i].message == message then rule else rs[i].rule
  {
    if |ts| == |rs| && forall i :: 0 <= i < |rs| ==>
                         ts[i].message == rs[i].message && ts[i].rest == rs[i].rest
                         && ts[i].rule == if rs[i].message == FIXED_MESSAGE then FIXED_RULE else rs[i].rule {
      forall i | 0 <= i < |rs| ensures ts[i] == FixAll(rs)[i] {
      }
    }
  }

  /** Fixing twice is fixing once. */
  lemma FixAllTwice(rs: seq<Rule>)
    ensures FixAll(FixAll(rs)) == FixAll(rs)
  {
    assert forall i :: 0 <= i < |rs| ==> FixAll(FixAll(rs))[i] == FixAll(rs)[i];
  }

  /** The inner loop: it iterates over copies of the rules and writes through the slice. */
  method FixRules(validations: array<Rule>)
    modifies validations
    ensures validations[..] == FixAll(old(validations[..]))
  {
    for i := 0 to validations.Length
      invariant forall j :: i <= j < validations.Length ==> validations[j] == old(validations[j])
      invariant forall j :: 0 <= j < i ==> validations[j] == Fix(old(validations[j]))
    {
      var validation := validations[i];
      if validation.message == FIXED_MESSAGE {
        validations[i] := validations[i].(rule := FIXED_RULE);
      }
    }
  }

  /** The fix-up. On an old server exactly the rule slices of the v1alpha2 versions are
      fixed, in place, even when two versions share one; it panics at the first v1alpha2
      version whose path has a nil on it. On any other server nothing changes. (slices are
      the rule slices of the decoded CRD.) */
  method CustomCRDFixes(versions: seq<Version>, major: nat, minor: nat, ghost slices: set<array<Rule>>)
    returns (panicked: bool)
    requires Targets(versions) <= slices
    modifies Targets(versions)
    ensures panicked <==>
              major == 1 && minor <= 31 && exists v :: v in versions && v.name == "v1alpha2" && Target(v).None?
    ensures major != 1 || minor > 31 ==> forall a :: a in slices ==> a[..] == old(a[..])
    ensures forall a :: a in slices ==>
              a[..] == if LegacyServer(major, minor) && a in Targets(versions[..Visited(versions)])
                       then FixAll(old(a[..])) else old(a[..])
    ensures !panicked && major == 1 && minor <= 31 ==>
              forall v :: v in versions && v.name == "v1alpha2" && Target(v).Some? ==>
                Target(v).value[..] == FixAll(old(Target(v).value[..]))
    ensures forall a :: a in slices && (forall v :: v in versions && v.name == "v1alpha2" ==> Target(v) != Some(a)) ==>
              a[..] == old(a[..])
  {
    TargetsWithin(versions, Visited(versions));
    panicked := false;
    if major == 1 && minor <= 31 {
      for n := 0 to |versions|
        invariant n <= Visited(versions) && !panicked
        invariant forall a :: a in slices ==>
                    a[..] == if a in Targets(versions[..n]) then FixAll(old(a[..])) else old(a[..])
      {
        var crdVersion := versions[n];
        TargetsGrow(versions, n);
        if crdVersion.name == FIXED_VERSION {
          var validations := Walk(crdVersion);
          if validations.None? {
            assert Broken(versions[n]);
            return true;
          }
          FixTarget(versions, n, validations.value, slices);
          forall a | a in slices
            ensures a[..] == if a in Targets(versions[..n + 1]) then FixAll(old(a[..])) else old(a[..])
          {
            FixAllTwice(old(a[..]));
          }
        }
      }
      assert versions[..|versions|] == versions;
      forall v | v in versions && v.name == "v1alpha2" && Target(v).Some? ensures Target(v).value in Targets(versions) {
      }
    }
  }

  /** One round of the outer loop; a slice met before is already fixed. */
  method FixTarget(versions: seq<Version>, ghost n: nat, validations: array<Rule>, ghost slices: set<array<Rule>>)
    requires n < |versions| && Targets(versions) <= slices
    requires Targets(versions[..n + 1]) == Targets(versions[..n]) + {validations}
    modifies Targets(versions)
    ensures forall a :: a in slices ==> a[..] == if a == validations then FixAll(old(a[..])) else old(a[..])
  {
    TargetsWithin(versions, n + 1);
    FixRules(validations);
  }

  lemma TargetsGrow(versions: seq<Version>, n: nat)
    requires n < |versions|
    ensures var v := versions[n];
            Targets(versions[..n + 1]) ==
              Targets(versions[..n]) + (if v.name == FIXED_VERSION && Target(v).Some? then {Target(v).value} else {})
  {
    var v, before, after := versions[n], Targets(versions[..n]), Targets(versions[..n + 1]);
    assert versions[..n + 1] == versions[..n] + [v];
    forall a | a in before ensures a in after {
      var u :| u in versions[..n] && u.name == FIXED_VERSION && Target(u) == Some(a);
      assert u in versions[..n + 1];
    }
  }

  lemma TargetsWithin(versions: seq<Version>, n: nat)
    requires n <= |versions|
    ensures Targets(versions[..n]) <= Targets(versions)
  {
    forall a | a in Targets(versions[..n]) ensures a in Targets(versions) {
      var u :| u in versions[..n] && u.name == FIXED_VERSION && Target(u) == Some(a);
      assert u in versions;
    }
  }

  /** Running the fix-up a second time changes nothing more. */
  method FixTwice(versions: seq<Version>, major: nat, minor: nat, ghost slices: set<array<Rule>>)
    requires Targets(versions) <= slices && forall v :: v in versions ==> !Broken(v)
    modifies Targets(versions)
    ensures forall a :: a in slices ==>
              a[..] == if LegacyServer(major, minor) && a in Targets(versions) then FixAll(old(a[..])) else old(a[..])
  {
    assert versions[..Visited(versions)] == versions;
    var _ := CustomCRDFixes(versions, major, minor, slices);
    var _ := CustomCRDFixes(versions, major, minor, slices);
    forall a | a in slices
      ensures a[..] == if LegacyServer(major, minor) && a in Targets(versions) then FixAll(old(a[..])) else old(a[..])
    {
      FixAllTwice(old(a[..]));
    }
  }
}
