/** Service names and namespaces put into certificates, monitors and annotations. */
module NameInjection {
  import opened Wrappers
  import opened Placeholders

  /** The two ways to write a placeholder. */
  datatype Syntax = Paren | Brace

  function Opening(x: Syntax): string {
    if x.Paren? then "$(" else "${"
  }

  function Closing(x: Syntax): string {
    if x.Paren? then ")" else "}"
  }

  function NameIn(x: Syntax, prefix: string): string {
    Opening(x) + (prefix + "_NAME") + Closing(x)
  }

  function NamespaceIn(x: Syntax, prefix: string): string {
    Opening(x) + (prefix + "_NAMESPACE") + Closing(x)
  }

  /** Prefixes are made of capitals and underscores. */
  predicate Prefix(s: string) {
    forall k :: 0 <= k < |s| ==> PrefixChar(s[k])
  }

  /** A name as Kubernetes has them: a host name in lower case that is not empty. */
  predicate KubeName(r: string) {
    r != "" && forall k :: 0 <= k < |r| ==> HostChar(r[k]) && !('A' <= r[k] <= 'Z')
  }

  /** The syntax injectService looks for in a value. */
  function SyntaxOf(value: string): Option<Syntax> {
    if Contains(value, "$(") then Some(Paren) else if Contains(value, "${") then Some(Brace) else None
  }

  function Injected(prefix: string, value: string, name: string, namespace: string): string {
    match SyntaxOf(value)
    case None => value
    case Some(x) => ReplaceFirst(ReplaceFirst(value, NameIn(x, prefix), name), NamespaceIn(x, prefix), namespace)
  }

  method InjectService(prefix: string, input: string, name: string, namespace: string) returns (value: string)
    ensures value == Injected(prefix, input, name, namespace)
  {
    value := input;
    if Contains(value, "$(") {
      value := ReplaceFirst(value, "$(" + (prefix + "_NAME") + ")", name);
      value := ReplaceFirst(value, "$(" + (prefix + "_NAMESPACE") + ")", namespace);
    } else if Contains(value, "${") {
      value := ReplaceFirst(value, "${" + (prefix + "_NAME") + "}", name);
      value := ReplaceFirst(value, "${" + (prefix + "_NAMESPACE") + "}", namespace);
    }
  }

  lemma Words(x: Syntax, prefix: string)
    requires Prefix(prefix)
    ensures Placeholder(NameIn(x, prefix)) && Placeholder(NamespaceIn(x, prefix))
    ensures NameIn(x, prefix) != NamespaceIn(x, prefix)
  {
    assert |NameIn(x, prefix)| == |prefix| + 8 && |NamespaceIn(x, prefix)| == |prefix| + 13;
    WordIsPlaceholder(x, prefix + "_NAME");
    WordIsPlaceholder(x, prefix + "_NAMESPACE");
  }

  lemma WordIsPlaceholder(x: Syntax, word: string)
    requires forall k :: 0 <= k < |word| ==> PrefixChar(word[k])
    ensures Placeholder(Opening(x) + word + Closing(x))
  {
    var p := Opening(x) + word + Closing(x);
    assert forall k :: 2 <= k < |p| - 1 ==> p[k] == word[k - 2];
  }

  /** One replacement of a placeholder by a name, seen from any placeholder q. */
  lemma Replaced(s: string, p: string, r: string, q: string)
    requires Placeholder(p) && Placeholder(q) && KubeName(r)
    ensures Count(ReplaceFirst(s, p, r), q) == Count(s, q) - (if Contains(s, p) && q == p then 1 else 0)
    ensures |ReplaceFirst(s, p, r)| == |s| + (if Contains(s, p) then |r| - |p| else 0)
    ensures p != q ==> (Contains(ReplaceFirst(s, p, r), q) <==> Contains(s, q))
  {
    hide Placeholder, OccursAt, Count;
    LowerIsForeign(q, r, 0);
    if Contains(s, p) {
      CountAfter(s, p, r, Index(s, p).value, q);
      Moved(s, p, r, Index(s, p).value, 0);
      if p != q { IndexAfter(s, p, r, q); BackIndex(s, p, r, q); }
    }
  }

  lemma BackIndex(s: string, p: string, r: string, q: string)
    requires Placeholder(p) && Placeholder(q) && KubeName(r) && p != q && Contains(s, p)
    ensures Contains(s, q) ==> Contains(ReplaceFirst(s, p, r), q)
  {
    LowerIsForeign(q, r, 0);
    IndexAfter(s, p, r, q);
  }

  /** What injectService does to a value with placeholders, for every prefix and all names:
      the order does not matter; one occurrence of each of the two placeholders goes, no
      other placeholder of any prefix or syntax is touched, and the length changes by exactly
      the difference. */
  lemma InjectedExact(prefix: string, value: string, name: string, namespace: string, x: Syntax, q: string)
    requires Prefix(prefix) && KubeName(name) && KubeName(namespace) && SyntaxOf(value) == Some(x) && Placeholder(q)
    ensures var out, p, n := Injected(prefix, value, name, namespace), NameIn(x, prefix), NamespaceIn(x, prefix);
            && out == ReplaceFirst(ReplaceFirst(value, n, namespace), p, name)
            && Count(out, q) == Count(value, q) - (if Contains(value, p) && q == p then 1 else 0)
                                - (if Contains(value, n) && q == n then 1 else 0)
            && |out| == |value| + (if Contains(value, p) then |name| - |p| else 0)
                        + (if Contains(value, n) then |namespace| - |n| else 0)
  {
    var p, n := NameIn(x, prefix), NamespaceIn(x, prefix);
    Words(x, prefix);
    hide Placeholder, OccursAt, Count, NameIn, NamespaceIn, ReplaceFirst, Contains;
    LowerIsForeign(n, name, 0);
    LowerIsForeign(p, namespace, 0);
    Confluent(value, p, name, n, namespace);
    Replaced(value, p, name, q);
    Replaced(value, p, name, n);
    Replaced(ReplaceFirst(value, p, name), n, namespace, q);
  }

  // ---- The two syntaxes

  function BracedChar(c: char): char {
    if c == '(' then '{' else if c == ')' then '}' else c
  }

  /** The same text with braces for parentheses. */
  function Braced(s: string): string {
    seq(|s|, i requires 0 <= i < |s| => BracedChar(s[i]))
  }

  predicate NoBraces(s: string) {
    forall k :: 0 <= k < |s| ==> s[k] != '{' && s[k] != '}'
  }

  lemma BracedOccurs(s: string, p: string, i: int)
    requires NoBraces(s) && NoBraces(p)
    ensures OccursAt(Braced(s), Braced(p), i) <==> OccursAt(s, p, i)
  {
    if OccursAt(s, p, i) {
      forall k | 0 <= k < |p| ensures Braced(s)[i + k] == Braced(p)[k] { CharAt(s, p, i, k); }
      OccursByChars(Braced(s), Braced(p), i);
    } else if OccursAt(Braced(s), Braced(p), i) {
      forall k | 0 <= k < |p| ensures s[i + k] == p[k] { CharAt(Braced(s), Braced(p), i, k); }
      OccursByChars(s, p, i);
    }
  }

  lemma BracedIndex(s: string, p: string)
    requires NoBraces(s) && NoBraces(p)
    ensures Index(Braced(s), Braced(p)) == Index(s, p)
  {
    hide OccursAt, Braced;
    forall i: nat ensures OccursAt(Braced(s), Braced(p), i) <==> OccursAt(s, p, i) { BracedOccurs(s, p, i); }
    if Index(s, p).Some? { IndexIs(Braced(s), Braced(p), Index(s, p).value); }
  }

  lemma BracedReplace(s: string, p: string, r: string)
    requires NoBraces(s) && NoBraces(p) && KubeName(r)
    ensures ReplaceFirst(Braced(s), Braced(p), r) == Braced(ReplaceFirst(s, p, r)) && NoBraces(ReplaceFirst(s, p, r))
  {
    BracedIndex(s, p);
    if Index(s, p).Some? {
      var i := Index(s, p).value;
      assert ReplaceAt(Braced(s), Braced(p), r, i) == Braced(ReplaceAt(s, p, r, i));
    }
  }

  lemma NoParen(s: string)
    ensures !Contains(Braced(s), "$(")
  {
    if Contains(Braced(s), "$(") {
      CharAt(Braced(s), "$(", Index(Braced(s), "$(").value, 1);
    }
  }

  lemma BracedWords(prefix: string)
    requires Prefix(prefix)
    ensures Braced(NameIn(Paren, prefix)) == NameIn(Brace, prefix)
    ensures Braced(NamespaceIn(Paren, prefix)) == NamespaceIn(Brace, prefix)
    ensures NoBraces(NameIn(Paren, prefix)) && NoBraces(NamespaceIn(Paren, prefix))
    ensures Braced("$(") == "${" && NoBraces("$(")
  {
  }

  /** Parenthesised and braced placeholders are interchangeable: writing a text with braces
      instead of parentheses and then injecting is injecting and then doing so. */
  lemma SyntaxesAgree(prefix: string, value: string, name: string, namespace: string)
    requires Prefix(prefix) && KubeName(name) && KubeName(namespace) && NoBraces(value)
    ensures Injected(prefix, Braced(value), name, namespace) == Braced(Injected(prefix, value, name, namespace))
  {
    BracedWords(prefix);
    NoParen(value);
    BracedIndex(value, "$(");
    hide NameIn, NamespaceIn, Braced, OccursAt, NoBraces, KubeName;
    NoBraceSyntax(value);
    if Contains(value, "$(") {
      var p, n := NameIn(Paren, prefix), NamespaceIn(Paren, prefix);
      BracedReplace(value, p, name);
      BracedReplace(ReplaceFirst(value, p, name), n, namespace);
    }
  }

  lemma NoBraceSyntax(value: string)
    requires NoBraces(value)
    ensures !Contains(value, "${")
  {
    if Contains(value, "${") {
      CharAt(value, "${", Index(value, "${").value, 1);
    }
  }

  // ---- The host names of the assets

  predicate NoDollar(s: string) {
    forall k :: 0 <= k < |s| ==> s[k] != '$'
  }

  /** prefix_NAME.prefix_NAMESPACE and a tail, as the assets have it. */
  function HostTemplate(x: Syntax, prefix: string, tail: string): string {
    NameIn(x, prefix) + "." + NamespaceIn(x, prefix) + tail
  }

  lemma FirstBehind(a: string, p: string, b: string)
    requires NoDollar(a) && |p| > 0 && p[0] == '$'
    ensures Index(a + p + b, p) == Some(|a|)
    ensures forall r :: ReplaceFirst(a + p + b, p, r) == a + r + b
  {
    var s := a + p + b;
    OccursByChars(s, p, |a|);
    forall j | 0 <= j < |a| ensures !OccursAt(s, p, j) {
      assert s[j] != '$';
    }
    IndexIs(s, p, |a|);
    assert s[..|a|] == a && s[|a| + |p|..] == b;
  }

  lemma TemplateSyntax(x: Syntax, prefix: string, tail: string)
    requires Prefix(prefix) && NoDollar(tail)
    ensures SyntaxOf(HostTemplate(x, prefix, tail)) == Some(x)
  {
    var s := HostTemplate(x, prefix, tail);
    OccursByChars(s, Opening(x), 0);
    assert Contains(s, Opening(x));
    if x.Brace? && Contains(s, "$(") {
      var i := Index(s, "$(").value;
      CharAt(s, "$(", i, 0);
      CharAt(s, "$(", i, 1);
      Words(x, prefix);
      DollarsOf(x, prefix, tail, i);
    }
  }

  lemma DollarsOf(x: Syntax, prefix: string, tail: string, i: nat)
    requires Prefix(prefix) && NoDollar(tail) && i < |HostTemplate(x, prefix, tail)|
    requires HostTemplate(x, prefix, tail)[i] == '$'
    ensures i + 1 < |HostTemplate(x, prefix, tail)| && HostTemplate(x, prefix, tail)[i + 1] == Opening(x)[1]
  {
    Words(x, prefix);
    var p, n := NameIn(x, prefix), NamespaceIn(x, prefix);
    assert i == 0 || i == |p| + 1;
  }

  lemma PlainName(name: string)
    requires KubeName(name)
    ensures NoDollar(name + ".") && NoDollar("")
  {
  }

  /** Replacing a name, then a namespace, in a text that has one of each. */
  lemma TwoReplaced(p: string, n: string, tail: string, name: string, namespace: string)
    requires |p| > 0 && p[0] == '$' && |n| > 0 && n[0] == '$' && NoDollar(name + ".") && NoDollar("")
    ensures ReplaceFirst(ReplaceFirst(p + "." + n + tail, p, name), n, namespace) == name + "." + namespace + tail
  {
    hide Index, ReplaceFirst, NoDollar;
    FirstBehind("", p, "." + n + tail);
    assert p + "." + n + tail == "" + p + ("." + n + tail);
    assert "" + name + ("." + n + tail) == (name + ".") + n + tail;
    FirstBehind(name + ".", n, tail);
  }

  /** Injecting into a host-name template gives name.namespace and the tail, in either syntax. */
  lemma InjectedHost(x: Syntax, prefix: string, tail: string, name: string, namespace: string)
    requires Prefix(prefix) && KubeName(name) && KubeName(namespace) && NoDollar(tail)
    ensures Injected(prefix, HostTemplate(x, prefix, tail), name, namespace) == name + "." + namespace + tail
  {
    hide NameIn, NamespaceIn, Index, SyntaxOf, ReplaceFirst, NoDollar, KubeName;
    TemplateSyntax(x, prefix, tail);
    Words(x, prefix);
    PlainName(name);
    TwoReplaced(NameIn(x, prefix), NamespaceIn(x, prefix), tail, name, namespace);
  }

  const METRICS_PREFIX := "METRICS_SERVICE"
  const METRICS_SERVICE_NAME := "jobset-controller-manager-metrics-service"
  const METRICS_DNS_NAMES: seq<string> := [
    HostTemplate(Paren, METRICS_PREFIX, ".svc"),
    HostTemplate(Paren, METRICS_PREFIX, ".svc.cluster.local")]
  const METRICS_SERVER_NAME := HostTemplate(Brace, METRICS_PREFIX, ".svc")

  function InjectedAll(prefix: string, values: seq<string>, name: string, namespace: string): seq<string> {
    seq(|values|, i requires 0 <= i < |values| => Injected(prefix, values[i], name, namespace))
  }

  /** Whatever the namespace, the server name Prometheus checks for is one of the names in the
      metrics certificate: name.namespace.svc. */
  lemma ServerNameCovered(namespace: string)
    requires KubeName(namespace)
    ensures var server := Injected(METRICS_PREFIX, METRICS_SERVER_NAME, METRICS_SERVICE_NAME, namespace);
            && server == METRICS_SERVICE_NAME + "." + namespace + ".svc"
            && server in InjectedAll(METRICS_PREFIX, METRICS_DNS_NAMES, METRICS_SERVICE_NAME, namespace)
  {
    MetricsNames();
    hide HostTemplate, KubeName, Prefix;
    InjectedHost(Brace, METRICS_PREFIX, ".svc", METRICS_SERVICE_NAME, namespace);
    InjectedHost(Paren, METRICS_PREFIX, ".svc", METRICS_SERVICE_NAME, namespace);
    assert InjectedAll(METRICS_PREFIX, METRICS_DNS_NAMES, METRICS_SERVICE_NAME, namespace)[0]
        == Injected(METRICS_PREFIX, HostTemplate(Paren, METRICS_PREFIX, ".svc"), METRICS_SERVICE_NAME, namespace);
  }

  lemma MetricsNames()
    ensures Prefix(METRICS_PREFIX) && KubeName(METRICS_SERVICE_NAME) && NoDollar(".svc")
  {
  }

  /** What becomes of a host name of the assets, written out for every prefix, in both syntaxes. */
  lemma HostWords(prefix: string, tail: string, name: string, namespace: string)
    requires Prefix(prefix) && KubeName(name) && KubeName(namespace) && NoDollar(tail)
    ensures Injected(prefix, "$(" + prefix + "_NAME)" + "." + "$(" + prefix + "_NAMESPACE)" + tail, name, namespace)
            == name + "." + namespace + tail
    ensures Injected(prefix, "${" + prefix + "_NAME}" + "." + "${" + prefix + "_NAMESPACE}" + tail, name, namespace)
            == name + "." + namespace + tail
  {
    InjectedHost(Paren, prefix, tail, name, namespace);
    InjectedHost(Brace, prefix, tail, name, namespace);
    TemplateWords(Paren, prefix, "$(", ")", tail);
    TemplateWords(Brace, prefix, "${", "}", tail);
    hide Injected;
    assert "_NAME" + ")" == "_NAME)" && "_NAMESPACE" + ")" == "_NAMESPACE)";
    assert "_NAME" + "}" == "_NAME}" && "_NAMESPACE" + "}" == "_NAMESPACE}";
  }

  lemma TemplateWords(x: Syntax, prefix: string, open: string, close: string, tail: string)
    requires open == Opening(x) && close == Closing(x)
    ensures HostTemplate(x, prefix, tail)
            == open + prefix + ("_NAME" + close) + "." + open + prefix + ("_NAMESPACE" + close) + tail
  {
    hide Opening, Closing;
    assert open + (prefix + "_NAME") + close == open + prefix + ("_NAME" + close);
    assert open + (prefix + "_NAMESPACE") + close == open + prefix + ("_NAMESPACE" + close);
    Joined(open + prefix + ("_NAME" + close) + ".", open, prefix, "_NAMESPACE" + close, tail);
  }

  lemma Joined(a: string, b: string, c: string, d: string, e: string)
    ensures a + (b + c + d) + e == a + b + c + d + e
  {
  }
}
