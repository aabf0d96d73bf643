/** Replacing the first occurrence of a placeholder, and why the order in which two
    placeholders are replaced does not matter. */
module Placeholders {
  import opened Wrappers

  predicate OccursAt(s: string, p: string, i: int) {
    0 <= i && i + |p| <= |s| && s[i..i + |p|] == p
  }

  /** The first occurrence. */
  function Index(s: string, p: string): (r: Option<nat>)
    ensures r.Some? ==> OccursAt(s, p, r.value) && forall j :: 0 <= j < r.value ==> !OccursAt(s, p, j)
    ensures r.None? ==> forall j :: !OccursAt(s, p, j)
  {
    IndexFrom(s, p, 0)
  }

  function IndexFrom(s: string, p: string, i: nat): (r: Option<nat>)
    ensures r.Some? ==> i <= r.value && OccursAt(s, p, r.value) && forall j :: i <= j < r.value ==> !OccursAt(s, p, j)
    ensures r.None? ==> forall j :: i <= j ==> !OccursAt(s, p, j)
    decreases |s| - i
  {
    if i + |p| > |s| then None
    else if s[i..i + |p|] == p then Some(i)
    else if i == |s| then None
    else IndexFrom(s, p, i + 1)
  }

  predicate Contains(s: string, p: string) {
    Index(s, p).Some?
  }

  /** strings.Replace with a limit of one. */
  function ReplaceFirst(s: string, p: string, r: string): string {
    match Index(s, p)
    case None => s
    case Some(i) => ReplaceAt(s, p, r, i)
  }

  function ReplaceAt(s: string, p: string, r: string, i: nat): string
    requires OccursAt(s, p, i)
  {
    s[..i] + r + s[i + |p|..]
  }

  // ---- Placeholders and names

  predicate Opener(c: char) { c == '(' || c == '{' }

  predicate Closer(c: char) { c == ')' || c == '}' }

  predicate PrefixChar(c: char) { 'A' <= c <= 'Z' || c == '_' }

  /** $(WORD) or ${WORD}. */
  predicate Placeholder(p: string) {
    && |p| >= 3 && p[0] == '$' && Opener(p[1]) && Closer(p[|p| - 1])
    && forall k :: 2 <= k < |p| - 1 ==> PrefixChar(p[k])
  }

  /** The host-name alphabet of section 2.1 of RFC 1123. */
  predicate HostChar(c: char) { 'a' <= c <= 'z' || 'A' <= c <= 'Z' || '0' <= c <= '9' || c == '-' || c == '.' }

  predicate HostName(r: string) {
    forall k :: 0 <= k < |r| ==> HostChar(r[k])
  }

  lemma CharAt(s: string, p: string, i: nat, k: nat)
    requires OccursAt(s, p, i) && k < |p|
    ensures s[i + k] == p[k]
  {
    assert s[i..i + |p|][k] == s[i + k];
  }

  lemma OccursByChars(s: string, p: string, i: nat)
    requires i + |p| <= |s| && forall k :: 0 <= k < |p| ==> s[i + k] == p[k]
    ensures OccursAt(s, p, i)
  {
    assert s[i..i + |p|] == p;
  }

  /** Two placeholders never overlap: at one place there is at most one of them, and the next
      begins where the first has ended. */
  lemma Apart(s: string, p: string, q: string, i: nat, j: nat)
    requires Placeholder(p) && Placeholder(q) && OccursAt(s, p, i) && OccursAt(s, q, j)
    ensures i == j ==> p == q
    ensures i < j ==> i + |p| <= j
  {
    if i < j < i + |p| {
      CharAt(s, p, i, j - i);
      CharAt(s, q, j, 0);
    } else if i == j {
      if |p| < |q| {
        CharAt(s, p, i, |p| - 1);
        CharAt(s, q, i, |p| - 1);
      } else if |q| < |p| {
        CharAt(s, q, i, |q| - 1);
        CharAt(s, p, i, |q| - 1);
      }
    }
  }

  /** Where the character at position j of the original is after the replacement. */
  lemma Moved(s: string, p: string, r: string, i: nat, j: nat)
    requires OccursAt(s, p, i)
    ensures j < i ==> ReplaceAt(s, p, r, i)[j] == s[j]
    ensures i <= j < i + |r| ==> ReplaceAt(s, p, r, i)[j] == r[j - i]
    ensures i + |p| <= j < |s| ==> ReplaceAt(s, p, r, i)[j - |p| + |r|] == s[j]
    ensures |ReplaceAt(s, p, r, i)| == |s| - |p| + |r|
  {
  }

  /** An occurrence of a placeholder in the result that meets the inserted name holds all of
      it: the name has neither its first nor its last character. */
  lemma Across(s: string, p: string, r: string, i: nat, q: string, j: nat)
    requires Placeholder(q) && HostName(r) && OccursAt(s, p, i)
    requires OccursAt(ReplaceAt(s, p, r, i), q, j) && j < i + |r| && i < j + |q|
    ensures Contains(q, r)
  {
    var t := ReplaceAt(s, p, r, i);
    if j > i {
      CharAt(t, q, j, 0);
      Moved(s, p, r, i, j);
    } else if j + |q| < i + |r| {
      CharAt(t, q, j, |q| - 1);
      Moved(s, p, r, i, j + |q| - 1);
    } else {
      forall k | 0 <= k < |r| ensures q[i - j + k] == r[k] {
        CharAt(t, q, j, i - j + k);
        Moved(s, p, r, i, i + k);
      }
      OccursByChars(q, r, i - j);
    }
  }

  /** After a replacement by a name that is no part of a placeholder q, q occurs exactly
      where it did: in front of the name at the same place, behind it moved by the difference
      in length, and nowhere across it - nothing is lost but the occurrence replaced, and none
      comes into being. */
  lemma OccurrencesAfter(s: string, p: string, r: string, i: nat, q: string, j: nat)
    requires Placeholder(p) && Placeholder(q) && HostName(r) && !Contains(q, r) && OccursAt(s, p, i)
    ensures OccursAt(ReplaceAt(s, p, r, i), q, j) <==>
              (j < i && OccursAt(s, q, j)) || (j >= i + |r| && OccursAt(s, q, j - |r| + |p|))
  {
    var t := ReplaceAt(s, p, r, i);
    EmptyContained(q);
    if OccursAt(t, q, j) {
      if j < i + |r| && i < j + |q| {
        Across(s, p, r, i, q, j);
      } else {
        OccursBefore(s, p, r, i, q, j);
      }
    }
    if j < i && OccursAt(s, q, j) {
      Apart(s, q, p, j, i);
      forall k | 0 <= k < |q| ensures t[j + k] == q[k] {
        CharAt(s, q, j, k);
        Moved(s, p, r, i, j + k);
      }
      OccursByChars(t, q, j);
    }
    if j >= i + |r| && OccursAt(s, q, j - |r| + |p|) {
      forall k | 0 <= k < |q| ensures t[j + k] == q[k] {
        CharAt(s, q, j - |r| + |p|, k);
        Moved(s, p, r, i, j - |r| + |p| + k);
      }
      OccursByChars(t, q, j);
    }
  }

  lemma OccursBefore(s: string, p: string, r: string, i: nat, q: string, j: nat)
    requires OccursAt(s, p, i) && OccursAt(ReplaceAt(s, p, r, i), q, j) && (j >= i + |r| || i >= j + |q|)
    ensures OccursAt(s, q, if j >= i + |r| then j - |r| + |p| else j)
  {
    var from := if j >= i + |r| then j - |r| + |p| else j;
    forall k | 0 <= k < |q| ensures s[from + k] == q[k] {
      CharAt(ReplaceAt(s, p, r, i), q, j, k);
      Moved(s, p, r, i, from + k);
    }
    OccursByChars(s, q, from);
  }

  /** The empty name is a part of everything. */
  lemma EmptyContained(q: string)
    ensures Contains(q, "")
  {
    assert OccursAt(q, "", 0);
  }

  lemma AllOccurrencesAfter(s: string, p: string, r: string, i: nat, q: string)
    requires Placeholder(p) && Placeholder(q) && HostName(r) && !Contains(q, r) && OccursAt(s, p, i)
    ensures forall j: nat {:trigger OccursAt(ReplaceAt(s, p, r, i), q, j)} ::
              OccursAt(ReplaceAt(s, p, r, i), q, j) <==>
              (j < i && OccursAt(s, q, j)) || (j >= i + |r| && OccursAt(s, q, j - |r| + |p|))
  {
    hide OccursAt, ReplaceAt, Placeholder;
    forall j: nat {:trigger OccursAt(ReplaceAt(s, p, r, i), q, j)}
      ensures OccursAt(ReplaceAt(s, p, r, i), q, j) <==>
              (j < i && OccursAt(s, q, j)) || (j >= i + |r| && OccursAt(s, q, j - |r| + |p|))
    {
      OccurrencesAfter(s, p, r, i, q, j);
    }
  }

  lemma IndexIs(s: string, p: string, i: nat)
    requires OccursAt(s, p, i) && forall j :: 0 <= j < i ==> !OccursAt(s, p, j)
    ensures Index(s, p) == Some(i)
  {
  }

  /** Replacing p moves the first occurrence of another placeholder q by the difference in
      length if it is behind, and not at all if it is in front. */
  lemma IndexAfter(s: string, p: string, r: string, q: string)
    requires Placeholder(p) && Placeholder(q) && p != q && HostName(r) && !Contains(q, r)
    ensures Index(s, p).Some? && Index(s, q).Some? ==>
              Index(ReplaceFirst(s, p, r), q) ==
                Some(if Index(s, q).value < Index(s, p).value then Index(s, q).value else Index(s, q).value - |p| + |r|)
    ensures Index(s, q).None? ==> Index(ReplaceFirst(s, p, r), q).None?
    ensures Index(s, p).Some? && Index(s, q).Some? ==>
              Index(s, q).value + |q| <= Index(s, p).value || Index(s, p).value + |p| <= Index(s, q).value
  {
    hide OccursAt, ReplaceAt, Placeholder;
    if Index(s, p).Some? {
      var i, t := Index(s, p).value, ReplaceFirst(s, p, r);
      AllOccurrencesAfter(s, p, r, i, q);
      if Index(s, q).Some? {
        Apart(s, p, q, i, Index(s, q).value);
        Apart(s, q, p, Index(s, q).value, i);
        IndexIs(t, q, if Index(s, q).value < i then Index(s, q).value else Index(s, q).value - |p| + |r|);
      }
    }
  }

  predicate Commutes(s: string, p: string, r: string, q: string, u: string) {
    ReplaceFirst(ReplaceFirst(s, p, r), q, u) == ReplaceFirst(ReplaceFirst(s, q, u), p, r)
  }

  lemma Confluent(s: string, p: string, r: string, q: string, u: string)
    requires Placeholder(p) && Placeholder(q) && p != q
    requires HostName(r) && HostName(u) && !Contains(q, r) && !Contains(p, u)
    ensures Commutes(s, p, r, q, u)
  {
    hide OccursAt, ReplaceAt, Contains;
    IndexAfter(s, p, r, q);
    IndexAfter(s, q, u, p);
    if Index(s, p).Some? && Index(s, q).Some? {
      var i, j := Index(s, p).value, Index(s, q).value;
      if i < j { SwapReplacements(s, p, r, q, u, i, j); } else { SwapReplacements(s, q, u, p, r, j, i); }
    }
  }

  /** The only placeholder in q with p pushed into its middle is p. */
  lemma OnlyThePushed(p: string, q: string, k: nat, l: nat, x: string, j: nat)
    requires Placeholder(p) && Placeholder(q) && Placeholder(x) && 0 < k <= l < |q|
    requires OccursAt(q[..k] + p + q[l..], x, j)
    ensures x == p && j == k
  {
    var s := q[..k] + p + q[l..];
    CharAt(s, x, j, 0);
    assert s[j] == '$';
    OccursByChars(s, p, k);
    if j != 0 {
      assert j == k;
      Apart(s, p, x, k, k);
    }
  }

  lemma Pushed(p: string, q: string, k: nat, l: nat)
    requires Placeholder(p) && Placeholder(q) && p != q && 0 < k <= l < |q|
    ensures Index(q[..k] + p + q[l..], p) == Some(k) && Index(q[..k] + p + q[l..], q).None?
  {
    var s := q[..k] + p + q[l..];
    OccursByChars(s, p, k);
    forall x, j: nat | (x == p || x == q) && OccursAt(s, x, j) ensures x == p && j == k {
      OnlyThePushed(p, q, k, l, x, j);
    }
    IndexIs(s, p, k);
  }

  lemma SelfReplaced(q: string, u: string)
    requires Placeholder(q) && HostName(u)
    ensures ReplaceFirst(q, q, u) == u && u != q
  {
    IndexIs(q, q, 0);
    assert q[0] == '$';
    assert u != "" ==> HostChar(u[0]);
  }

  /** Where a name can be cut out of a placeholder, strictly inside. */
  lemma CutInside(q: string, r: string) returns (k: nat)
    requires Placeholder(q) && HostName(r) && Contains(q, r)
    ensures 0 < k && k + |r| < |q| && OccursAt(q, r, k)
  {
    if r == "" {
      k := 1;
    } else {
      k := Index(q, r).value;
      CharAt(q, r, k, 0);
      CharAt(q, r, k, |r| - 1);
    }
  }

  /** A name that is a part of the other placeholder can complete it: replacing p first makes
      an occurrence of q that replacing q first does not see. */
  lemma Conflict(p: string, r: string, q: string, u: string) returns (s: string)
    requires Placeholder(p) && Placeholder(q) && p != q && HostName(r) && HostName(u) && Contains(q, r)
    ensures ReplaceFirst(ReplaceFirst(s, p, r), q, u) == u && ReplaceFirst(ReplaceFirst(s, q, u), p, r) == q
    ensures !Commutes(s, p, r, q, u)
  {
    var k := CutInside(q, r);
    s := q[..k] + p + q[k + |r|..];
    Pushed(p, q, k, k + |r|);
    assert ReplaceAt(s, p, r, k) == q by {
      assert s[..k] == q[..k] && s[k + |p|..] == q[k + |r|..];
      assert q == q[..k] + q[k..k + |r|] + q[k + |r|..];
    }
    hide OccursAt, Contains;
    SelfReplaced(q, u);
  }

  /** Confluence, exactly: two different placeholders can be replaced in either order in every
      string if and only if neither name is a part of the other placeholder. */
  lemma ConfluentExact(p: string, r: string, q: string, u: string)
    requires Placeholder(p) && Placeholder(q) && p != q && HostName(r) && HostName(u)
    ensures (forall s :: Commutes(s, p, r, q, u)) <==> !Contains(q, r) && !Contains(p, u)
  {
    if !Contains(q, r) && !Contains(p, u) {
      forall s ensures Commutes(s, p, r, q, u) {
        Confluent(s, p, r, q, u);
      }
    } else if Contains(q, r) {
      var s := Conflict(p, r, q, u);
    } else {
      var s := Conflict(q, u, p, r);
      assert !Commutes(s, p, r, q, u);
    }
  }

  /** Names with a character no placeholder has, such as a lower-case letter, are safe. */
  lemma LowerIsForeign(q: string, r: string, k: nat)
    requires Placeholder(q) && k < |r| && !('A' <= r[k] <= 'Z') && HostChar(r[k])
    ensures !Contains(q, r)
  {
    if Contains(q, r) {
      CharAt(q, r, Index(q, r).value, k);
    }
  }

  lemma SwapReplacements(s: string, p: string, r: string, q: string, u: string, i: nat, j: nat)
    requires OccursAt(s, p, i) && OccursAt(s, q, j) && i + |p| <= j
    requires OccursAt(ReplaceAt(s, p, r, i), q, j - |p| + |r|) && OccursAt(ReplaceAt(s, q, u, j), p, i)
    ensures ReplaceAt(ReplaceAt(s, p, r, i), q, u, j - |p| + |r|) == ReplaceAt(ReplaceAt(s, q, u, j), p, r, i)
  {
    var middle, tail := s[i + |p|..j], s[j + |q|..];
    var t, v := ReplaceAt(s, p, r, i), ReplaceAt(s, q, u, j);
    assert t[..j - |p| + |r|] == s[..i] + r + middle;
    assert t[j - |p| + |r| + |q|..] == tail;
    assert v[..i] == s[..i] && v[i + |p|..] == middle + u + tail;
    assert (s[..i] + r + middle) + u + tail == s[..i] + r + (middle + u + tail);
  }

  // ---- Counting

  /** Occurrences in a range of positions. */
  function Among(s: string, p: string, lo: nat, hi: nat): nat
    decreases hi - lo
  {
    if lo >= hi then 0 else (if OccursAt(s, p, lo) then 1 else 0) + Among(s, p, lo + 1, hi)
  }

  function Count(s: string, p: string): nat {
    Among(s, p, 0, |s| + 1)
  }

  lemma {:induction false} AmongSplit(s: string, p: string, lo: nat, mid: nat, hi: nat)
    requires lo <= mid <= hi
    ensures Among(s, p, lo, hi) == Among(s, p, lo, mid) + Among(s, p, mid, hi)
    decreases mid - lo
  {
    if lo < mid {
      AmongSplit(s, p, lo + 1, mid, hi);
    }
  }

  lemma {:induction false} AmongMoved(s: string, t: string, p: string, lo: nat, hi: nat, d: int)
    requires lo <= hi && lo + d >= 0
    requires forall j :: lo <= j < hi ==> (OccursAt(s, p, j) <==> OccursAt(t, p, j + d))
    ensures Among(s, p, lo, hi) == Among(t, p, lo + d, hi + d)
    decreases hi - lo
  {
    if lo < hi {
      AmongMoved(s, t, p, lo + 1, hi, d);
    }
  }

  lemma {:induction false} AmongNone(s: string, p: string, lo: nat, hi: nat)
    requires forall j :: lo <= j < hi ==> !OccursAt(s, p, j)
    ensures Among(s, p, lo, hi) == 0
    decreases hi - lo
  {
    if lo < hi {
      AmongNone(s, p, lo + 1, hi);
    }
  }

  /** One occurrence of p goes, and no occurrence of any other placeholder. */
  lemma CountAfter(s: string, p: string, r: string, i: nat, q: string)
    requires Placeholder(p) && Placeholder(q) && HostName(r) && !Contains(q, r) && OccursAt(s, p, i)
    ensures Count(ReplaceAt(s, p, r, i), q) == Count(s, q) - (if q == p then 1 else 0)
  {
    hide Placeholder, Among, OccursAt;
    var t := ReplaceAt(s, p, r, i);
    Moved(s, p, r, i, 0);
    OccursInside(s, p, i);
    AllOccurrencesAfter(s, p, r, i, q);
    AmongSplit(t, q, 0, i, |t| + 1);
    AmongSplit(t, q, i, i + |r|, |t| + 1);
    AmongSplit(s, q, 0, i, |s| + 1);
    AmongSplit(s, q, i, i + |p|, |s| + 1);
    AmongMoved(s, t, q, 0, i, 0);
    AmongNone(t, q, i, i + |r|);
    AmongMoved(s, t, q, i + |p|, |s| + 1, |r| - |p|);
    OneAmong(s, p, q, i);
  }

  lemma OccursInside(s: string, p: string, i: nat)
    requires OccursAt(s, p, i)
    ensures i + |p| <= |s|
  {
  }

  /** In the range of an occurrence of p there is one placeholder: p. */
  lemma OneAmong(s: string, p: string, q: string, i: nat)
    requires Placeholder(p) && Placeholder(q) && OccursAt(s, p, i)
    ensures Among(s, q, i, i + |p|) == if q == p then 1 else 0
  {
    forall j | i < j < i + |p| ensures !OccursAt(s, q, j) {
      if OccursAt(s, q, j) { Apart(s, p, q, i, j); }
    }
    AmongNone(s, q, i + 1, i + |p|);
    if OccursAt(s, q, i) { Apart(s, p, q, i, i); }
  }
}
