/** DNS1123: the name normalisation behind lease names, and the fence names built from it. */
module Sanitize {

  predicate Alnum(c: char) {
    'a' <= c <= 'z' || '0' <= c <= '9'
  }

  predicate Allowed(c: char) {
    Alnum(c) || c == '-' || c == '.'
  }

  /** Lower-cases, keeps what is allowed and turns anything else into a dash. */
  function Folded(c: char): (r: char)
    ensures Allowed(r) && (Allowed(c) ==> r == c)
  {
    if 'A' <= c <= 'Z' then c - 'A' + 'a' else if Allowed(c) then c else '-'
  }

  function FoldAll(s: string): (r: string)
    ensures |r| == |s| && forall i :: 0 <= i < |s| ==> r[i] == Folded(s[i])
  {
    if s == "" then "" else FoldAll(s[..|s|-1]) + [Folded(s[|s|-1])]
  }

  /** `s` without its longest prefix and suffix of dashes and dots. */
  ghost predicate IsTrimmed(s: string, r: string) {
    exists i, j :: TrimsTo(s, r, i, j)
  }

  ghost predicate TrimsTo(s: string, r: string, i: int, j: int) {
    && 0 <= i <= j <= |s| && r == s[i..j]
    && (forall k :: 0 <= k < i || j <= k < |s| ==> !Alnum(s[k]))
    && (i < j ==> Alnum(s[i]) && Alnum(s[j-1]))
  }

  lemma TrimIsUnique(s: string, a: string, b: string)
    requires IsTrimmed(s, a) && IsTrimmed(s, b)
    ensures a == b
  {
    var i, j :| TrimsTo(s, a, i, j);
    var k, m :| TrimsTo(s, b, k, m);
    assert i < j ==> Alnum(s[i]) && Alnum(s[j-1]);
    assert k < m ==> Alnum(s[k]) && Alnum(s[m-1]);
  }

  /** `r` is what DNS1123 makes of `s`. */
  ghost predicate IsDns1123(s: string, r: string) {
    exists t :: IsTrimmed(FoldAll(s), t) && r == if t == "" then "unknown" else t
  }

  method DNS1123(s: string) returns (r: string)
    ensures IsDns1123(s, r)
  {
    var b := "";
    for i := 0 to |s|
      invariant b == FoldAll(s[..i])
    {
      var c := s[i];
      assert s[..i+1][..i] == s[..i];
      if 'A' <= c <= 'Z' {
        b := b + [c - 'A' + 'a'];
      } else if 'a' <= c <= 'z' || '0' <= c <= '9' || c == '-' || c == '.' {
        b := b + [c];
      } else {
        b := b + ['-'];
      }
    }
    assert s[..|s|] == s;
    var start, end := 0, |b|;
    while start < end
      invariant 0 <= start <= end && forall k :: 0 <= k < start ==> !Alnum(b[k])
    {
      if 'a' <= b[start] <= 'z' || '0' <= b[start] <= '9' { break; }
      start := start + 1;
    }
    assert start < end ==> Alnum(b[start]);
    while end > start
      invariant start <= end <= |b| && forall k :: end <= k < |b| ==> !Alnum(b[k])
    {
      if 'a' <= b[end-1] <= 'z' || '0' <= b[end-1] <= '9' { break; }
      end := end - 1;
    }
    assert TrimsTo(b, b[start..end], start, end);
    assert IsTrimmed(FoldAll(s), b[start..end]);
    if start >= end { return "unknown"; }
    return b[start..end];
  }

  /** Non-empty, of allowed characters, beginning and ending alphanumeric. */
  predicate Normal(s: string) {
    s != "" && (forall c <- s :: Allowed(c)) && Alnum(s[0]) && Alnum(s[|s|-1])
  }

  lemma TrimmedIsNormal(s: string, t: string)
    requires IsTrimmed(FoldAll(s), t) && t != ""
    ensures Normal(t)
  {
    var i, j :| TrimsTo(FoldAll(s), t, i, j);
    forall k | 0 <= k < |t| ensures Allowed(t[k]) { assert t[k] == Folded(s[i+k]); }
  }

  lemma NormalIsKept(s: string)
    requires Normal(s)
    ensures IsTrimmed(FoldAll(s), s)
  {
    assert FoldAll(s) == s by {
      forall k | 0 <= k < |s| ensures FoldAll(s)[k] == s[k] { assert s[k] in s; }
    }
    assert TrimsTo(s, s, 0, |s|);
  }

  /** DNS1123 is a retraction onto the normal names: its results are normal, and the names it
      leaves alone are exactly the normal ones (so it is idempotent). */
  lemma Retraction(s: string, r: string)
    requires IsDns1123(s, r)
    ensures Normal(r) && (r == s <==> Normal(s))
  {
    var t :| IsTrimmed(FoldAll(s), t) && r == if t == "" then "unknown" else t;
    if t != "" { TrimmedIsNormal(s, t); }
    if Normal(s) {
      NormalIsKept(s);
      TrimIsUnique(FoldAll(s), t, s);
    }
  }

  lemma Functional(s: string, a: string, b: string)
    requires IsDns1123(s, a) && IsDns1123(s, b)
    ensures a == b
  {
    var t :| IsTrimmed(FoldAll(s), t) && a == if t == "" then "unknown" else t;
    var u :| IsTrimmed(FoldAll(s), u) && b == if u == "" then "unknown" else u;
    TrimIsUnique(FoldAll(s), t, u);
  }

  // ---------- character by character ----------

  predicate LetterOrDigit(c: char) {
    'a' <= c <= 'z' || 'A' <= c <= 'Z' || '0' <= c <= '9'
  }

  /** `d` is `c` in lower case if it is a letter, `c` if a digit, dash or dot, and otherwise a dash. */
  predicate Replaces(c: char, d: char) {
    if 'A' <= c <= 'Z' then d as int == c as int + 32
    else if 'a' <= c <= 'z' || '0' <= c <= '9' || c == '-' || c == '.' then d == c
    else d == '-'
  }

  /** `r` stands for s[i..j], which runs from the first to the last letter or digit of `s`. */
  ghost predicate Spans(s: string, r: string, i: int, j: int) {
    && 0 <= i < j <= |s| && |r| == j - i && LetterOrDigit(s[i]) && LetterOrDigit(s[j-1])
    && (forall k :: 0 <= k < i || j <= k < |s| ==> !LetterOrDigit(s[k]))
    && (forall k :: 0 <= k < |r| ==> Replaces(s[i+k], r[k]))
  }

  /** The result stands for the name from its first to its last letter or digit, or is "unknown" when it
      has none. */
  lemma Dns1123Is(s: string, r: string)
    requires IsDns1123(s, r)
    ensures if exists c <- s :: LetterOrDigit(c) then exists i, j :: Spans(s, r, i, j) else r == "unknown"
  {
    var f := FoldAll(s);
    var t :| IsTrimmed(f, t) && r == if t == "" then "unknown" else t;
    var i, j :| TrimsTo(f, t, i, j);
    forall k | 0 <= k < |s| ensures Replaces(s[k], f[k]) && (Alnum(f[k]) <==> LetterOrDigit(s[k])) {
      assert f[k] == Folded(s[k]);
    }
    if i < j {
      assert Spans(s, r, i, j);
      assert s[i] in s;
    } else {
      forall c <- s ensures !LetterOrDigit(c) {
        var k :| 0 <= k < |s| && s[k] == c;
        assert !Alnum(f[k]);
      }
    }
  }

  // ---------- fence names ----------

  /** The lease name of a cluster: its own, or one shared by all clusters. */
  ghost predicate IsFenceName(prefix: string, perCluster: bool, cluster: string, name: string) {
    if perCluster then exists d :: IsDns1123(cluster, d) && name == prefix + "-" + d else name == prefix
  }

  method FenceName(prefix: string, perCluster: bool, cluster: string) returns (name: string)
    ensures IsFenceName(prefix, perCluster, cluster, name)
  {
    if perCluster {
      var d := DNS1123(cluster);
      return prefix + "-" + d;
    }
    return prefix;
  }

  /** Two clusters share a fence exactly when fences are not per cluster or their normalised
      names agree; normal names never share one. */
  lemma FencesCollideIff(prefix: string, perCluster: bool, c: string, d: string, cn: string, dn: string,
      cf: string, df: string)
    requires IsDns1123(c, cn) && IsDns1123(d, dn)
    requires IsFenceName(prefix, perCluster, c, cf) && IsFenceName(prefix, perCluster, d, df)
    ensures cf == df <==> !perCluster || cn == dn
    ensures perCluster && Normal(c) && Normal(d) && c != d ==> cf != df
  {
    Retraction(c, cn);
    Retraction(d, dn);
    if perCluster {
      var x :| IsDns1123(c, x) && cf == prefix + "-" + x;
      var y :| IsDns1123(d, y) && df == prefix + "-" + y;
      Functional(c, x, cn);
      Functional(d, y, dn);
      assert cf[|prefix|+1..] == cn && df[|prefix|+1..] == dn;
    }
  }

  lemma FenceNameOf(prefix: string, cluster: string, d: string)
    requires IsDns1123(cluster, d)
    ensures IsFenceName(prefix, true, cluster, prefix + "-" + d)
  {
  }

  /** Distinct cluster names may share a fence: "A" and "a" do. */
  lemma FencesMayCollide(prefix: string) returns (name: string)
    ensures IsFenceName(prefix, true, "A", name) && IsFenceName(prefix, true, "a", name)
  {
    var d := "a";
    FoldsToA("A");
    FoldsToA("a");
    FenceNameOf(prefix, "A", d);
    FenceNameOf(prefix, "a", d);
    name := prefix + "-" + d;
  }

  lemma FoldsToA(s: string)
    requires |s| == 1 && Folded(s[0]) == 'a'
    ensures IsDns1123(s, "a")
  {
    assert FoldAll(s) == "a";
    assert TrimsTo("a", "a", 0, 1);
    assert IsTrimmed(FoldAll(s), "a");
  }
}
