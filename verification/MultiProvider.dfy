/** The multi provider: cluster names joined with the name of the provider they come from, and
    the routing of a joined name back to that provider. */
module MultiProvider {
  import opened Options

  /** `sep` occurs in `s` at position `i`. */
  predicate At(s: string, sep: string, i: nat) {
    i + |sep| <= |s| && s[i..i+|sep|] == sep
  }

  /** The first occurrence at or after `from`. */
  function Find(s: string, sep: string, from: nat): (r: Option<nat>)
    requires from <= |s|
    ensures r.Some? ==> from <= r.value && At(s, sep, r.value) && forall j: nat :: from <= j < r.value ==> !At(s, sep, j)
    ensures r.None? ==> forall j: nat :: from <= j ==> !At(s, sep, j)
    decreases |s| - from
  {
    if At(s, sep, from) then Some(from)
    else if from == |s| then None
    else Find(s, sep, from + 1)
  }

  function Join(provider: string, sep: string, cluster: string): string {
    provider + sep + cluster
  }

  /** splitClusterName: at the first separator; without one, no provider and the whole name. */
  function Split(name: string, sep: string): (string, string) {
    match Find(name, sep, 0)
    case Some(i) => (name[..i], name[i+|sep|..])
    case None => ("", name)
  }

  /** The name is cut at the first separator, or kept whole if there is none. */
  lemma SplitIs(name: string, sep: string, i: nat)
    ensures At(name, sep, i) && (forall j: nat :: j < i ==> !At(name, sep, j)) ==>
      Split(name, sep) == (name[..i], name[i+|sep|..])
    ensures (forall j: nat :: !At(name, sep, j)) ==> Split(name, sep) == ("", name)
  {
  }

  /** In provider + separator, the separator is first found at the end of the provider's name. */
  ghost predicate Clean(provider: string, sep: string) {
    forall j: nat :: j < |provider| ==> !At(provider + sep, sep, j)
  }

  lemma FirstInJoined(provider: string, sep: string, cluster: string)
    requires sep != ""
    ensures Find(Join(provider, sep, cluster), sep, 0).Some?
    ensures Find(Join(provider, sep, cluster), sep, 0) == Some(|provider|) <==> Clean(provider, sep)
  {
    var s, head := Join(provider, sep, cluster), provider + sep;
    assert s[|provider|..|provider|+|sep|] == sep;
    assert At(s, sep, |provider|);
    forall j: nat | j < |provider| ensures At(s, sep, j) <==> At(head, sep, j) {
      assert s[j..j+|sep|] == head[j..j+|sep|];
    }
  }

  /** Splitting a joined name gives back exactly the provider and the cluster, whatever the cluster
      is called, exactly when the provider's name is clean. */
  lemma RoundTripIff(provider: string, sep: string, cluster: string)
    requires sep != ""
    ensures Split(Join(provider, sep, cluster), sep) == (provider, cluster) <==> Clean(provider, sep)
  {
    FirstInJoined(provider, sep, cluster);
    var s := Join(provider, sep, cluster);
    var i := Find(s, sep, 0).value;
    assert |s[..i]| == i;
    if i == |provider| {
      assert s[..i] == provider && s[i+|sep|..] == cluster;
    }
  }

  /** The other way round: joining the parts of a name that has a separator gives the name. */
  lemma SplitThenJoin(name: string, sep: string)
    requires Find(name, sep, 0).Some?
    ensures Join(Split(name, sep).0, sep, Split(name, sep).1) == name
  {
    var i := Find(name, sep, 0).value;
    assert name == name[..i] + name[i..i+|sep|] + name[i+|sep|..];
  }

  lemma JoinIsInjective(p: string, q: string, sep: string, c: string, d: string)
    requires sep != "" && Clean(p, sep) && Clean(q, sep) && Join(p, sep, c) == Join(q, sep, d)
    ensures p == q && c == d
  {
    RoundTripIff(p, sep, c);
    RoundTripIff(q, sep, d);
  }

  /** For a one-character separator, clean means not containing it. */
  lemma CleanIffAbsent(provider: string, sep: string)
    requires |sep| == 1
    ensures Clean(provider, sep) <==> sep[0] !in provider
  {
    forall j: nat | j < |provider| ensures At(provider + sep, sep, j) <==> provider[j] == sep[0] {
      assert (provider + sep)[j..j+1] == [provider[j]];
    }
  }

  /** A longer separator can hide in the seam: "a-" is free of "--" but not clean for it. */
  lemma SeamIsNotClean()
    ensures !At("a-", "--", 0) && !At("a-", "--", 1) && !Clean("a-", "--")
  {
    assert "a-"[0..2][0] == 'a';
    assert ("a-" + "--")[1..3] == "--";
    assert At("a-" + "--", "--", 1);
  }

  /** Where a Get goes: to which provider, with which cluster name. */
  datatype Route = Route(provider: nat, cluster: string)

  function Routed(providers: map<string, nat>, sep: string, name: string): Option<Route> {
    var (p, c) := Split(name, sep);
    if p in providers then Some(Route(providers[p], c)) else None
  }

  class Provider {
    const sep: string
    var providers: map<string, nat>
    var cancels: set<string>
    /** the channel of names to start: None until Start has run */
    var queue: Option<seq<string>>

    constructor (separator: string)
      ensures sep == (if separator == "" then "#" else separator) && sep != ""
      ensures providers == map[] && cancels == {} && queue == None
    {
      sep := if separator == "" then "#" else separator;
      providers, cancels, queue := map[], {}, None;
    }

    method AddProvider(name: string, provider: nat) returns (ok: bool)
      modifies this
      ensures ok <==> name !in old(providers)
      ensures providers == if ok then old(providers)[name := provider] else old(providers)
      ensures queue == if ok && old(queue).Some? then Some(old(queue).value + [name]) else old(queue)
      ensures cancels == old(cancels)
    {
      if name in providers { return false; }
      providers := providers[name := provider];
      if queue.Some? { queue := Some(queue.value + [name]); }
      return true;
    }

    method RemoveProvider(name: string)
      modifies this
      ensures providers == old(providers) - {name} && cancels == old(cancels) - {name} && queue == old(queue)
    {
      if name in cancels { cancels := cancels - {name}; }
      providers := providers - {name};
    }

    method Get(name: string) returns (r: Option<Route>)
      ensures r == Routed(providers, sep, name)
    {
      var (p, c) := Split(name, sep);
      if p !in providers { return None; }
      return Some(Route(providers[p], c));
    }
  }

  /** A joined name of a clean provider reaches that provider with the cluster's own name, and
      finds nothing exactly when the provider is not registered. */
  lemma JoinedNamesReachTheirProvider(providers: map<string, nat>, sep: string, p: string, c: string)
    requires sep != "" && Clean(p, sep)
    ensures Routed(providers, sep, Join(p, sep, c)) == if p in providers then Some(Route(providers[p], c)) else None
  {
    RoundTripIff(p, sep, c);
  }

  /** A provider whose name is not clean is never reached by its joined names with the cluster's own
      name: they go to another provider or to none. */
  lemma UncleanNamesAreMisrouted(sep: string, p: string, c: string)
    requires sep != "" && !Clean(p, sep)
    ensures Split(Join(p, sep, c), sep).0 != p && |Split(Join(p, sep, c), sep).0| < |p|
  {
    FirstInJoined(p, sep, c);
    var s := Join(p, sep, c);
    assert At(s, sep, |p|) by { assert s[|p|..|p|+|sep|] == sep; }
  }
}
