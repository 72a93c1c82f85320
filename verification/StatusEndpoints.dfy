// Endpoints kept as "host:port" text in the status, and the address a failover uses.
module StatusEndpoints {
  import opened Json
  import opened Api
  import opened Text
  import opened Kube
  import opened Conditions
  import opened Replication

  const NOWHERE := Endpoint("", 0)

  function Render(e: Endpoint): string {
    e.host + [':'] + Decimal(e.port)
  }

  /** Go's conversion of an int to an int32. */
  function ToInt32(p: int): Int32 {
    (p + 0x8000_0000) % 0x1_0000_0000 - 0x8000_0000
  }

  /** The text split around position i. */
  function ParseAt(s: string, i: int): Option<Endpoint>
    requires i < |s|
  {
    if i <= 0 then None
    else
      var p := Atoi(s[i + 1..]);
      if p.None? || p.value == 0 then None else Some(Endpoint(s[..i], ToInt32(p.value)))
  }

  function Parse(s: string): Option<Endpoint> {
    ParseAt(s, LastIndex(s, ':'))
  }

  /** The first entry of that name whose endpoint parses. */
  function Stored(cs: seq<ClusterStatus>, name: string): Endpoint {
    if cs == [] then NOWHERE
    else if cs[0].name == name && Parse(cs[0].endpoint).Some? then Parse(cs[0].endpoint).value
    else Stored(cs[1..], name)
  }

  lemma {:induction false} StoredFrom(cs: seq<ClusterStatus>, name: string, k: nat)
    requires k < |cs|
    ensures Stored(cs[k..], name) ==
            if cs[k].name == name && Parse(cs[k].endpoint).Some? then Parse(cs[k].endpoint).value
            else Stored(cs[k + 1..], name)
  {
    assert cs[k..][1..] == cs[k + 1..];
  }

  method ClusterEndpointFromStatus(cs: seq<ClusterStatus>, name: string) returns (e: Endpoint)
    ensures e == Stored(cs, name)
  {
    hide Stored, Atoi, ToInt32, LastIndex;
    var k := 0;
    assert cs[0..] == cs;
    while k < |cs|
      invariant 0 <= k <= |cs| && Stored(cs, name) == Stored(cs[k..], name)
    {
      var s := cs[k].endpoint;
      StoredFrom(cs, name, k);
      if cs[k].name == name && s != "" {
        var i := LastIndex(s, ':');
        if i > 0 {
          var p := Atoi(s[i + 1..]);
          if p.Some? && p.value != 0 {
            return Endpoint(s[..i], ToInt32(p.value));
          }
        }
      }
      k := k + 1;
    }
    StoredNone(cs[k..], name);
    e := NOWHERE;
  }

  lemma {:induction false} StoredNone(cs: seq<ClusterStatus>, name: string)
    requires cs == []
    ensures Stored(cs, name) == NOWHERE
  {}

  function WithEndpoint(cs: seq<ClusterStatus>, name: string, s: string): seq<ClusterStatus> {
    var i := EntryOf(cs, name);
    if i < |cs| then cs[i := cs[i].(endpoint := s)] else cs
  }

  method UpdateClusterEndpoint(cs: seq<ClusterStatus>, name: string, endpoint: string) returns (r: seq<ClusterStatus>)
    ensures r == WithEndpoint(cs, name, endpoint)
  {
    r := cs;
    var i := 0;
    while i < |r|
      invariant 0 <= i <= |r| && r == cs
      invariant forall j :: 0 <= j < i ==> r[j].name != name
    {
      if r[i].name == name {
        r := r[i := r[i].(endpoint := endpoint)];
        assert EntryOf(cs, name) == i;
        return;
      }
      i := i + 1;
    }
  }

  /** The text is an endpoint: something, a colon, and a numeral for p without one. */
  predicate IsEndpoint(s: string, e: Endpoint, port: string, p: int) {
    && s == e.host + [':'] + port && ':' !in port && e.host != ""
    && Atoi(port) == Some(p) && p != 0 && e.port == ToInt32(p)
  }

  /** Exactly the texts with something before their last colon and a numeral for a nonzero 64-bit integer after it
      are read; the port is that integer, taken to 32 bits. */
  lemma {:induction false} ParseIs(s: string, e: Endpoint)
    ensures Parse(s) == Some(e) <==> exists port, p :: IsEndpoint(s, e, port, p)
  {
    hide Atoi, ToInt32, LastIndex;
    var i := LastIndex(s, ':');
    LastIndexIs(s, ':');
    if Parse(s) == Some(e) {
      var port := s[i + 1..];
      assert s == e.host + [':'] + port;
      assert IsEndpoint(s, e, port, Atoi(port).value);
    }
    if port, p :| IsEndpoint(s, e, port, p) {
      LastIndexOfSeparator(e.host, ':', port);
      assert s[|e.host| + 1..] == port && s[..|e.host|] == e.host;
    }
  }

  /** The conversion keeps what fits and is right modulo 2 to the 32. */
  lemma {:induction false} ToInt32Is(p: int)
    ensures -0x8000_0000 <= p < 0x8000_0000 ==> ToInt32(p) == p
    ensures (ToInt32(p) - p) % 0x1_0000_0000 == 0
  {
    var q := (p + 0x8000_0000) / 0x1_0000_0000;
    assert ToInt32(p) - p == -q * 0x1_0000_0000;
  }

  lemma {:induction false} ParseOfRender(e: Endpoint)
    ensures Parse(Render(e)) == if e.host != "" && e.port != 0 then Some(e) else None
  {
    var s, port := Render(e), Decimal(e.port);
    AtoiOfDecimal(e.port);
    LastIndexOfSeparator(e.host, ':', port);
    assert LastIndex(s, ':') == |e.host|;
    ParseOfParts(s, e.host, port, e.port);
  }

  lemma {:induction false} ParseOfParts(s: string, host: string, port: string, p: Int32)
    requires s == host + [':'] + port && Atoi(port) == Some(p)
    ensures ParseAt(s, |host|) == if host != "" && p != 0 then Some(Endpoint(host, p)) else None
  {
    assert s[|host| + 1..] == port && s[..|host|] == host;
  }

  lemma {:induction false} StoredAt(cs: seq<ClusterStatus>, name: string, i: int)
    requires UniqueNames(cs) && 0 <= i < |cs| && cs[i].name == name
    ensures Stored(cs, name) == if Parse(cs[i].endpoint).Some? then Parse(cs[i].endpoint).value else NOWHERE
  {
    if i > 0 {
      assert cs[0].name != cs[i].name;
      assert UniqueNames(cs[1..]) by {
        forall a, b | 0 <= a < b < |cs[1..]| ensures cs[1..][a].name != cs[1..][b].name {
          assert cs[1..][a] == cs[a + 1] && cs[1..][b] == cs[b + 1];
        }
      }
      StoredAt(cs[1..], name, i - 1);
    } else if Parse(cs[0].endpoint).None? {
      StoredNowhere(cs[1..], name);
    }
  }

  lemma {:induction false} StoredNowhere(cs: seq<ClusterStatus>, name: string)
    requires forall i :: 0 <= i < |cs| ==> cs[i].name != name
    ensures Stored(cs, name) == NOWHERE
  {
    if cs != [] {
      StoredNowhere(cs[1..], name);
    }
  }

  lemma {:induction false} StoredWithoutHost(cs: seq<ClusterStatus>, name: string)
    ensures Stored(cs, name).host == "" ==> Stored(cs, name) == NOWHERE
  {
    if cs != [] {
      StoredWithoutHost(cs[1..], name);
    }
  }

  /** Reading back a stored endpoint gives the same pair for every host but the empty one and every
      port but 0, colons in the host included; and storing one touches no other cluster's. */
  lemma {:induction false} EndpointRoundTrip(cs: seq<ClusterStatus>, name: string, e: Endpoint, i: int)
    requires UniqueNames(cs) && 0 <= i < |cs| && cs[i].name == name && e != NOWHERE
    ensures var cs' := WithEndpoint(cs, name, Render(e));
      && (Stored(cs', name) == e <==> e.host != "" && e.port != 0)
      && (forall j :: 0 <= j < |cs| && j != i ==> cs'[j] == cs[j] && Stored(cs', cs[j].name) == Stored(cs, cs[j].name))
  {
    var cs' := WithEndpoint(cs, name, Render(e));
    assert EntryOf(cs, name) == i;
    assert UniqueNames(cs') by {
      forall a, b | 0 <= a < b < |cs'| ensures cs'[a].name != cs'[b].name {
        assert cs[a].name != cs[b].name;
      }
    }
    ParseOfRender(e);
    StoredAt(cs', name, i);
    forall j | 0 <= j < |cs| && j != i
      ensures cs'[j] == cs[j] && Stored(cs', cs[j].name) == Stored(cs, cs[j].name)
    {
      StoredAt(cs, cs[j].name, j);
      StoredAt(cs', cs[j].name, j);
    }
  }

  /** The address a failover gives a target: the host override or the stored host; the stored port,
      else the configured one, else 5432. */
  function FailoverAddress(cs: seq<ClusterStatus>, t: Target): (e: Endpoint)
    ensures e.port != 0 && (Stored(cs, t.name).port == 0 && t.externalPort == 0 ==> e.port == 5432)
  {
    var e := Stored(cs, t.name);
    var host := if t.externalHost == "" then e.host else t.externalHost;
    var port := if e.port == 0 then t.externalPort else e.port;
    Endpoint(host, if port == 0 then 5432 else port)
  }

  /** Failover and steady state agree: while the status holds what ensuring the replication Service
      last returned, and neither the service settings nor the host override changed, both use the
      same address, also right after an override is set. One just removed lives on in the stored address
      until the next pass. The external port only counts while no endpoint is stored. */
  lemma {:induction false} FailoverUsesTheSteadyAddress(cs: seq<ClusterStatus>, mc: string, spec: Spec, t: Target,
      site: Site, i: int, override: string)
    requires UniqueNames(cs) && 0 <= i < |cs| && cs[i].name == t.name
    requires Address(mc, spec, t, site).Ok? && cs[i].endpoint == Render(Address(mc, spec, t, site).value)
    ensures FailoverAddress(cs, t) == Address(mc, spec, t, site).value
    ensures var t' := t.(externalHost := override);
      FailoverAddress(cs, t') == Address(mc, spec, if override != "" then t' else t, site).value
  {
    ParseOfRender(Address(mc, spec, t, site).value);
    StoredAt(cs, t.name, i);
  }

  /** The external port of the spec is no override: with one set, a failover uses it exactly when no other port is
      stored, and the steady state never does. */
  lemma {:induction false} ExternalPortIsNoOverride(cs: seq<ClusterStatus>, mc: string, spec: Spec, t: Target,
      site: Site, port: Int32)
    requires t.externalPort != 0
    ensures FailoverAddress(cs, t).port == t.externalPort <==> Stored(cs, t.name).port in {0, t.externalPort}
    ensures Address(mc, spec, t.(externalPort := port), site) == Address(mc, spec, t, site)
  {}

  /** Such a case: the spec asks for 15432, and the failover goes to the stored 32432. */
  lemma {:induction false} ExternalPortIsIgnored()
    ensures var t, e := Target("a", "", "", "", Primary, "", 15432), Endpoint("h", 32432);
      FailoverAddress([ClusterStatus("a", Some(Primary), [], Render(e))], t) == e
  {
    var e := Endpoint("h", 32432);
    ParseOfRender(e);
    StoredAt([ClusterStatus("a", Some(Primary), [], Render(e))], "a", 0);
  }
}
