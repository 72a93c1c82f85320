// The primary alias: a Service on each standby's cluster that stands for the primary
// (internal/crosscluster).
module CrossCluster {
  import opened Json
  import opened Api
  import opened Kube
  import opened Text
  import opened Remote

  function AliasName(mc: string): string {
    mc + "-primary"
  }

  function AliasFQDN(mc: string, namespace: string): string {
    AliasName(mc) + "." + namespace + ".svc.cluster.local"
  }

  lemma {:induction false} AliasFQDNTellsNamespacesApart(mc: string, a: string, b: string)
    ensures AliasFQDN(mc, a) == AliasFQDN(mc, b) <==> a == b
  {
    if AliasFQDN(mc, a) == AliasFQDN(mc, b) {
      var p, q := AliasName(mc) + ".", ".svc.cluster.local";
      assert AliasFQDN(mc, a) == (p + a) + q && AliasFQDN(mc, b) == (p + b) + q;
      CancelSuffix(p + a, p + b, q);
      CancelPrefix(p, a, b);
    }
  }

  function ManagedLabels(mc: string): map<string, string> {
    map["pgmc.aurelops.com/managed" := "true", "pgmc.aurelops.com/postgresmc" := mc]
  }

  function AliasPorts(port: Int32): seq<ServicePort> {
    [ServicePort("postgresql", port, 0, "")]
  }

  function ExternalNameService(mc: string, host: string, port: Int32): Service {
    Service("ExternalName", "", host, map[], AliasPorts(port), ManagedLabels(mc), [])
  }

  function HeadlessService(mc: string, port: Int32): Service {
    Service("ClusterIP", "None", "", map[], AliasPorts(port), ManagedLabels(mc), [])
  }

  /** The site once the alias has been ensured, `ip` telling whether the host is an address. */
  function AliasEnsured(ip: bool, site: Site, mc: string, host: string, port: Int32): Site {
    var name := AliasName(mc);
    if ip then
      AliasHalfway(site, mc, port).(endpoints := site.endpoints[name := Backend([host], port)])
    else if name !in site.services then
      site.(services := site.services[name := ExternalNameService(mc, host, port)])
    else if site.services[name].externalName == host then site
    else
      site.(services := site.services[name := site.services[name].(externalName := host, ports := AliasPorts(port))])
  }

  /** With the headless Service there but its Endpoints not yet written. */
  function AliasHalfway(site: Site, mc: string, port: Int32): Site {
    if AliasName(mc) in site.services then site
    else site.(services := site.services[AliasName(mc) := HeadlessService(mc, port)])
  }

  /** Where an interrupted call can leave the site. */
  predicate AliasUnderway(ip: bool, site: Site, site': Site, mc: string, host: string, port: Int32) {
    || site' == site
    || site' == AliasEnsured(ip, site, mc, host, port)
    || (ip && site' == AliasHalfway(site, mc, port))
  }

  /** The alias's Endpoints are the one address and port. */
  predicate Lists(site: Site, mc: string, host: string, port: Int32) {
    var name := mc + "-primary";
    name in site.endpoints && site.endpoints[name].addresses == [host] && site.endpoints[name].port == port
  }

  method EnsurePrimaryAlias(fleet: Fleet, n: string, mc: string, host: string, port: Int32)
    returns (err: Option<string>)
    requires fleet.Valid() && fleet.Serves(n)
    modifies fleet
    ensures fleet.Valid() && fleet.begun == old(fleet.begun) && SiteOnly(old(fleet.w), fleet.w, n)
    ensures fleet.faults >= old(fleet.faults) && (err.Some? ==> fleet.faults > old(fleet.faults))
    ensures fleet.flight == old(fleet.flight) && fleet.clients == old(fleet.clients)
    ensures var ip, site, site' := fleet.isIP(host), old(fleet.w).sites[n], fleet.w.sites[n];
      && AliasUnderway(ip, site, site', mc, host, port)
      && (err.None? ==> site' == AliasEnsured(ip, site, mc, host, port))
      && (err.None? && ip ==> Lists(site', mc, host, port))
  {
    if fleet.isIP(host) {
      err := EnsureHeadlessWithEndpoints(fleet, n, mc, host, port);
    } else {
      err := EnsureExternalName(fleet, n, mc, host, port);
    }
  }

  method EnsureExternalName(fleet: Fleet, n: string, mc: string, host: string, port: Int32)
    returns (err: Option<string>)
    requires fleet.Valid() && fleet.Serves(n)
    modifies fleet
    ensures fleet.Valid() && fleet.begun == old(fleet.begun) && SiteOnly(old(fleet.w), fleet.w, n)
    ensures fleet.faults >= old(fleet.faults) && (err.Some? ==> fleet.faults > old(fleet.faults))
    ensures fleet.flight == old(fleet.flight) && fleet.clients == old(fleet.clients)
    ensures var site, site' := old(fleet.w).sites[n], fleet.w.sites[n];
      && site' in {site, AliasEnsured(false, site, mc, host, port)}
      && (err.None? ==> site' == AliasEnsured(false, site, mc, host, port))
  {
    var name, desired := AliasName(mc), ExternalNameService(mc, host, port);
    err := fleet.Call();
    if err.Some? {
      return;
    }
    var site := fleet.w.sites[n];
    if name !in site.services {
      err := fleet.WriteSite(n, site.(services := site.services[name := desired]));
      return;
    }
    var existing := site.services[name];
    if existing.externalName == host {
      return None;
    }
    var updated := existing.(externalName := host, ports := desired.ports);
    err := fleet.WriteSite(n, site.(services := site.services[name := updated]));
  }

  method EnsureHeadlessWithEndpoints(fleet: Fleet, n: string, mc: string, host: string, port: Int32)
    returns (err: Option<string>)
    requires fleet.Valid() && fleet.Serves(n)
    modifies fleet
    ensures fleet.Valid() && fleet.begun == old(fleet.begun) && SiteOnly(old(fleet.w), fleet.w, n)
    ensures fleet.faults >= old(fleet.faults) && (err.Some? ==> fleet.faults > old(fleet.faults))
    ensures fleet.flight == old(fleet.flight) && fleet.clients == old(fleet.clients)
    ensures var site, site' := old(fleet.w).sites[n], fleet.w.sites[n];
      && AliasUnderway(true, site, site', mc, host, port)
      && (err.None? ==> site' == AliasEnsured(true, site, mc, host, port))
      && (err.None? ==> Lists(site', mc, host, port))
  {
    var name := AliasName(mc);
    err := fleet.Call();
    if err.Some? {
      return;
    }
    var site := fleet.w.sites[n];
    if name !in site.services {
      err := fleet.WriteSite(n, site.(services := site.services[name := HeadlessService(mc, port)]));
      if err.Some? {
        return;
      }
    }
    err := fleet.Call();
    if err.Some? {
      return;
    }
    site := fleet.w.sites[n];
    err := fleet.WriteSite(n, site.(endpoints := site.endpoints[name := Backend([host], port)]));
  }

  /** Ensuring the alias again changes nothing. */
  lemma {:induction false} AliasEnsuredTwice(ip: bool, site: Site, mc: string, host: string, port: Int32)
    ensures var once := AliasEnsured(ip, site, mc, host, port); AliasEnsured(ip, once, mc, host, port) == once
  {
    var once := AliasEnsured(ip, site, mc, host, port);
    var n := AliasName(mc);
    assert ip ==> once.endpoints[n := Backend([host], port)] == once.endpoints;
  }

  // ---------- what the alias resolves to ----------

  predicate IsExternalName(s: Service) {
    s.kind == "ExternalName"
  }

  /** Where the alias leads: the host it stands for and the port declared with it. */
  datatype Destination = Destination(host: string, port: Int32)

  function Leads(site: Site, mc: string): Option<Destination> {
    var name := AliasName(mc);
    if name !in site.services then None
    else if IsExternalName(site.services[name]) then
      Some(Destination(site.services[name].externalName, FirstPort(site.services[name])))
    else if name in site.endpoints && site.endpoints[name].addresses != [] then
      Some(Destination(site.endpoints[name].addresses[0], site.endpoints[name].port))
    else None
  }

  /** 0 without ports. */
  function FirstPort(s: Service): Int32 {
    if s.ports == [] then 0 else s.ports[0].port
  }

  /** The DNS answer for the alias, inside the cluster. */
  function Resolve(site: Site, mc: string): Option<string> {
    var name := AliasName(mc);
    if name !in site.services then None
    else if IsExternalName(site.services[name]) then Some(site.services[name].externalName)
    else if name in site.endpoints && site.endpoints[name].addresses != [] then Some(site.endpoints[name].addresses[0])
    else None
  }

  /** The alias Service, if there, is of the kind that suits the host. */
  predicate KindFits(ip: bool, site: Site, mc: string) {
    AliasName(mc) in site.services ==> (IsExternalName(site.services[AliasName(mc)]) <==> !ip)
  }

  /** Endpoints hold addresses, external names are not addresses, and Endpoints do not outlive
      their Service. */
  predicate Tidy(isIP: string -> bool, site: Site, mc: string) {
    var name := AliasName(mc);
    && (name in site.endpoints && site.endpoints[name].addresses != [] ==> isIP(site.endpoints[name].addresses[0]))
    && (name in site.services && IsExternalName(site.services[name]) ==> !isIP(site.services[name].externalName))
    && (name in site.endpoints ==> name in site.services)
  }

  /** A successful call makes the alias stand for the host exactly when no alias of the other kind
      was there before: the type of an existing Service is never rewritten. For an address that is so with host
      and port. For a name the port is the call's exactly when the alias was created, its host changed, or its
      port was right already: a port that changes alone is not written. */
  lemma {:induction false} AliasResolvesToHost(isIP: string -> bool, site: Site, mc: string, host: string, port: Int32)
    requires Tidy(isIP, site, mc)
    ensures var after := AliasEnsured(isIP(host), site, mc, host, port); var to := Some(Destination(host, port));
      && (Resolve(after, mc) == Some(host) <==> KindFits(isIP(host), site, mc))
      && (isIP(host) ==> (Leads(after, mc) == to <==> KindFits(true, site, mc)))
      && (!isIP(host) ==>
            (Leads(after, mc) == to <==>
               && KindFits(false, site, mc)
               && (Resolve(site, mc) == Some(host) ==> Leads(site, mc) == to)))
    ensures AliasName(mc) !in site.services ==>
              var alias := AliasEnsured(isIP(host), site, mc, host, port).services[AliasName(mc)];
              && FirstPort(alias) == port && alias.selector == map[]
              && alias.labels == map["pgmc.aurelops.com/managed" := "true", "pgmc.aurelops.com/postgresmc" := mc]
              && (isIP(host) ==> alias.kind == "ClusterIP" && alias.clusterIP == "None")
  {}

  /** While hosts are of one kind: a call interrupted anywhere leaves the alias on its old host and port, on the
      new ones or on nothing, keeps the kind, and moves no other Service, Endpoints or Secret. */
  lemma {:induction false} AliasNeverStrays(isIP: string -> bool, site: Site, site': Site, mc: string, host: string,
      port: Int32)
    requires Tidy(isIP, site, mc) && KindFits(isIP(host), site, mc)
    requires AliasUnderway(isIP(host), site, site', mc, host, port)
    ensures Tidy(isIP, site', mc) && KindFits(isIP(host), site', mc)
    ensures Leads(site', mc) in {Leads(site, mc), Some(Destination(host, port)), None}
    ensures Resolve(site', mc) in {Resolve(site, mc), Some(host), None}
    ensures forall k :: k != AliasName(mc) ==>
              && (k in site'.services <==> k in site.services)
              && (k in site.services ==> site'.services[k] == site.services[k])
              && (k in site'.endpoints <==> k in site.endpoints)
              && (k in site.endpoints ==> site'.endpoints[k] == site.endpoints[k])
    ensures site'.secrets == site.secrets && site'.nodes == site.nodes
  {}

  /** What the alias resolves to is the host it leads to. */
  lemma {:induction false} ResolvesWhereItLeads(site: Site, mc: string)
    ensures Resolve(site, mc) == if Leads(site, mc).Some? then Some(Leads(site, mc).value.host) else None
  {}

  /** One call: where it took the site, and whether it reported success. */
  datatype AliasCall = AliasCall(host: string, port: Int32, after: Site, ok: bool)

  predicate CallMade(isIP: string -> bool, before: Site, c: AliasCall, mc: string, ip: bool) {
    && isIP(c.host) == ip
    && AliasUnderway(ip, before, c.after, mc, c.host, c.port)
    && (c.ok ==> c.after == AliasEnsured(ip, before, mc, c.host, c.port))
  }

  function Before(first: Site, calls: seq<AliasCall>, k: nat): Site
    requires k <= |calls|
  {
    if k == 0 then first else calls[k - 1].after
  }

  ghost predicate AliasHistory(isIP: string -> bool, first: Site, mc: string, calls: seq<AliasCall>, ip: bool) {
    forall i :: 0 <= i < |calls| ==> CallMade(isIP, Before(first, calls, i), calls[i], mc, ip)
  }

  /** Over any sequence of calls with hosts of one kind, each of which may fail anywhere: the alias is right after
      every success, host and port for an address; and what it leads to, if anything, is always a host and port
      that one of the calls asked for. */
  lemma {:induction false} AliasOverAnyCalls(isIP: string -> bool, first: Site, mc: string, calls: seq<AliasCall>,
      ip: bool, k: int)
    requires AliasName(mc) !in first.services && AliasName(mc) !in first.endpoints
    requires AliasHistory(isIP, first, mc, calls, ip) && 0 <= k < |calls|
    ensures Tidy(isIP, calls[k].after, mc) && KindFits(ip, calls[k].after, mc)
    ensures calls[k].ok ==> Resolve(calls[k].after, mc) == Some(calls[k].host)
    ensures calls[k].ok && ip ==> Leads(calls[k].after, mc) == Some(Destination(calls[k].host, calls[k].port))
    ensures Leads(calls[k].after, mc).Some? ==>
              exists j :: 0 <= j <= k && Leads(calls[k].after, mc) == Some(Destination(calls[j].host, calls[j].port))
  {
    var before, c := Before(first, calls, k), calls[k];
    assert CallMade(isIP, before, c, mc, ip);
    if k > 0 {
      AliasOverAnyCalls(isIP, first, mc, calls, ip, k - 1);
    }
    AliasNeverStrays(isIP, before, c.after, mc, c.host, c.port);
    AliasResolvesToHost(isIP, before, mc, c.host, c.port);
  }
}
