// The replication Service of each cluster and the address it is reached at
// (internal/replicationservice).
module Replication {
  import opened Json
  import opened Api
  import opened Kube
  import opened Builder
  import opened Remote
  import opened CrossCluster

  datatype Endpoint = Endpoint(host: string, port: Int32)

  function ServiceName(mc: string): string {
    mc + "-replication"
  }

  function ServiceKind(cfg: ServiceConfig): string {
    if cfg.kind == "" then "NodePort" else cfg.kind
  }

  function NodePortOf(cfg: ServiceConfig): Int32 {
    if cfg.nodePort == 0 then 32432 else cfg.nodePort
  }

  function Desired(mc: string, spec: Spec, t: Target): Service {
    var nodePort := if ServiceKind(spec.service) == "NodePort" then NodePortOf(spec.service) else 0;
    Service(ServiceKind(spec.service), "", "",
            map["cluster-name" := ClusterName(spec.teamId, t.name), "spilo-role" := "master"],
            [ServicePort("postgresql", 5432, nodePort, "TCP")], ManagedLabels(mc), [])
  }

  /** An existing Service gets the selector, and the ports only when they fix a node port. */
  function Applied(services: map<string, Service>, name: string, desired: Service): Service {
    if name !in services then desired
    else
      var existing := services[name];
      var ports := if |existing.ports| > 0 && |desired.ports| > 0 && desired.ports[0].nodePort != 0
                   then desired.ports else existing.ports;
      existing.(selector := desired.selector, ports := ports)
  }

  function Replicated(mc: string, spec: Spec, t: Target, site: Site): Site {
    var name := ServiceName(mc);
    site.(services := site.services[name := Applied(site.services, name, Desired(mc, spec, t))])
  }

  method ApplyService(fleet: Fleet, n: string, name: string, desired: Service) returns (err: Option<string>)
    requires fleet.Valid() && fleet.Serves(n)
    modifies fleet
    ensures fleet.Valid() && fleet.begun == old(fleet.begun) && SiteOnly(old(fleet.w), fleet.w, n)
    ensures fleet.faults >= old(fleet.faults) && (err.Some? ==> fleet.faults > old(fleet.faults))
    ensures fleet.flight == old(fleet.flight) && fleet.clients == old(fleet.clients)
    ensures var site, site' := old(fleet.w).sites[n], fleet.w.sites[n];
      var applied := site.(services := site.services[name := Applied(site.services, name, desired)]);
      site' == applied || (err.Some? && site' == site)
  {
    err := fleet.Call();
    if err.Some? {
      return;
    }
    var site := fleet.w.sites[n];
    if name !in site.services {
      err := fleet.WriteSite(n, site.(services := site.services[name := desired]));
      return;
    }
    var existing := site.services[name];
    var updated := existing.(selector := desired.selector);
    if |existing.ports| > 0 && |desired.ports| > 0 {
      if desired.ports[0].nodePort != 0 {
        updated := updated.(ports := desired.ports);
      }
    }
    err := fleet.WriteSite(n, site.(services := site.services[name := updated]));
  }

  predicate NodeReady(conditions: seq<(string, Truth)>) {
    conditions != [] &&
    if conditions[0].0 == READY then conditions[0].1.True? else NodeReady(conditions[1..])
  }

  function InternalIP(addresses: seq<(string, string)>): string {
    if addresses == [] then ""
    else if addresses[0].0 == "InternalIP" && addresses[0].1 != "" then addresses[0].1
    else InternalIP(addresses[1..])
  }

  /** The internal address of the first ready node that has one, or the empty string. */
  function NodeIP(nodes: seq<Node>): string {
    if nodes == [] then ""
    else
      var ip := if NodeReady(nodes[0].conditions) then InternalIP(nodes[0].addresses) else "";
      if ip != "" then ip else NodeIP(nodes[1..])
  }

  /** Position i is the first Ready condition. */
  predicate FirstReady(cs: seq<(string, Truth)>, i: int) {
    0 <= i < |cs| && cs[i].0 == READY && forall j :: 0 <= j < i ==> cs[j].0 != READY
  }

  /** A node is ready when its first Ready condition is True; later ones do not count. */
  lemma {:induction false} NodeReadyIs(cs: seq<(string, Truth)>)
    ensures NodeReady(cs) <==> exists i :: FirstReady(cs, i) && cs[i].1.True?
  {
    if cs != [] {
      var rest := cs[1..];
      NodeReadyIs(rest);
      if cs[0].0 == READY {
        assert FirstReady(cs, 0);
        assert forall i :: FirstReady(cs, i) ==> i == 0;
      } else {
        if i :| FirstReady(rest, i) && rest[i].1.True? {
          assert FirstReady(cs, i + 1) && cs[i + 1].1.True?;
        }
        if i :| FirstReady(cs, i) && cs[i].1.True? {
          assert FirstReady(rest, i - 1) && rest[i - 1].1.True?;
        }
      }
    }
  }

  /** Position i is the first internal address that is not empty. */
  predicate FirstInternal(xs: seq<(string, string)>, i: int) {
    0 <= i < |xs| && Internal(xs[i]) && forall j :: 0 <= j < i ==> !Internal(xs[j])
  }

  predicate Internal(a: (string, string)) {
    a.0 == "InternalIP" && a.1 != ""
  }

  lemma {:induction false} InternalIPIs(xs: seq<(string, string)>)
    ensures forall i :: FirstInternal(xs, i) ==> InternalIP(xs) == xs[i].1
    ensures InternalIP(xs) != "" <==> exists i :: FirstInternal(xs, i)
  {
    if xs != [] {
      var rest := xs[1..];
      InternalIPIs(rest);
      if Internal(xs[0]) {
        assert FirstInternal(xs, 0);
        assert forall i :: FirstInternal(xs, i) ==> i == 0;
      } else {
        forall i | FirstInternal(xs, i) ensures FirstInternal(rest, i - 1) && rest[i - 1] == xs[i] {}
        if i :| FirstInternal(rest, i) {
          assert FirstInternal(xs, i + 1);
        }
      }
    }
  }

  /** The node can give an address: it is ready and has an internal one. */
  ghost predicate Usable(n: Node) {
    && (exists i :: FirstReady(n.conditions, i) && n.conditions[i].1.True?)
    && (exists i :: FirstInternal(n.addresses, i))
  }

  ghost predicate FirstUsable(nodes: seq<Node>, k: int) {
    0 <= k < |nodes| && Usable(nodes[k]) && forall j :: 0 <= j < k ==> !Usable(nodes[j])
  }

  /** The address found is the first internal address of the first ready node that has one; none is found
      exactly when there is no such node. */
  lemma {:induction false} NodeIPIs(nodes: seq<Node>)
    ensures forall k, i :: FirstUsable(nodes, k) && FirstInternal(nodes[k].addresses, i) ==>
              NodeIP(nodes) == nodes[k].addresses[i].1
    ensures NodeIP(nodes) != "" <==> exists k :: FirstUsable(nodes, k)
  {
    if nodes != [] {
      var first, rest := nodes[0], nodes[1..];
      NodeIPIs(rest);
      NodeReadyIs(first.conditions);
      InternalIPIs(first.addresses);
      hide NodeReady, InternalIP, FirstReady, FirstInternal;
      if Usable(first) {
        assert FirstUsable(nodes, 0);
        assert forall k :: FirstUsable(nodes, k) ==> k == 0;
      } else {
        forall k | FirstUsable(nodes, k) ensures FirstUsable(rest, k - 1) && rest[k - 1] == nodes[k] {}
        if k :| FirstUsable(rest, k) {
          assert FirstUsable(nodes, k + 1);
        }
      }
    }
  }

  method IsNodeReady(node: Node) returns (r: bool)
    ensures r == NodeReady(node.conditions)
    ensures r <==> exists i :: FirstReady(node.conditions, i) && node.conditions[i].1.True?
  {
    NodeReadyIs(node.conditions);
    var cs := node.conditions;
    var i := 0;
    while i < |cs|
      invariant 0 <= i <= |cs| && NodeReady(cs) == NodeReady(cs[i..])
    {
      if cs[i].0 == READY {
        return cs[i].1.True?;
      }
      i := i + 1;
    }
    r := false;
  }

  method DiscoverNodeIP(nodes: seq<Node>) returns (ip: string)
    ensures ip == NodeIP(nodes)
    ensures forall k, i :: FirstUsable(nodes, k) && FirstInternal(nodes[k].addresses, i) ==>
              ip == nodes[k].addresses[i].1
    ensures ip != "" <==> exists k :: FirstUsable(nodes, k)
  {
    NodeIPIs(nodes);
    hide FirstUsable, FirstInternal, FirstReady;
    var i := 0;
    while i < |nodes|
      invariant 0 <= i <= |nodes| && NodeIP(nodes) == NodeIP(nodes[i..])
    {
      var ready := IsNodeReady(nodes[i]);
      if ready {
        var addresses, j := nodes[i].addresses, 0;
        while j < |addresses|
          invariant 0 <= j <= |addresses| && InternalIP(addresses) == InternalIP(addresses[j..])
        {
          if addresses[j].0 == "InternalIP" && addresses[j].1 != "" {
            return addresses[j].1;
          }
          j := j + 1;
        }
      }
      i := i + 1;
    }
    ip := "";
  }

  function LoadBalancerHost(ingress: seq<Ingress>): string {
    if ingress == [] then "" else if ingress[0].hostname != "" then ingress[0].hostname else ingress[0].ip
  }

  /** The address of a cluster, read off a site that already has its replication Service. */
  function Address(mc: string, spec: Spec, t: Target, site: Site): (r: Result<Endpoint>)
    ensures r.Ok? ==> r.value.host != "" && r.value.port != 0
    ensures r.Ok? && t.externalHost != "" ==> r.value.host == t.externalHost
  {
    match ServiceKind(spec.service)
    case "NodePort" =>
      var host := if t.externalHost != "" then t.externalHost else NodeIP(site.nodes);
      if host == "" then Err("no ready node with InternalIP found") else Ok(Endpoint(host, NodePortOf(spec.service)))
    case "LoadBalancer" =>
      var name := ServiceName(mc);
      var host := if t.externalHost != "" then t.externalHost
                  else if name in site.services then LoadBalancerHost(site.services[name].ingress) else "";
      if host == "" then Err("LoadBalancer not ready") else Ok(Endpoint(host, 5432))
    case _ => Err("unsupported replicationService.type")
  }

  method Ensure(fleet: Fleet, mc: string, spec: Spec, t: Target) returns (r: Result<Endpoint>)
    requires fleet.Valid() && fleet.Serves(t.name)
    modifies fleet
    ensures fleet.Valid() && fleet.begun == old(fleet.begun) && SiteOnly(old(fleet.w), fleet.w, t.name)
    ensures fleet.faults >= old(fleet.faults)
    ensures r.Err? && fleet.faults == old(fleet.faults) ==>
              Address(mc, spec, t, Replicated(mc, spec, t, old(fleet.w).sites[t.name])).Err?
    ensures fleet.flight == old(fleet.flight) && fleet.clients == old(fleet.clients)
    ensures var site, site' := old(fleet.w).sites[t.name], fleet.w.sites[t.name];
      && site' in {site, Replicated(mc, spec, t, site)}
      && (r.Ok? ==> site' == Replicated(mc, spec, t, site) && r == Address(mc, spec, t, site'))
  {
    var kind, name := ServiceKind(spec.service), ServiceName(mc);
    if kind != "NodePort" && kind != "LoadBalancer" {
      return Err("unsupported replicationService.type");
    }
    var err := ApplyService(fleet, t.name, name, Desired(mc, spec, t));
    if err.Some? {
      return Err(err.value);
    }
    var port: Int32 := if kind == "NodePort" then NodePortOf(spec.service) else 5432;
    var host := t.externalHost;
    if host == "" {
      err := fleet.Call();
      if err.Some? {
        return Err(err.value);
      }
      if kind == "NodePort" {
        host := DiscoverNodeIP(fleet.w.sites[t.name].nodes);
      } else {
        host := LoadBalancerHost(fleet.w.sites[t.name].services[name].ingress);
      }
      if host == "" {
        return Err("no address yet");
      }
    }
    r := Ok(Endpoint(host, port));
  }

  /** The host discovered for the load balancer: its host name, else its address, as far as there is one. */
  ghost predicate Balanced(mc: string, site: Site, host: string) {
    var n := mc + "-replication";
    && n in site.services && site.services[n].ingress != []
    && var i := site.services[n].ingress[0]; host == (if i.hostname != "" then i.hostname else i.ip)
  }

  /** There is an address exactly with an override or something discovered for the type of Service, NodePort unless
      said otherwise; and its port is the node port, 32432 unless said otherwise, or 5432. */
  lemma {:induction false} AddressIs(mc: string, spec: Spec, t: Target, site: Site)
    ensures var r, cfg := Address(mc, spec, t, site), spec.service;
      && (r.Ok? && cfg.kind in {"", "NodePort"} ==>
            && r.value.port == (if cfg.nodePort == 0 then 32432 else cfg.nodePort)
            && r.value.host == if t.externalHost != "" then t.externalHost else NodeIP(site.nodes))
      && (r.Ok? && cfg.kind == "LoadBalancer" ==>
            r.value.port == 5432 && (t.externalHost == "" ==> Balanced(mc, site, r.value.host)))
    ensures Address(mc, spec, t, site).Ok? <==>
      match spec.service.kind
      case "" => t.externalHost != "" || NodeIP(site.nodes) != ""
      case "NodePort" => t.externalHost != "" || NodeIP(site.nodes) != ""
      case "LoadBalancer" => t.externalHost != "" || exists host :: host != "" && Balanced(mc, site, host)
      case _ => false
  {
    var n := ServiceName(mc);
    if n in site.services {
      var host := LoadBalancerHost(site.services[n].ingress);
      assert site.services[n].ingress != [] ==> Balanced(mc, site, host);
    }
  }

  /** The Service serves an address of its kind: it selects the leader of the target's cluster and has its type; a
      NodePort Service has PostgreSQL's port open on the node port. */
  predicate ServedAt(mc: string, spec: Spec, t: Target, site: Site) {
    var n, cfg := mc + "-replication", spec.service;
    && n in site.services && site.services[n].kind == ServiceKind(cfg)
    && site.services[n].selector == map["cluster-name" := spec.teamId + "-" + t.name, "spilo-role" := "master"]
    && (ServiceKind(cfg) == "NodePort" ==>
          && |site.services[n].ports| > 0 && site.services[n].ports[0].port == 5432
          && site.services[n].ports[0].nodePort == if cfg.nodePort == 0 then 32432 else cfg.nodePort)
  }

  /** After a successful Ensure the Service serves the address that was returned if and only if there was none,
      or one of the configured type (and, for NodePort, with a port): the type of an existing Service is
      never rewritten. Its selector always is. */
  lemma {:induction false} AddressIsServed(mc: string, spec: Spec, t: Target, site: Site)
    ensures var n, after := ServiceName(mc), Replicated(mc, spec, t, site);
      && (ServedAt(mc, spec, t, after) <==>
            (n in site.services ==>
               && site.services[n].kind == ServiceKind(spec.service)
               && (ServiceKind(spec.service) == "NodePort" ==> |site.services[n].ports| > 0)))
      && after.services[n].selector == map["cluster-name" := spec.teamId + "-" + t.name, "spilo-role" := "master"]
      && (n !in site.services ==>
            && |after.services[n].ports| == 1 && after.services[n].ports[0].port == 5432
            && after.services[n].ports[0].protocol == "TCP"
            && after.services[n].labels ==
               map["pgmc.aurelops.com/managed" := "true", "pgmc.aurelops.com/postgresmc" := mc])
  {
    var n, desired := ServiceName(mc), Desired(mc, spec, t);
    assert Replicated(mc, spec, t, site).services[n] == Applied(site.services, n, desired);
    assert ServiceKind(spec.service) == "NodePort" ==> desired.ports[0].nodePort == NodePortOf(spec.service);
  }

  /** Ensuring a Service again changes nothing. */
  lemma {:induction false} ReplicatedTwice(mc: string, spec: Spec, t: Target, site: Site)
    ensures var once := Replicated(mc, spec, t, site); Replicated(mc, spec, t, once) == once
  {
    var once := Replicated(mc, spec, t, site);
    var n := ServiceName(mc);
    assert once.services[n := Applied(once.services, n, Desired(mc, spec, t))] == once.services;
  }

  /** The alias and the replication Service do not get in each other's way. */
  lemma {:induction false} AliasAndServiceCommute(ip: bool, site: Site, mc: string, host: string, port: Int32,
      spec: Spec, t: Target)
    requires Replicated(mc, spec, t, site) == site
    ensures var after := AliasEnsured(ip, site, mc, host, port);
      && Replicated(mc, spec, t, after) == after && Address(mc, spec, t, after) == Address(mc, spec, t, site)
      && after.secrets == site.secrets
  {
    var after := AliasEnsured(ip, site, mc, host, port);
    var n := ServiceName(mc);
    assert |AliasName(mc)| == |mc| + 8 && |n| == |mc| + 12;
    assert site.services[n := Applied(site.services, n, Desired(mc, spec, t))] == site.services;
    assert n in site.services && site.services[n] == Applied(site.services, n, Desired(mc, spec, t));
    assert after.services[n] == site.services[n];
    assert after.services[n := Applied(after.services, n, Desired(mc, spec, t))] == after.services;
  }
}
