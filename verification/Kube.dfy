// The durable state the operator reads and writes: the PostgresMC resource on the technical
// cluster and, for each target, what its workload cluster holds in the target's namespace.
module Kube {
  import opened Json
  import opened Api

  datatype ServicePort = ServicePort(name: string, port: Int32, nodePort: Int32, protocol: string)

  datatype Ingress = Ingress(hostname: string, ip: string)

  datatype Service = Service(
    kind: string,
    clusterIP: string,
    externalName: string,
    selector: map<string, string>,
    ports: seq<ServicePort>,
    labels: map<string, string>,
    ingress: seq<Ingress>)

  /** A core Endpoints object with one subset. */
  datatype Backend = Backend(addresses: seq<string>, port: Int32)

  datatype Secret = Secret(data: map<string, string>, labels: map<string, string>)

  datatype Node = Node(conditions: seq<(string, Truth)>, addresses: seq<(string, string)>)

  /** The namespace of one target on its workload cluster, and that cluster's nodes. */
  datatype Site = Site(
    services: map<string, Service>,
    endpoints: map<string, Backend>,
    secrets: map<string, Secret>,
    nodes: seq<Node>)

  /** `pg` holds the postgresql objects by target name, `sites` everything else. */
  datatype World = World(
    name: string,
    generation: nat,
    spec: Spec,
    status: Status,
    pg: map<string, Json>,
    sites: map<string, Site>)

  /** The name cluster DNS gives a Service. */
  function ServiceHost(service: string, namespace: string): string {
    service + "." + namespace + ".svc.cluster.local"
  }

  predicate HasSites(w: World, ts: seq<Target>) {
    forall i :: 0 <= i < |ts| ==> ts[i].name in w.sites
  }

  function Lookup(pg: map<string, Json>, n: string): Option<Json> {
    if n in pg then Some(pg[n]) else None
  }

  function TargetNames(ts: seq<Target>): (ns: set<string>)
    ensures forall n :: n in ns <==> Named(ts, n)
  {
    set t | t in ts :: t.name
  }

  lemma {:induction false} NamesSoFar(ts: seq<Target>, k: nat)
    requires k <= |ts|
    ensures TargetNames(ts[..0]) == {}
    ensures k < |ts| ==> TargetNames(ts[..k + 1]) == TargetNames(ts[..k]) + {ts[k].name}
    ensures k < |ts| ==> ts[k].name in TargetNames(ts)
  {
    if k < |ts| {
      assert ts[..k + 1] == ts[..k] + [ts[k]];
      assert ts[k] in ts;
    }
  }

  /** What the workload clusters hold. */
  datatype Workload = Workload(pg: map<string, Json>, sites: map<string, Site>)

  function Load(w: World): Workload {
    Workload(w.pg, w.sites)
  }

  /** From a to b no site moved but those of ns. */
  ghost predicate OnlySites(a: Workload, b: Workload, ns: set<string>) {
    b.sites.Keys == a.sites.Keys && forall n :: n in a.sites && n !in ns ==> b.sites[n] == a.sites[n]
  }

  /** From a to b no postgresql object moved but those of ns. */
  ghost predicate OnlyPg(a: Workload, b: Workload, ns: set<string>) {
    forall n :: n !in ns ==> Lookup(b.pg, n) == Lookup(a.pg, n)
  }
}
