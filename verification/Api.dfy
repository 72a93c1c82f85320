// The PostgresMC resource: its spec, its status and the checks made on them.
module Api {
  import opened Json

  datatype Result<+T> = Ok(value: T) | Err(error: string)

  type Int32 = x: int | -0x8000_0000 <= x < 0x8000_0000

  datatype Role = Primary | Standby

  /** One workload cluster of the topology. */
  datatype Target = Target(
    name: string,
    clusterRef: string,
    secretNamespace: string,
    namespace: string,
    role: Role,
    externalHost: string,
    externalPort: Int32)

  /** The user's postgresqlSpec: absent, an object, or text that does not parse as an object. */
  datatype Blob = Empty | Malformed | Object(fields: map<string, Json>)

  datatype ServiceConfig = ServiceConfig(kind: string, nodePort: Int32)

  datatype AutoFailover = AutoFailover(enabled: bool, threshold: Int32)

  datatype Spec = Spec(
    teamId: string,
    clusters: seq<Target>,
    blob: Blob,
    service: ServiceConfig,
    auto: AutoFailover)

  datatype Truth = True | False | Unknown

  /** A status condition; `since` is its last transition time. */
  datatype Condition = Condition(
    kind: string,
    status: Truth,
    reason: string,
    message: string,
    generation: nat,
    since: nat)

  /** `role` is None for the empty role, which the resource's schema rejects. */
  datatype ClusterStatus = ClusterStatus(
    name: string,
    role: Option<Role>,
    conditions: seq<Condition>,
    endpoint: string)

  datatype Phase = NoPhase | Pending | Provisioning | Ready | Degraded | FailingOver | Failed

  datatype Status = Status(
    phase: Phase,
    observedGeneration: nat,
    currentPrimary: string,
    conditions: seq<Condition>,
    clusters: seq<ClusterStatus>,
    failureCount: int)

  const READY := "Ready"
  const REACHABLE := "Reachable"
  const FAILOVER_IN_PROGRESS := "FailoverInProgress"

  predicate DistinctNames(ts: seq<Target>) {
    forall i, j :: 0 <= i < j < |ts| ==> ts[i].name != ts[j].name
  }

  predicate SolePrimary(ts: seq<Target>, i: int) {
    && 0 <= i < |ts|
    && (forall j :: 0 <= j < |ts| ==> (ts[j].role.Primary? <==> j == i))
  }

  /** What a spec must satisfy to be reconciled at all. */
  predicate ValidClusters(ts: seq<Target>) {
    DistinctNames(ts) && exists i :: 0 <= i < |ts| && SolePrimary(ts, i)
  }

  ghost predicate Named(ts: seq<Target>, n: string) {
    exists i :: 0 <= i < |ts| && ts[i].name == n
  }

  /** The first target with the primary role, or the empty name. */
  function PrimaryName(ts: seq<Target>): string {
    if ts == [] then "" else if ts[0].role.Primary? then ts[0].name else PrimaryName(ts[1..])
  }

  lemma {:induction false} PrimaryNameIsSole(ts: seq<Target>, i: int)
    requires SolePrimary(ts, i)
    ensures PrimaryName(ts) == ts[i].name
  {
    if i > 0 {
      assert SolePrimary(ts[1..], i - 1);
      PrimaryNameIsSole(ts[1..], i - 1);
    }
  }

  /** In a valid spec the primary's name singles out the target with the primary role. */
  lemma {:induction false} PrimaryByName(ts: seq<Target>, k: int)
    requires ValidClusters(ts) && 0 <= k < |ts|
    ensures ts[k].role.Primary? <==> ts[k].name == PrimaryName(ts)
    ensures Named(ts, PrimaryName(ts))
  {
    var i :| SolePrimary(ts, i);
    PrimaryNameIsSole(ts, i);
    assert i < k ==> ts[i].name != ts[k].name;
    assert k < i ==> ts[k].name != ts[i].name;
  }

  lemma {:induction false} SameName(ts: seq<Target>, p: Target, t: Target)
    requires DistinctNames(ts) && p in ts && t in ts && t.name == p.name
    ensures t == p
  {
    var i, j :| 0 <= i < |ts| && ts[i] == p && 0 <= j < |ts| && ts[j] == t;
    assert i == j;
  }

  method PrimaryClusterName(ts: seq<Target>) returns (n: string)
    ensures n == PrimaryName(ts)
  {
    var i := 0;
    while i < |ts|
      invariant 0 <= i <= |ts|
      invariant PrimaryName(ts) == PrimaryName(ts[i..])
    {
      if ts[i].role.Primary? {
        return ts[i].name;
      }
      i := i + 1;
    }
    n := "";
  }

  method ValidateSpec(ts: seq<Target>) returns (ok: bool)
    ensures ok <==> ValidClusters(ts)
  {
    var primaryCount := 0;
    var names: set<string> := {};
    ghost var sole := -1;
    var i := 0;
    while i < |ts|
      invariant 0 <= i <= |ts| && primaryCount >= 0
      invariant DistinctNames(ts[..i])
      invariant forall n :: n in names <==> exists j :: 0 <= j < i && ts[j].name == n
      invariant primaryCount == 0 ==> forall j :: 0 <= j < i ==> !ts[j].role.Primary?
      invariant primaryCount == 1 ==> SolePrimary(ts[..i], sole)
      invariant primaryCount > 1 ==> exists j, k :: 0 <= j < k < i && ts[j].role.Primary? && ts[k].role.Primary?
    {
      if ts[i].role.Primary? {
        primaryCount := primaryCount + 1;
        if primaryCount == 1 { sole := i; } else if primaryCount == 2 { assert ts[..i][sole].role.Primary?; }
      }
      if ts[i].name in names {
        assert !DistinctNames(ts);
        return false;
      }
      names := names + {ts[i].name};
      i := i + 1;
    }
    assert ts[..i] == ts;
    ok := primaryCount == 1;
    if ok {
      assert SolePrimary(ts, sole);
    } else {
      forall i | 0 <= i < |ts| ensures !SolePrimary(ts, i) {
        var r := ts[i].role;
      }
    }
  }
}
