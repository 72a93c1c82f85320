// The copy of the PostgresMC resource that a pass works on.
module Resource {
  import opened Api
  import opened Conditions
  import opened Replication
  import opened StatusEndpoints

  class PostgresMC {
    const name: string
    var generation: nat
    var spec: Spec
    var status: Status

    constructor (name: string, generation: nat, spec: Spec, status: Status)
      ensures this.name == name && this.generation == generation && this.spec == spec && this.status == status
    {
      this.name, this.generation, this.spec, this.status := name, generation, spec, status;
    }

    method SetTopCondition(kind: string, truth: Truth, reason: string, message: string, now: nat)
      modifies this`status
      ensures status == old(status).(conditions :=
                Upsert(old(status).conditions, Condition(kind, truth, reason, message, generation, now)))
    {
      var conditions := SetCondition(status.conditions, kind, truth, generation, reason, message, now);
      status := status.(conditions := conditions);
    }

    method SetClusterCond(n: string, kind: string, truth: Truth, reason: string, message: string, now: nat)
      modifies this`status
      ensures status == old(status).(clusters :=
                UpsertCluster(old(status).clusters, n, Condition(kind, truth, reason, message, generation, now)))
    {
      var clusters := SetClusterCondition(status.clusters, n, kind, truth, generation, reason, message, now);
      status := status.(clusters := clusters);
    }

    /** The per-cluster Ready condition, from which the phase is aggregated. */
    method SetClusterReady(n: string, truth: Truth, reason: string, message: string, now: nat)
      modifies this`status
      ensures status == old(status).(clusters :=
                UpsertCluster(old(status).clusters, n, Condition(READY, truth, reason, message, generation, now)))
    {
      SetClusterCond(n, READY, truth, reason, message, now);
    }

    method EnsureRoles()
      modifies this`status
      ensures status == old(status).(clusters := WithRoles(old(status).clusters, spec.clusters))
    {
      var clusters := EnsureClusterStatusRoles(status.clusters, spec.clusters);
      status := status.(clusters := clusters);
    }

    method UpdateEndpoint(n: string, e: Endpoint)
      modifies this`status
      ensures status == old(status).(clusters := WithEndpoint(old(status).clusters, n, Render(e)))
    {
      var clusters := UpdateClusterEndpoint(status.clusters, n, Render(e));
      status := status.(clusters := clusters);
    }
  }
}
