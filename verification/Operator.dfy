// Reconcile: one call of the operator on one resource, from reading it to its last status write.
module Operator {
  import opened Json
  import opened Api
  import opened Kube
  import opened Conditions
  import opened Machine
  import opened Remote
  import opened Resource
  import opened StatusWrites
  import opened AutoPromotion
  import opened Controller
  import opened Failover
  import opened FailoverPass

  /** What a call turned out to be. */
  datatype Report =
    | Unread
    | Invalid
    | Failover(result: Result<string>, plan: Plan, deed: Deed)
    | Steady(error: Option<string>, ev: Events, tr: Trail)

  /** A failover runs exactly when a primary is recorded and the spec names another. */
  predicate CallsForFailover(w: World) {
    var cp := w.status.currentPrimary;
    cp != "" && cp != PrimaryName(w.spec.clusters)
  }

  /** From the state w that was read to the state w' at the end, `lost` being the clusters for which the
      call could not get a client. */
  ghost predicate Reconciled(isIP: string -> bool, w: World, w': World, lost: set<string>, begun: seq<View>,
      trace: seq<View>, now: nat, r: Report)
  {
    var ts, s := w.spec.clusters, Stamp(w.generation, now);
    match r
    case Unread => Load(w') == Load(w) && w'.status == w.status
    case Invalid =>
      && !ValidClusters(ts) && Load(w') == Load(w)
      && w'.status in {w.status, InvalidSpec(w.status, "invalid spec", s)}
    case Failover(result, plan, deed) =>
      ValidClusters(ts) && CallsForFailover(w) && FailoverPassed(isIP, w, w', lost, s, result, plan, deed)
    case Steady(error, ev, tr) =>
      var down := PrimaryName(ts) in lost;
      var count := CountAfter(w.status.failureCount, down);
      && ValidClusters(ts) && !CallsForFailover(w) && ev.unreachable.Keys == lost
      && if down && Fires(w.spec.auto, count)
         then AutoPassed(w, w', begun, trace, ts, ev.unreachable, count, s, error)
         else NormalPassed(isIP, w.name, w.spec, w, w', s, ev, tr, error)
  }

  /** A call in which no call to a cluster or the store reports an error: it reads, and goes through whatever the
      spec, the clients and the clusters allow. */
  ghost predicate GotThrough(w: World, w': World, now: nat, r: Report) {
    var ts, s := w.spec.clusters, Stamp(w.generation, now);
    match r
    case Unread => false
    case Invalid => w'.status == InvalidSpec(w.status, "invalid spec", s)
    case Failover(result, _, deed) => result.Ok? <==> deed.Reached?
    case Steady(error, ev, tr) =>
      var down := PrimaryName(ts) in ev.unreachable;
      var count := CountAfter(w.status.failureCount, down);
      && error.None?
      && if down && Fires(w.spec.auto, count) then w'.status == TakenOver(w.status, ts, ev.unreachable, count, s)
         else Smooth(w.name, w.spec, WithRoles(w.status.clusters, ts), Load(w), ev, tr)
  }

  lemma {:induction false} NothingRead(isIP: string -> bool, w: World, lost: set<string>, begun: seq<View>,
      trace: seq<View>, now: nat)
    ensures Reconciled(isIP, w, w, lost, begun, trace, now, Unread)
  {}

  lemma {:induction false} SpecRejected(isIP: string -> bool, w: World, w': World, lost: set<string>, begun: seq<View>,
      trace: seq<View>, now: nat)
    requires !ValidClusters(w.spec.clusters) && Load(w') == Load(w)
    requires w'.status in {w.status, InvalidSpec(w.status, "invalid spec", Stamp(w.generation, now))}
    ensures Reconciled(isIP, w, w', lost, begun, trace, now, Invalid)
  {}

  /** One call. Whatever fails in it, and whatever users edit around it, the store only ever goes
      through states of the machine, so at most one cluster is ever writable. */
  method Reconcile(fleet: Fleet, now: nat) returns (ghost read: World, ghost r: Report)
    requires fleet.Valid() && fleet.flight.Idle?
    modifies fleet
    ensures fleet.Valid() && fleet.flight.Idle? && fleet.begun == old(fleet.trace)
    ensures read == old(fleet.w).(spec := read.spec, generation := read.generation)
    ensures Reconciled(fleet.isIP, read, fleet.w, fleet.clients.lost, fleet.begun, fleet.trace, now, r)
    ensures fleet.faults >= old(fleet.faults)
    ensures fleet.faults == old(fleet.faults) ==> GotThrough(read, fleet.w, now, r)
  {
    hide Reconciled, StatusOk, ValidClusters, IsRun;
    fleet.Mark();
    var err := fleet.Call();
    read, r := fleet.w, Unread;
    if err.Some? {
      NothingRead(fleet.isIP, read, fleet.clients.lost, fleet.begun, fleet.trace, now);
      return;
    }
    var mc := new PostgresMC(fleet.w.name, fleet.w.generation, fleet.w.spec, fleet.w.status);
    var stored := mc.status;
    var ok := ValidateSpec(mc.spec.clusters);
    if !ok {
      RejectSpec(fleet, mc, stored, now);
      r := Invalid;
      SpecRejected(fleet.isIP, read, fleet.w, fleet.clients.lost, fleet.begun, fleet.trace, now);
      return;
    }
    r := Pass(fleet, mc, now);
  }

  /** A pass on a spec that is valid: a failover or a normal pass. */
  method Pass(fleet: Fleet, mc: PostgresMC, now: nat) returns (ghost r: Report)
    requires fleet.Valid() && fleet.flight.Idle? && ValidClusters(fleet.w.spec.clusters)
    requires mc.name == fleet.w.name && mc.generation == fleet.w.generation && mc.spec == fleet.w.spec
              && mc.status == fleet.w.status
    modifies fleet, mc
    ensures fleet.Valid() && fleet.flight.Idle? && fleet.begun == old(fleet.begun)
    ensures Reconciled(fleet.isIP, old(fleet.w), fleet.w, fleet.clients.lost, fleet.begun, fleet.trace, now, r)
    ensures fleet.faults >= old(fleet.faults)
    ensures fleet.faults == old(fleet.faults) ==> GotThrough(old(fleet.w), fleet.w, now, r)
  {
    hide NormalPassed, AutoPassed, FailoverPassed, StatusOk, WithRoles, ValidClusters, IsRun, Smooth, TakenOver;
    ghost var w := fleet.w;
    var stored := mc.status;
    mc.EnsureRoles();
    fleet.Begin();
    SpecHasSites(fleet);
    var primary := PrimaryClusterName(mc.spec.clusters);
    if stored.currentPrimary != "" && stored.currentPrimary != primary {
      ghost var result, plan, deed;
      result, plan, deed := RunFailover(fleet, mc, stored, now);
      r := Failover(result, plan, deed);
      fleet.End();
    } else {
      ghost var error, ev, tr;
      error, ev, tr := RunNormal(fleet, mc, stored, now);
      r := Steady(error, ev, tr);
    }
  }

  lemma {:induction false} SpecHasSites(fleet: Fleet)
    requires fleet.Valid()
    ensures HasSites(fleet.w, fleet.w.spec.clusters)
  {
    RunIsSafe(fleet.trace, |fleet.trace| - 1);
  }

  method RejectSpec(fleet: Fleet, mc: PostgresMC, stored: Status, now: nat)
    requires fleet.Valid() && fleet.w.status == stored && mc.status == stored
    modifies fleet, mc`status
    ensures fleet.Valid() && fleet.begun == old(fleet.begun) && fleet.flight == old(fleet.flight)
    ensures Load(fleet.w) == Load(old(fleet.w))
    ensures fleet.faults >= old(fleet.faults)
    ensures fleet.faults == old(fleet.faults) ==>
              fleet.w.status == InvalidSpec(stored, "invalid spec", Stamp(mc.generation, now))
    ensures fleet.w.status in {stored, InvalidSpec(stored, "invalid spec", Stamp(mc.generation, now))}
    ensures fleet.faults == old(fleet.faults) ==>
              fleet.w.status.phase.Failed? && !IsTrue(fleet.w.status.conditions, READY)
  {
    RejectionTells(stored, "invalid spec", Stamp(mc.generation, now));
    mc.SetTopCondition(READY, False, "SpecInvalid", "invalid spec", now);
    mc.status := mc.status.(phase := Failed);
    InvalidSpecKeepsStatusOk(stored, "invalid spec", Stamp(mc.generation, now));
    var ignored := fleet.PatchStatus(stored, mc.status);
  }

  /** Any number of calls, at any times, with users and clusters free to move in between. */
  method Operate(fleet: Fleet, times: seq<nat>)
    requires fleet.Valid() && fleet.flight.Idle?
    modifies fleet
    ensures fleet.Valid() && fleet.flight.Idle?
    ensures forall i :: 0 <= i < |fleet.trace| ==> Safe(fleet.trace, i)
  {
    var k := 0;
    while k < |times|
      invariant 0 <= k <= |times| && fleet.Valid() && fleet.flight.Idle?
    {
      fleet.UserMayEdit();
      fleet.ClustersMove();
      ghost var read, r;
      read, r := Reconcile(fleet, times[k]);
      k := k + 1;
    }
    EveryStateIsSafe(fleet);
  }

  /** At most one cluster is writable, and the status is well formed. */
  ghost predicate Safe(trace: seq<View>, i: int) {
    0 <= i < |trace| && AtMostOneWriter(trace[i].w) && StatusOk(trace[i].w.status)
  }

  lemma {:induction false} EveryStateIsSafe(fleet: Fleet)
    requires fleet.Valid()
    ensures forall i :: 0 <= i < |fleet.trace| ==> Safe(fleet.trace, i)
  {
    forall i | 0 <= i < |fleet.trace| ensures Safe(fleet.trace, i) {
      RunIsSafe(fleet.trace, i);
      assert StatusKept(fleet.trace, i);
    }
  }
}
