// What the phase Ready stands for after a normal pass.
module Readiness {
  import opened Json
  import opened Api
  import opened Kube
  import opened Conditions
  import opened Replication
  import opened StatusWrites
  import opened Selection
  import opened NormalPass
  import opened Controller
  import opened AutoPromotion

  /** What a pass can have seen: the primary is tried iff it has a client, the standbys with a client
      are tried iff the primary is up. */
  ghost predicate Coherent(ts: seq<Target>, ev: Events) {
    && (forall n :: n in ev.unreachable ==> Named(ts, n))
    && (ev.primary.Absent? <==> PrimaryName(ts) in ev.unreachable)
    && (forall t :: t in ts && t.role.Standby? ==>
          (t.name in ev.standbys <==> ev.primary.Applied? && t.name !in ev.unreachable))
    && (forall n :: n in ev.standbys ==> exists t :: t in ts && t.role.Standby? && t.name == n)
  }

  lemma {:induction false} StandbyNames(ts: seq<Target>, unreachable: map<string, string>, n: string)
    requires ValidClusters(ts)
    ensures n in TargetNames(StandbysOf(Reachable(ts, unreachable))) <==>
            n !in unreachable && exists t :: t in ts && t.role.Standby? && t.name == n
  {
    var cl := Reachable(ts, unreachable);
    var standbys := StandbysOf(cl);
    ReachableIs(ts, unreachable);
    SplitIs(cl);
    hide Reachable, StandbysOf;
    if Named(standbys, n) {
      var k :| 0 <= k < |standbys| && standbys[k].name == n;
      var t := standbys[k];
      assert t in standbys;
    }
    if n !in unreachable && exists t :: t in ts && t.role.Standby? && t.name == n {
      var t :| t in ts && t.role.Standby? && t.name == n;
      assert t in standbys;
      var k :| 0 <= k < |standbys| && standbys[k] == t;
    }
  }

  lemma {:induction false} ServedNames(isIP: string -> bool, mc: string, spec: Spec, p: Target, e: Endpoint,
      standbys: seq<Target>, outcomes: map<string, Option<string>>, a: Workload, synced: Workload, credentials: bool,
      b: Workload)
    requires Served(isIP, mc, spec, p, e, standbys, outcomes, a, synced, credentials, b)
    ensures outcomes.Keys == TargetNames(standbys)
  {}

  lemma {:induction false} WorkIsCoherent(isIP: string -> bool, mc: string, spec: Spec, cs: seq<ClusterStatus>,
      ev: Events, tr: Trail, a: Workload, b: Workload)
    requires ValidClusters(spec.clusters) && NormalWork(isIP, mc, spec, cs, ev, tr, a, b)
    ensures Coherent(spec.clusters, ev)
  {
    hide Ensured, AppliedOn, Served, Reachable, StandbysOf, PrimaryIn, ValidClusters;
    var ts := spec.clusters;
    SelectionOf(ts, ev.unreachable);
    if ev.primary.Applied? {
      var cl := Reachable(ts, ev.unreachable);
      var p := PrimaryIn(cl).value;
      ServedNames(isIP, mc, spec, p, Used(ev.endpoints, cs, p.name), StandbysOf(cl), ev.standbys,
                  tr.applied, tr.synced, tr.credentials, b);
      forall n
        ensures n in ev.standbys <==> n !in ev.unreachable && exists t :: t in ts && t.role.Standby? && t.name == n
      {
        StandbyNames(ts, ev.unreachable, n);
      }
    }
  }

  /** An entry of a cluster that is no longer in the spec, left as it was. */
  ghost predicate LeftoverReady(cs: seq<ClusterStatus>, ts: seq<Target>, i: int) {
    0 <= i < |cs| && (!Named(ts, cs[i].name) ==> ReadyAt(cs, i))
  }

  /** Everything the pass tried worked. */
  ghost predicate AllUp(ev: Events) {
    ev.unreachable == map[] && ev.primary.Applied? && forall n :: n in ev.standbys ==> ev.standbys[n].None?
  }

  lemma {:induction false} UpsertReady(cs: seq<Condition>, c: Condition)
    ensures IsTrue(Upsert(cs, c), READY) <==> if c.kind == READY then c.status.True? else IsTrue(cs, READY)
  {
    UpsertLooksUp(cs, c, READY);
  }

  lemma {:induction false} MarkedReady(e: ClusterStatus, ts: seq<Target>, ev: Events, s: Stamp)
    ensures var t, now := TargetNamed(ts, e.name), MarkedAt(e, ts, ev, s);
      IsTrue(now.conditions, READY) <==>
        if t.None? || ReadyMark(ev, t.value, s).None? then IsTrue(e.conditions, READY)
        else ReadyMark(ev, t.value, s).value.status.True?
  {
    hide Upsert, IsTrue, TargetNamed;
    var t := TargetNamed(ts, e.name);
    if t.Some? {
      var reach := ReachableMark(ev, t.value.name, s);
      assert reach.kind != READY;
      UpsertReady(e.conditions, reach);
      if ReadyMark(ev, t.value, s).Some? { UpsertReady(Upsert(e.conditions, reach), ReadyMark(ev, t.value, s).value); }
    }
  }

  /** With everything reachable, the entry of a target ends Ready iff its own step worked in this pass;
      unless the primary is not up, when only the primary's own entry is sure to say so. */
  lemma {:induction false} TargetReady(e: ClusterStatus, ts: seq<Target>, ev: Events, s: Stamp, k: int)
    requires ValidClusters(ts) && Coherent(ts, ev) && 0 <= k < |ts| && e.name == ts[k].name
    requires ev.unreachable == map[]
    ensures var ready := IsTrue(MarkedAt(e, ts, ev, s).conditions, READY);
      && (ts[k].role.Primary? ==> (ready <==> ev.primary.Applied?))
      && (ts[k].role.Standby? && ev.primary.Applied? ==>
            ts[k].name in ev.standbys && (ready <==> ev.standbys[ts[k].name].None?))
  {
    MarkedReady(e, ts, ev, s);
    TargetNamedIs(ts, k);
    PrimaryByName(ts, k);
    assert ts[k] in ts;
  }

  lemma {:induction false} EntryIsReady(st: Status, ts: seq<Target>, ev: Events, s: Stamp, i: int)
    requires StatusOk(st) && ValidClusters(ts) && Coherent(ts, ev) && AllUp(ev)
    requires forall i :: 0 <= i < |st.clusters| ==> LeftoverReady(st.clusters, ts, i)
    requires 0 <= i < |WithRoles(st.clusters, ts)|
    ensures IsTrue(MarkedAt(WithRoles(st.clusters, ts)[i], ts, ev, s).conditions, READY)
  {
    var e := WithRoles(st.clusters, ts)[i];
    OldEntriesStay(st.clusters, ts, i);
    if Named(ts, e.name) {
      var k :| 0 <= k < |ts| && ts[k].name == e.name;
      TargetReady(e, ts, ev, s, k);
    } else {
      MarkedReady(e, ts, ev, s);
      TargetNamedSome(ts, e.name);
      assert LeftoverReady(st.clusters, ts, i);
    }
  }

  /** Some entry is not Ready when something failed, or a leftover entry was not. */
  lemma {:induction false} SomeEntryIsNot(st: Status, ts: seq<Target>, ev: Events, s: Stamp) returns (i: nat)
    requires StatusOk(st) && ValidClusters(ts) && Coherent(ts, ev) && ev.unreachable == map[]
    requires !AllUp(ev) || exists i :: 0 <= i < |st.clusters| && !LeftoverReady(st.clusters, ts, i)
    ensures i < |WithRoles(st.clusters, ts)|
    ensures !IsTrue(MarkedAt(WithRoles(st.clusters, ts)[i], ts, ev, s).conditions, READY)
  {
    hide Marked, WithRoles, MarkedAt, StatusOk;
    var cs := WithRoles(st.clusters, ts);
    RolesCover(st, ts);
    if !ev.primary.Applied? {
      var p :| 0 <= p < |ts| && SolePrimary(ts, p);
      i := EntryOf(cs, ts[p].name);
      TargetReady(cs[i], ts, ev, s, p);
    } else if n :| n in ev.standbys && ev.standbys[n].Some? {
      var t :| t in ts && t.role.Standby? && t.name == n;
      var k :| 0 <= k < |ts| && ts[k] == t;
      i := EntryOf(cs, n);
      TargetReady(cs[i], ts, ev, s, k);
    } else {
      i :| 0 <= i < |st.clusters| && !LeftoverReady(st.clusters, ts, i);
      LeftoverStays(st, ts, ev, s, i);
    }
  }

  lemma {:induction false} LeftoverStays(st: Status, ts: seq<Target>, ev: Events, s: Stamp, i: nat)
    requires StatusOk(st) && DistinctNames(ts) && i < |st.clusters| && !Named(ts, st.clusters[i].name)
    ensures i < |WithRoles(st.clusters, ts)|
    ensures IsTrue(MarkedAt(WithRoles(st.clusters, ts)[i], ts, ev, s).conditions, READY) <==> ReadyAt(st.clusters, i)
  {
    OldEntriesStay(st.clusters, ts, i);
    var e := WithRoles(st.clusters, ts)[i];
    MarkedReady(e, ts, ev, s);
    TargetNamedSome(ts, e.name);
  }

  /** So with the top-level condition, once the status of a pass is written: Ready is True exactly when the pass
      earned it; else it is False, for ClusterUnreachable exactly when some cluster had no client. */
  lemma {:induction false} ReadyConditionIsEarned(isIP: string -> bool, mc: string, spec: Spec, w: World, w': World,
      s: Stamp, ev: Events, tr: Trail)
    requires StatusOk(w.status) && ValidClusters(spec.clusters)
    requires NormalPassed(isIP, mc, spec, w, w', s, ev, tr, None)
    ensures IsTrue(w'.status.conditions, READY) <==>
            AllUp(ev) && forall i :: 0 <= i < |w.status.clusters| ==> LeftoverReady(w.status.clusters, spec.clusters, i)
    ensures TopTells(w'.status, ev, s) && w'.status.observedGeneration == s.generation
    ensures w'.status.phase.Failed? <==>
            ev.unreachable == map[] && forall i :: 0 <= i < |w'.status.clusters| ==> !ReadyAt(w'.status.clusters, i)
  {
    hide NormalWork, WithRoles, MarkedAt, StatusOk, Coherent, LeftoverReady, Upsert, PrimaryName;
    var ts := spec.clusters;
    var count := CountAfter(w.status.failureCount, PrimaryName(ts) in ev.unreachable);
    WorkIsCoherent(isIP, mc, spec, WithRoles(w.status.clusters, ts), ev, tr, Load(w), Load(w'));
    ReadyIsEarned(w.status, ts, ev, count, s);
    NormalStatusTells(w.status, ts, ev, count, s);
    RolesCover(w.status, ts);
    var k :| 0 <= k < |ts| && SolePrimary(ts, k);
    var cs := WithRoles(w.status.clusters, ts);
    assert EntryOf(cs, ts[k].name) < |cs|;
    PhaseIs(Marked(cs, ts, ev, s));
  }

  /** Phase Ready is never stale: a normal pass ends Ready exactly when, in that same pass, every cluster
      had a client, the primary was applied with its credentials there and every standby was
      reconciled; and every entry left over from an earlier spec was Ready already. Whether credentials
      were copied, and whether addresses were found anew, does not enter. */
  lemma {:induction false} ReadyIsEarned(st: Status, ts: seq<Target>, ev: Events, count: int, s: Stamp)
    requires StatusOk(st) && ValidClusters(ts) && Coherent(ts, ev)
    ensures NormalStatus(st, ts, ev, count, s).phase.Ready? <==>
            AllUp(ev) && forall i :: 0 <= i < |st.clusters| ==> LeftoverReady(st.clusters, ts, i)
  {
    hide WithRoles, MarkedAt, StatusOk, Coherent, LeftoverReady, Upsert;
    var r := Marked(WithRoles(st.clusters, ts), ts, ev, s);
    if ev.unreachable == map[] {
      if AllUp(ev) && forall i :: 0 <= i < |st.clusters| ==> LeftoverReady(st.clusters, ts, i) {
        RolesCover(st, ts);
        forall i | 0 <= i < |r| ensures ReadyAt(r, i) {
          EntryIsReady(st, ts, ev, s, i);
        }
      } else {
        var i := SomeEntryIsNot(st, ts, ev, s);
        assert !ReadyAt(r, i);
      }
    }
  }
}
