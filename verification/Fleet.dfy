// Remote calls. Every call may succeed, fail without effect, or fail after taking effect, and a user
// may edit the spec around it.
module Remote {
  import opened Json
  import opened Api
  import opened Kube
  import opened Conditions
  import opened Machine
  import opened AutoPromotion

  /** From w to w', nothing moved but the site of n (and the spec, which users may edit). */
  ghost predicate SiteOnly(w: World, w': World, n: string) {
    && n in w.sites && n in w'.sites
    && w' == w.(spec := w'.spec, generation := w'.generation, sites := w.sites[n := w'.sites[n]])
  }

  /** A merge patch of the status sends the fields that differ between `from` and `to`. */
  function MergeStatus(stored: Status, from: Status, to: Status): Status {
    Status(
      if to.phase == from.phase then stored.phase else to.phase,
      if to.observedGeneration == from.observedGeneration then stored.observedGeneration else to.observedGeneration,
      if to.currentPrimary == from.currentPrimary then stored.currentPrimary else to.currentPrimary,
      if to.conditions == from.conditions then stored.conditions else to.conditions,
      if to.clusters == from.clusters then stored.clusters else to.clusters,
      if to.failureCount == from.failureCount then stored.failureCount else to.failureCount)
  }

  /** The clusters a client was obtained for, and those it was not. */
  datatype Clients = Clients(held: set<string>, lost: set<string>)

  const NO_CLIENTS := Clients({}, {})

  ghost predicate StatusKept(t: seq<View>, i: int) {
    0 <= i < |t| && StatusOk(t[i].w.status)
  }

  class Fleet {
    const isIP: string -> bool
    var w: World

    // What the pass has: its clients, and how many of its calls reported an error.
    var clients: Clients
    var faults: nat

    // History: the pass in flight, every state so far, and the states there were when the current
    // pass began.
    var flight: Flight
    var trace: seq<View>
    var begun: seq<View>

    constructor (isIP: string -> bool, w: World)
      requires Init(View(w, Idle), ALL) && StatusOk(w.status)
      ensures Valid() && this.w == w && flight.Idle? && this.isIP == isIP
    {
      this.isIP := isIP;
      this.w := w;
      clients, faults, flight, trace, begun := NO_CLIENTS, 0, Idle, [View(w, Idle)], [];
    }

    ghost function Now(): View
      reads this
    {
      View(w, flight)
    }

    /** A client is held for n, whose site exists. */
    ghost predicate Serves(n: string)
      reads this
    {
      n in w.sites && n in clients.held
    }

    /** Every state the store went through, up to this one, is a run of the machine, and every status
        it held is well formed. */
    ghost predicate Valid()
      reads this
    {
      && IsRun(trace, ALL) && trace[|trace| - 1] == Now() && StatusOk(w.status)
      && begun <= trace && (flight.Failing? ==> ValidClusters(w.spec.clusters))
      && forall i :: 0 <= i < |trace| ==> StatusKept(trace, i)
    }

    /** A new call of Reconcile. */
    method Mark()
      requires Valid()
      modifies this`begun
      ensures Valid() && begun == trace
    {
      begun := trace;
    }

    method Log()
      requires IsRun(trace, ALL) && Next(trace[|trace| - 1], Now(), ALL)
      requires begun <= trace && (flight.Failing? ==> ValidClusters(w.spec.clusters))
      requires StatusOk(w.status) && forall i :: 0 <= i < |trace| ==> StatusKept(trace, i)
      modifies this`trace
      ensures Valid() && begun == old(begun) && trace == old(trace) + [Now()]
    {
      Extend(trace, Now(), ALL);
      ghost var before := trace;
      trace := trace + [View(w, flight)];
      forall i | 0 <= i < |trace| ensures StatusKept(trace, i) {
        assert i < |before| ==> StatusKept(before, i);
      }
    }

    /** What a call reports, and whether a call that reports an error took effect all the same. */
    method Outcome() returns (err: Option<string>, took: bool)
      modifies this`faults
      ensures faults == old(faults) + (if err.Some? then 1 else 0)
    {
      var fails: bool, message: string := *, *;
      err := if fails then Some(message) else None;
      took := *;
      faults := faults + (if fails then 1 else 0);
    }

    /** An edit within the guards. Under a failover in flight the spec is kept valid, so that the pass has one plan. */
    method UserMayEdit()
      requires Valid()
      modifies this
      ensures Valid() && begun == old(begun) && old(trace) <= trace
      ensures w == old(w).(spec := w.spec, generation := w.generation)
      ensures flight == old(flight) && clients == old(clients) && faults == old(faults)
    {
      var spec: Spec, generation: nat := *, *;
      if EditAllowed(View(w, flight), spec, ALL) && (flight.Failing? ==> ValidClusters(spec.clusters)) {
        w := w.(spec := spec, generation := generation);
        assert Edit(old(Now()), Now(), ALL);
        Log();
      }
    }

    /** Between passes whatever runs on the clusters goes on: Secrets appear, nodes come and go. */
    method ClustersMove()
      requires Valid() && flight.Idle?
      modifies this
      ensures Valid() && old(trace) <= trace && flight.Idle?
      ensures w == old(w).(sites := w.sites)
    {
      var sites: map<string, Site> := *;
      if sites.Keys == w.sites.Keys {
        w := w.(sites := sites);
        assert Elsewhere(old(Now()), Now());
        Log();
      }
    }

    /** A read, or any call whose effect is not modelled. */
    method Call() returns (err: Option<string>)
      requires Valid()
      modifies this
      ensures Valid() && begun == old(begun)
      ensures w == old(w).(spec := w.spec, generation := w.generation)
      ensures flight == old(flight) && clients == old(clients)
      ensures faults == old(faults) + (if err.Some? then 1 else 0)
    {
      UserMayEdit();
      var took: bool;
      err, took := Outcome();
    }

    /** Gets a client for a cluster. A user may edit the spec meanwhile. */
    method Client(n: string) returns (err: Option<string>)
      requires Valid()
      modifies this
      ensures Valid() && begun == old(begun) && faults == old(faults)
      ensures w == old(w).(spec := w.spec, generation := w.generation)
      ensures flight == old(flight)
      ensures clients == if err.None? then Clients(old(clients).held + {n}, old(clients).lost)
                         else Clients(old(clients).held, old(clients).lost + {n})
    {
      var fails: bool, message: string := *, *;
      if fails {
        err, clients := Some(message), clients.(lost := clients.lost + {n});
      } else {
        err, clients := None, clients.(held := clients.held + {n});
      }
      UserMayEdit();
    }

    method WriteSite(n: string, site: Site) returns (err: Option<string>)
      requires Valid() && Serves(n)
      modifies this
      ensures Valid() && begun == old(begun) && SiteOnly(old(w), w, n)
      ensures w.sites[n] == site || (err.Some? && w.sites[n] == old(w.sites[n]))
      ensures flight == old(flight) && clients == old(clients)
      ensures faults == old(faults) + (if err.Some? then 1 else 0)
    {
      var took: bool;
      err, took := Outcome();
      if err.None? || took {
        w := w.(sites := w.sites[n := site]);
        assert Elsewhere(old(Now()), Now());
        Log();
      }
      UserMayEdit();
    }

    /** Applies an object, or patches the existing one into it. */
    method WritePg(n: string, obj: Json) returns (err: Option<string>)
      requires Valid() && n in clients.held && MayWrite(flight, n, obj)
      modifies this
      ensures Valid() && begun == old(begun)
      ensures w == old(w).(pg := w.pg, spec := w.spec, generation := w.generation)
      ensures w.pg == old(w.pg)[n := obj] || (err.Some? && w.pg == old(w.pg))
      ensures clients == old(clients)
      ensures flight == if old(flight).Failing? && n == old(flight).from && err.None?
                        then old(flight).(demoted := true) else old(flight)
      ensures faults == old(faults) + (if err.Some? then 1 else 0)
    {
      var took: bool;
      err, took := Outcome();
      if err.None? || took {
        w := w.(pg := w.pg[n := obj]);
        if flight.Failing? && n == flight.from && err.None? {
          flight := flight.(demoted := true);
        }
        assert Wrote(old(Now()), Now(), n, obj);
        Log();
      }
      UserMayEdit();
    }

    /** Starts a pass on the current spec; the caller has validated it. */
    method Begin()
      requires Valid() && flight.Idle? && ValidClusters(w.spec.clusters)
      modifies this
      ensures Valid() && begun == old(begun) && w == old(w) && faults == old(faults)
      ensures Start(old(Now()), Now()) && clients == NO_CLIENTS
    {
      var cp, p := w.status.currentPrimary, PrimaryName(w.spec.clusters);
      flight := if cp != "" && cp != p then Failing(cp, p, false) else Normal(w.spec, None);
      clients := NO_CLIENTS;
      Log();
    }

    /** The pass has counted its primary as down or up. */
    method Counted(down: bool)
      requires Valid() && flight.Normal? && flight.count.None?
      modifies this
      ensures Valid() && begun == old(begun) && w == old(w) && clients == old(clients) && faults == old(faults)
      ensures flight == old(flight).(count := Some(CountAfter(w.status.failureCount, down)))
    {
      flight := flight.(count := Some(CountAfter(w.status.failureCount, down)));
      assert Count(old(Now()), Now());
      Log();
    }

    /** The pass is over, for whatever reason. */
    method End()
      requires Valid()
      modifies this
      ensures Valid() && begun == old(begun) && w == old(w) && clients == old(clients) && flight.Idle?
      ensures old(trace) <= trace && faults == old(faults)
    {
      flight := Idle;
      assert Abort(old(Now()), Now());
      Log();
    }

    /** A status patch that moves neither the recorded primary nor the failure count. */
    method PatchStatus(from: Status, to: Status) returns (err: Option<string>)
      requires Valid() && StatusOk(MergeStatus(w.status, from, to))
      requires to.currentPrimary == from.currentPrimary && to.failureCount == from.failureCount
      modifies this
      ensures Valid() && begun == old(begun)
      ensures w == old(w).(status := w.status, spec := w.spec, generation := w.generation)
      ensures w.status == MergeStatus(old(w.status), from, to) || (err.Some? && w.status == old(w.status))
      ensures flight == old(flight) && clients == old(clients)
      ensures faults == old(faults) + (if err.Some? then 1 else 0)
    {
      var took: bool;
      err, took := Outcome();
      if err.None? || took {
        w := w.(status := MergeStatus(w.status, from, to));
        assert Elsewhere(old(Now()), Now());
        Log();
      }
      UserMayEdit();
    }

    /** The status patch that ends a pass. */
    method PatchStatusAndEnd(from: Status, to: Status) returns (err: Option<string>)
      requires Valid() && StatusOk(MergeStatus(w.status, from, to))
      requires Recorded(Now(), View(w.(status := MergeStatus(w.status, from, to)), Idle))
      modifies this
      ensures Valid() && begun == old(begun) && flight.Idle? && old(trace) <= trace && clients == old(clients)
      ensures w == old(w).(status := w.status, spec := w.spec, generation := w.generation)
      ensures w.status == MergeStatus(old(w.status), from, to) || (err.Some? && w.status == old(w.status))
      ensures faults == old(faults) + (if err.Some? then 1 else 0)
    {
      var took: bool;
      err, took := Outcome();
      if err.None? || took {
        w := w.(status := MergeStatus(w.status, from, to));
        flight := Idle;
        Log();
      } else {
        End();
      }
      UserMayEdit();
    }

    /** Patches the clusters, with the roles of the pass's copy rewritten, into the spec. */
    method PatchRoles(n: string, clusters: seq<Target>) returns (err: Option<string>)
      requires Valid() && flight.Normal? && flight.count.Some? && Fires(flight.copy.auto, flight.count.value)
      requires clusters == Promote(flight.copy.clusters, n)
      requires Named(flight.copy.clusters, n) && n != PrimaryName(flight.copy.clusters)
      modifies this
      ensures Valid() && begun == old(begun)
      ensures w == old(w).(spec := w.spec, generation := w.generation)
      ensures flight == old(flight) && clients == old(clients)
      ensures err.None? ==> |old(trace)| < |trace| && trace[|old(trace)|].w.spec.clusters == clusters
      ensures old(trace) <= trace
      ensures faults == old(faults) + (if err.Some? then 1 else 0)
    {
      var took: bool;
      err, took := Outcome();
      var generation: nat := *;
      if err.None? || took {
        w := w.(spec := w.spec.(clusters := clusters), generation := generation);
        assert Rewrote(old(Now()), Now(), n);
        Log();
      }
      UserMayEdit();
    }
  }

  /** A client is held for every one of ts. */
  ghost predicate ServesAll(fleet: Fleet, ts: seq<Target>)
    reads fleet
  {
    forall i :: 0 <= i < |ts| ==> fleet.Serves(ts[i].name)
  }
}
