// What the calls of Reconcile, one after the other, do to the failure count, and what one that ends Ready
// leaves behind.
module Calls {
  import opened Json
  import opened Api
  import opened Kube
  import opened Builder
  import opened Conditions
  import opened Machine
  import opened Remote
  import opened StatusWrites
  import opened Selection
  import opened NormalPass
  import opened Controller
  import opened FailoverPass
  import opened Operator
  import opened Readiness
  import opened Topology
  import Auto = AutoPromotion

  // ---------- the failure count ----------

  /** One call: the state it read and the one it left, the clusters without a client, the states before and up to
      its end, its time and its report. */
  datatype Call = Call(w: World, w': World, lost: set<string>, begun: seq<View>, trace: seq<View>, now: nat, r: Report)

  ghost predicate Happened(isIP: string -> bool, c: Call) {
    Reconciled(isIP, c.w, c.w', c.lost, c.begun, c.trace, c.now, c.r)
  }

  /** The cluster automatic failover would choose in this call. */
  function Chosen(c: Call): Option<Target>
    requires c.r.Steady?
  {
    var cl := Reachable(c.w.spec.clusters, c.r.ev.unreachable);
    var i := Auto.FirstStandby(cl);
    if i < |cl| then Some(cl[i]) else None
  }

  ghost predicate SpecRewritten(c: Call)
    requires c.r.Steady?
  {
    Chosen(c).Some? && RewrittenTo(c.begun, c.trace, c.w.spec.clusters, Chosen(c).value.name)
  }

  function Due(c: Call): int {
    Auto.CountAfter(c.w.status.failureCount, PrimaryName(c.w.spec.clusters) in c.lost)
  }

  /** A steady call as one pass through the counter. */
  ghost function PassOf(c: Call): Auto.Pass
    requires c.r.Steady?
  {
    var chooses := Auto.Fires(c.w.spec.auto, Due(c)) && Chosen(c).Some?;
    Auto.Pass(PrimaryName(c.w.spec.clusters) in c.lost, Chosen(c).Some?,
              if c.r.error.None? then Auto.Made else if SpecRewritten(c) then Auto.Torn else Auto.Dropped,
              c.w'.status.failureCount == if chooses then 0 else Due(c))
  }

  /** The count after a steady call is the counter's, and its rewrite, if any, is in the history; no other
      call moves the count. */
  lemma {:induction false} CountAfterCall(isIP: string -> bool, c: Call)
    requires Happened(isIP, c) && StatusOk(c.w.status) && c.w.status.failureCount >= 0
    ensures c.r.Steady? ==>
      && c.w'.status.failureCount == Auto.Stored(c.w.spec.auto, c.w.status.failureCount, PassOf(c))
      && (Auto.Rewrites(c.w.spec.auto, c.w.status.failureCount, PassOf(c)) <==>
            Auto.Fires(c.w.spec.auto, Due(c)) && SpecRewritten(c))
    ensures !c.r.Steady? ==> c.w'.status.failureCount == c.w.status.failureCount
  {
    hide NormalWork, Marked, WithRoles, RewrittenTo, StatusOk, Reachable, Done, PlanFor;
    var s := Stamp(c.w.generation, c.now);
    if c.r.Failover? {
      FailoverRecordsItsOutcome(isIP, c.w, c.w', c.lost, s, c.r.result, c.r.plan, c.r.deed);
    }
  }

  /** Steady calls with one setting, each finding the count the one before left, from zero. What else happens
      in between does not move it. */
  ghost predicate Series(isIP: string -> bool, cs: seq<Call>, a: AutoFailover) {
    forall i :: 0 <= i < |cs| ==> InSeries(isIP, cs, a, i)
  }

  ghost predicate InSeries(isIP: string -> bool, cs: seq<Call>, a: AutoFailover, i: nat)
    requires i < |cs|
  {
    && Happened(isIP, cs[i]) && cs[i].r.Steady? && cs[i].w.spec.auto == a && StatusOk(cs[i].w.status)
    && cs[i].w.status.failureCount >= 0
    && cs[i].w.status.failureCount == (if i == 0 then 0 else cs[i - 1].w'.status.failureCount)
  }

  ghost function Passes(isIP: string -> bool, cs: seq<Call>, a: AutoFailover): seq<Auto.Pass>
    requires Series(isIP, cs, a)
  {
    seq(|cs|, i requires 0 <= i < |cs| => assert InSeries(isIP, cs, a, i); PassOf(cs[i]))
  }

  lemma {:induction false} CountsAgree(isIP: string -> bool, cs: seq<Call>, a: AutoFailover, k: nat)
    requires Series(isIP, cs, a) && k < |cs|
    ensures cs[k].w.status.failureCount == Auto.CountBefore(a, Passes(isIP, cs, a), k)
  {
    hide Happened, PassOf, StatusOk;
    assert InSeries(isIP, cs, a, k);
    if k > 0 {
      assert InSeries(isIP, cs, a, k - 1);
      CountsAgree(isIP, cs, a, k - 1);
      CountAfterCall(isIP, cs[k - 1]);
      Auto.LastPass(a, Passes(isIP, cs, a), k);
    }
  }

  /** The rate bound for the operator's own calls: n of them rewrite the spec at most n / threshold times, if each
      that does also resets the count. */
  lemma {:induction false} CallsRewriteSlowly(isIP: string -> bool, cs: seq<Call>, a: AutoFailover)
    requires Series(isIP, cs, a)
    requires forall i :: 0 <= i < |cs| && cs[i].r.Steady? && Auto.Fires(a, Due(cs[i])) && SpecRewritten(cs[i]) ==>
               cs[i].r.error.None? && cs[i].w'.status.failureCount == 0
    ensures Auto.RewriteCount(a, Passes(isIP, cs, a), |cs|) * Auto.Threshold(a) <= |cs|
    ensures forall i :: 0 <= i < |cs| ==>
              && cs[i].r.Steady?
              && (Auto.RewritesAt(a, Passes(isIP, cs, a), i) <==> Auto.Fires(a, Due(cs[i])) && SpecRewritten(cs[i]))
  {
    hide Happened;
    var ps := Passes(isIP, cs, a);
    forall i | 0 <= i < |cs|
      ensures cs[i].r.Steady? && (Auto.RewritesAt(a, ps, i) <==> Auto.Fires(a, Due(cs[i])) && SpecRewritten(cs[i]))
      ensures Auto.RewritesAt(a, ps, i) ==> Auto.Resets(ps[i])
    {
      assert InSeries(isIP, cs, a, i);
      CountsAgree(isIP, cs, a, i);
      CountAfterCall(isIP, cs[i]);
    }
    Auto.RewriteRateIsBounded(a, ps, |cs|);
    Auto.CountRisesSlowly(a, ps, 0, |cs|);
  }

  // ---------- calls of any kind ----------

  /** What every state of a run has. */
  ghost predicate Regular(w: World) {
    && StatusOk(w.status) && w.status.failureCount >= 0
    && (w.status.failureCount > 0 ==> w.status.currentPrimary != "")
    && forall i :: 0 <= i < |w.spec.clusters| ==> w.spec.clusters[i].name != ""
  }

  lemma {:induction false} RunsAreRegular(t: seq<View>, i: int)
    requires IsRun(t, ALL) && StatusKept(t, i)
    ensures Regular(t[i].w)
  {
    RunIsSafe(t, i);
  }

  /** Calls of any kind, each reading the status the one before left. */
  ghost predicate Chain(isIP: string -> bool, cs: seq<Call>) {
    forall i :: 0 <= i < |cs| ==> InChain(isIP, cs, i)
  }

  ghost predicate InChain(isIP: string -> bool, cs: seq<Call>, i: nat)
    requires i < |cs|
  {
    && Happened(isIP, cs[i]) && Regular(cs[i].w)
    && (i > 0 ==> cs[i].w.status == cs[i - 1].w'.status)
  }

  // ---------- Ready ----------

  /** A call taken over by automatic failover leaves phase and conditions as they were: it ends Ready, with the
      primary unreachable, exactly when it was Ready before. */
  lemma {:induction false} TakenOverKeepsThePhase(isIP: string -> bool, c: Call)
    requires Happened(isIP, c) && c.r.Steady?
    requires PrimaryName(c.w.spec.clusters) in c.lost && Auto.Fires(c.w.spec.auto, Due(c))
    ensures c.w'.status.phase == c.w.status.phase && c.w'.status.conditions == c.w.status.conditions
    ensures c.w'.status.currentPrimary == c.w.status.currentPrimary && Load(c.w') == Load(c.w)
  {
    hide Marked, WithRoles, RewrittenTo, Reachable;
  }

  /** The call went as a normal pass, and its status was written. */
  ghost predicate EndsReady(read: World, w': World, r: Report, lost: set<string>) {
    && r.Steady? && r.error.None? && w'.status.phase.Ready?
    && !(PrimaryName(read.spec.clusters) in lost && Auto.Fires(read.spec.auto, read.status.failureCount + 1))
  }

  /** A call of Reconcile that ends Ready had a client for every cluster, recorded the spec's primary, left a
      star around it, and nothing else is writable anywhere. */
  lemma {:induction false} ReadyCallLeavesAStar(fleet: Fleet, read: World, now: nat, r: Report, p: Target)
    requires fleet.Valid() && fleet.begun != [] && read.status == fleet.begun[|fleet.begun| - 1].w.status
    requires Reconciled(fleet.isIP, read, fleet.w, fleet.clients.lost, fleet.begun, fleet.trace, now, r)
    requires EndsReady(read, fleet.w, r, fleet.clients.lost) && p in read.spec.clusters && p.role.Primary?
    requires var cs := WithRoles(read.status.clusters, read.spec.clusters);
      AliasesFit(fleet.isIP, read.name, read.spec.clusters, p, Used(r.ev.endpoints, cs, p.name).host, Load(read))
    ensures fleet.clients.lost == {} && AllUp(r.ev) && fleet.w.status.currentPrimary == p.name
    ensures Star(read.name, read.spec.clusters, p, Load(fleet.w),
                 Used(r.ev.endpoints, WithRoles(read.status.clusters, read.spec.clusters), p.name))
    ensures forall n :: WriterAt(fleet.w, n) <==> n == p.name
  {
    hide NormalWork, WithRoles, Marked, StatusOk, AliasesFit, Star, Used, AutoPassed, Describes, Writable;
    var t, s := fleet.trace, Stamp(read.generation, now);
    RunIsSafe(t, |t| - 1);
    assert StatusKept(t, |fleet.begun| - 1) && t[|fleet.begun| - 1] == fleet.begun[|fleet.begun| - 1];
    ReadyPassLeavesAStar(fleet.isIP, read.name, read.spec, read, fleet.w, s, r.ev, r.tr, p);
    var ts, cs := read.spec.clusters, WithRoles(read.status.clusters, read.spec.clusters);
    WorkIsCoherent(fleet.isIP, read.name, read.spec, cs, r.ev, r.tr, Load(read), Load(fleet.w));
    var count := Auto.CountAfter(read.status.failureCount, PrimaryName(ts) in r.ev.unreachable);
    ReadyIsEarned(read.status, ts, r.ev, count, s);
  }
}
