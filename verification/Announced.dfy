// The condition FailoverInProgress: which call sets it, which clears it, and when it stands without a failover.
module Announced {
  import opened Api
  import opened Kube
  import opened Conditions
  import opened StatusWrites
  import opened Controller
  import opened FailoverPass
  import opened Operator
  import opened Readiness
  import opened Steady
  import opened Calls
  import opened Streaks
  import opened Convergence

  predicate InProgress(st: Status) {
    IsTrue(st.conditions, FAILOVER_IN_PROGRESS)
  }

  /** A failover whose announcement was stored, and whose end was not. */
  predicate Announces(c: Call) {
    && c.r.Failover?
    && c.w'.status == FailoverStarted(c.w.status, c.w.spec.clusters, Stamp(c.w.generation, c.now))
  }

  /** Whatever else is written keeps the condition as it is. */
  lemma {:induction false} OtherWritesKeepIt(st: Status, ts: seq<Target>, ev: Events, count: int, s: Stamp,
      message: string)
    ensures Find(NormalStatus(st, ts, ev, count, s).conditions, FAILOVER_IN_PROGRESS) ==
            Find(st.conditions, FAILOVER_IN_PROGRESS)
    ensures Find(AutoStatus(st, ts, ev.unreachable, count, s).conditions, FAILOVER_IN_PROGRESS) ==
            Find(st.conditions, FAILOVER_IN_PROGRESS)
    ensures Find(InvalidSpec(st, message, s).conditions, FAILOVER_IN_PROGRESS) ==
            Find(st.conditions, FAILOVER_IN_PROGRESS)
  {
    hide Marked, WithRoles, Upsert;
    forall c: Condition | c.kind == READY
      ensures Find(Upsert(st.conditions, c), FAILOVER_IN_PROGRESS) == Find(st.conditions, FAILOVER_IN_PROGRESS)
    {
      UpsertLooksUp(st.conditions, c, FAILOVER_IN_PROGRESS);
    }
  }

  /** One call: announcing sets the condition, recording clears it, and nothing else moves it. */
  lemma {:induction false} ProgressAfterCall(isIP: string -> bool, c: Call)
    requires Happened(isIP, c) && StatusOk(c.w.status)
    ensures InProgress(c.w'.status) <==> !Records(c) && (Announces(c) || InProgress(c.w.status))
    ensures !Records(c) && c.w.status.currentPrimary != "" ==>
              c.w'.status.currentPrimary == c.w.status.currentPrimary
  {
    hide NormalWork, Marked, WithRoles, RewrittenTo, StatusOk, Done, PlanFor, FailoverStarted, FailoverEnded, PhaseOf;
    var st, ts, s := c.w.status, c.w.spec.clusters, Stamp(c.w.generation, c.now);
    match c.r
    case Unread =>
    case Invalid =>
      OtherWritesKeepIt(st, ts, Resolving(map[]), 0, s, "invalid spec");
    case Steady(error, ev, tr) =>
      var count := Auto.CountAfter(st.failureCount, PrimaryName(ts) in c.lost);
      OtherWritesKeepIt(st, ts, ev, count, s, "");
      OtherWritesKeepIt(st, ts, ev, 0, s, "");
    case Failover(result, plan, deed) =>
      FailoverRecordsItsOutcome(isIP, c.w, c.w', c.lost, s, result, plan, deed);
      var started, to := FailoverStarted(st, ts, s), plan.to.t.name;
      forall s': Stamp ensures FailoverEnded(started, to, s').currentPrimary == to {
        EndedIs(started, to, s');
      }
      StartedIs(st, ts, s);
  }

  lemma {:induction false} StartedIs(st: Status, ts: seq<Target>, s: Stamp)
    ensures InProgress(FailoverStarted(st, ts, s)) && FailoverStarted(st, ts, s).currentPrimary == st.currentPrimary
  {
    UpsertLooksUp(st.conditions,
      Condition(FAILOVER_IN_PROGRESS, True, "FailoverStarted", "", s.generation, s.now), FAILOVER_IN_PROGRESS);
  }

  /** A failover announced by call k has not been recorded by the end of call j. */
  ghost predicate Stands(cs: seq<Call>, k: nat, j: nat)
    requires j < |cs|
  {
    k <= j && Announces(cs[k]) && forall m :: k <= m <= j ==> !Records(cs[m])
  }

  /** Over any calls: the condition is true exactly when a failover was announced and none has been recorded since. */
  lemma {:induction false} InProgressIsAnnounced(isIP: string -> bool, cs: seq<Call>, j: nat)
    requires Chain(isIP, cs) && j < |cs| && !InProgress(cs[0].w.status)
    ensures InProgress(cs[j].w'.status) <==> exists k :: 0 <= k <= j && Stands(cs, k, j)
  {
    hide Happened, Regular, Announces, Records, InProgress;
    assert InChain(isIP, cs, j);
    CallIsRegular(isIP, cs, j);
    ProgressAfterCall(isIP, cs[j]);
    if j > 0 {
      InProgressIsAnnounced(isIP, cs, j - 1);
      if InProgress(cs[j].w'.status) && !Announces(cs[j]) {
        var k :| 0 <= k <= j - 1 && Stands(cs, k, j - 1);
        assert Stands(cs, k, j);
      }
      if k :| 0 <= k <= j && Stands(cs, k, j) && k < j {
        assert Stands(cs, k, j - 1);
      }
    }
    if InProgress(cs[j].w'.status) && Announces(cs[j]) {
      assert Stands(cs, j, j);
    }
  }

  lemma {:induction false} CallIsRegular(isIP: string -> bool, cs: seq<Call>, j: nat)
    requires Chain(isIP, cs) && j < |cs|
    ensures Happened(isIP, cs[j]) && StatusOk(cs[j].w.status)
  {
    assert InChain(isIP, cs, j);
  }

  /** While it stands, the recorded primary is the one it was to move away from. */
  lemma {:induction false} StandingKeepsThePrimary(isIP: string -> bool, cs: seq<Call>, k: nat, j: nat)
    requires Chain(isIP, cs) && j < |cs| && Stands(cs, k, j)
    ensures cs[j].w'.status.currentPrimary == cs[k].w.status.currentPrimary != ""
  {
    hide Regular;
    CallIsRegular(isIP, cs, j);
    ProgressAfterCall(isIP, cs[j]);
    if k < j {
      assert InChain(isIP, cs, j);
      StandingKeepsThePrimary(isIP, cs, k, j - 1);
    }
  }

  /** In the state that call j left, whatever the spec is by then: the condition is true with no failover due exactly
      when the spec names again the primary that an announced failover was to move away from. */
  lemma {:induction false} WhenItLingers(isIP: string -> bool, cs: seq<Call>, j: nat, w: World)
    requires Chain(isIP, cs) && j < |cs| && !InProgress(cs[0].w.status) && w.status == cs[j].w'.status
    ensures InProgress(w.status) && !CallsForFailover(w) <==>
            exists k :: 0 <= k <= j && Stands(cs, k, j)
                        && PrimaryName(w.spec.clusters) == cs[k].w.status.currentPrimary
  {
    hide Chain, Stands, InProgress;
    InProgressIsAnnounced(isIP, cs, j);
    forall k | 0 <= k <= j && Stands(cs, k, j)
      ensures w.status.currentPrimary == cs[k].w.status.currentPrimary != ""
    {
      StandingKeepsThePrimary(isIP, cs, k, j);
    }
  }

  /** And then for good: further quiet calls leave it true, beside phase Ready unless an older spec's entry was not. */
  lemma {:induction false} ItLingersForGood(isIP: string -> bool, cs: seq<Call>, p: Target, i: nat)
    requires QuietSeries(isIP, cs, p) && !CallsForFailover(cs[0].w) && i < |cs|
    ensures InProgress(cs[i].w'.status) <==> InProgress(cs[0].w.status)
    ensures var c := cs[0];
      cs[i].w'.status.phase.Ready? <==>
      forall k :: 0 <= k < |c.w.status.clusters| ==> LeftoverReady(c.w.status.clusters, c.w.spec.clusters, k)
  {
    hide Happened, GotThrough, StatusOk, Provided, CleanRun, Clean, NormalPassed, NormalStatus, LeftoverReady;
    var c := cs[0];
    QuietCallsConverge(isIP, cs, p, i);
    QuietCallIsClean(isIP, c, p);
    QuietCallIsReady(isIP, c, p);
    OtherWritesKeepIt(c.w.status, c.w.spec.clusters, c.r.ev, 0, Stamp(c.w.generation, c.now), "");
  }
}
