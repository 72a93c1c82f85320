// Whose misses a rewrite of the roles counts: the failure count over calls of Reconcile, failovers in between
// included, one primary at a time.
module Streaks {
  import opened Json
  import opened Api
  import opened Kube
  import opened Conditions
  import opened Machine
  import opened StatusWrites
  import opened Selection
  import opened NormalPass
  import opened Controller
  import opened FailoverPass
  import opened Operator
  import opened Calls

  /** A chain of calls under one setting of automatic failover. */
  ghost predicate ChainUnder(isIP: string -> bool, cs: seq<Call>, a: AutoFailover) {
    Chain(isIP, cs) && forall i :: 0 <= i < |cs| ==> cs[i].w.spec.auto == a
  }

  /** A normal pass that could not reach its primary q. */
  predicate Misses(c: Call, q: string) {
    c.r.Steady? && PrimaryName(c.w.spec.clusters) == q && q in c.lost
  }

  ghost predicate Rewrites(c: Call) {
    c.r.Steady? && Auto.Fires(c.w.spec.auto, Due(c)) && SpecRewritten(c)
  }

  /** A failover that recorded its new primary. */
  predicate Records(c: Call) {
    c.r.Failover? && c.w'.status.currentPrimary != c.w.status.currentPrimary
  }

  /** The new primary starts with the misses of the old one. */
  predicate Carries(c: Call) {
    Records(c) && c.w'.status.failureCount != 0
  }

  /** The resets owed by this call, if any, are stored. */
  ghost predicate Settles(c: Call) {
    && (Rewrites(c) ==> c.r.error.None? && c.w'.status.failureCount == 0)
    && (c.r.Steady? && PrimaryName(c.w.spec.clusters) !in c.lost ==> c.w'.status.failureCount == 0)
  }

  ghost predicate GoesWell(c: Call) {
    Settles(c) && !Carries(c)
  }

  /** Nothing but misses of q: no other normal pass, no rewrite, no recorded failover. */
  ghost predicate OnlyMisses(c: Call, q: string) {
    !Records(c) && !Rewrites(c) && (c.r.Steady? ==> Misses(c, q))
  }

  /** The normal passes among calls i to j. */
  function Turns(cs: seq<Call>, i: nat, j: nat): (n: nat)
    requires i <= j <= |cs|
    ensures n <= j - i
  {
    if i == j then 0 else Turns(cs, i, j - 1) + (if cs[j - 1].r.Steady? then 1 else 0)
  }

  /** Call j and a threshold of normal passes up to it all missed the primary of call j, one after the other. */
  ghost predicate Streak(cs: seq<Call>, a: AutoFailover, i: nat, j: nat)
    requires j < |cs|
  {
    var q := PrimaryName(cs[j].w.spec.clusters);
    && i <= j && (forall k :: i <= k < j ==> OnlyMisses(cs[k], q)) && Misses(cs[j], q)
    && Turns(cs, i, j + 1) >= Auto.Threshold(a)
  }

  ghost predicate HasStreak(cs: seq<Call>, a: AutoFailover, j: nat)
    requires j < |cs|
  {
    exists i :: 0 <= i <= j && Streak(cs, a, i, j)
  }

  // ---------- the count is a streak of one primary ----------

  /** A call that goes well and leaves a nonzero count added a miss of the recorded primary, or looked at none. */
  lemma {:induction false} CountingCall(isIP: string -> bool, c: Call)
    requires Happened(isIP, c) && Regular(c.w) && GoesWell(c)
    requires c.w'.status.failureCount > 0 && c.w'.status.currentPrimary != ""
    ensures OnlyMisses(c, c.w'.status.currentPrimary)
    ensures c.w'.status.failureCount <= c.w.status.failureCount + (if c.r.Steady? then 1 else 0)
    ensures c.w.status.failureCount > 0 ==> c.w'.status.currentPrimary == c.w.status.currentPrimary
  {
    CountAfterCall(isIP, c);
    hide NormalWork, Marked, WithRoles, RewrittenTo, StatusOk, Reachable, Done, PlanFor;
    if c.r.Failover? {
      FailoverRecordsItsOutcome(isIP, c.w, c.w', c.lost, Stamp(c.w.generation, c.now), c.r.result, c.r.plan, c.r.deed);
    }
  }

  /** From a zero count on, while all goes well: behind the count there are as many normal passes that missed the
      recorded primary. */
  lemma {:induction false} CountIsItsStreak(isIP: string -> bool, cs: seq<Call>, a: AutoFailover, s: nat, k: nat)
    returns (i: nat)
    requires ChainUnder(isIP, cs, a) && s <= k < |cs| && cs[s].w.status.failureCount == 0
    requires forall m :: s <= m < k ==> GoesWell(cs[m])
    ensures s <= i <= k && Turns(cs, i, k) >= cs[k].w.status.failureCount
    ensures forall m :: i <= m < k ==> OnlyMisses(cs[m], cs[k].w.status.currentPrimary)
  {
    hide Happened, GoesWell, OnlyMisses;
    i := k;
    assert InChain(isIP, cs, k);
    if cs[k].w.status.failureCount > 0 {
      var c := cs[k - 1];
      assert InChain(isIP, cs, k - 1);
      i := CountIsItsStreak(isIP, cs, a, s, k - 1);
      CountingCall(isIP, c);
      if c.w.status.failureCount == 0 { i := k - 1; }
    }
  }

  /** From a zero count on, while all goes well, a rewrite away from q has a full streak of misses of q behind it. */
  lemma {:induction false} RewriteHasItsStreak(isIP: string -> bool, cs: seq<Call>, a: AutoFailover, s: nat, j: nat)
    requires ChainUnder(isIP, cs, a) && s <= j < |cs| && cs[s].w.status.failureCount == 0 && Auto.Threshold(a) >= 2
    requires (forall m :: s <= m < j ==> GoesWell(cs[m])) && Rewrites(cs[j])
    ensures HasStreak(cs, a, j)
  {
    hide GoesWell, OnlyMisses, SpecRewritten, AutoPassed, NormalPassed, StatusOk;
    assert InChain(isIP, cs, j);
    var i := CountIsItsStreak(isIP, cs, a, s, j);
    assert Streak(cs, a, i, j);
  }

  // ---------- a count that a failover carried over ----------

  function Other(q: string): string {
    q + "'"
  }

  /** Primary q and one standby. */
  function Pair(q: string): seq<Target> {
    [Target(q, "", "", "", Primary, "", 0), Target(Other(q), "", "", "", Standby, "", 0)]
  }

  function PairWorld(st: Status, a: AutoFailover, q: string): World {
    var spec := Spec("team", Pair(q), Blob.Empty, ServiceConfig("NodePort", 0), a);
    World("mc", 0, spec, st, map[], map[q := Site(map[], map[], map[], []), Other(q) := Site(map[], map[], map[], [])])
  }

  function Down(q: string): Events {
    Events(map[q := "unreachable"], map[], Absent, map[])
  }

  function Idling(w: World): Trail {
    Trail(Load(w), Load(w), Load(w), false)
  }

  /** A call that misses q, and changes nothing but the status. */
  function Missing(st: Status, a: AutoFailover, q: string): Call {
    var w := PairWorld(st, a, q);
    var w' := w.(status := NormalStatus(st, Pair(q), Down(q), st.failureCount + 1, Stamp(0, 0)));
    Call(w, w', {q}, [], [], 0, Report.Steady(None, Down(q), Idling(w)))
  }

  /** A call that misses q and rewrites the roles. */
  function Promoting(st: Status, a: AutoFailover, q: string): Call {
    var w := PairWorld(st, a, q);
    var w1 := w.(spec := w.spec.(clusters := Auto.Promote(Pair(q), Other(q))));
    var w' := w1.(status := AutoStatus(st, Pair(q), Down(q).unreachable, 0, Stamp(0, 0)));
    Call(w, w', {q}, [], [View(w1, Idle)], 0, Report.Steady(None, Down(q), Idling(w)))
  }

  lemma {:induction false} PairIs(q: string)
    ensures ValidClusters(Pair(q)) && PrimaryName(Pair(q)) == q && Other(q) != q
    ensures Reachable(Pair(q), Down(q).unreachable) == [Pair(q)[1]]
    ensures Auto.FirstStandby([Pair(q)[1]]) == 0 && PrimaryIn([Pair(q)[1]]) == None
  {
    var ts := Pair(q);
    assert |Other(q)| == |q| + 1;
    assert SolePrimary(ts, 0);
    PrimaryNameIsSole(ts, 0);
    assert ts[..1] == [ts[0]] && ts[..1][..0] == [];
    var un := Down(q).unreachable;
    assert Reachable(ts[..1][..0], un) == [];
    assert Reachable(ts[..1], un) == [];
    var one := [ts[1]];
    assert one[..0] == [];
  }

  lemma {:induction false} MissingHappens(isIP: string -> bool, st: Status, a: AutoFailover, q: string)
    requires StatusOk(st) && st.failureCount >= 0 && st.currentPrimary in {"", q} && q != ""
    requires !Auto.Fires(a, st.failureCount + 1)
    ensures var c := Missing(st, a, q);
      && Happened(isIP, c) && Misses(c, q) && GoesWell(c) && StatusOk(c.w'.status)
      && c.w'.status.failureCount == st.failureCount + 1 && c.w'.status.currentPrimary == q
  {
    PairIs(q);
    hide NormalStatus, StatusOk, Reachable, PrimaryIn, PrimaryName, Pair;
    var ts, ev, c, s := Pair(q), Down(q), Missing(st, a, q), Stamp(0, 0);
    NormalStatusIs(st, ts, ev, st.failureCount + 1, s);
    assert ValidClusters(ts);
    NothingFound(c.w, q);
    assert NormalPassed(isIP, "mc", c.w.spec, c.w, c.w', s, ev, c.r.tr, None) by {
      hide Ensured;
    }
  }

  lemma {:induction false} NothingFound(w: World, q: string)
    requires Other(q) in w.sites
    ensures Named(Pair(q), q)
    ensures Ensured(w.name, w.spec, [Pair(q)[1]], map[], Load(w), Load(w))
  {
    assert Pair(q)[0].name == q;
    assert EnsuredAt(w.name, w.spec, Pair(q)[1], map[], Load(w), Load(w));
  }

  lemma {:induction false} PromotingChooses(st: Status, a: AutoFailover, q: string)
    ensures var c := Promoting(st, a, q);
      && SpecRewritten(c) && RewrittenTo(c.begun, c.trace, Pair(q), Other(q)) && Pair(q)[1].name == Other(q)
      && Load(c.w') == Load(c.w)
  {
    PairIs(q);
    var c := Promoting(st, a, q);
    assert c.trace[0].w.spec.clusters == Auto.Promote(Pair(q), Other(q));
  }

  lemma {:induction false} PromotingIs(st: Status, a: AutoFailover, q: string)
    ensures var c := Promoting(st, a, q);
      && c.w.spec.auto == a && c.w.spec.clusters == Pair(q) && c.w.status == st && c.lost == {q} && c.r.Steady?
      && c.r.error.None? && c.r.ev.unreachable == Down(q).unreachable && c.r.ev.unreachable.Keys == {q}
      && c.w.generation == c.now == 0
      && c.w'.status == AutoStatus(st, Pair(q), Down(q).unreachable, 0, Stamp(0, 0))
      && c.w'.status.phase == st.phase && c.w'.status.conditions == st.conditions && c.w'.status.failureCount == 0
  {
    hide Pair, Marked, WithRoles;
  }

  lemma {:induction false} TakenOverHappens(isIP: string -> bool, c: Call, count: int)
    requires c.r.Steady? && ValidClusters(c.w.spec.clusters) && !CallsForFailover(c.w)
    requires c.lost == c.r.ev.unreachable.Keys && PrimaryName(c.w.spec.clusters) in c.lost
    requires count == c.w.status.failureCount + 1 && Auto.Fires(c.w.spec.auto, count)
    requires AutoPassed(c.w, c.w', c.begun, c.trace, c.w.spec.clusters, c.r.ev.unreachable, count,
                        Stamp(c.w.generation, c.now), c.r.error)
    ensures Happened(isIP, c)
  {
    hide AutoPassed, PrimaryName, ValidClusters;
  }

  lemma {:induction false} PromotingHappens(isIP: string -> bool, st: Status, a: AutoFailover, q: string)
    requires StatusOk(st) && st.failureCount >= 0 && st.currentPrimary in {"", q}
    requires Auto.Fires(a, st.failureCount + 1)
    ensures var c := Promoting(st, a, q);
      && Happened(isIP, c) && Misses(c, q) && Rewrites(c) && GoesWell(c)
      && c.w'.status.phase == st.phase && c.w'.status.conditions == st.conditions
  {
    hide Reachable, PrimaryName, Pair, StatusOk, AutoStatus, RewrittenTo, SpecRewritten, ValidClusters, Happened,
        Promoting;
    PairIs(q);
    PromotingChooses(st, a, q);
    PromotingIs(st, a, q);
    TakenOverHappens(isIP, Promoting(st, a, q), st.failureCount + 1);
  }

  /** The chain goes on with call c. */
  lemma {:induction false} OneMoreCall(isIP: string -> bool, cs: seq<Call>, a: AutoFailover, c: Call)
    requires ChainUnder(isIP, cs, a) && cs != [] && Happened(isIP, c) && Regular(c.w) && c.w.spec.auto == a
    requires c.w.status == cs[|cs| - 1].w'.status
    ensures ChainUnder(isIP, cs + [c], a)
  {
    hide Happened, Regular;
    var cs' := cs + [c];
    forall i | 0 <= i < |cs'| ensures InChain(isIP, cs', i) {
      if i < |cs| { assert InChain(isIP, cs, i); }
    }
  }

  lemma {:induction false} PairIsRegular(st: Status, a: AutoFailover, q: string)
    requires StatusOk(st) && st.failureCount > 0 && st.currentPrimary == q != ""
    ensures Regular(PairWorld(st, a, q))
  {
    hide StatusOk;
  }

  /** m more calls that miss q, each counted, none firing. */
  lemma {:induction false} Climb(isIP: string -> bool, cs: seq<Call>, a: AutoFailover, q: string, m: nat)
    returns (cs': seq<Call>)
    requires ChainUnder(isIP, cs, a) && cs != []
    requires var st := cs[|cs| - 1].w'.status;
      && StatusOk(st) && st.failureCount > 0 && st.currentPrimary == q != ""
      && (m == 0 || st.failureCount + m < Auto.Threshold(a))
    ensures ChainUnder(isIP, cs', a) && cs <= cs' && |cs'| == |cs| + m
    ensures var st := cs'[|cs'| - 1].w'.status;
      StatusOk(st) && st.currentPrimary == q && st.failureCount == cs[|cs| - 1].w'.status.failureCount + m
    ensures forall i :: |cs| <= i < |cs'| ==> GoesWell(cs'[i])
  {
    hide Happened, Regular, StatusOk, GoesWell, ChainUnder;
    if m == 0 {
      cs' := cs;
    } else {
      var before := Climb(isIP, cs, a, q, m - 1);
      var st := before[|before| - 1].w'.status;
      var c := Missing(st, a, q);
      MissingHappens(isIP, st, a, q);
      PairIsRegular(st, a, q);
      OneMoreCall(isIP, before, a, c);
      cs' := before + [c];
    }
  }

  /** After a failover recorded q at a nonzero count: a continuation in which all goes well and the roles are
      rewritten away from q after fewer than a threshold of calls. At one short of the threshold the next call that
      misses q does, and is Ready. */
  lemma {:induction false} CarriedCountFiresEarly(isIP: string -> bool, cs: seq<Call>, a: AutoFailover)
    returns (cs': seq<Call>)
    requires ChainUnder(isIP, cs, a) && cs != [] && a.enabled && Auto.Threshold(a) >= 2
    requires Carries(cs[|cs| - 1])
    ensures ChainUnder(isIP, cs', a) && cs < cs' && Rewrites(cs'[|cs'| - 1])
    ensures forall i :: |cs| <= i < |cs'| ==> GoesWell(cs'[i])
    ensures var c := cs[|cs| - 1].w'.status.failureCount;
      |cs'| - |cs| == if c < Auto.Threshold(a) then Auto.Threshold(a) - c else 1
    ensures !HasStreak(cs', a, |cs'| - 1)
    ensures |cs'| == |cs| + 1 ==> cs'[|cs|].w'.status.phase.Ready?
  {
    hide Happened, GoesWell, StatusOk, SpecRewritten, ChainUnder;
    var last := cs[|cs| - 1];
    var st := last.w'.status;
    RecordedIsRegular(isIP, cs, a);
    var m := if st.failureCount < Auto.Threshold(a) then Auto.Threshold(a) - st.failureCount - 1 else 0;
    var most := Climb(isIP, cs, a, st.currentPrimary, m);
    var st' := most[|most| - 1].w'.status;
    var c := Promoting(st', a, st.currentPrimary);
    PromotingHappens(isIP, st', a, st.currentPrimary);
    PairIsRegular(st', a, st.currentPrimary);
    OneMoreCall(isIP, most, a, c);
    cs' := most + [c];
    assert cs'[|cs| - 1] == last;
  }

  lemma {:induction false} FailoverLeavesStatusOk(isIP: string -> bool, c: Call)
    requires Happened(isIP, c) && c.r.Failover? && StatusOk(c.w.status)
    ensures StatusOk(c.w'.status)
  {
    hide Done, WithRoles, StatusOk, FailoverStarted, FailoverEnded, PlanFor;
    var st, ts, s, to := c.w.status, c.w.spec.clusters, Stamp(c.w.generation, c.now), c.r.plan.to.t.name;
    var started := FailoverStarted(st, ts, s);
    FailoverKeepsStatusOk(st, ts, to, s, s);
    if s': Stamp :| c.w'.status in {Settled(st, started, to, s'), Settled(started, started, to, s')} {
      FailoverKeepsStatusOk(st, ts, to, s, s');
      EndedIs(started, to, s');
    }
  }

  lemma {:induction false} EndedIs(started: Status, to: string, s: Stamp)
    ensures var ended := FailoverEnded(started, to, s);
      && Settled(started, started, to, s) == ended && ended.currentPrimary == to && ended.phase == Phase.Ready
  {}

  lemma {:induction false} RecordedIsRegular(isIP: string -> bool, cs: seq<Call>, a: AutoFailover)
    requires ChainUnder(isIP, cs, a) && cs != [] && Records(cs[|cs| - 1])
    ensures var st := cs[|cs| - 1].w'.status;
      StatusOk(st) && st.currentPrimary != "" && st.failureCount >= 0 && st.phase.Ready?
  {
    hide Done, WithRoles, StatusOk, Settled, FailoverStarted;
    var c := cs[|cs| - 1];
    assert InChain(isIP, cs, |cs| - 1);
    FailoverRecordsItsOutcome(isIP, c.w, c.w', c.lost, Stamp(c.w.generation, c.now), c.r.result, c.r.plan, c.r.deed);
    PrimaryIsNamed(c.w.spec.clusters);
    FailoverLeavesStatusOk(isIP, c);
  }

  /** cs goes on as cs', and all goes well from there. */
  ghost predicate Continues(isIP: string -> bool, cs: seq<Call>, cs': seq<Call>, a: AutoFailover) {
    cs <= cs' && ChainUnder(isIP, cs', a) && forall i :: |cs| <= i < |cs'| ==> GoesWell(cs'[i])
  }

  /** Exactly: after a failover that recorded its new primary, every later rewrite has a full streak of misses of the
      very primary it moves away from behind it, in every continuation that goes well, if and only if the
      failover recorded it at a zero count. */
  lemma {:induction false} StreaksAreExact(isIP: string -> bool, cs: seq<Call>, a: AutoFailover)
    requires ChainUnder(isIP, cs, a) && cs != [] && a.enabled && Auto.Threshold(a) >= 2 && Records(cs[|cs| - 1])
    ensures cs[|cs| - 1].w'.status.failureCount == 0 <==>
            forall cs', j :: Continues(isIP, cs, cs', a) && |cs| <= j < |cs'| && Rewrites(cs'[j]) ==>
              HasStreak(cs', a, j)
  {
    hide GoesWell, HasStreak, Happened, Regular, Rewrites;
    if cs[|cs| - 1].w'.status.failureCount == 0 {
      forall cs', j | Continues(isIP, cs, cs', a) && |cs| <= j < |cs'| && Rewrites(cs'[j])
        ensures HasStreak(cs', a, j)
      {
        assert InChain(isIP, cs', |cs|);
        RewriteHasItsStreak(isIP, cs', a, |cs|, j);
      }
    } else {
      var cs' := CarriedCountFiresEarly(isIP, cs, a);
      assert Continues(isIP, cs, cs', a) && !HasStreak(cs', a, |cs'| - 1);
    }
  }

  // ---------- a full streak is enough ----------

  /** A miss without a reported error: counted, unless it is the one that rewrites the roles. */
  lemma {:induction false} MissIsCounted(isIP: string -> bool, c: Call, q: string)
    requires Happened(isIP, c) && GotThrough(c.w, c.w', c.now, c.r) && Regular(c.w) && Misses(c, q)
    ensures Due(c) == c.w.status.failureCount + 1
    ensures if Auto.Fires(c.w.spec.auto, Due(c)) && Chosen(c).Some?
            then Rewrites(c) && c.w'.status.failureCount == 0
            else !Rewrites(c) && c.w'.status.failureCount == Due(c)
  {
    hide NormalWork, Marked, WithRoles, RewrittenTo, StatusOk, Reachable, Smooth;
  }

  /** Calls s, s + 1 and so on missed q without a reported error. */
  ghost predicate MissedFrom(cs: seq<Call>, s: nat, n: nat, q: string) {
    && s + n <= |cs|
    && forall i :: s <= i < s + n ==> Misses(cs[i], q) && GotThrough(cs[i].w, cs[i].w', cs[i].now, cs[i].r)
  }

  /** Automatic failover does come, and when it should: from a zero count, the threshold-th consecutive miss of q, and
      no earlier one, rewrites the roles, if there is a standby with a client by then. */
  lemma {:induction false} FullStreakRewrites(isIP: string -> bool, cs: seq<Call>, a: AutoFailover, s: nat, n: nat,
      q: string)
    requires ChainUnder(isIP, cs, a) && a.enabled && 0 < n <= Auto.Threshold(a) && MissedFrom(cs, s, n, q)
    requires cs[s].w.status.failureCount == 0
    ensures var last := cs[s + n - 1];
      && last.w.status.failureCount == n - 1
      && (Rewrites(last) <==> n == Auto.Threshold(a) && Chosen(last).Some?)
      && (Rewrites(last) ==> last.w'.status.failureCount == 0)
  {
    hide Happened, Regular, GotThrough, Rewrites, Chosen;
    var j := s + n - 1;
    assert InChain(isIP, cs, j);
    if n > 1 {
      FullStreakRewrites(isIP, cs, a, s, n - 1, q);
      assert InChain(isIP, cs, j - 1);
      MissIsCounted(isIP, cs[j - 1], q);
    }
    MissIsCounted(isIP, cs[j], q);
  }

  // ---------- a Ready that is stale ----------

  /** Phase Ready beside a nonzero count. */
  predicate StaleReady(st: Status) {
    st.phase.Ready? && st.failureCount > 0
  }

  lemma {:induction false} StaleReadyAfterCall(isIP: string -> bool, c: Call)
    requires Happened(isIP, c) && Regular(c.w) && Auto.Threshold(c.w.spec.auto) >= 2 && StaleReady(c.w'.status)
    ensures Carries(c) || StaleReady(c.w.status)
  {
    hide NormalWork, Marked, WithRoles, RewrittenTo, StatusOk, Reachable, Done, PlanFor;
    if c.r.Failover? {
      FailoverRecordsItsOutcome(isIP, c.w, c.w', c.lost, Stamp(c.w.generation, c.now), c.r.result, c.r.plan, c.r.deed);
    }
  }

  /** The only way there, for every threshold above 1: an earlier failover, which wrote Ready and left the count. */
  lemma {:induction false} StaleReadyWasCarried(isIP: string -> bool, cs: seq<Call>, a: AutoFailover, j: nat)
    returns (k: nat)
    requires ChainUnder(isIP, cs, a) && j < |cs| && Auto.Threshold(a) >= 2
    requires !StaleReady(cs[0].w.status) && StaleReady(cs[j].w.status)
    ensures k < j && Carries(cs[k]) && forall m :: k < m <= j ==> StaleReady(cs[m].w.status)
  {
    hide Happened, Regular;
    assert InChain(isIP, cs, j) && InChain(isIP, cs, j - 1);
    StaleReadyAfterCall(isIP, cs[j - 1]);
    if Carries(cs[j - 1]) {
      k := j - 1;
    } else {
      k := StaleReadyWasCarried(isIP, cs, a, j - 1);
    }
  }

  /** So a call taken over by automatic failover ends Ready, its primary lost, only after such a failover. */
  lemma {:induction false} TakenOverReadyWasCarried(isIP: string -> bool, cs: seq<Call>, a: AutoFailover, j: nat)
    returns (k: nat)
    requires ChainUnder(isIP, cs, a) && j < |cs| && Auto.Threshold(a) >= 2 && !StaleReady(cs[0].w.status)
    requires cs[j].r.Steady? && Auto.Fires(a, Due(cs[j])) && cs[j].w'.status.phase.Ready?
    ensures PrimaryName(cs[j].w.spec.clusters) in cs[j].lost
    ensures k < j && Carries(cs[k]) && forall m :: k < m <= j ==> StaleReady(cs[m].w.status)
  {
    hide AutoPassed, NormalPassed, StatusOk;
    assert InChain(isIP, cs, j);
    TakenOverKeepsThePhase(isIP, cs[j]);
    k := StaleReadyWasCarried(isIP, cs, a, j);
  }

  /** A recorded primary a, phase Ready, and count misses. */
  function ReadyWith(count: int): Status {
    Status(Phase.Ready, 0, "a", [ReadyIs(True, "ReconcileSuccess", "", Stamp(0, 0))], [], count)
  }

  lemma {:induction false} ReadyWithIsOk(count: int)
    ensures StatusOk(ReadyWith(count)) && IsTrue(ReadyWith(count).conditions, READY)
  {
    var c := ReadyIs(True, "ReconcileSuccess", "", Stamp(0, 0));
    assert Find([c], READY) == Some(c);
  }

  /** At every setting there is such a call: it misses its primary, is taken over, and is Ready before and after. */
  lemma {:induction false} AStaleReady(isIP: string -> bool, a: AutoFailover) returns (c: Call)
    requires a.enabled
    ensures Happened(isIP, c) && Regular(c.w) && c.w.spec.auto == a && Misses(c, "a") && Auto.Fires(a, Due(c))
    ensures c.w.status.failureCount == if Auto.Threshold(a) >= 1 then Auto.Threshold(a) - 1 else 0
    ensures c.w.status.phase.Ready? && c.w'.status.phase.Ready? && IsTrue(c.w'.status.conditions, READY)
  {
    hide StatusOk, SpecRewritten, PrimaryName, Happened, Promoting, IsTrue;
    var count := if Auto.Threshold(a) >= 1 then Auto.Threshold(a) - 1 else 0;
    ReadyWithIsOk(count);
    c := Promoting(ReadyWith(count), a, "a");
    PromotingIs(ReadyWith(count), a, "a");
    PromotingHappens(isIP, ReadyWith(count), a, "a");
  }
}
