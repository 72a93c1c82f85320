// Automatic failover: the failure counter and the rewrite of the roles in the spec.
module AutoPromotion {
  import opened Json
  import opened Api

  /** The configured number of passes, 0 standing for 3. */
  function Threshold(a: AutoFailover): int {
    if a.threshold == 0 then 3 else a.threshold
  }

  function CountAfter(count: int, primaryDown: bool): int {
    if primaryDown then count + 1 else 0
  }

  predicate Fires(a: AutoFailover, count: int) {
    a.enabled && count > 0 && count >= Threshold(a)
  }

  /** The clusters with n as primary and every other one as standby. */
  function Promote(ts: seq<Target>, n: string): (r: seq<Target>) {
    seq(|ts|, i requires 0 <= i < |ts| => ts[i].(role := if ts[i].name == n then Primary else Standby))
  }

  /** The first standby of the list, or |ts|. */
  function FirstStandby(ts: seq<Target>): (i: nat)
    ensures i <= |ts|
    ensures i < |ts| ==> ts[i].role.Standby?
    ensures forall j :: 0 <= j < i ==> ts[j].role.Primary?
  {
    if ts == [] || ts[0].role.Standby? then 0 else 1 + FirstStandby(ts[1..])
  }

  method PickStandby(reachable: seq<Target>) returns (name: Option<string>)
    ensures var i := FirstStandby(reachable);
      name == if i < |reachable| then Some(reachable[i].name) else None
  {
    var i := 0;
    while i < |reachable|
      invariant 0 <= i <= |reachable|
      invariant forall j :: 0 <= j < i ==> reachable[j].role.Primary?
    {
      if reachable[i].role.Standby? {
        assert FirstStandby(reachable) == i;
        return Some(reachable[i].name);
      }
      i := i + 1;
    }
    name := None;
  }

  method RewriteRoles(ts: seq<Target>, n: string) returns (r: seq<Target>)
    ensures r == Promote(ts, n)
  {
    r := ts;
    var i := 0;
    while i < |ts|
      invariant 0 <= i <= |ts| == |r|
      invariant forall j :: 0 <= j < i ==> r[j] == Promote(ts, n)[j]
      invariant forall j :: i <= j < |ts| ==> r[j] == ts[j]
    {
      r := r[i := r[i].(role := if r[i].name == n then Primary else Standby)];
      i := i + 1;
    }
  }

  /** The rewrite moves roles only, keeps the spec valid and makes the chosen cluster its primary. */
  lemma {:induction false} PromoteKeepsValidity(ts: seq<Target>, n: string)
    requires DistinctNames(ts) && Named(ts, n)
    ensures ValidClusters(Promote(ts, n)) && PrimaryName(Promote(ts, n)) == n
    ensures |Promote(ts, n)| == |ts|
    ensures forall i :: 0 <= i < |ts| ==> Promote(ts, n)[i].(role := Primary) == ts[i].(role := Primary)
  {
    var r := Promote(ts, n);
    var k :| 0 <= k < |ts| && ts[k].name == n;
    assert forall i :: 0 <= i < |r| ==> r[i].name == ts[i].name;
    assert SolePrimary(r, k);
    PrimaryNameIsSole(r, k);
  }

  // ---------- how often it can happen ----------

  /** The role patch: done, done but reported as failed, or not done. */
  datatype Patch = Made | Torn | Dropped

  /** One pass through the counter: was the primary unreachable, was there a standby with a client, how the role
      patch went if it came to that, and did the pass's last status write take effect. */
  datatype Pass = Pass(down: bool, standby: bool, patch: Patch, stored: bool)

  predicate Chooses(a: AutoFailover, count: int, p: Pass) {
    Fires(a, CountAfter(count, p.down)) && p.standby
  }

  predicate Rewrites(a: AutoFailover, count: int, p: Pass) {
    Chooses(a, count, p) && !p.patch.Dropped?
  }

  /** A rewriting pass also resets the counter. It does not when the patch, though done, reports an error, since
      the pass then ends there; nor when the write of the reset, whose error is ignored, is lost. */
  predicate Resets(p: Pass) {
    p.patch.Made? && p.stored
  }

  /** The count found by the next pass. */
  function Stored(a: AutoFailover, count: int, p: Pass): int {
    if Chooses(a, count, p) then (if Resets(p) then 0 else count)
    else if p.stored then CountAfter(count, p.down) else count
  }

  function CountBefore(a: AutoFailover, ps: seq<Pass>, k: nat): int
    requires k <= |ps|
  {
    if k == 0 then 0 else Stored(a, CountBefore(a, ps, k - 1), ps[k - 1])
  }

  predicate RewritesAt(a: AutoFailover, ps: seq<Pass>, k: nat)
    requires k < |ps|
  {
    Rewrites(a, CountBefore(a, ps, k), ps[k])
  }

  function RewriteCount(a: AutoFailover, ps: seq<Pass>, k: nat): (n: nat)
    requires k <= |ps|
  {
    if k == 0 then 0 else RewriteCount(a, ps, k - 1) + (if RewritesAt(a, ps, k - 1) then 1 else 0)
  }

  lemma {:induction false} CountOfPrefix(a: AutoFailover, ps: seq<Pass>, ps': seq<Pass>, k: nat)
    requires k <= |ps| <= |ps'| && ps == ps'[..|ps|]
    ensures CountBefore(a, ps, k) == CountBefore(a, ps', k)
  {
    if k > 0 { CountOfPrefix(a, ps, ps', k - 1); }
  }

  /** Whatever is lost, the count rises by one a pass at most. */
  lemma {:induction false} CountRisesSlowly(a: AutoFailover, ps: seq<Pass>, s: nat, k: nat)
    requires s <= k <= |ps| && CountBefore(a, ps, s) == 0
    ensures 0 <= CountBefore(a, ps, k) <= k - s
  {
    if s < k { CountRisesSlowly(a, ps, s, k - 1); }
  }

  /** Any k passes from a zero count hold at most k / threshold rewrites, provided each rewrite resets the
      counter. No other write matters. */
  lemma {:induction false} RewriteRateIsBounded(a: AutoFailover, ps: seq<Pass>, k: nat)
    requires k <= |ps| && forall i :: 0 <= i < k && RewritesAt(a, ps, i) ==> Resets(ps[i])
    ensures RewriteCount(a, ps, k) * Threshold(a) + CountBefore(a, ps, k) <= k
  {
    if k > 0 {
      RewriteRateIsBounded(a, ps, k - 1);
      CountRisesSlowly(a, ps, 0, k - 1);
      LastPass(a, ps, k);
      hide CountBefore, RewriteCount;
      var count := CountBefore(a, ps, k - 1);
      OneMore(RewriteCount(a, ps, k - 1), Threshold(a), count, CountBefore(a, ps, k), k, RewritesAt(a, ps, k - 1));
    }
  }

  lemma {:induction false} LastPass(a: AutoFailover, ps: seq<Pass>, k: nat)
    requires 0 < k <= |ps|
    ensures CountBefore(a, ps, k) == Stored(a, CountBefore(a, ps, k - 1), ps[k - 1])
    ensures RewriteCount(a, ps, k) == RewriteCount(a, ps, k - 1) + (if RewritesAt(a, ps, k - 1) then 1 else 0)
  {}

  lemma {:induction false} OneMore(r: int, t: int, count: int, count': int, k: int, rewrites: bool)
    requires r * t + count <= k - 1
    requires if rewrites then count' == 0 && count + 1 >= t else count' <= count + 1
    ensures (r + (if rewrites then 1 else 0)) * t + count' <= k
  {
    assert (r + 1) * t == r * t + t;
  }

  /** Exactly: after a rewrite the next one is a full threshold away in every continuation if and only if the
      rewrite reset the counter. */
  lemma {:induction false} SpacingIsExact(a: AutoFailover, ps: seq<Pass>, k: nat)
    requires a.enabled && Threshold(a) >= 2 && |ps| == k + 1 && RewritesAt(a, ps, k)
    ensures Resets(ps[k]) <==>
            forall ps', j :: ps <= ps' && k < j < |ps'| && RewritesAt(a, ps', j) ==> j - k >= Threshold(a)
  {
    var count := CountBefore(a, ps, k);
    if Resets(ps[k]) {
      forall ps', j | ps <= ps' && k < j < |ps'| && RewritesAt(a, ps', j) ensures j - k >= Threshold(a) {
        CountOfPrefix(a, ps, ps', k);
        CountRisesSlowly(a, ps', k + 1, j);
      }
    } else {
      var ps' := ps + [DOWN];
      CountOfPrefix(a, ps, ps', k);
      assert CountBefore(a, ps', k + 1) == count;
      assert ps <= ps' && RewritesAt(a, ps', k + 1);
    }
  }

  /** A pass that finds the primary down and goes well. */
  const DOWN := Pass(true, true, Made, true)

  function Downs(n: nat): seq<Pass> {
    seq(n, i => DOWN)
  }

  /** The count climbs with the passes until the threshold. */
  lemma {:induction false} Climbing(a: AutoFailover, ps: seq<Pass>, m: nat)
    requires var c := CountBefore(a, ps, |ps|); c >= 0 && (m == 0 || c + m < Threshold(a))
    ensures var ps' := ps + Downs(m);
      && CountBefore(a, ps', |ps'|) == CountBefore(a, ps, |ps|) + m
      && RewriteCount(a, ps', |ps'|) == RewriteCount(a, ps, |ps|)
  {
    if m == 0 {
      assert ps + Downs(0) == ps;
    } else {
      var before, ps' := ps + Downs(m - 1), ps + Downs(m);
      Climbing(a, ps, m - 1);
      assert ps' == before + [DOWN] && |ps'| == |before| + 1;
      CountOfPrefix(a, before, ps', |before|);
      RewritesOfPrefix(a, before, ps', |before|);
    }
  }

  lemma {:induction false} RewritesOfPrefix(a: AutoFailover, ps: seq<Pass>, ps': seq<Pass>, k: nat)
    requires k <= |ps| <= |ps'| && ps == ps'[..|ps|]
    ensures RewriteCount(a, ps, k) == RewriteCount(a, ps', k)
  {
    if k > 0 {
      RewritesOfPrefix(a, ps, ps', k - 1);
      CountOfPrefix(a, ps, ps', k - 1);
    }
  }

  /** One rewrite without its reset, for whichever of the two reasons, breaks the rate bound at every threshold
      but 1: the very next pass rewrites again. */
  lemma {:induction false} LostResetBreaksTheBound(a: AutoFailover, bad: Pass) returns (ps: seq<Pass>)
    requires a.enabled && Threshold(a) >= 2
    requires bad.down && bad.standby && !bad.patch.Dropped? && !Resets(bad)
    ensures |ps| == Threshold(a) + 1 < 2 * Threshold(a) && RewriteCount(a, ps, |ps|) == 2
    ensures forall i :: 0 <= i < |ps| && ps[i] != DOWN ==> ps[i] == bad && i == Threshold(a) - 1
  {
    hide CountBefore, RewriteCount;
    var n := Threshold(a) - 1;
    var climb := Downs(n);
    NoPasses(a);
    assert [] + climb == climb;
    Climbing(a, [], n);
    var one := Appended(a, climb, bad);
    assert CountBefore(a, one, n + 1) == n && RewriteCount(a, one, n + 1) == 1;
    ps := Appended(a, one, DOWN);
  }

  lemma {:induction false} NoPasses(a: AutoFailover)
    ensures CountBefore(a, [], 0) == 0 && RewriteCount(a, [], 0) == 0
  {}

  lemma {:induction false} Appended(a: AutoFailover, ps: seq<Pass>, p: Pass) returns (ps': seq<Pass>)
    ensures ps' == ps + [p]
    ensures CountBefore(a, ps', |ps'|) == Stored(a, CountBefore(a, ps, |ps|), p)
    ensures var rewrites := Rewrites(a, CountBefore(a, ps, |ps|), p);
      RewriteCount(a, ps', |ps'|) == RewriteCount(a, ps, |ps|) + (if rewrites then 1 else 0)
  {
    ps' := ps + [p];
    CountOfPrefix(a, ps, ps', |ps|);
    RewritesOfPrefix(a, ps, ps', |ps|);
  }

  /** No reset is owed, or it was stored: rewrites reset the counter, and so does a pass that finds the primary
      up while the count is not zero. */
  predicate Settles(a: AutoFailover, ps: seq<Pass>, i: nat)
    requires i < |ps|
  {
    && (RewritesAt(a, ps, i) ==> Resets(ps[i]))
    && (!ps[i].down && CountBefore(a, ps, i) != 0 ==> ps[i].stored)
  }

  ghost predicate SettlesAfter(a: AutoFailover, ps: seq<Pass>, k: nat) {
    forall i :: k < i < |ps| ==> Settles(a, ps, i)
  }

  /** Counting from a zero at s, with every reset stored since: just before pass k there are as many
      passes as the count that found the primary down and did not rewrite, in an unbroken run. */
  lemma {:induction false} CountIsAStreak(a: AutoFailover, ps: seq<Pass>, s: nat, k: nat)
    requires s <= k <= |ps| && CountBefore(a, ps, s) == 0 && forall i :: s <= i < k ==> Settles(a, ps, i)
    ensures 0 <= CountBefore(a, ps, k) <= k - s
    ensures forall i :: k - CountBefore(a, ps, k) <= i < k ==> ps[i].down && !RewritesAt(a, ps, i)
  {
    if s < k {
      CountIsAStreak(a, ps, s, k - 1);
      assert Settles(a, ps, k - 1);
    }
  }

  /** A rewrite takes a full threshold of consecutive passes with the primary down, none of the
      earlier ones a rewrite. Lost writes of rising counts only delay it. The counter does not know which primary
      each pass missed; Streaks does. */
  lemma {:induction false} RewriteNeedsAFullStreak(a: AutoFailover, ps: seq<Pass>, k: nat, i: int)
    requires k < |ps| && (forall j :: 0 <= j < k ==> Settles(a, ps, j)) && RewritesAt(a, ps, k)
    requires k - Threshold(a) < i <= k
    ensures i >= 0 && ps[i].down && (i < k ==> !RewritesAt(a, ps, i))
  {
    CountIsAStreak(a, ps, 0, k);
  }

  ghost predicate StreakAt(a: AutoFailover, ps: seq<Pass>, j: nat) {
    forall i :: j - Threshold(a) < i <= j ==> 0 <= i < |ps| && ps[i].down
  }

  /** Exactly: after a pass that found the primary up with a nonzero count, every later rewrite, in every
      continuation that goes well, has a full streak behind it if and only if the zero was stored. */
  lemma {:induction false} StreakIsExact(a: AutoFailover, ps: seq<Pass>, k: nat)
    requires a.enabled && Threshold(a) >= 2 && |ps| == k + 1 && !ps[k].down && CountBefore(a, ps, k) > 0
    ensures ps[k].stored <==>
      forall ps', j :: ps <= ps' && k < j < |ps'| && SettlesAfter(a, ps', k) && RewritesAt(a, ps', j) ==>
        StreakAt(a, ps', j)
  {
    var c := CountBefore(a, ps, k);
    if ps[k].stored {
      forall ps', j | ps <= ps' && k < j < |ps'| && SettlesAfter(a, ps', k) && RewritesAt(a, ps', j)
        ensures StreakAt(a, ps', j)
      {
        CountOfPrefix(a, ps, ps', k);
        CountIsAStreak(a, ps', k + 1, j);
      }
    } else {
      assert CountBefore(a, ps, k + 1) == c;
      var m := if c + 1 < Threshold(a) then Threshold(a) - c - 1 else 0;
      var most := ps + Downs(m);
      Climbing(a, ps, m);
      var ps' := most + [DOWN];
      var j := |most|;
      CountOfPrefix(a, most, ps', j);
      assert SettlesAfter(a, ps', k);
      assert ps <= ps' && RewritesAt(a, ps', j) && !ps'[k].down;
      assert !StreakAt(a, ps', j);
    }
  }
}
