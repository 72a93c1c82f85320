// The clusters a pass works on: those with a client, split by role.
module Selection {
  import opened Json
  import opened Api

  function Reachable(ts: seq<Target>, unreachable: map<string, string>): seq<Target> {
    if ts == [] then []
    else
      var before, t := Reachable(ts[..|ts| - 1], unreachable), ts[|ts| - 1];
      if t.name in unreachable then before else before + [t]
  }

  function StandbysOf(ts: seq<Target>): seq<Target> {
    if ts == [] then []
    else
      var before, t := StandbysOf(ts[..|ts| - 1]), ts[|ts| - 1];
      if t.role.Primary? then before else before + [t]
  }

  function PrimaryIn(ts: seq<Target>): Option<Target> {
    if ts == [] then None
    else if ts[|ts| - 1].role.Primary? then Some(ts[|ts| - 1])
    else PrimaryIn(ts[..|ts| - 1])
  }

  method SplitByRole(ts: seq<Target>) returns (primary: Option<Target>, standbys: seq<Target>)
    ensures primary == PrimaryIn(ts) && standbys == StandbysOf(ts)
  {
    primary, standbys := None, [];
    var k := 0;
    while k < |ts|
      invariant 0 <= k <= |ts| && primary == PrimaryIn(ts[..k]) && standbys == StandbysOf(ts[..k])
    {
      assert ts[..k + 1][..k] == ts[..k];
      if ts[k].role.Primary? {
        primary := Some(ts[k]);
      } else {
        standbys := standbys + [ts[k]];
      }
      k := k + 1;
    }
    assert ts[..k] == ts;
  }

  lemma {:induction false} ReachableIs(ts: seq<Target>, unreachable: map<string, string>)
    ensures forall t :: t in Reachable(ts, unreachable) <==> t in ts && t.name !in unreachable
    ensures DistinctNames(ts) ==> DistinctNames(Reachable(ts, unreachable))
  {
    if ts != [] {
      var init := ts[..|ts| - 1];
      assert ts == init + [ts[|ts| - 1]];
      ReachableIs(init, unreachable);
      if DistinctNames(ts) { LastIsNew(ts, Reachable(init, unreachable)); }
    }
  }

  lemma {:induction false} SplitIs(ts: seq<Target>)
    ensures forall t :: t in StandbysOf(ts) <==> t in ts && t.role.Standby?
    ensures DistinctNames(ts) ==> DistinctNames(StandbysOf(ts))
    ensures PrimaryIn(ts).Some? ==> PrimaryIn(ts).value in ts && PrimaryIn(ts).value.role.Primary?
    ensures PrimaryIn(ts).None? ==> forall t :: t in ts ==> t.role.Standby?
  {
    if ts != [] {
      var init, last := ts[..|ts| - 1], ts[|ts| - 1];
      assert forall t :: t in ts <==> t in init || t == last;
      SplitIs(init);
      if DistinctNames(ts) { LastIsNew(ts, StandbysOf(init)); }
    }
  }

  lemma {:induction false} LastIsNew(ts: seq<Target>, some: seq<Target>)
    requires DistinctNames(ts) && ts != [] && DistinctNames(some) && forall t :: t in some ==> t in ts[..|ts| - 1]
    ensures DistinctNames(some + [ts[|ts| - 1]])
  {
    forall i | 0 <= i < |some| ensures some[i].name != ts[|ts| - 1].name {
      var t := some[i];
      assert t in some;
      var k :| 0 <= k < |ts| - 1 && ts[k] == t;
    }
  }

  /** A cluster found unreachable later does not change the selection made before it. */
  lemma {:induction false} ReachableSoFar(ts: seq<Target>, unreachable: map<string, string>, n: string, message: string)
    requires !Named(ts, n)
    ensures Reachable(ts, unreachable[n := message]) == Reachable(ts, unreachable)
  {
    if ts != [] {
      var init := ts[..|ts| - 1];
      assert forall k :: 0 <= k < |init| ==> init[k] == ts[k];
      assert ts[|ts| - 1].name != n;
      ReachableSoFar(init, unreachable, n, message);
    }
  }

  /** In a valid spec the reachable primary, if any, is the spec's primary, and the standbys do not
      share its name. */
  lemma {:induction false} SelectionOf(ts: seq<Target>, unreachable: map<string, string>)
    requires ValidClusters(ts)
    ensures var cl := Reachable(ts, unreachable); var p := PrimaryIn(cl);
      && DistinctNames(cl) && DistinctNames(StandbysOf(cl))
      && (forall t :: t in StandbysOf(cl) ==> t in ts && t.role.Standby? && t.name !in unreachable)
      && (p.Some? <==> PrimaryName(ts) !in unreachable)
      && (p.Some? ==> p.value in cl && p.value in ts && p.value.role.Primary? && p.value.name == PrimaryName(ts)
                      && p.value.name !in unreachable && !Named(StandbysOf(cl), p.value.name))
  {
    var cl := Reachable(ts, unreachable);
    var p, standbys := PrimaryIn(cl), StandbysOf(cl);
    ReachableIs(ts, unreachable);
    SplitIs(cl);
    forall t | t in ts ensures t.role.Primary? <==> t.name == PrimaryName(ts) {
      var k :| 0 <= k < |ts| && ts[k] == t;
      PrimaryByName(ts, k);
    }
    var i :| 0 <= i < |ts| && SolePrimary(ts, i);
    PrimaryNameIsSole(ts, i);
    var sole := ts[i];
    assert sole in cl || sole.name in unreachable;
    forall j | 0 <= j < |standbys| ensures standbys[j].name != PrimaryName(ts) {
      var t := standbys[j];
      assert t in standbys;
    }
  }
}
