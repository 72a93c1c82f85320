// Status bookkeeping: condition upserts, cluster entries and the rolled-up phase
// (internal/status, and the role pre-population of the controller).
module Conditions {
  import opened Json
  import opened Api

  // ---------- conditions ----------

  function IndexOf(cs: seq<Condition>, kind: string): (i: nat)
    ensures i <= |cs|
    ensures i < |cs| ==> cs[i].kind == kind
    ensures forall j :: 0 <= j < i ==> cs[j].kind != kind
  {
    if cs == [] || cs[0].kind == kind then 0 else 1 + IndexOf(cs[1..], kind)
  }

  function Find(cs: seq<Condition>, kind: string): Option<Condition> {
    var i := IndexOf(cs, kind);
    if i < |cs| then Some(cs[i]) else None
  }

  /** Condition `c`, stamped with the call's time, replaces the one of its kind in place; the old
      transition time survives when the status does not change. */
  function Upsert(cs: seq<Condition>, c: Condition): seq<Condition> {
    var i := IndexOf(cs, c.kind);
    if i < |cs|
    then cs[i := c.(since := if cs[i].status == c.status then cs[i].since else c.since)]
    else cs + [c]
  }

  method SetCondition(conditions: seq<Condition>, kind: string, status: Truth, generation: nat, reason: string,
      message: string, now: nat)
    returns (r: seq<Condition>)
    ensures r == Upsert(conditions, Condition(kind, status, reason, message, generation, now))
  {
    r := conditions;
    var i := 0;
    while i < |r|
      invariant 0 <= i <= |r| && r == conditions
      invariant forall j :: 0 <= j < i ==> r[j].kind != kind
    {
      if r[i].kind == kind {
        var changed := r[i].status != status;
        r := r[i := r[i].(status := status, reason := reason, message := message, generation := generation)];
        if changed {
          r := r[i := r[i].(since := now)];
        }
        return;
      }
      i := i + 1;
    }
    r := r + [Condition(kind, status, reason, message, generation, now)];
  }

  ghost predicate UniqueKinds(cs: seq<Condition>) {
    forall i, j :: 0 <= i < j < |cs| ==> cs[i].kind != cs[j].kind
  }

  /** An upsert sets its own kind, dating it by its own time unless the status is unchanged,
      and leaves the other kinds alone. */
  lemma {:induction false} UpsertLooksUp(cs: seq<Condition>, c: Condition, kind: string)
    ensures UniqueKinds(cs) ==> UniqueKinds(Upsert(cs, c))
    ensures kind != c.kind ==> Find(Upsert(cs, c), kind) == Find(cs, kind)
    ensures var was := Find(cs, c.kind);
      Find(Upsert(cs, c), c.kind) ==
      Some(c.(since := if was.Some? && was.value.status == c.status then was.value.since else c.since))
  {
    var after := Upsert(cs, c);
    var i, j := IndexOf(cs, kind), IndexOf(after, kind);
    var own, own' := IndexOf(cs, c.kind), IndexOf(after, c.kind);
    assert after[own].kind == c.kind;
    assert own' == own;
    assert kind != c.kind && j < |after| ==> j < |cs| && cs[j].kind == kind;
    assert kind != c.kind && i < |cs| ==> after[i].kind == kind;
  }

  predicate IsTrue(cs: seq<Condition>, kind: string) {
    Find(cs, kind).Some? && Find(cs, kind).value.status.True?
  }

  method ConditionTrue(conditions: seq<Condition>, kind: string) returns (r: bool)
    ensures r == IsTrue(conditions, kind)
  {
    var i := 0;
    while i < |conditions|
      invariant 0 <= i <= |conditions|
      invariant forall j :: 0 <= j < i ==> conditions[j].kind != kind
    {
      if conditions[i].kind == kind {
        return conditions[i].status.True?;
      }
      i := i + 1;
    }
    r := false;
  }

  // ---------- the history of a condition ----------

  /** The list left by a sequence of calls on a resource that had no conditions. */
  function Replay(calls: seq<Condition>): seq<Condition> {
    if calls == [] then [] else Upsert(Replay(calls[..|calls| - 1]), calls[|calls| - 1])
  }

  function OfKind(calls: seq<Condition>, kind: string): (h: seq<Condition>)
    ensures forall i :: 0 <= i < |h| ==> h[i].kind == kind
  {
    if calls == [] then []
    else
      var last := calls[|calls| - 1];
      OfKind(calls[..|calls| - 1], kind) + (if last.kind == kind then [last] else [])
  }

  /** Position i is the last status change in h. */
  ghost predicate LastChange(h: seq<Condition>, i: int) {
    && 0 <= i < |h|
    && (i > 0 ==> h[i - 1].status != h[i].status)
    && (forall j :: i < j < |h| ==> h[j].status == h[i].status)
  }

  lemma {:induction false} ReplayIsUnique(calls: seq<Condition>)
    ensures UniqueKinds(Replay(calls))
  {
    if calls != [] {
      ReplayIsUnique(calls[..|calls| - 1]);
      UpsertLooksUp(Replay(calls[..|calls| - 1]), calls[|calls| - 1], "");
    }
  }

  /** A condition with history h: it exists iff h is not empty, carries the fields of the last
      call in h and is dated by the last call that changed its status. */
  ghost predicate Remembers(found: Option<Condition>, h: seq<Condition>) {
    && (found.Some? <==> h != [])
    && (found.Some? ==> exists i :: LastChange(h, i) && found.value == h[|h| - 1].(since := h[i].since))
  }

  lemma {:induction false} RemembersOneMore(found: Option<Condition>, h: seq<Condition>, last: Condition)
    requires Remembers(found, h)
    ensures Remembers(Some(last.(since :=
      if found.Some? && found.value.status == last.status then found.value.since else last.since)), h + [last])
  {
    var h' := h + [last];
    if h == [] {
      assert LastChange(h', 0);
    } else {
      var i :| LastChange(h, i) && found.value == h[|h| - 1].(since := h[i].since);
      assert h[|h| - 1].status == h[i].status;
      assert LastChange(h', if last.status == h[|h| - 1].status then i else |h|);
    }
  }

  /** Whatever the mix of calls, every condition remembers the calls of its own kind. */
  lemma {:induction false} ConditionRemembersItsLastChange(calls: seq<Condition>, kind: string)
    ensures Remembers(Find(Replay(calls), kind), OfKind(calls, kind))
  {
    if calls != [] {
      var before, last := calls[..|calls| - 1], calls[|calls| - 1];
      ConditionRemembersItsLastChange(before, kind);
      UpsertLooksUp(Replay(before), last, kind);
      if last.kind == kind {
        RemembersOneMore(Find(Replay(before), kind), OfKind(before, kind), last);
      } else {
        assert OfKind(calls, kind) == OfKind(before, kind);
      }
    }
  }

  // ---------- cluster entries ----------

  function EntryOf(cs: seq<ClusterStatus>, name: string): (i: nat)
    ensures i <= |cs|
    ensures i < |cs| ==> cs[i].name == name
    ensures forall j :: 0 <= j < i ==> cs[j].name != name
  {
    if cs == [] || cs[0].name == name then 0 else 1 + EntryOf(cs[1..], name)
  }

  function UpsertCluster(cs: seq<ClusterStatus>, name: string, c: Condition): seq<ClusterStatus> {
    var i := EntryOf(cs, name);
    if i < |cs| then cs[i := cs[i].(conditions := Upsert(cs[i].conditions, c))]
    else cs + [ClusterStatus(name, None, [c], "")]
  }

  method SetClusterCondition(clusters: seq<ClusterStatus>, name: string, kind: string, status: Truth, generation: nat,
      reason: string, message: string, now: nat)
    returns (r: seq<ClusterStatus>)
    ensures r == UpsertCluster(clusters, name, Condition(kind, status, reason, message, generation, now))
  {
    r := clusters;
    var i := 0;
    while i < |r|
      invariant 0 <= i <= |r| && r == clusters
      invariant forall j :: 0 <= j < i ==> r[j].name != name
    {
      if r[i].name == name {
        var conditions := SetCondition(r[i].conditions, kind, status, generation, reason, message, now);
        assert EntryOf(clusters, name) == i;
        r := r[i := r[i].(conditions := conditions)];
        return;
      }
      i := i + 1;
    }
    var conditions := SetCondition([], kind, status, generation, reason, message, now);
    assert conditions == [Condition(kind, status, reason, message, generation, now)];
    r := r + [ClusterStatus(name, None, conditions, "")];
  }

  /** The condition is set in the first entry of that name, else in a new one; no other entry moves. */
  lemma {:induction false} UpsertClusterSets(cs: seq<ClusterStatus>, name: string, c: Condition, j: int)
    requires 0 <= j < |UpsertCluster(cs, name, c)|
    ensures var r := UpsertCluster(cs, name, c); var i := EntryOf(cs, name);
      && |r| == (if i < |cs| then |cs| else |cs| + 1) && i < |r| && r[i].name == name
      && Find(r[i].conditions, c.kind).Some? && Find(r[i].conditions, c.kind).value.status == c.status
      && (j != i ==> r[j] == cs[j])
      && (i < |cs| ==> r[i].role == cs[i].role && r[i].endpoint == cs[i].endpoint)
      && (i == |cs| ==> r[i].role.None? && r[i].endpoint == "" && r[i].conditions == [c])
  {
    var i := EntryOf(cs, name);
    UpsertLooksUp(if i < |cs| then cs[i].conditions else [], c, c.kind);
    assert Upsert([], c) == [c];
  }

  ghost predicate UniqueNames(cs: seq<ClusterStatus>) {
    forall i, j :: 0 <= i < j < |cs| ==> cs[i].name != cs[j].name
  }

  ghost predicate WellShapedEntry(c: ClusterStatus) {
    c.role.Some? && UniqueKinds(c.conditions)
  }

  /** What every persisted list of cluster entries keeps. */
  ghost predicate WellShaped(cs: seq<ClusterStatus>) {
    UniqueNames(cs) && forall i :: 0 <= i < |cs| ==> WellShapedEntry(cs[i])
  }

  // ---------- roles ----------

  function RoleOf(ts: seq<Target>, name: string): Option<Role> {
    if ts == [] then None
    else
      var later := RoleOf(ts[1..], name);
      if later.Some? then later else if ts[0].name == name then Some(ts[0].role) else None
  }

  function Relabel(c: ClusterStatus, ts: seq<Target>): ClusterStatus {
    if RoleOf(ts, c.name).Some? then c.(role := RoleOf(ts, c.name)) else c
  }

  function Fresh(t: Target): ClusterStatus {
    ClusterStatus(t.name, Some(t.role), [], "")
  }

  /** Fresh entries, in spec order, for the targets whose name is not in `seen`. */
  function Missing(ts: seq<Target>, seen: set<string>): (r: seq<ClusterStatus>) {
    if ts == [] then []
    else
      var before := Missing(ts[..|ts| - 1], seen);
      var t := ts[|ts| - 1];
      if t.name in seen then before else before + [Fresh(t)]
  }

  function NamesOf(cs: seq<ClusterStatus>): set<string> {
    set i | 0 <= i < |cs| :: cs[i].name
  }

  function WithRoles(cs: seq<ClusterStatus>, ts: seq<Target>): seq<ClusterStatus> {
    seq(|cs|, i requires 0 <= i < |cs| => Relabel(cs[i], ts)) + Missing(ts, NamesOf(cs))
  }

  lemma {:induction false} RoleOfNamed(ts: seq<Target>, name: string)
    ensures RoleOf(ts, name).Some? <==> Named(ts, name)
    ensures DistinctNames(ts) ==>
              forall i :: 0 <= i < |ts| && ts[i].name == name ==> RoleOf(ts, name) == Some(ts[i].role)
  {
    if ts != [] {
      RoleOfNamed(ts[1..], name);
      assert forall i :: 1 <= i < |ts| ==> ts[i] == ts[1..][i - 1];
      if Named(ts[1..], name) {
        var k :| 0 <= k < |ts[1..]| && ts[1..][k].name == name;
        assert ts[k + 1].name == name;
      }
    }
  }

  method EnsureClusterStatusRoles(clusters: seq<ClusterStatus>, ts: seq<Target>) returns (r: seq<ClusterStatus>)
    ensures r == WithRoles(clusters, ts)
  {
    hide Missing;
    var roleByName: map<string, Role> := map[];
    var k := 0;
    while k < |ts|
      invariant 0 <= k <= |ts|
      invariant forall n :: n in roleByName <==> RoleOf(ts[..k], n).Some?
      invariant forall n :: n in roleByName ==> RoleOf(ts[..k], n) == Some(roleByName[n])
    {
      RoleOfLast(ts[..k + 1]);
      assert ts[..k + 1][..k] == ts[..k];
      roleByName := roleByName[ts[k].name := ts[k].role];
      k := k + 1;
    }
    assert ts[..k] == ts;
    r := clusters;
    var seen: set<string> := {};
    var i := 0;
    while i < |clusters|
      invariant 0 <= i <= |clusters| == |r|
      invariant forall j :: 0 <= j < i ==> r[j] == Relabel(clusters[j], ts)
      invariant forall j :: i <= j < |r| ==> r[j] == clusters[j]
      invariant forall n :: n in seen <==> RoleOf(ts, n).Some? && exists j :: 0 <= j < i && clusters[j].name == n
    {
      if r[i].name in roleByName {
        seen := seen + {r[i].name};
        r := r[i := r[i].(role := Some(roleByName[r[i].name]))];
      }
      i := i + 1;
    }
    forall k | 0 <= k < |ts| ensures ts[k].name in seen <==> ts[k].name in NamesOf(clusters) {
      RoleOfNamed(ts, ts[k].name);
    }
    var missing := MissingEntries(ts, seen, NamesOf(clusters));
    r := r + missing;
  }

  /** Entries for the clusters not yet present in the status. */
  method MissingEntries(ts: seq<Target>, seen: set<string>, ghost names: set<string>) returns (r: seq<ClusterStatus>)
    requires forall k :: 0 <= k < |ts| ==> (ts[k].name in seen <==> ts[k].name in names)
    ensures r == Missing(ts, names)
  {
    r := [];
    var k := 0;
    while k < |ts|
      invariant 0 <= k <= |ts| && r == Missing(ts[..k], names)
    {
      assert ts[..k + 1][..k] == ts[..k];
      if ts[k].name !in seen {
        r := r + [ClusterStatus(ts[k].name, Some(ts[k].role), [], "")];
      }
      k := k + 1;
    }
    assert ts[..k] == ts;
  }

  lemma {:induction false} RoleOfLast(ts: seq<Target>)
    requires ts != []
    ensures var t := ts[|ts| - 1]; forall n ::
      RoleOf(ts, n) == if n == t.name then Some(t.role) else RoleOf(ts[..|ts| - 1], n)
  {
    if |ts| > 1 {
      RoleOfLast(ts[1..]);
      assert ts[1..][..|ts| - 2] == ts[..|ts| - 1][1..];
    }
  }

  lemma {:induction false} MissingIsFresh(ts: seq<Target>, seen: set<string>, e: ClusterStatus)
    ensures e in Missing(ts, seen) <==> exists t :: t in ts && t.name !in seen && e == Fresh(t)
  {
    if ts != [] {
      var init, last := ts[..|ts| - 1], ts[|ts| - 1];
      assert ts == init + [last];
      MissingIsFresh(init, seen, e);
    }
  }

  lemma {:induction false} MissingIsUnique(ts: seq<Target>, seen: set<string>)
    requires DistinctNames(ts)
    ensures UniqueNames(Missing(ts, seen))
  {
    if ts != [] {
      var init, last := ts[..|ts| - 1], ts[|ts| - 1];
      MissingIsUnique(init, seen);
      forall e | e in Missing(init, seen) ensures e.name != last.name {
        MissingIsFresh(init, seen, e);
      }
    }
  }

  /** Entry i is the one entry of target t, with t's role. */
  ghost predicate EntryFor(cs: seq<ClusterStatus>, t: Target, i: int) {
    0 <= i < |cs| && cs[i].name == t.name && cs[i].role == Some(t.role)
  }

  /** Old entries keep their place, conditions and endpoint; the rest are new and named in the spec. */
  lemma {:induction false} OldEntriesStay(cs: seq<ClusterStatus>, ts: seq<Target>, i: int)
    requires WellShaped(cs) && DistinctNames(ts) && 0 <= i < |WithRoles(cs, ts)|
    ensures var e := WithRoles(cs, ts)[i];
      && WellShapedEntry(e)
      && (i < |cs| ==> e.name in NamesOf(cs) && e.(role := None) == cs[i].(role := None))
      && (i < |cs| && Named(ts, e.name) ==> e.role == RoleOf(ts, e.name))
      && (i >= |cs| ==> e.name !in NamesOf(cs) && Named(ts, e.name) && e.conditions == [] && e.endpoint == "")
  {
    var e := WithRoles(cs, ts)[i];
    if i < |cs| {
      assert WellShapedEntry(cs[i]);
      RoleOfNamed(ts, cs[i].name);
    } else {
      assert e == Missing(ts, NamesOf(cs))[i - |cs|];
      MissingIsFresh(ts, NamesOf(cs), e);
    }
  }

  lemma {:induction false} RolesKeepShape(cs: seq<ClusterStatus>, ts: seq<Target>)
    requires WellShaped(cs) && DistinctNames(ts)
    ensures WellShaped(WithRoles(cs, ts))
  {
    var r := WithRoles(cs, ts);
    forall i | 0 <= i < |r|
      ensures WellShapedEntry(r[i])
    {
      OldEntriesStay(cs, ts, i);
    }
    MissingIsUnique(ts, NamesOf(cs));
    forall i, j | 0 <= i < j < |r|
      ensures r[i].name != r[j].name
    {
      OldEntriesStay(cs, ts, i);
      OldEntriesStay(cs, ts, j);
      if i >= |cs| {
        assert r[i] == Missing(ts, NamesOf(cs))[i - |cs|] && r[j] == Missing(ts, NamesOf(cs))[j - |cs|];
      }
    }
  }

  /** Every target has an entry carrying its role, one only since names are unique. */
  lemma {:induction false} RolesAreComplete(cs: seq<ClusterStatus>, ts: seq<Target>, k: int)
    requires WellShaped(cs) && DistinctNames(ts) && 0 <= k < |ts|
    ensures var r := WithRoles(cs, ts); WellShaped(r) && EntryFor(r, ts[k], EntryOf(r, ts[k].name))
  {
    var r, name := WithRoles(cs, ts), ts[k].name;
    RolesKeepShape(cs, ts);
    RoleOfNamed(ts, name);
    assert Named(ts, name);
    var at := EntryOf(cs, name);
    if at == |cs| {
      MissingIsFresh(ts, NamesOf(cs), Fresh(ts[k]));
      assert Fresh(ts[k]) in r;
      at :| 0 <= at < |r| && r[at] == Fresh(ts[k]);
    }
    OldEntriesStay(cs, ts, at);
    assert EntryOf(r, name) == at;
  }

  /** Doing it again changes nothing. */
  lemma {:induction false} RolesTwice(cs: seq<ClusterStatus>, ts: seq<Target>)
    requires WellShaped(cs) && DistinctNames(ts)
    ensures WithRoles(WithRoles(cs, ts), ts) == WithRoles(cs, ts)
  {
    var r := WithRoles(cs, ts);
    RolesKeepShape(cs, ts);
    forall i | 0 <= i < |r| ensures Relabel(r[i], ts) == r[i] {
      RoleOfNamed(ts, r[i].name);
      if Named(ts, r[i].name) {
        var k :| 0 <= k < |ts| && ts[k].name == r[i].name;
        RolesAreComplete(cs, ts, k);
        assert EntryOf(r, ts[k].name) == i;
      }
    }
    NoneMissing(cs, ts, r);
  }

  lemma {:induction false} NoneMissing(cs: seq<ClusterStatus>, ts: seq<Target>, once: seq<ClusterStatus>)
    requires WellShaped(cs) && DistinctNames(ts)
    requires var r := WithRoles(cs, ts); |once| == |r| && forall i :: 0 <= i < |r| ==> once[i].name == r[i].name
    ensures Missing(ts, NamesOf(once)) == []
  {
    var r := WithRoles(cs, ts);
    forall e ensures e !in Missing(ts, NamesOf(once)) {
      MissingIsFresh(ts, NamesOf(once), e);
      forall t | t in ts ensures t.name in NamesOf(once) {
        var k :| 0 <= k < |ts| && ts[k] == t;
        RolesAreComplete(cs, ts, k);
        assert once[EntryOf(r, t.name)].name == t.name;
      }
    }
    if Missing(ts, NamesOf(once)) != [] { assert Missing(ts, NamesOf(once))[0] in Missing(ts, NamesOf(once)); }
  }

  // ---------- the rolled-up phase ----------

  predicate ReadyAt(cs: seq<ClusterStatus>, i: int)
    requires 0 <= i < |cs|
  {
    IsTrue(cs[i].conditions, READY)
  }

  function PhaseOf(cs: seq<ClusterStatus>, failoverInProgress: bool): Phase {
    if failoverInProgress then FailingOver
    else if cs == [] then Pending
    else if forall i :: 0 <= i < |cs| ==> ReadyAt(cs, i) then Phase.Ready
    else if forall i :: 0 <= i < |cs| ==> !ReadyAt(cs, i) then Failed
    else Degraded
  }

  /** The phase by what is ready: Failed means nothing, Degraded something and something not. */
  lemma {:induction false} PhaseIs(cs: seq<ClusterStatus>)
    ensures PhaseOf(cs, true).FailingOver? && (PhaseOf(cs, false).Pending? <==> cs == [])
    ensures PhaseOf(cs, false).Ready? <==> cs != [] && forall i :: 0 <= i < |cs| ==> ReadyAt(cs, i)
    ensures PhaseOf(cs, false).Failed? <==> cs != [] && forall i :: 0 <= i < |cs| ==> !ReadyAt(cs, i)
    ensures PhaseOf(cs, false).Degraded? <==>
            exists i, j :: 0 <= i < |cs| && 0 <= j < |cs| && ReadyAt(cs, i) && !ReadyAt(cs, j)
  {
    if cs != [] { assert ReadyAt(cs, 0) || !ReadyAt(cs, 0); }
  }

  method Aggregate(clusters: seq<ClusterStatus>, failoverInProgress: bool) returns (phase: Phase)
    ensures phase == PhaseOf(clusters, failoverInProgress)
  {
    if failoverInProgress {
      return FailingOver;
    }
    if |clusters| == 0 {
      return Pending;
    }
    var total := |clusters|;
    var ready := 0;
    var k := 0;
    while k < |clusters|
      invariant 0 <= ready <= k <= |clusters|
      invariant ready == k <==> forall i :: 0 <= i < k ==> ReadyAt(clusters, i)
      invariant ready == 0 <==> forall i :: 0 <= i < k ==> !ReadyAt(clusters, i)
    {
      var isReady := ConditionTrue(clusters[k].conditions, READY);
      assert isReady == ReadyAt(clusters, k);
      if isReady {
        ready := ready + 1;
      }
      k := k + 1;
    }
    phase := if ready == total then Phase.Ready else if ready == 0 then Failed else Degraded;
  }

  // ---------- what every persisted status keeps ----------

  ghost predicate StatusOk(st: Status) {
    && WellShaped(st.clusters) && UniqueKinds(st.conditions)
    && (st.phase.Ready? ==> IsTrue(st.conditions, READY))
    && (st.phase.FailingOver? ==> IsTrue(st.conditions, FAILOVER_IN_PROGRESS))
  }
}
