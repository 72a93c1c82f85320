// Copying the credential Secrets of the primary to every standby (internal/credentials).
module Credentials {
  import opened Json
  import opened Api
  import opened Kube
  import opened Builder
  import opened Text
  import opened Remote

  const SUFFIX := ".credentials.postgresql.acid.zalan.do"
  const ROLES := ["postgres", "standby"]

  function SecretName(role: string, cluster: string): string {
    role + "." + cluster + SUFFIX
  }

  /** The cluster part of a credential Secret's name replaced, for a name that starts with a role. */
  function Rewritten(name: string, cluster: string, roles: seq<string>): string {
    if roles == [] then name
    else
      var prefix := roles[0] + ".";
      if |name| > |prefix| && name[..|prefix|] == prefix then prefix + cluster + SUFFIX
      else Rewritten(name, cluster, roles[1..])
  }

  method RewriteClusterName(name: string, cluster: string) returns (r: string)
    ensures r == Rewritten(name, cluster, ROLES)
  {
    var k := 0;
    while k < |ROLES|
      invariant 0 <= k <= |ROLES| && Rewritten(name, cluster, ROLES) == Rewritten(name, cluster, ROLES[k..])
    {
      var prefix := ROLES[k] + ".";
      if |name| > |prefix| && name[..|prefix|] == prefix {
        return prefix + cluster + SUFFIX;
      }
      k := k + 1;
    }
    r := name;
  }

  lemma {:induction false} StartsWithRole(role: string, rest: string, prefix: string)
    requires role in ROLES && prefix in {"postgres.", "standby."}
    ensures var name := role + "." + rest; |prefix| <= |name| ==> (name[..|prefix|] == prefix <==> prefix == role + ".")
  {
    var name := role + "." + rest;
    assert name[0] == role[0];
    if prefix == role + "." {
      assert name[..|prefix|] == prefix;
    } else if |prefix| <= |name| {
      assert name[..|prefix|][0] == role[0] && prefix[0] != role[0];
    }
  }

  /** Rewriting the Secret name of one cluster gives the Secret name of the other, for all strings. */
  lemma {:induction false} RewritingRenames(role: string, from: string, to: string)
    requires role in ROLES
    ensures Rewritten(SecretName(role, from), to, ROLES) == SecretName(role, to)
  {
    var rest := from + SUFFIX;
    var name := SecretName(role, from);
    assert name == role + "." + rest;
    StartsWithRole(role, rest, "postgres.");
    StartsWithRole(role, rest, "standby.");
    assert ROLES[1..] == ["standby"];
    assert |rest| > 0;
  }

  lemma {:induction false} SecretNamesDiffer(r: string, r': string, c: string, c': string)
    requires r in ROLES && r' in ROLES && SecretName(r, c) == SecretName(r', c')
    ensures r == r' && c == c'
  {
    assert SecretName(r, c)[0] == r[0] && SecretName(r', c')[0] == r'[0];
    CancelSuffix(r + "." + c, r + "." + c', SUFFIX);
    CancelPrefix(r + ".", c, c');
  }

  lemma {:induction false} ClusterNamesDiffer(team: string, a: string, b: string)
    ensures ClusterName(team, a) == ClusterName(team, b) <==> a == b
  {
    if ClusterName(team, a) == ClusterName(team, b) {
      CancelPrefix(team + "-", a, b);
    }
  }

  /** Two Secrets' data compared as the syncer does, by size and then by key; it is map equality. */
  method SecretDataEqual(a: map<string, string>, b: map<string, string>) returns (r: bool)
    ensures r <==> a == b
  {
    if |a| != |b| {
      return false;
    }
    var todo := a.Keys;
    while todo != {}
      invariant todo <= a.Keys
      invariant forall k :: k in a && k !in todo ==> k in b && a[k] == b[k]
    {
      var k :| k in todo;
      if k !in b || a[k] != b[k] {
        return false;
      }
      todo := todo - {k};
    }
    SubsetOfSameSize(a.Keys, b.Keys);
    r := true;
  }

  lemma {:induction false} SubsetOfSameSize<T>(a: set<T>, b: set<T>)
    requires a <= b && |a| == |b|
    ensures a == b
  {
    assert b == a + (b - a);
    assert b - a == {};
  }

  datatype Source = Source(name: string, data: map<string, string>)

  /** The Secrets of a cluster for those of the roles it has, in order. */
  function Sources(secrets: map<string, Secret>, cluster: string, roles: seq<string>): seq<Source> {
    if roles == [] then []
    else
      var before, name := Sources(secrets, cluster, roles[..|roles| - 1]), SecretName(roles[|roles| - 1], cluster);
      if name in secrets then before + [Source(name, secrets[name].data)] else before
  }

  function TargetLabels(mc: string, cluster: string): map<string, string> {
    map["application" := "spilo", "cluster-name" := cluster,
        "pgmc.aurelops.com/managed" := "true", "pgmc.aurelops.com/postgresmc" := mc]
  }

  /** One Secret created, refreshed, or left alone when its data is already right. */
  function Installed(secrets: map<string, Secret>, name: string, desired: Secret): map<string, Secret> {
    if name in secrets && secrets[name].data == desired.data then secrets else secrets[name := desired]
  }

  function Synced(secrets: map<string, Secret>, sources: seq<Source>, mc: string, cluster: string): map<string, Secret>
  {
    if sources == [] then secrets
    else
      var src := sources[|sources| - 1];
      Installed(Synced(secrets, sources[..|sources| - 1], mc, cluster),
                Rewritten(src.name, cluster, ROLES), Secret(src.data, TargetLabels(mc, cluster)))
  }

  method FetchCredentials(fleet: Fleet, n: string, cluster: string) returns (r: Result<seq<Source>>)
    requires fleet.Valid() && fleet.Serves(n)
    modifies fleet
    ensures fleet.Valid() && fleet.begun == old(fleet.begun)
    ensures fleet.w == old(fleet.w).(spec := fleet.w.spec, generation := fleet.w.generation)
    ensures fleet.faults >= old(fleet.faults) && (r.Err? ==> fleet.faults > old(fleet.faults))
    ensures fleet.flight == old(fleet.flight) && fleet.clients == old(fleet.clients)
    ensures r.Ok? ==> r.value == Sources(old(fleet.w).sites[n].secrets, cluster, ROLES)
  {
    var out: seq<Source> := [];
    var k := 0;
    while k < |ROLES|
      invariant 0 <= k <= |ROLES| && fleet.Valid() && fleet.begun == old(fleet.begun)
      invariant fleet.w == old(fleet.w).(spec := fleet.w.spec, generation := fleet.w.generation)
      invariant fleet.flight == old(fleet.flight) && fleet.clients == old(fleet.clients)
      invariant out == Sources(old(fleet.w).sites[n].secrets, cluster, ROLES[..k])
      invariant fleet.faults >= old(fleet.faults)
    {
      var name := SecretName(ROLES[k], cluster);
      assert ROLES[..k + 1][..k] == ROLES[..k];
      var err := fleet.Call();
      if err.Some? {
        return Err(err.value);
      }
      var secrets := fleet.w.sites[n].secrets;
      if name in secrets {
        out := out + [Source(name, secrets[name].data)];
      }
      k := k + 1;
    }
    assert ROLES[..k] == ROLES;
    r := Ok(out);
  }

  method ApplySecret(fleet: Fleet, n: string, name: string, desired: Secret) returns (err: Option<string>)
    requires fleet.Valid() && fleet.Serves(n)
    modifies fleet
    ensures fleet.Valid() && fleet.begun == old(fleet.begun) && SiteOnly(old(fleet.w), fleet.w, n)
    ensures fleet.faults >= old(fleet.faults) && (err.Some? ==> fleet.faults > old(fleet.faults))
    ensures fleet.flight == old(fleet.flight) && fleet.clients == old(fleet.clients)
    ensures var site, site' := old(fleet.w).sites[n], fleet.w.sites[n];
      var done := site.(secrets := Installed(site.secrets, name, desired));
      site' == done || (err.Some? && site' == site)
  {
    err := fleet.Call();
    if err.Some? {
      return;
    }
    var site := fleet.w.sites[n];
    if name !in site.secrets {
      err := fleet.WriteSite(n, site.(secrets := site.secrets[name := desired]));
      return;
    }
    var same := SecretDataEqual(site.secrets[name].data, desired.data);
    if same {
      return None;
    }
    var updated := site.secrets[name].(data := desired.data, labels := desired.labels);
    err := fleet.WriteSite(n, site.(secrets := site.secrets[name := updated]));
  }

  ghost predicate FromRoles(sources: seq<Source>, cluster: string) {
    forall i :: 0 <= i < |sources| ==> exists role :: role in ROLES && sources[i].name == SecretName(role, cluster)
  }

  /** An interrupted sync has installed some first part of the sources. */
  ghost predicate SyncUnderway(site: Site, site': Site, sources: seq<Source>, mc: string, cluster: string) {
    exists k :: 0 <= k <= |sources| && site' == site.(secrets := Synced(site.secrets, sources[..k], mc, cluster))
  }

  method SyncToStandby(fleet: Fleet, sources: seq<Source>, mc: string, n: string, cluster: string)
    returns (err: Option<string>)
    requires fleet.Valid() && fleet.Serves(n)
    modifies fleet
    ensures fleet.Valid() && fleet.begun == old(fleet.begun) && SiteOnly(old(fleet.w), fleet.w, n)
    ensures fleet.faults >= old(fleet.faults) && (err.Some? ==> fleet.faults > old(fleet.faults))
    ensures fleet.flight == old(fleet.flight) && fleet.clients == old(fleet.clients)
    ensures var site, site' := old(fleet.w).sites[n], fleet.w.sites[n];
      && SyncUnderway(site, site', sources, mc, cluster)
      && (err.None? ==> site' == site.(secrets := Synced(site.secrets, sources, mc, cluster)))
  {
    ghost var site := fleet.w.sites[n];
    assert sources[..0] == [];
    var k := 0;
    while k < |sources|
      invariant 0 <= k <= |sources| && fleet.Valid() && fleet.begun == old(fleet.begun)
      invariant SiteOnly(old(fleet.w), fleet.w, n)
      invariant fleet.flight == old(fleet.flight) && fleet.clients == old(fleet.clients)
      invariant fleet.w.sites[n] == site.(secrets := Synced(site.secrets, sources[..k], mc, cluster))
      invariant fleet.faults >= old(fleet.faults)
    {
      var src := sources[k];
      var name := RewriteClusterName(src.name, cluster);
      assert sources[..k + 1][..k] == sources[..k];
      err := ApplySecret(fleet, n, name, Secret(src.data, TargetLabels(mc, cluster)));
      if err.Some? {
        return;
      }
      k := k + 1;
    }
    assert sources[..k] == sources;
    err := None;
  }

  datatype StandbyTarget = StandbyTarget(n: string, cluster: string)

  ghost predicate SyncedAt(a: Workload, b: Workload, t: StandbyTarget, sources: seq<Source>, mc: string, ok: bool) {
    && t.n in a.sites && t.n in b.sites
    && SyncUnderway(a.sites[t.n], b.sites[t.n], sources, mc, t.cluster)
    && (ok ==> b.sites[t.n] == a.sites[t.n].(secrets := Synced(a.sites[t.n].secrets, sources, mc, t.cluster)))
  }

  ghost predicate Separate(standbys: seq<StandbyTarget>, n: string) {
    && (forall i, j :: 0 <= i < j < |standbys| ==>
          standbys[i].n != standbys[j].n && standbys[i].cluster != standbys[j].cluster)
    && (forall i :: 0 <= i < |standbys| ==> standbys[i].n != n)
  }

  function SitesOf(standbys: seq<StandbyTarget>): set<string> {
    set i | 0 <= i < |standbys| :: standbys[i].n
  }

  /** The standbys dealt with, each with its outcome; no other site moved. */
  ghost predicate SyncedAll(a: Workload, b: Workload, standbys: seq<StandbyTarget>, sources: seq<Source>, mc: string,
      perCluster: map<string, Option<string>>)
  {
    && OnlySites(a, b, SitesOf(standbys))
    && forall i :: 0 <= i < |standbys| ==>
         && standbys[i].cluster in perCluster
         && SyncedAt(a, b, standbys[i], sources, mc, perCluster[standbys[i].cluster].None?)
  }

  lemma {:induction false} OneMoreSynced(a: Workload, b: Workload, c: Workload, standbys: seq<StandbyTarget>, k: nat,
      n: string, sources: seq<Source>, mc: string, perCluster: map<string, Option<string>>, err: Option<string>)
    requires k < |standbys| && Separate(standbys, n) && SyncedAll(a, b, standbys[..k], sources, mc, perCluster)
    requires OnlySites(b, c, {standbys[k].n}) && SyncedAt(b, c, standbys[k], sources, mc, err.None?)
    ensures SyncedAll(a, c, standbys[..k + 1], sources, mc, perCluster[standbys[k].cluster := err])
  {
    hide SyncedAt, SitesOf;
    var t, done, now := standbys[k], standbys[..k], perCluster[standbys[k].cluster := err];
    OneMoreSite(standbys, k);
    forall i | 0 <= i < k + 1
      ensures standbys[i].cluster in now && SyncedAt(a, c, standbys[i], sources, mc, now[standbys[i].cluster].None?)
    {
      if i < k {
        assert done[i] == standbys[i];
        SyncedElsewhere(a, b, c, standbys[i], t.n, sources, mc, now[standbys[i].cluster].None?);
      } else {
        SyncedLater(a, b, c, t, SitesOf(done), sources, mc, err.None?);
      }
    }
  }

  lemma {:induction false} OneMoreSite(standbys: seq<StandbyTarget>, k: nat)
    requires k < |standbys| && forall i :: 0 <= i < k ==> standbys[i].n != standbys[k].n
    ensures SitesOf(standbys[..k + 1]) == SitesOf(standbys[..k]) + {standbys[k].n}
    ensures standbys[k].n !in SitesOf(standbys[..k])
  {
    assert standbys[..k + 1] == standbys[..k] + [standbys[k]];
  }

  /** Syncing another site changes nothing here. */
  lemma {:induction false} SyncedElsewhere(a: Workload, b: Workload, c: Workload, t: StandbyTarget, n: string,
      sources: seq<Source>, mc: string, ok: bool)
    requires SyncedAt(a, b, t, sources, mc, ok) && OnlySites(b, c, {n}) && t.n != n
    ensures SyncedAt(a, c, t, sources, mc, ok)
  {
    hide SyncUnderway, Synced;
  }

  lemma {:induction false} SyncedLater(a: Workload, b: Workload, c: Workload, t: StandbyTarget, ns: set<string>,
      sources: seq<Source>, mc: string, ok: bool)
    requires OnlySites(a, b, ns) && t.n !in ns && SyncedAt(b, c, t, sources, mc, ok)
    ensures SyncedAt(a, c, t, sources, mc, ok)
  {
    hide SyncUnderway, Synced;
  }

  /** The outcome per standby cluster. One standby's failure does not keep the next from being synced. */
  method SyncFromPrimary(fleet: Fleet, mc: string, n: string, cluster: string, standbys: seq<StandbyTarget>)
    returns (r: Result<map<string, Option<string>>>)
    requires fleet.Valid() && fleet.Serves(n) && Separate(standbys, n)
    requires forall i :: 0 <= i < |standbys| ==> fleet.Serves(standbys[i].n)
    modifies fleet
    ensures fleet.Valid() && fleet.begun == old(fleet.begun)
    ensures fleet.faults >= old(fleet.faults) && (r.Err? ==> fleet.faults > old(fleet.faults))
    ensures r.Ok? && fleet.faults == old(fleet.faults) ==> forall c :: c in r.value ==> r.value[c].None?
    ensures fleet.flight == old(fleet.flight) && fleet.clients == old(fleet.clients)
    ensures fleet.w == old(fleet.w).(spec := fleet.w.spec, generation := fleet.w.generation, sites := fleet.w.sites)
    ensures r.Err? ==> fleet.w.sites == old(fleet.w).sites
    ensures r.Ok? ==> SyncedAll(Load(old(fleet.w)), Load(fleet.w), standbys,
                                Sources(old(fleet.w).sites[n].secrets, cluster, ROLES), mc, r.value)
  {
    hide SyncUnderway, Synced, SyncedAll, Sources;
    ghost var w0 := fleet.w;
    var fetched := FetchCredentials(fleet, n, cluster);
    if fetched.Err? {
      return Err(fetched.error);
    }
    var perCluster: map<string, Option<string>> := map[];
    var k := 0;
    SyncedNone(Load(w0), Load(fleet.w), standbys[..0], fetched.value, mc, perCluster);
    while k < |standbys|
      invariant 0 <= k <= |standbys| && fleet.Valid() && fleet.begun == old(fleet.begun)
      invariant fleet.flight == old(fleet.flight) && fleet.clients == old(fleet.clients)
      invariant fleet.w == w0.(spec := fleet.w.spec, generation := fleet.w.generation, sites := fleet.w.sites)
      invariant w0.sites.Keys == fleet.w.sites.Keys
      invariant SyncedAll(Load(w0), Load(fleet.w), standbys[..k], fetched.value, mc, perCluster)
      invariant fleet.faults >= old(fleet.faults)
      invariant fleet.faults == old(fleet.faults) ==> forall c :: c in perCluster ==> perCluster[c].None?
    {
      var t := standbys[k];
      ghost var before := fleet.w;
      var err := SyncToStandby(fleet, fetched.value, mc, t.n, t.cluster);
      OneMoreSynced(Load(w0), Load(before), Load(fleet.w), standbys, k, n, fetched.value, mc, perCluster, err);
      perCluster := perCluster[t.cluster := err];
      k := k + 1;
    }
    assert standbys[..k] == standbys;
    r := Ok(perCluster);
  }

  lemma {:induction false} SyncedNone(a: Workload, b: Workload, standbys: seq<StandbyTarget>, sources: seq<Source>,
      mc: string, perCluster: map<string, Option<string>>)
    requires standbys == [] && b.sites == a.sites
    ensures SyncedAll(a, b, standbys, sources, mc, perCluster)
  {}

  lemma {:induction false} SourcesAreCredentials(secrets: map<string, Secret>, cluster: string, roles: seq<string>)
    requires forall r :: r in roles ==> r in ROLES
    ensures FromRoles(Sources(secrets, cluster, roles), cluster)
    ensures forall r :: r in roles && SecretName(r, cluster) in secrets ==>
              Source(SecretName(r, cluster), secrets[SecretName(r, cluster)].data) in Sources(secrets, cluster, roles)
    ensures forall s :: s in Sources(secrets, cluster, roles) ==> s.name in secrets && s.data == secrets[s.name].data
  {
    if roles != [] {
      var init, last := roles[..|roles| - 1], roles[|roles| - 1];
      assert roles == init + [last];
      SourcesAreCredentials(secrets, cluster, init);
    }
  }

  lemma {:induction false} SyncedLooksUp(secrets: map<string, Secret>, sources: seq<Source>, mc: string, to: string,
      name: string)
    ensures var after := Synced(secrets, sources, mc, to);
      if exists s :: s in sources && Rewritten(s.name, to, ROLES) == name
      then
        && name in after
        && exists s :: s in sources && Rewritten(s.name, to, ROLES) == name && after[name].data == s.data
      else (name in after <==> name in secrets) && (name in secrets ==> after[name] == secrets[name])
  {
    if sources != [] {
      var init, src := sources[..|sources| - 1], sources[|sources| - 1];
      assert sources == init + [src];
      SyncedLooksUp(secrets, init, mc, to, name);
      if Rewritten(src.name, to, ROLES) == name {
        assert src in sources;
      } else {
        assert forall s :: s in sources && Rewritten(s.name, to, ROLES) == name ==> s in init;
      }
    }
  }

  lemma {:induction false} SourceRole(primary: map<string, Secret>, from: string, to: string, s: Source)
    returns (role: string)
    requires s in Sources(primary, from, ROLES)
    ensures role in ROLES && s.name == SecretName(role, from) && Rewritten(s.name, to, ROLES) == SecretName(role, to)
    ensures s.name in primary && s.data == primary[s.name].data
  {
    SourcesAreCredentials(primary, from, ROLES);
    var sources := Sources(primary, from, ROLES);
    var i :| 0 <= i < |sources| && sources[i] == s;
    role :| role in ROLES && s.name == SecretName(role, from);
    RewritingRenames(role, from, to);
  }

  /** After a sync, for every role the primary has a Secret for, the standby's own Secret of that
      role holds the same data. */
  lemma {:induction false} CredentialsArrive(primary: map<string, Secret>, from: string, secrets: map<string, Secret>,
      mc: string, to: string, role: string)
    requires role in ROLES && SecretName(role, from) in primary
    ensures var after := Synced(secrets, Sources(primary, from, ROLES), mc, to);
      SecretName(role, to) in after && after[SecretName(role, to)].data == primary[SecretName(role, from)].data
  {
    var sources, name := Sources(primary, from, ROLES), SecretName(role, to);
    SourcesAreCredentials(primary, from, ROLES);
    SyncedLooksUp(secrets, sources, mc, to, name);
    RewritingRenames(role, from, to);
    var s :| s in sources && Rewritten(s.name, to, ROLES) == name
             && Synced(secrets, sources, mc, to)[name].data == s.data;
    var role' := SourceRole(primary, from, to, s);
    SecretNamesDiffer(role, role', to, to);
  }

  /** What a sync writes, at any interruption, carries the standby's own labels. */
  lemma {:induction false} CopiesAreLabelled(secrets: map<string, Secret>, sources: seq<Source>, mc: string, to: string,
      name: string)
    ensures var after := Synced(secrets, sources, mc, to);
      name in after ==>
        || (name in secrets && after[name] == secrets[name])
        || after[name].labels ==
           map["application" := "spilo", "cluster-name" := to,
               "pgmc.aurelops.com/managed" := "true", "pgmc.aurelops.com/postgresmc" := mc]
  {
    if sources != [] { CopiesAreLabelled(secrets, sources[..|sources| - 1], mc, to, name); }
  }

  /** Every other Secret is as it was, also after a sync interrupted at any point. */
  lemma {:induction false} OtherSecretsStay(primary: map<string, Secret>, from: string, site: Site, site': Site,
      mc: string, to: string, name: string)
    requires SyncUnderway(site, site', Sources(primary, from, ROLES), mc, to)
    requires forall role :: role in ROLES && SecretName(role, from) in primary ==> name != SecretName(role, to)
    ensures (name in site'.secrets <==> name in site.secrets)
            && (name in site.secrets ==> site'.secrets[name] == site.secrets[name])
  {
    var sources := Sources(primary, from, ROLES);
    var k :| 0 <= k <= |sources| && site' == site.(secrets := Synced(site.secrets, sources[..k], mc, to));
    SyncedLooksUp(site.secrets, sources[..k], mc, to, name);
    forall s | s in sources[..k] ensures Rewritten(s.name, to, ROLES) != name {
      assert s in sources;
      var role := SourceRole(primary, from, to, s);
    }
  }

  /** Syncing again, with the primary's Secrets unchanged, changes nothing. */
  lemma {:induction false} SyncedTwice(primary: map<string, Secret>, from: string, secrets: map<string, Secret>,
      mc: string, to: string)
    ensures var sources := Sources(primary, from, ROLES);
      Synced(Synced(secrets, sources, mc, to), sources, mc, to) == Synced(secrets, sources, mc, to)
  {
    var sources := Sources(primary, from, ROLES);
    var once := Synced(secrets, sources, mc, to);
    forall s | s in sources
      ensures Rewritten(s.name, to, ROLES) in once && once[Rewritten(s.name, to, ROLES)].data == s.data
    {
      var role := SourceRole(primary, from, to, s);
      CredentialsArrive(primary, from, secrets, mc, to, role);
    }
    NothingToInstall(once, sources, mc, to);
  }

  lemma {:induction false} NothingToInstall(secrets: map<string, Secret>, sources: seq<Source>, mc: string,
      cluster: string)
    requires forall s :: s in sources ==>
      var name := Rewritten(s.name, cluster, ROLES); name in secrets && secrets[name].data == s.data
    ensures Synced(secrets, sources, mc, cluster) == secrets
  {
    if sources != [] {
      var src := sources[|sources| - 1];
      assert src in sources;
      NothingToInstall(secrets, sources[..|sources| - 1], mc, cluster);
    }
  }
}
