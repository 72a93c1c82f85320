// Bringing one cluster to its desired state: the primary's object and its credentials check, the
// credential copies, a standby's alias and object (reconcile_*.go of the controller).
module Reconciling {
  import opened Json
  import opened Api
  import opened Kube
  import opened Builder
  import opened Remote
  import opened CrossCluster
  import opened Replication
  import opened Credentials

  // ---------- primary ----------

  predicate HasCredentials(secrets: map<string, Secret>, cluster: string) {
    forall role :: role in ROLES ==> SecretName(role, cluster) in secrets
  }

  /** Applies the primary's object, then tells whether all its credential Secrets exist. */
  method ReconcilePrimary(fleet: Fleet, mc: string, spec: Spec, t: Target) returns (r: Result<bool>)
    requires fleet.Valid() && fleet.Serves(t.name)
    requires fleet.flight.Normal? && t.name == PrimaryName(fleet.flight.copy.clusters)
    modifies fleet
    ensures fleet.Valid() && fleet.begun == old(fleet.begun)
    ensures fleet.faults >= old(fleet.faults)
    ensures r.Err? && fleet.faults == old(fleet.faults) ==> spec.blob.Malformed?
    ensures fleet.flight == old(fleet.flight) && fleet.clients == old(fleet.clients)
    ensures fleet.w == old(fleet.w).(spec := fleet.w.spec, generation := fleet.w.generation, pg := fleet.w.pg)
    ensures var built := BuildPrimary(mc, spec, t);
      && (fleet.w.pg == old(fleet.w).pg || (built.Ok? && fleet.w.pg == old(fleet.w).pg[t.name := built.value]))
      && (r.Ok? ==> built.Ok? && fleet.w.pg == old(fleet.w).pg[t.name := built.value])
    ensures var secrets, cluster := old(fleet.w).sites[t.name].secrets, ClusterName(spec.teamId, t.name);
      r.Ok? ==>
        && (r.value <==> HasCredentials(secrets, cluster))
        && (r.value <==> SecretName("postgres", cluster) in secrets && SecretName("standby", cluster) in secrets)
  {
    var obj := BuildPrimary(mc, spec, t);
    if obj.Err? {
      return Err(obj.error);
    }
    var err := fleet.WritePg(t.name, obj.value);
    if err.Some? {
      return Err(err.value);
    }
    var k := 0;
    while k < |ROLES|
      invariant 0 <= k <= |ROLES| && fleet.Valid() && fleet.begun == old(fleet.begun)
      invariant fleet.flight == old(fleet.flight) && fleet.clients == old(fleet.clients)
      invariant fleet.w == old(fleet.w).(spec := fleet.w.spec, generation := fleet.w.generation, pg := fleet.w.pg)
      invariant fleet.w.pg == old(fleet.w).pg[t.name := obj.value] && fleet.faults >= old(fleet.faults)
      invariant forall i :: 0 <= i < k ==>
                  SecretName(ROLES[i], ClusterName(spec.teamId, t.name)) in fleet.w.sites[t.name].secrets
    {
      err := fleet.Call();
      if SecretName(ROLES[k], ClusterName(spec.teamId, t.name)) !in fleet.w.sites[t.name].secrets {
        return if err.Some? then Err(err.value) else Ok(false);
      }
      if err.Some? {
        return Err(err.value);
      }
      k := k + 1;
    }
    assert ROLES[0] == "postgres" && ROLES[1] == "standby";
    r := Ok(true);
  }

  // ---------- credentials ----------

  function SourcesOf(spec: Spec, p: Target, site: Site): seq<Source> {
    Sources(site.secrets, ClusterName(spec.teamId, p.name), ROLES)
  }

  /** From site to site', the credentials of one standby, all of them when `ok`. */
  ghost predicate Credentialed(mc: string, spec: Spec, sources: seq<Source>, t: Target, site: Site, site': Site,
      ok: bool)
  {
    var cluster := ClusterName(spec.teamId, t.name);
    && SyncUnderway(site, site', sources, mc, cluster)
    && (ok ==> site' == site.(secrets := Synced(site.secrets, sources, mc, cluster)))
  }

  ghost predicate CredentialedAt(mc: string, spec: Spec, sources: seq<Source>, t: Target, a: Workload, b: Workload,
      ok: bool)
  {
    && t.name in a.sites && t.name in b.sites
    && Credentialed(mc, spec, sources, t, a.sites[t.name], b.sites[t.name], ok)
  }

  method HasErrors(perCluster: map<string, Option<string>>) returns (r: bool)
    ensures r <==> exists c :: c in perCluster && perCluster[c].Some?
  {
    var todo := perCluster.Keys;
    while todo != {}
      invariant todo <= perCluster.Keys
      invariant forall c :: c in perCluster && c !in todo ==> perCluster[c].None?
    {
      var c :| c in todo;
      if perCluster[c].Some? {
        return true;
      }
      todo := todo - {c};
    }
    r := false;
  }

  function TargetsOf(team: string, standbys: seq<Target>): seq<StandbyTarget> {
    seq(|standbys|, i requires 0 <= i < |standbys| =>
          StandbyTarget(standbys[i].name, ClusterName(team, standbys[i].name)))
  }

  lemma {:induction false} TargetsAreSeparate(team: string, standbys: seq<Target>, n: string)
    requires DistinctNames(standbys) && !Named(standbys, n)
    ensures Separate(TargetsOf(team, standbys), n)
    ensures SitesOf(TargetsOf(team, standbys)) == TargetNames(standbys)
  {
    var targets := TargetsOf(team, standbys);
    forall i, j | 0 <= i < j < |targets|
      ensures targets[i].n != targets[j].n && targets[i].cluster != targets[j].cluster
    {
      ClusterNamesDiffer(team, standbys[i].name, standbys[j].name);
    }
    forall m ensures m in SitesOf(targets) <==> m in TargetNames(standbys) {
      if m in TargetNames(standbys) {
        var i :| 0 <= i < |standbys| && standbys[i].name == m;
        assert targets[i].n == m;
      }
    }
  }

  /** Copies the primary's credentials to every standby. */
  method ReconcileCredentials(fleet: Fleet, mc: string, spec: Spec, primary: Target, standbys: seq<Target>)
    returns (err: Option<string>)
    requires fleet.Valid() && fleet.Serves(primary.name) && ServesAll(fleet, standbys)
    requires DistinctNames(standbys) && !Named(standbys, primary.name)
    modifies fleet
    ensures fleet.Valid() && fleet.begun == old(fleet.begun)
    ensures fleet.faults >= old(fleet.faults) && (err.Some? ==> fleet.faults > old(fleet.faults))
    ensures fleet.flight == old(fleet.flight) && fleet.clients == old(fleet.clients)
    ensures fleet.w == old(fleet.w).(spec := fleet.w.spec, generation := fleet.w.generation, sites := fleet.w.sites)
    ensures OnlySites(Load(old(fleet.w)), Load(fleet.w), TargetNames(standbys))
    ensures var sources := SourcesOf(spec, primary, old(fleet.w).sites[primary.name]);
      forall i :: 0 <= i < |standbys| ==>
        CredentialedAt(mc, spec, sources, standbys[i], Load(old(fleet.w)), Load(fleet.w), err.None?)
  {
    hide Synced, SyncUnderway, Sources;
    ghost var w0, sources := Load(fleet.w), SourcesOf(spec, primary, fleet.w.sites[primary.name]);
    var targets: seq<StandbyTarget> := [];
    var k := 0;
    while k < |standbys|
      invariant 0 <= k <= |standbys| && targets == TargetsOf(spec.teamId, standbys[..k])
    {
      targets := targets + [StandbyTarget(standbys[k].name, ClusterName(spec.teamId, standbys[k].name))];
      k := k + 1;
    }
    assert standbys[..k] == standbys;
    TargetsAreSeparate(spec.teamId, standbys, primary.name);
    var r := SyncFromPrimary(fleet, mc, primary.name, ClusterName(spec.teamId, primary.name), targets);
    if r.Err? {
      err := Some(r.error);
      NothingSynced(w0.sites, sources, mc);
    } else {
      var bad := HasErrors(r.value);
      err := if bad then Some("credential sync had errors") else None;
    }
    forall i | 0 <= i < |standbys|
      ensures CredentialedAt(mc, spec, sources, standbys[i], w0, Load(fleet.w), err.None?)
    {
      assert targets[i].n == standbys[i].name && targets[i].cluster == ClusterName(spec.teamId, standbys[i].name);
      assert r.Ok? ==> SyncedAt(w0, Load(fleet.w), targets[i], sources, mc, r.value[targets[i].cluster].None?);
    }
  }

  lemma {:induction false} NothingSynced(sites: map<string, Site>, sources: seq<Source>, mc: string)
    ensures forall n, cluster :: n in sites ==> SyncUnderway(sites[n], sites[n], sources, mc, cluster)
  {
    assert sources[..0] == [];
    forall n, cluster | n in sites ensures SyncUnderway(sites[n], sites[n], sources, mc, cluster) {
      assert sites[n] == sites[n].(secrets := Synced(sites[n].secrets, sources[..0], mc, cluster));
    }
  }

  /** The name is that of a credential the primary has, for the standby. */
  ghost predicate IsCopy(hub: map<string, Secret>, from: string, to: string, name: string) {
    exists role :: role in ROLES && SecretName(role, from) in hub && name == SecretName(role, to)
  }

  /** Credentials arrive: copied without an error, every credential the primary has is on the standby under
      the standby's own name with the same data; and error or not, no other Secret there moved. */
  lemma {:induction false} CredentialsAreCopied(mc: string, spec: Spec, p: Target, hub: Site, t: Target, site: Site,
      site': Site, ok: bool)
    requires Credentialed(mc, spec, SourcesOf(spec, p, hub), t, site, site', ok)
    ensures var from, to := ClusterName(spec.teamId, p.name), ClusterName(spec.teamId, t.name);
      && (ok ==> forall role :: role in ROLES && SecretName(role, from) in hub.secrets ==>
            && SecretName(role, to) in site'.secrets
            && site'.secrets[SecretName(role, to)].data == hub.secrets[SecretName(role, from)].data)
      && (forall name :: !IsCopy(hub.secrets, from, to, name) ==>
            && (name in site'.secrets <==> name in site.secrets)
            && (name in site.secrets ==> site'.secrets[name] == site.secrets[name]))
      && site'.services == site.services && site'.endpoints == site.endpoints
  {
    hide Synced, SecretName;
    var from, to := ClusterName(spec.teamId, p.name), ClusterName(spec.teamId, t.name);
    if ok {
      forall role | role in ROLES && SecretName(role, from) in hub.secrets
        ensures SecretName(role, to) in site'.secrets
        ensures site'.secrets[SecretName(role, to)].data == hub.secrets[SecretName(role, from)].data
      {
        CredentialsArrive(hub.secrets, from, site.secrets, mc, to, role);
      }
    }
    forall name | !IsCopy(hub.secrets, from, to, name)
      ensures name in site'.secrets <==> name in site.secrets
      ensures name in site.secrets ==> site'.secrets[name] == site.secrets[name]
    {
      OtherSecretsStay(hub.secrets, from, site, site', mc, to, name);
    }
  }

  // ---------- standby ----------

  function WithDefaultPort(e: Endpoint): Endpoint {
    if e.port == 0 then e.(port := 5432) else e
  }

  /** The object of a standby that follows the alias in its own namespace. */
  function StandbyObject(mc: string, spec: Spec, t: Target, e: Endpoint): Result<Json> {
    BuildStandby(mc, spec, t, AliasFQDN(mc, t.namespace), WithDefaultPort(e).port)
  }

  function Aliased(isIP: string -> bool, mc: string, e: Endpoint, site: Site): Site {
    AliasEnsured(isIP(e.host), site, mc, e.host, WithDefaultPort(e).port)
  }

  /** What an attempt at one standby does to its site and object: nothing without an address for the
      primary; else the alias first, and the object only once the alias stands. */
  ghost predicate FollowedOn(isIP: string -> bool, mc: string, spec: Spec, e: Endpoint, t: Target, site: Site,
      site': Site, was: Option<Json>, now: Option<Json>, err: Option<string>)
  {
    var obj := StandbyObject(mc, spec, t, e);
    && (e.host == "" ==> err.Some? && site' == site && now == was)
    && AliasUnderway(isIP(e.host), site, site', mc, e.host, WithDefaultPort(e).port)
    && (now == was || (obj.Ok? && now == Some(obj.value) && site' == Aliased(isIP, mc, e, site)))
    && (err.None? ==> obj.Ok? && now == Some(obj.value) && site' == Aliased(isIP, mc, e, site))
  }

  ghost predicate Followed(isIP: string -> bool, mc: string, spec: Spec, e: Endpoint, t: Target, a: Workload,
      b: Workload, err: Option<string>)
  {
    var n := t.name;
    && n in a.sites && n in b.sites
    && FollowedOn(isIP, mc, spec, e, t, a.sites[n], b.sites[n], Lookup(a.pg, n), Lookup(b.pg, n), err)
  }

  method ReconcileStandby(fleet: Fleet, mc: string, spec: Spec, e: Endpoint, t: Target) returns (err: Option<string>)
    requires fleet.Valid() && fleet.flight.Normal? && fleet.Serves(t.name)
    modifies fleet
    ensures fleet.Valid() && fleet.begun == old(fleet.begun)
    ensures fleet.faults >= old(fleet.faults)
    ensures err.Some? && fleet.faults == old(fleet.faults) ==> e.host == "" || spec.blob.Malformed?
    ensures fleet.flight == old(fleet.flight) && fleet.clients == old(fleet.clients)
    ensures fleet.w.status == old(fleet.w).status
    ensures OnlySites(Load(old(fleet.w)), Load(fleet.w), {t.name})
              && OnlyPg(Load(old(fleet.w)), Load(fleet.w), {t.name})
    ensures Followed(fleet.isIP, mc, spec, e, t, Load(old(fleet.w)), Load(fleet.w), err)
  {
    hide AliasEnsured, BuildStandby, Describes, Lists, Streams;
    if e.host == "" {
      return Some("primary endpoint not yet discovered");
    }
    var port := e.port;
    if port == 0 {
      port := 5432;
    }
    err := EnsurePrimaryAlias(fleet, t.name, mc, e.host, port);
    if err.Some? {
      return;
    }
    var obj := BuildStandby(mc, spec, t, AliasFQDN(mc, t.namespace), port);
    if obj.Err? {
      return Some(obj.error);
    }
    err := fleet.WritePg(t.name, obj.value);
  }
}
