// The cache of workload-cluster clients (internal/clusters/registry.go), as one object and under
// concurrent callers.
module Registry {
  import opened Api
  import opened Text

  /** One version of a kubeconfig Secret. */
  datatype Version = Version(namespace: string, name: string, rv: string)

  datatype Entry<C> = Entry(client: C, builtAt: int)

  function Prefix(namespace: string, name: string): string {
    namespace + "/" + name + "@"
  }

  function Key(v: Version): string {
    Prefix(v.namespace, v.name) + v.rv
  }

  /** Kubernetes names hold neither separator; this much of that is needed. */
  predicate Separable(namespace: string, name: string) {
    '/' !in namespace && '@' !in name
  }

  predicate Proper(v: Version) {
    Separable(v.namespace, v.name)
  }

  lemma {:induction false} KeyTellsVersionsApart(a: Version, b: Version)
    requires Proper(a) && Proper(b) && Key(a) == Key(b)
    ensures a == b
  {
    var rest, rest' := a.name + ['@'] + a.rv, b.name + ['@'] + b.rv;
    assert Key(a) == a.namespace + ['/'] + rest && Key(b) == b.namespace + ['/'] + rest';
    SplitAtFirst(a.namespace, rest, b.namespace, rest', '/');
    SplitAtFirst(a.name, a.rv, b.name, b.rv, '@');
  }

  /** With a separator in a name two versions can share a key. */
  lemma {:induction false} ImproperNamesCollide()
    ensures var a, b := Version("ns", "k@1", "2"), Version("ns", "k", "1@2"); a != b && Key(a) == Key(b)
  {
    assert "ns/k@1@" + "2" == "ns/k@" + "1@2";
  }

  /** The prefix test of Invalidate picks exactly the versions of one Secret. */
  lemma {:induction false} PrefixPicksOneSecret(namespace: string, name: string, v: Version)
    requires Separable(namespace, name) && Proper(v)
    ensures Prefix(namespace, name) <= Key(v) <==> v.namespace == namespace && v.name == name
  {
    if Prefix(namespace, name) <= Key(v) {
      var rv := Key(v)[|Prefix(namespace, name)|..];
      assert Key(v) == Key(Version(namespace, name, rv));
      KeyTellsVersionsApart(v, Version(namespace, name, rv));
    }
  }

  /** Building a client from the data of a Secret. */
  function Rebuild<C>(build: string -> Result<C>, data: map<string, string>): Result<C> {
    if "kubeconfig" in data then build(data["kubeconfig"]) else Err("secret missing key 'kubeconfig'")
  }

  function Purged<C>(cache: map<string, Entry<C>>, namespace: string, name: string): map<string, Entry<C>> {
    map k | k in cache && !(Prefix(namespace, name) <= k) :: cache[k]
  }

  /** Every cached client is the one its version builds. */
  ghost predicate Faithful<C(!new)>(build: string -> Result<C>, content: Version -> map<string, string>,
      cache: map<string, Entry<C>>) {
    forall v: Version :: Proper(v) && Key(v) in cache ==> Rebuild(build, content(v)) == Ok(cache[Key(v)].client)
  }

  predicate Hit<C>(cache: map<string, Entry<C>>, v: Version, now: int, ttl: int) {
    Key(v) in cache && now - cache[Key(v)].builtAt < ttl
  }

  lemma {:induction false} InsertKeeps<C(!new)>(build: string -> Result<C>, content: Version -> map<string, string>,
                             cache: map<string, Entry<C>>, v: Version, e: Entry<C>)
    requires Faithful(build, content, cache) && Proper(v) && Rebuild(build, content(v)) == Ok(e.client)
    ensures Faithful(build, content, cache[Key(v) := e])
  {
    forall u: Version | Proper(u) && Key(u) in cache[Key(v) := e]
      ensures Rebuild(build, content(u)) == Ok(cache[Key(v) := e][Key(u)].client)
    {
      if Key(u) == Key(v) { KeyTellsVersionsApart(u, v); }
    }
  }

  class Cache<C(!new)> {
    const ttl: int
    const build: string -> Result<C>
    var cache: map<string, Entry<C>>

    constructor (ttl: int, build: string -> Result<C>)
      ensures cache == map[] && this.ttl == ttl && this.build == build
    {
      this.ttl, this.build, cache := ttl, build, map[];
    }

    /** The Secret has just been read at version v; `content` is what each version holds. */
    method GetClient(v: Version, data: map<string, string>, now: int, ghost content: Version -> map<string, string>)
      returns (r: Result<C>)
      requires Proper(v) && content(v) == data && Faithful(build, content, cache)
      modifies this`cache
      ensures Faithful(build, content, cache) && r == Rebuild(build, data)
      ensures if "kubeconfig" in data then r == build(data["kubeconfig"]) else r.Err?
      ensures cache == if r.Err? || Hit(old(cache), v, now, ttl) then old(cache)
                       else old(cache)[Key(v) := Entry(r.value, now)]
      ensures Key(v) in old(cache) && now - old(cache)[Key(v)].builtAt < ttl ==> cache == old(cache)
      ensures r.Ok? ==> Key(v) in cache && (now - cache[Key(v)].builtAt < ttl || cache[Key(v)].builtAt == now)
    {
      var key := Key(v);
      if key in cache && now - cache[key].builtAt < ttl {
        return Ok(cache[key].client);
      }
      if "kubeconfig" !in data {
        return Err("secret missing key 'kubeconfig'");
      }
      r := build(data["kubeconfig"]);
      if r.Err? {
        return;
      }
      InsertKeeps(build, content, cache, v, Entry(r.value, now));
      cache := cache[key := Entry(r.value, now)];
    }

    method Invalidate(namespace: string, name: string)
      modifies this`cache
      ensures cache == Purged(old(cache), namespace, name)
    {
      var prefix := Prefix(namespace, name);
      var todo := cache.Keys;
      while todo != {}
        invariant todo <= cache.Keys
        invariant forall k :: k in cache ==> k in old(cache) && cache[k] == old(cache)[k]
        invariant forall k :: k in old(cache) && k !in cache ==> prefix <= k
        invariant forall k :: k in cache && k !in todo ==> !(prefix <= k)
      {
        var k :| k in todo;
        todo := todo - {k};
        if |k| >= |prefix| && k[..|prefix|] == prefix {
          cache := cache - {k};
        }
      }
    }
  }

  // ---------- concurrent callers ----------

  /** Where a call of GetClient stands between its critical sections. */
  datatype Caller<C> =
    | Looking(v: Version)
    | Missed(v: Version)
    | Built(v: Version, client: C)
    | Returned(v: Version, r: Result<C>)

  datatype System<C> = System(cache: map<string, Entry<C>>, callers: map<nat, Caller<C>>, clock: int)

  datatype Env<!C(!new)> = Env(build: string -> Result<C>, content: Version -> map<string, string>, ttl: int)

  ghost predicate Moved<C(!new)>(s: System<C>, s': System<C>, id: nat, to: Caller<C>) {
    s'.callers == s.callers[id := to] && s'.clock == s.clock
  }

  ghost predicate Reads<C(!new)>(s: System<C>, s': System<C>, id: nat, v: Version) {
    Proper(v) && s'.cache == s.cache && Moved(s, s', id, Looking(v))
  }

  ghost predicate LooksUp<C(!new)>(e: Env<C>, s: System<C>, s': System<C>, id: nat) {
    && id in s.callers && s.callers[id].Looking? && s'.cache == s.cache
    && var v := s.callers[id].v;
       Moved(s, s', id, if Hit(s.cache, v, s.clock, e.ttl) then Returned(v, Ok(s.cache[Key(v)].client)) else Missed(v))
  }

  ghost predicate Builds<C(!new)>(e: Env<C>, s: System<C>, s': System<C>, id: nat) {
    && id in s.callers && s.callers[id].Missed? && s'.cache == s.cache
    && var v := s.callers[id].v;
       var r := Rebuild(e.build, e.content(v));
       Moved(s, s', id, if r.Ok? then Built(v, r.value) else Returned(v, r))
  }

  ghost predicate Inserts<C(!new)>(s: System<C>, s': System<C>, id: nat) {
    && id in s.callers && s.callers[id].Built?
    && var v, c := s.callers[id].v, s.callers[id].client;
       s'.cache == s.cache[Key(v) := Entry(c, s.clock)] && Moved(s, s', id, Returned(v, Ok(c)))
  }

  ghost predicate Invalidates<C(!new)>(s: System<C>, s': System<C>, namespace: string, name: string) {
    Separable(namespace, name) && s' == s.(cache := Purged(s.cache, namespace, name))
  }

  ghost predicate Ticks<C(!new)>(s: System<C>, s': System<C>) {
    s' == s.(clock := s'.clock)
  }

  ghost predicate Next<C(!new)>(e: Env<C>, s: System<C>, s': System<C>) {
    || (exists id, v :: Reads(s, s', id, v))
    || (exists id :: LooksUp(e, s, s', id) || Builds(e, s, s', id) || Inserts(s, s', id))
    || (exists namespace, name :: Invalidates(s, s', namespace, name))
    || Ticks(s, s')
  }

  ghost predicate Linked<C(!new)>(e: Env<C>, t: seq<System<C>>, i: int) {
    0 <= i < |t| - 1 && Next(e, t[i], t[i + 1])
  }

  ghost predicate IsRun<C(!new)>(e: Env<C>, t: seq<System<C>>) {
    && t != [] && t[0].cache == map[] && t[0].callers == map[]
    && forall i :: 0 <= i < |t| - 1 ==> Linked(e, t, i)
  }

  ghost predicate CallerOk<C(!new)>(e: Env<C>, c: Caller<C>) {
    && Proper(c.v)
    && (c.Built? ==> Rebuild(e.build, e.content(c.v)) == Ok(c.client))
    && (c.Returned? ==> Rebuild(e.build, e.content(c.v)) == c.r)
  }

  ghost predicate Inv<C(!new)>(e: Env<C>, s: System<C>) {
    Faithful(e.build, e.content, s.cache) && forall id :: id in s.callers ==> CallerOk(e, s.callers[id])
  }

  lemma {:induction false} StepKeeps<C(!new)>(e: Env<C>, s: System<C>, s': System<C>)
    requires Inv(e, s) && Next(e, s, s')
    ensures Inv(e, s')
  {
    if id :| Inserts(s, s', id) {
      assert CallerOk(e, s.callers[id]);
      InsertKeeps(e.build, e.content, s.cache, s.callers[id].v, Entry(s.callers[id].client, s.clock));
    } else if id :| LooksUp(e, s, s', id) || Builds(e, s, s', id) {
      assert CallerOk(e, s.callers[id]);
    }
  }

  /** Main result: whatever calls, invalidations and Secret updates interleave, every call returns
      exactly what rebuilding from the version it read would return. */
  lemma {:induction false} CacheRefinesRebuilding<C(!new)>(e: Env<C>, t: seq<System<C>>, i: int)
    requires IsRun(e, t) && 0 <= i < |t|
    ensures Inv(e, t[i])
    ensures forall id :: id in t[i].callers && t[i].callers[id].Returned? ==>
              t[i].callers[id].r == Rebuild(e.build, e.content(t[i].callers[id].v))
  {
    if i > 0 {
      CacheRefinesRebuilding(e, t, i - 1);
      assert Linked(e, t, i - 1);
      StepKeeps(e, t[i - 1], t[i]);
    }
    assert forall id :: id in t[i].callers ==> CallerOk(e, t[i].callers[id]);
  }

  /** Invalidation drops the entries of one Secret and no other. */
  lemma {:induction false} PurgeIsExact<C(!new)>(cache: map<string, Entry<C>>, namespace: string, name: string,
      v: Version)
    requires Separable(namespace, name) && Proper(v)
    ensures var after := Purged(cache, namespace, name);
      && (Key(v) in after <==> Key(v) in cache && !(v.namespace == namespace && v.name == name))
      && (Key(v) in after ==> after[Key(v)] == cache[Key(v)])
  {
    PrefixPicksOneSecret(namespace, name, v);
  }
}
