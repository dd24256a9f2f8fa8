/**
 * The cache producer: three name-to-cache registries (plain, loading and
 * asynchronous loading caches), filled by compute-if-absent with caches built
 * from the configuration, and the lazy handles it hands out to injection
 * points, which resolve their cache on first use.
 */
module Producer {
  import opened Wrappers
  import opened Exceptions
  import opened Configuration
  import opened Components
  import opened Policy
  import opened Caches

  datatype Flavour = Plain | Loading | AsyncLoading

  /** The injection point a cache is produced for: its @Named value, if any. */
  datatype InjectionPoint = InjectionPoint(named: Option<string>)

  /** getNameFrom(ProviderContext): the @Named value, or an
      UnsupportedOperationException when there is none. */
  function NameFrom(ip: InjectionPoint): (r: Result<string, Exception>)
    ensures r.Ok? <==> ip.named.Some?
    ensures r.Ok? ==> ip.named == Some(r.value)
    ensures r.Err? ==> r.error == UnsupportedOperationException
  {
    if ip.named.None? then Err(UnsupportedOperationException) else Ok(ip.named.value)
  }

  /** The producer's three name-to-cache maps, plain, loading and
      asynchronous loading. */
  datatype Registries<K, V> = Registries(
    plain: map<string, Cache<K, V>>,
    loading: map<string, Cache<K, V>>,
    async: map<string, Cache<K, V>>)
  {
    function At(f: Flavour): map<string, Cache<K, V>>
    {
      match f
      case Plain => plain
      case Loading => loading
      case AsyncLoading => async
    }

    /** The registries after name was mapped to c in the map of flavour f. */
    function With(f: Flavour, name: string, c: Cache<K, V>): (r: Registries<K, V>)
      ensures r.At(f) == At(f)[name := c]
      ensures forall g :: g != f ==> r.At(g) == At(g)
    {
      match f
      case Plain => this.(plain := plain[name := c])
      case Loading => this.(loading := loading[name := c])
      case AsyncLoading => this.(async := async[name := c])
    }

    /** No cache object is registered under two flavours or names. */
    ghost predicate Unshared()
    {
      forall f, g, n, m :: n in At(f) && m in At(g) && At(f)[n] == At(g)[m] ==> f == g && n == m
    }

    /** Adding a cache registered nowhere else keeps the registries unshared. */
    lemma WithKeepsUnshared(f: Flavour, name: string, c: Cache<K, V>)
      requires Unshared() && name !in At(f)
      requires forall g, n :: n in At(g) ==> At(g)[n] != c
      ensures With(f, name, c).Unshared()
    {
      var next := With(f, name, c);
      forall g, h, n, m | n in next.At(g) && m in next.At(h) && next.At(g)[n] == next.At(h)[m]
        ensures g == h && n == m
      {
        if (g != f || n != name) && (h != f || m != name) {
          assert next.At(g)[n] == At(g)[n] && next.At(h)[m] == At(h)[m];
        }
      }
    }
  }

  class CacheProducer<K(==), V> {
    /** The injected configuration store and the components the container knows. */
    const config: Config
    const components: seq<Component<K, V>>

    var caches: map<string, Cache<K, V>>
    var loadingCaches: map<string, Cache<K, V>>
    var asyncLoadingCaches: map<string, Cache<K, V>>

    /** Every cache construction, in the order they happened. */
    ghost var builds: seq<(Flavour, string)>

    constructor (config: Config, components: seq<Component<K, V>>)
      ensures this.config == config && this.components == components
      ensures caches == map[] && loadingCaches == map[] && asyncLoadingCaches == map[]
      ensures builds == [] && Valid()
    {
      this.config := config;
      this.components := components;
      caches, loadingCaches, asyncLoadingCaches := map[], map[], map[];
      builds := [];
    }

    /** The three registries as one value. */
    function Registry(): Registries<K, V>
      reads this
    {
      Registries(caches, loadingCaches, asyncLoadingCaches)
    }

    /** The registry of one flavour. */
    function MapOf(f: Flavour): map<string, Cache<K, V>>
      reads this
    {
      Registry().At(f)
    }

    /** The policy a cache of this name gets, or the configuration error. */
    function PolicyOf(name: string): Result<CachePolicy<K, V>, Exception>
    {
      PolicyFor(config, components, name)
    }

    /** The loader a cache of this flavour and name gets; none for a plain cache. */
    function LoaderOf(f: Flavour, name: string): Option<K -> Option<V>>
    {
      match f
      case Plain => None
      case Loading => Some(LoaderFor(components, LoaderKind, name))
      case AsyncLoading => Some(LoaderFor(components, AsyncLoaderKind, name))
    }

    /** c is what the build step makes for flavour f and this name. */
    ghost predicate BuiltFor(f: Flavour, name: string, c: Cache<K, V>)
    {
      PolicyOf(name).Ok? && c.policy == PolicyOf(name).value && c.loader == LoaderOf(f, name)
    }

    /** The registered cache of this flavour and name, as a set of at most one. */
    ghost function Slot(f: Flavour, name: string): set<Cache<K, V>>
      reads this
    {
      if name in MapOf(f) then {MapOf(f)[name]} else {}
    }

    /** The entries of the registered cache; none while it is not built. */
    ghost function View(f: Flavour, name: string): map<K, V>
      reads this, Slot(f, name)
    {
      if name in MapOf(f) then MapOf(f)[name].entries else map[]
    }

    /** Every registered cache was built from its name's configuration. */
    ghost predicate AllBuilt(reg: Registries<K, V>)
    {
      forall f, n :: n in reg.At(f) ==> BuiltFor(f, n, reg.At(f)[n])
    }

    /** The build log lists exactly the registered flavours and names, each
        once: every cache was built exactly once. */
    ghost predicate BuiltOnce(reg: Registries<K, V>, log: seq<(Flavour, string)>)
    {
      && (forall f, n :: (f, n) in log <==> n in reg.At(f))
      && (forall i, j :: 0 <= i < j < |log| ==> log[i] != log[j])
    }

    ghost predicate ValidFor(reg: Registries<K, V>, log: seq<(Flavour, string)>)
    {
      AllBuilt(reg) && BuiltOnce(reg, log) && reg.Unshared()
    }

    ghost predicate Valid()
      reads this
    {
      ValidFor(Registry(), builds)
    }

    /** Registering a new cache, built for its name and not registered
        elsewhere, keeps the registries valid and logs one build. */
    lemma RegisterKeepsValid(reg: Registries<K, V>, log: seq<(Flavour, string)>, f: Flavour, name: string, c: Cache<K, V>)
      requires ValidFor(reg, log) && name !in reg.At(f) && BuiltFor(f, name, c)
      requires forall g, n :: n in reg.At(g) ==> reg.At(g)[n] != c
      ensures ValidFor(reg.With(f, name, c), log + [(f, name)])
    {
      RegisterKeepsBuilt(reg, f, name, c);
      RegisterLogsOnce(reg, log, f, name, c);
      reg.WithKeepsUnshared(f, name, c);
    }

    lemma RegisterKeepsBuilt(reg: Registries<K, V>, f: Flavour, name: string, c: Cache<K, V>)
      requires AllBuilt(reg) && BuiltFor(f, name, c)
      ensures AllBuilt(reg.With(f, name, c))
    {
    }

    lemma RegisterLogsOnce(reg: Registries<K, V>, log: seq<(Flavour, string)>, f: Flavour, name: string, c: Cache<K, V>)
      requires BuiltOnce(reg, log) && name !in reg.At(f)
      ensures BuiltOnce(reg.With(f, name, c), log + [(f, name)])
    {
    }

    /** Between the two states the registries changed at most by the build
        of this flavour and name: entries are never replaced or removed. */
    twostate predicate GrewAt(f: Flavour, name: string)
      reads this
    {
      && (forall g :: g != f ==> MapOf(g) == old(MapOf(g)))
      && ((MapOf(f) == old(MapOf(f)) && builds == old(builds))
          || (&& name !in old(MapOf(f)) && name in MapOf(f)
              && MapOf(f) == old(MapOf(f))[name := MapOf(f)[name]]
              && builds == old(builds) + [(f, name)]))
    }

    // -------------------------------------------------------------------
    // Building a cache

    /** configureExpirationBySize: both amounts are read before the builder is
        touched; each bound is set only when its amount is positive. */
    method ConfigureExpirationBySize(name: string, builder: CaffeineBuilder<K, V>) returns (r: Result<(), Exception>)
      modifies builder
      ensures GetLong(config, SizePath(name)).Err? ==> r == Err(GetLong(config, SizePath(name)).error)
      ensures GetLong(config, SizePath(name)).Ok? && GetLong(config, WeightPath(name)).Err? ==>
        r == Err(GetLong(config, WeightPath(name)).error)
      ensures r.Err? ==> unchanged(builder)
      ensures r.Ok? <==> GetLong(config, SizePath(name)).Ok? && GetLong(config, WeightPath(name)).Ok?
      ensures r.Ok? ==>
        var size, weight := GetLong(config, SizePath(name)).value, GetLong(config, WeightPath(name)).value;
        && builder.maximumSize == (if size > 0 then Some(size) else old(builder.maximumSize))
        && builder.maximumWeight == (if weight > 0 then Some(weight) else old(builder.maximumWeight))
        && builder.expireAfterAccess == old(builder.expireAfterAccess)
        && builder.expireAfterWrite == old(builder.expireAfterWrite)
        && builder.writer == old(builder.writer)
    {
      var size :- GetLong(config, SizePath(name));
      var weight :- GetLong(config, WeightPath(name));
      if size > 0 {
        builder.maximumSize := Some(size);
      }
      if weight > 0 {
        builder.maximumWeight := Some(weight);
      }
      return Ok(());
    }

    /** configureExpirationByTime: the unit (MINUTES by default) and both
        amounts are read first; each expiration is set only when its amount is
        positive, with that unit. */
    method ConfigureExpirationByTime(name: string, builder: CaffeineBuilder<K, V>) returns (r: Result<(), Exception>)
      modifies builder
      ensures GetTimeUnit(config, UnitPath(name)).Err? ==> r == Err(GetTimeUnit(config, UnitPath(name)).error)
      ensures GetTimeUnit(config, UnitPath(name)).Ok? && GetLong(config, AccessPath(name)).Err? ==>
        r == Err(GetLong(config, AccessPath(name)).error)
      ensures GetTimeUnit(config, UnitPath(name)).Ok? && GetLong(config, AccessPath(name)).Ok? && GetLong(config, WritePath(name)).Err? ==>
        r == Err(GetLong(config, WritePath(name)).error)
      ensures r.Err? ==> unchanged(builder)
      ensures r.Ok? <==>
        GetTimeUnit(config, UnitPath(name)).Ok? && GetLong(config, AccessPath(name)).Ok? && GetLong(config, WritePath(name)).Ok?
      ensures r.Ok? ==>
        var unit := GetTimeUnit(config, UnitPath(name)).value;
        var access, write := GetLong(config, AccessPath(name)).value, GetLong(config, WritePath(name)).value;
        && builder.expireAfterAccess == (if access > 0 then Some(Duration(access, unit)) else old(builder.expireAfterAccess))
        && builder.expireAfterWrite == (if write > 0 then Some(Duration(write, unit)) else old(builder.expireAfterWrite))
        && builder.maximumSize == old(builder.maximumSize)
        && builder.maximumWeight == old(builder.maximumWeight)
        && builder.writer == old(builder.writer)
    {
      var unit :- GetTimeUnit(config, UnitPath(name));
      var access :- GetLong(config, AccessPath(name));
      var write :- GetLong(config, WritePath(name));
      if access > 0 {
        builder.expireAfterAccess := Some(Duration(access, unit));
      }
      if write > 0 {
        builder.expireAfterWrite := Some(Duration(write, unit));
      }
      return Ok(());
    }

    /** configureWriterFor: attaches the writer whose @Named value is the
        cache name, if there is one. */
    method ConfigureWriterFor(name: string, builder: CaffeineBuilder<K, V>)
      modifies builder
      ensures builder.writer ==
        (if Resolve(components, WriterKind, name).Some? then Resolve(components, WriterKind, name) else old(builder.writer))
      ensures builder.maximumSize == old(builder.maximumSize) && builder.maximumWeight == old(builder.maximumWeight)
      ensures builder.expireAfterAccess == old(builder.expireAfterAccess)
      ensures builder.expireAfterWrite == old(builder.expireAfterWrite)
    {
      var writer := Resolve(components, WriterKind, name);
      if writer.Some? {
        builder.writer := writer;
      }
    }

    /** createNewCacheBuilder: a new builder configured by size, by time and
        with a writer, in that order; it ends up holding PolicyOf(name). */
    method CreateNewCacheBuilder(name: string) returns (r: Result<CaffeineBuilder<K, V>, Exception>)
      ensures r.Ok? ==> fresh(r.value) && PolicyOf(name) == Ok(r.value.Policy())
      ensures r.Err? ==> PolicyOf(name) == Err(r.error)
    {
      var builder := new CaffeineBuilder();
      var sized := ConfigureExpirationBySize(name, builder);
      if sized.Err? {
        return Err(sized.error);
      }
      var timed := ConfigureExpirationByTime(name, builder);
      if timed.Err? {
        return Err(timed.error);
      }
      ConfigureWriterFor(name, builder);
      return Ok(builder);
    }

    /** buildLoadingCache and buildAsyncLoadingCache: the loader of that kind
        whose @Named value is the cache name, else the empty loader. */
    method BuildLoadingCache(f: Flavour, name: string, builder: CaffeineBuilder<K, V>) returns (c: Cache<K, V>)
      requires f != Plain
      ensures fresh(c) && c.entries == map[] && c.policy == builder.Policy()
      ensures c.loader == LoaderOf(f, name)
    {
      var kind := if f == Loading then LoaderKind else AsyncLoaderKind;
      var load := LoaderFor(components, kind, name);
      c := new Cache(builder.Policy(), Some(load));
    }

    /** The function computeIfAbsent runs for an absent name of flavour f. */
    method Build(f: Flavour, name: string) returns (r: Result<Cache<K, V>, Exception>)
      ensures r.Ok? <==> PolicyOf(name).Ok?
      ensures r.Ok? ==> fresh(r.value) && r.value.entries == map[] && BuiltFor(f, name, r.value)
      ensures r.Err? ==> r.error == PolicyOf(name).error
    {
      var builder :- CreateNewCacheBuilder(name);
      var c: Cache<K, V>;
      if f == Plain {
        c := new Cache(builder.Policy(), None);
      } else {
        c := BuildLoadingCache(f, name, builder);
      }
      return Ok(c);
    }

    // -------------------------------------------------------------------
    // The registries

    /** computeIfAbsent on the registry of flavour f: the registered cache if
        there is one, untouched; else a cache built now and registered, or the
        build's exception with the registry unchanged. */
    method GetOrBuild(f: Flavour, name: string) returns (r: Result<Cache<K, V>, Exception>)
      requires Valid()
      modifies this
      ensures Valid() && GrewAt(f, name)
      ensures r.Ok? <==> PolicyOf(name).Ok?
      ensures r.Err? ==> r.error == PolicyOf(name).error && unchanged(this)
      ensures name in old(MapOf(f)) ==> r == Ok(old(MapOf(f))[name]) && unchanged(this)
      ensures name !in old(MapOf(f)) && r.Ok? ==>
        && fresh(r.value) && r.value.entries == map[]
        && MapOf(f) == old(MapOf(f))[name := r.value]
        && builds == old(builds) + [(f, name)]
    {
      if name in MapOf(f) {
        return Ok(MapOf(f)[name]);
      }
      var built := Build(f, name);
      if built.Err? {
        return Err(built.error);
      }
      var c := built.value;
      Register(f, name, c);
      return Ok(c);
    }

    /** The store step of computeIfAbsent: registers a newly built cache. */
    method Register(f: Flavour, name: string, c: Cache<K, V>)
      requires Valid() && name !in MapOf(f) && BuiltFor(f, name, c)
      requires forall g, n :: n in MapOf(g) ==> MapOf(g)[n] != c
      modifies this
      ensures Valid()
      ensures MapOf(f) == old(MapOf(f))[name := c]
      ensures forall g :: g != f ==> MapOf(g) == old(MapOf(g))
      ensures builds == old(builds) + [(f, name)]
    {
      forall g, n | n in Registry().At(g)
        ensures Registry().At(g)[n] != c
      {
        assert n in MapOf(g);
      }
      RegisterKeepsValid(Registry(), builds, f, name, c);
      var next := Registry().With(f, name, c);
      caches, loadingCaches, asyncLoadingCaches := next.plain, next.loading, next.async;
      builds := builds + [(f, name)];
      assert Registry() == next;
    }

    // -------------------------------------------------------------------
    // The producer methods

    /** produceCache, produceLoadingCache and produceAsyncLoadingCache: a new
        unresolved handle for the injection point's name. Producing touches no
        registry and builds nothing. */
    method Produce(f: Flavour, ip: InjectionPoint) returns (r: Result<LazyCache<K, V>, Exception>)
      ensures unchanged(this)
      ensures r.Err? <==> ip.named.None?
      ensures r.Err? ==> r.error == UnsupportedOperationException
      ensures r.Ok? ==> fresh(r.value) && r.value.Unresolved(this, f, ip.named.value)
    {
      var name :- NameFrom(ip);
      var handle := new LazyCache(this, f, name);
      return Ok(handle);
    }

    method ProduceCache(ip: InjectionPoint) returns (r: Result<LazyCache<K, V>, Exception>)
      ensures unchanged(this)
      ensures r.Err? <==> ip.named.None?
      ensures r.Err? ==> r.error == UnsupportedOperationException
      ensures r.Ok? ==> fresh(r.value) && r.value.Unresolved(this, Plain, ip.named.value)
    {
      r := Produce(Plain, ip);
    }

    method ProduceLoadingCache(ip: InjectionPoint) returns (r: Result<LazyCache<K, V>, Exception>)
      ensures unchanged(this)
      ensures r.Err? <==> ip.named.None?
      ensures r.Err? ==> r.error == UnsupportedOperationException
      ensures r.Ok? ==> fresh(r.value) && r.value.Unresolved(this, Loading, ip.named.value)
    {
      r := Produce(Loading, ip);
    }

    method ProduceAsyncLoadingCache(ip: InjectionPoint) returns (r: Result<LazyCache<K, V>, Exception>)
      ensures unchanged(this)
      ensures r.Err? <==> ip.named.None?
      ensures r.Err? ==> r.error == UnsupportedOperationException
      ensures r.Ok? ==> fresh(r.value) && r.value.Unresolved(this, AsyncLoading, ip.named.value)
    {
      r := Produce(AsyncLoading, ip);
    }
  }

  /** A lazy handle (LazyCache, LazyLoadingCache, LazyAsyncLoadingCache): a
      name and a flavour fixing which registry its supplier consults, and the
      memoised target. Every operation resolves the target first and then
      forwards to it. An asynchronous handle offers get, getAll,
      getIfPresent, get with a mapping function and put only, as
      AsyncLoadingCache does. */
  class LazyCache<K(==), V> {
    const producer: CacheProducer<K, V>
    const flavour: Flavour
    const name: string
    var target: Option<Cache<K, V>>

    /** Construction stores the supplier only; nothing is resolved. */
    constructor (producer: CacheProducer<K, V>, flavour: Flavour, name: string)
      ensures Unresolved(producer, flavour, name)
    {
      this.producer := producer;
      this.flavour := flavour;
      this.name := name;
      target := None;
    }

    ghost predicate Unresolved(p: CacheProducer<K, V>, f: Flavour, n: string)
      reads this
    {
      producer == p && flavour == f && name == n && target.None?
    }

    /** A resolved target is the cache registered under the handle's name. */
    ghost predicate Valid()
      reads this, producer
    {
      && producer.Valid()
      && (target.Some? ==> name in producer.MapOf(flavour) && producer.MapOf(flavour)[name] == target.value)
    }

    /** The entries the handle sees: its cache's, or none before it is built. */
    ghost function Contents(): map<K, V>
      reads this, producer, producer.Slot(flavour, name)
    {
      producer.View(flavour, name)
    }

    /** What every operation guarantees about the resolution step: it fails
        exactly when this name's configuration is erroneous, and then nothing
        changed; otherwise the target is set, and the registries grew at most
        by this handle's cache. */
    twostate predicate Resolved<T>(new r: Result<T, Exception>)
      reads this, producer
    {
      && Valid() && producer.GrewAt(flavour, name)
      && (r.Ok? <==> producer.PolicyOf(name).Ok?)
      && (r.Ok? ==> target.Some?)
      && (old(target).Some? ==> target == old(target) && unchanged(producer))
      && (r.Err? ==> r.error == producer.PolicyOf(name).error && unchanged(this) && unchanged(producer))
    }

    /** The lazy getter: the memoised target, or the supplier's result, which
        is then memoised. The supplier runs only while no target is set. */
    method GetTarget() returns (r: Result<Cache<K, V>, Exception>)
      requires Valid()
      modifies this, producer
      ensures Resolved(r)
      ensures r.Ok? ==> target == Some(r.value) && r.value.entries == old(Contents())
      ensures r.Ok? ==> producer.BuiltFor(flavour, name, r.value)
      ensures r.Ok? ==> r.value in old(producer.Slot(flavour, name)) || fresh(r.value)
    {
      if target.Some? {
        return Ok(target.value);
      }
      var c :- producer.GetOrBuild(flavour, name);
      target := Some(c);
      return Ok(c);
    }

    /** LoadingCache.get(key) and AsyncLoadingCache.get(key). */
    method Get(key: K) returns (r: Result<Option<V>, Exception>)
      requires Valid() && flavour != Plain
      modifies this, producer, producer.Slot(flavour, name)
      ensures Resolved(r)
      ensures r.Ok? ==>
        var before, load := old(Contents()), producer.LoaderOf(flavour, name).value;
        if key in before then r.value == Some(before[key]) && Contents() == before
        else r.value == load(key) && Contents() == Stored(before, key, load(key))
    {
      var t :- GetTarget();
      var value := t.Get(key);
      return Ok(value);
    }

    /** LoadingCache.getAll(keys). */
    method GetAll(keys: set<K>) returns (r: Result<map<K, V>, Exception>)
      requires Valid() && flavour != Plain
      modifies this, producer, producer.Slot(flavour, name)
      ensures Resolved(r)
      ensures r.Ok? ==>
        && Contents() == old(Contents()) + Loaded(keys - old(Contents()).Keys, producer.LoaderOf(flavour, name).value)
        && r.value == Restrict(Contents(), keys)
    {
      var t :- GetTarget();
      var found := t.GetAll(keys);
      return Ok(found);
    }

    /** getIfPresent(key). */
    method GetIfPresent(key: K) returns (r: Result<Option<V>, Exception>)
      requires Valid()
      modifies this, producer
      ensures Resolved(r) && Contents() == old(Contents())
      ensures r.Ok? ==> r.value == if key in old(Contents()) then Some(old(Contents())[key]) else None
    {
      var t :- GetTarget();
      var value := t.GetIfPresent(key);
      return Ok(value);
    }

    /** get(key, mappingFunction). */
    method GetWith(key: K, mapping: K -> Option<V>) returns (r: Result<Option<V>, Exception>)
      requires Valid()
      modifies this, producer, producer.Slot(flavour, name)
      ensures Resolved(r)
      ensures r.Ok? ==>
        var before := old(Contents());
        if key in before then r.value == Some(before[key]) && Contents() == before
        else r.value == mapping(key) && Contents() == Stored(before, key, mapping(key))
    {
      var t :- GetTarget();
      var value := t.ComputeIfAbsent(key, mapping);
      return Ok(value);
    }

    /** getAllPresent(keys). */
    method GetAllPresent(keys: set<K>) returns (r: Result<map<K, V>, Exception>)
      requires Valid() && flavour != AsyncLoading
      modifies this, producer
      ensures Resolved(r) && Contents() == old(Contents())
      ensures r.Ok? ==> r.value == Restrict(old(Contents()), keys)
    {
      var t :- GetTarget();
      var found := t.GetAllPresent(keys);
      return Ok(found);
    }

    /** put(key, value). */
    method Put(key: K, value: V) returns (r: Result<(), Exception>)
      requires Valid()
      modifies this, producer, producer.Slot(flavour, name)
      ensures Resolved(r)
      ensures r.Ok? ==> Contents() == old(Contents())[key := value]
    {
      var t :- GetTarget();
      t.Put(key, value);
      return Ok(());
    }

    /** putAll(m). */
    method PutAll(m: map<K, V>) returns (r: Result<(), Exception>)
      requires Valid() && flavour != AsyncLoading
      modifies this, producer, producer.Slot(flavour, name)
      ensures Resolved(r)
      ensures r.Ok? ==> Contents() == old(Contents()) + m
    {
      var t :- GetTarget();
      t.PutAll(m);
      return Ok(());
    }

    /** invalidate(key). */
    method Invalidate(key: K) returns (r: Result<(), Exception>)
      requires Valid() && flavour != AsyncLoading
      modifies this, producer, producer.Slot(flavour, name)
      ensures Resolved(r)
      ensures r.Ok? ==> Contents() == old(Contents()) - {key}
    {
      var t :- GetTarget();
      t.Invalidate(key);
      return Ok(());
    }

    /** invalidateAll(keys). */
    method InvalidateKeys(keys: set<K>) returns (r: Result<(), Exception>)
      requires Valid() && flavour != AsyncLoading
      modifies this, producer, producer.Slot(flavour, name)
      ensures Resolved(r)
      ensures r.Ok? ==> Contents() == old(Contents()) - keys
    {
      var t :- GetTarget();
      t.InvalidateKeys(keys);
      return Ok(());
    }

    /** invalidateAll(). */
    method InvalidateAll() returns (r: Result<(), Exception>)
      requires Valid() && flavour != AsyncLoading
      modifies this, producer, producer.Slot(flavour, name)
      ensures Resolved(r)
      ensures r.Ok? ==> Contents() == map[]
    {
      var t :- GetTarget();
      t.InvalidateAll();
      return Ok(());
    }
  }
}
