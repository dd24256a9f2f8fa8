/**
 * Call sequences of the producer, its handles and the session store, as an
 * application (and the repository's own tests) use them, with the example
 * components of those tests.
 */
module Scenarios {
  import opened Wrappers
  import opened Exceptions
  import opened Configuration
  import opened Components
  import opened Policy
  import opened Caches
  import opened Producer
  import opened Sessions

  // ---------------------------------------------------------------------
  // Handles sharing one registry entry

  /** Two handles for the same flavour and name, or the same handle twice:
      what is put through the first is seen through the second, since both
      forward to the one registered cache. */
  method PutThenGetIfPresent<K(==), V>(h1: LazyCache<K, V>, h2: LazyCache<K, V>, key: K, value: V)
      returns (r: Result<Option<V>, Exception>)
    requires h1.Valid() && h2.Valid()
    requires h1.producer == h2.producer && h1.flavour == h2.flavour && h1.name == h2.name
    modifies h1, h2, h1.producer, h1.producer.Slot(h1.flavour, h1.name)
    ensures r.Ok? <==> h1.producer.PolicyOf(h1.name).Ok?
    ensures r.Ok? ==> r == Ok(Some(value))
  {
    var put := h1.Put(key, value);
    if put.Err? {
      return Err(put.error);
    }
    assert h2.Valid();
    r := h2.GetIfPresent(key);
  }

  /** The supplier of two handles of one name runs the build at most once:
      both resolve to the same cache, and the build log grows by at most one
      entry. */
  method ResolveTwice<K(==), V>(h1: LazyCache<K, V>, h2: LazyCache<K, V>)
      returns (c1: Cache<K, V>, c2: Cache<K, V>)
    requires h1.Valid() && h2.Valid()
    requires h1.producer == h2.producer && h1.flavour == h2.flavour && h1.name == h2.name
    requires h1.producer.PolicyOf(h1.name).Ok?
    modifies h1, h2, h1.producer
    ensures c1 == c2 && h1.target == h2.target == Some(c1)
    ensures |h1.producer.builds| <= |old(h1.producer.builds)| + 1
    ensures c1.entries == old(h1.Contents())
  {
    var r1 := h1.GetTarget();
    assert h2.Valid();
    var r2 := h2.GetTarget();
    c1, c2 := r1.value, r2.value;
  }

  // ---------------------------------------------------------------------
  // The example components of the tests

  /** ConfiguredCacheLoader: the key read as an Integer, plus 10. A key that
      is no Integer makes load throw, which is left out: it loads nothing. */
  function ConfiguredLoad(key: string): Option<int>
  {
    var n := ParseLong(key);
    if n.Some? && MinInteger <= n.value <= MaxInteger then Some(n.value + 10) else None
  }

  /** NonConfiguredAsyncCacheLoader: the key read as an Integer, plus 20. */
  function NotConfiguredAsyncLoad(key: string): Option<int>
  {
    var n := ParseLong(key);
    if n.Some? && MinInteger <= n.value <= MaxInteger then Some(n.value + 20) else None
  }

  /** Both loaders read back every Integer written in decimal. */
  lemma TestLoadersOnIntegers(n: Int32)
    ensures ConfiguredLoad(Decimal(n)) == Some(n + 10)
    ensures NotConfiguredAsyncLoad(Decimal(n)) == Some(n + 20)
  {
    ParseLongDecimal(n);
  }

  /** The components of the tests: a writer named "not-configured", a loader
      named "configured" and an asynchronous loader named
      "not-configured-async". */
  function TestComponents(): seq<Component<string, int>>
  {
    [ Component(Some("not-configured"), CacheWriter(0)),
      Component(Some("configured"), CacheLoader(ConfiguredLoad)),
      Component(Some("not-configured-async"), AsyncCacheLoader(NotConfiguredAsyncLoad)) ]
  }

  /** The policy of the cache "not-configured" carries the writer of that
      name, and no other cache gets a writer. */
  lemma WriterAttachedByName(name: string)
    ensures PolicyFor(map[], TestComponents(), "not-configured") ==
      Ok(CachePolicy(None, None, None, None, Some(TestComponents()[0])))
    ensures name != "not-configured" ==> PolicyFor(map[], TestComponents(), name).value.writer.None?
  {
  }

  /** Each loader is found under its own name. The loader "configured" also
      serves an asynchronous cache of that name, while the asynchronous loader
      serves no (synchronous) loading cache. */
  lemma TestLoadersByName()
    ensures LoaderFor(TestComponents(), LoaderKind, "configured") == ConfiguredLoad
    ensures LoaderFor(TestComponents(), AsyncLoaderKind, "not-configured-async") == NotConfiguredAsyncLoad
    ensures LoaderFor(TestComponents(), AsyncLoaderKind, "configured") == ConfiguredLoad
    ensures LoaderFor(TestComponents(), LoaderKind, "not-configured-async") == EmptyLoader()
  {
  }

  /** The loading cache "configured" loads "2" as 12, and keeps it. */
  method ReadFromCacheLoader() returns (r: Result<Option<int>, Exception>, h: LazyCache<string, int>)
    ensures r == Ok(Some(12)) && h.Contents() == map["2" := 12]
  {
    var producer := new CacheProducer(map[], TestComponents());
    UnconfiguredPolicy(map[], TestComponents(), "configured");
    var produced := producer.ProduceLoadingCache(InjectionPoint(Some("configured")));
    h := produced.value;
    TestLoadersByName();
    TestLoadersOnIntegers(2);
    r := h.Get("2");
  }

  /** The asynchronous loading cache "not-configured-async" loads "2" as 22. */
  method ReadFromAsyncCacheLoader() returns (r: Result<Option<int>, Exception>)
    ensures r == Ok(Some(22))
  {
    var producer := new CacheProducer(map[], TestComponents());
    UnconfiguredPolicy(map[], TestComponents(), "not-configured-async");
    var produced := producer.ProduceAsyncLoadingCache(InjectionPoint(Some("not-configured-async")));
    TestLoadersByName();
    TestLoadersOnIntegers(2);
    r := produced.value.Get("2");
  }

  /** A loading cache of any name but "configured", for which no loader
      exists (the writer-only "not-configured" included), loads null for every
      key. */
  method ReadWithoutLoader(name: string, key: string) returns (r: Result<Option<int>, Exception>)
    requires name != "configured"
    ensures r == Ok(None)
  {
    var producer := new CacheProducer(map[], TestComponents());
    UnconfiguredPolicy(map[], TestComponents(), name);
    var produced := producer.ProduceLoadingCache(InjectionPoint(Some(name)));
    MissingLoaderYieldsNull(TestComponents(), LoaderKind, name, key);
    r := produced.value.Get(key);
  }

  // ---------------------------------------------------------------------
  // Sessions

  /** Retrieving the same id twice creates at most one session, and both
      calls answer with the same object. */
  method RetrieveTwice(store: CaffeineSessionStore, exchange: Exchange, sessionId: string)
      returns (s1: Session, s2: Session)
    modifies store, exchange
    ensures s1 == s2
    ensures sessionId in old(store.sessionCache) ==> s1 == old(store.sessionCache)[sessionId] && store.created == old(store.created)
    ensures sessionId !in old(store.sessionCache) ==> s1.id == sessionId && store.created == old(store.created) + [s1]
  {
    s1 := store.CreateOrRetrieveSession(exchange, sessionId);
    s2 := store.CreateOrRetrieveSession(exchange, sessionId);
  }

  /** The store's test sequence: created on first retrieval, found by id,
      flushed with its attributes, and gone once invalidated. */
  method SessionLifecycle(exchange: Exchange) returns (found: Option<Session>, flushed: Option<Session>, gone: Option<Session>)
    modifies exchange
    ensures found.Some? && found.value.id == "123"
    ensures exchange.attachedIds == old(exchange.attachedIds) + ["123"]
    ensures flushed.Some? && flushed.value.GetAttribute("a") == Some("b")
    ensures gone.None?
  {
    var store := new CaffeineSessionStore();
    var session := store.CreateOrRetrieveSession(exchange, "123");
    found := store.GetSessionFromCache("123");
    session.SetAttribute("a", "b");
    store.Flush(session);
    flushed := store.GetSessionFromCache("123");
    store.InvalidateSession(session);
    gone := store.GetSessionFromCache("123");
  }
}
