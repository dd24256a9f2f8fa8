# kikaha-caffeine, modelled in Dafny

This project models the Caffeine integration of the kikaha framework. The
integration has three parts:

- **The cache producer** (`CacheProducer`). It builds named Caffeine caches of
  three flavours: plain, loading and asynchronous loading. Each cache gets a
  policy read from the configuration under `server.cache.<name>.`:
  - a maximum size and a maximum weight;
  - expiration after access and after write, in a configured time unit;
  - a cache writer.
  A loading cache also gets a loader. Writers and loaders are container
  components, selected by their `@Named` value. Each flavour has its own
  name-to-cache registry, filled once per name by compute-if-absent.
- **Lazy handles** (`LazyCache`, `LazyLoadingCache`, `LazyAsyncLoadingCache`).
  The producer hands these out to injection points. A handle resolves its
  registry entry on first use, memoises it, and forwards every operation to it.
- **The session store** (`CaffeineSessionStore`). It keeps sessions by id in a
  cache and creates a session on first retrieval.

Each Caffeine cache is modelled as a plain key-to-value map. Its policy is
recorded as data.

Modules, in dependency order:

- `Wrappers`: `Option` and `Result`.
- `Exceptions`: the Java exceptions the code can raise, as values.
- `Configuration`: `getLong` with the `Long.valueOf` parse it relies on, and
  the time-unit lookup. It proves the parse against the decimal notation.
- `Components`: discovered writers and loaders, lookup by name, and the empty
  loader.
- `Policy`: the policy record and `PolicyFor`, the function giving the policy
  for a name. It also holds the mutable builder that the configure steps set.
- `Caches`: a cache instance as a class over a map.
- `Producer`:
  - the `CacheProducer` class, with its three registries and a ghost log of
    every build;
  - the `LazyCache` handle class, which stands for all three handle kinds.
- `Sessions`: the session, the exchange (as the ids attached to it) and the
  store.
- `Scenarios`: call sequences, with the example components of the
  repository's tests.

The producer's invariant `Valid()` says three things:

- every registered cache was built from its name's configuration;
- the build log lists each registered flavour and name exactly once;
- no cache object sits under two names or two flavours.

Each handle operation states its result with the twostate predicate
`Resolved`:

- resolution fails exactly when the name's configuration is erroneous, and
  then nothing changes;
- otherwise the handle's target is set, and the registries grew at most by
  this one cache;
- a target that is already set never changes, and the registries are not
  touched again.

Each operation also states the target's new entries in terms of the old ones.

On a loading cache with no loader, the code differs from what one might expect
(a hard error). The code substitutes the empty loader, which loads null for
every key (`CacheProducer.java:111-113`). The model follows the code.

Calls into the container and the configuration store appear in the model as
values:

- the configuration is a `map<string, ConfigValue>`;
- the components are a sequence in discovery order;
- an injection point is its optional `@Named` value;
- the session id that the id manager reads from the exchange is a parameter.

## Model

| member | source | states |
|---|---|---|
| Configuration.GetLong | source/kikaha/caffeine/CacheProducer.java:141-150 | an absent path reads as 0; getLong fails exactly on a value that is neither Integer, Long nor String (a ClassCastException), or on a string Long.valueOf rejects (a NumberFormatException carrying the text); a value read is the Integer or Long configured, or the parse of the configured string |
| Configuration.ParseLong | source/kikaha/caffeine/CacheProducer.java:148 | an accepted text is non-empty with only digits after its first character; a leading minus gives a value at most 0, otherwise at least 0; a plain digit string denotes its decimal value, accepted iff that fits a long |
| Configuration.GetLongForms | source/kikaha/caffeine/CacheProducer.java:141-150 | a long configured as a Long, as its decimal text, or (when it fits) as an Integer reads back as the same long |
| Configuration.ParseLongDecimal | source/kikaha/caffeine/CacheProducer.java:148 | Long.valueOf reads back every long written in decimal and rejects the decimal text of every number outside the long range |
| Configuration.ParseLongPlusAndZeros | source/kikaha/caffeine/CacheProducer.java:148 | an explicit plus sign and a leading zero are accepted and do not change the value |
| Configuration.ParseLongRejects | source/kikaha/caffeine/CacheProducer.java:148 | the empty string, a lone sign, and any text with a non-digit other than a leading sign are rejected |
| Configuration.TimeUnitValueOf | source/kikaha/caffeine/CacheProducer.java:85 | TimeUnit.valueOf finds the unit whose name is exactly the text, and fails only when no unit has that name |
| Configuration.GetTimeUnit | source/kikaha/caffeine/CacheProducer.java:85 | an absent unit reads as MINUTES; a unit read is one whose name is the configured string; a string value succeeds iff it names a unit |
| Components.Matches | source/kikaha/caffeine/CacheProducer.java:129-132 | a match carries the cache name as its @Named value (so an unannotated component never matches), and a writer request matches writers only |
| Components.LoaderServesAsync | source/kikaha/caffeine/CacheProducer.java:120 | a CacheLoader of a name also serves a request for an AsyncCacheLoader of that name, since CacheLoader extends AsyncCacheLoader; an AsyncCacheLoader never serves a CacheLoader request |
| Components.Resolve | source/kikaha/caffeine/CacheProducer.java:101 | the component found is one of the components, of the asked kind, with @Named equal to the name; none is found iff no component matches |
| Components.ResolveFindsFirst | source/kikaha/caffeine/CacheProducer.java:110 | when several components match, the first in discovery order is selected |
| Components.ResolveSkips | source/kikaha/caffeine/CacheProducer.java:129-132 | a component that does not match has no effect on the selection, wherever it stands |
| Components.UnnamedNeverSelected | source/kikaha/caffeine/CacheProducer.java:129-132 | a component without @Named is never selected, for any cache name |
| Components.LoaderFor | source/kikaha/caffeine/CacheProducer.java:109-127 | when no component of the loader kind carries the name, the empty loader; otherwise the load behaviour of the first component in discovery order that does |
| Components.EmptyLoaderYieldsNull | source/kikaha/caffeine/CacheProducer.java:31-32 | the empty loader answers null for every key |
| Components.MissingLoaderYieldsNull | source/kikaha/caffeine/CacheProducer.java:110-113 | with no loader of that kind and name, every key loads as null rather than failing, even when a component of another kind carries the name |
| Policy.PolicyFor | source/kikaha/caffeine/CacheProducer.java:59-107 | the build succeeds iff all five lookups succeed; maximum size and weight are each set iff their amount is positive, independently, to that amount; each expiration is set iff its amount is positive, to that amount in the configured unit; a writer is set iff a writer component of that name exists, and it is that component |
| Policy.UnknownUnitFails | source/kikaha/caffeine/CacheProducer.java:84-85 | an unknown time-unit name fails the build with an IllegalArgumentException, even when no expiration amount is configured |
| Policy.UnconfiguredPolicy | source/kikaha/caffeine/CacheProducer.java:70-98 | with nothing configured for a name, no bound and no expiration is set |
| Policy.CaffeineBuilder.constructor | source/kikaha/caffeine/CacheProducer.java:62 | a new builder has no setting |
| Caches.Restrict | source/kikaha/caffeine/LazyLoadingCache.java:48-51 | the entries of the given keys only, with their values |
| Caches.Loaded | source/kikaha/caffeine/LazyLoadingCache.java:28-31 | of the given keys, exactly those the loader does not answer null for, with the loaded values |
| Caches.Cache.constructor | source/kikaha/caffeine/CacheProducer.java:116 | a built cache is empty and keeps its policy and loader |
| Caches.Cache.ComputeIfAbsent | source/kikaha/caffeine/LazyLoadingCache.java:43-46 | a cached value is returned with nothing changed; otherwise the mapping's value is returned and stored unless it is null |
| Caches.Cache.Get | source/kikaha/caffeine/LazyLoadingCache.java:23-26 | compute-if-absent with the cache's own loader |
| Caches.Cache.GetAll | source/kikaha/caffeine/LazyLoadingCache.java:28-31 | the absent keys are loaded and added; the answer is the entries of all asked keys |
| Caches.Cache.GetIfPresent | source/kikaha/caffeine/LazyLoadingCache.java:38-41 | the cached value iff the key is cached; nothing is loaded |
| Caches.Cache.GetAllPresent | source/kikaha/caffeine/LazyLoadingCache.java:48-51 | the cached entries of the asked keys |
| Caches.Cache.Put | source/kikaha/caffeine/LazyLoadingCache.java:53-56 | the key maps to the value, all else unchanged |
| Caches.Cache.PutAll | source/kikaha/caffeine/LazyLoadingCache.java:58-61 | the given entries override, all else unchanged |
| Caches.Cache.Invalidate | source/kikaha/caffeine/LazyLoadingCache.java:63-66 | only the key is removed |
| Caches.Cache.InvalidateKeys | source/kikaha/caffeine/LazyLoadingCache.java:68-71 | only the given keys are removed |
| Caches.Cache.InvalidateAll | source/kikaha/caffeine/LazyLoadingCache.java:73-76 | the cache is empty |
| Producer.Registries.With | source/kikaha/caffeine/CacheProducer.java:49-50 | storing a cache changes the registry of one flavour at one name only |
| Producer.Registries.WithKeepsUnshared | source/kikaha/caffeine/CacheProducer.java:34-36 | storing a cache held nowhere else keeps every cache under one flavour and name |
| Producer.CacheProducer.RegisterKeepsValid | source/kikaha/caffeine/CacheProducer.java:34-36 | storing a newly built cache keeps the registry invariant and logs exactly one build |
| Producer.CacheProducer.constructor | source/kikaha/caffeine/CacheProducer.java:34-36 | the three registries start empty, and the invariant holds |
| Producer.CacheProducer.ConfigureExpirationBySize | source/kikaha/caffeine/CacheProducer.java:70-82 | both amounts are read first (size errors first); on success each bound is set iff its amount is positive, and nothing else changes; on error the builder is untouched |
| Producer.CacheProducer.ConfigureExpirationByTime | source/kikaha/caffeine/CacheProducer.java:84-98 | the unit, the access amount and the write amount are read first, in that order of errors; on success each expiration is set iff its amount is positive, with that unit |
| Producer.CacheProducer.ConfigureWriterFor | source/kikaha/caffeine/CacheProducer.java:100-107 | the writer named like the cache is set if there is one; no other setting changes |
| Producer.CacheProducer.CreateNewCacheBuilder | source/kikaha/caffeine/CacheProducer.java:59-68 | the configured builder holds exactly PolicyFor of the name, or the result is PolicyFor's exception |
| Producer.CacheProducer.BuildLoadingCache | source/kikaha/caffeine/CacheProducer.java:109-127 | a new empty cache with the builder's policy and the loader of that kind named like the cache (the empty loader if none) |
| Producer.CacheProducer.Build | source/kikaha/caffeine/CacheProducer.java:161 | the computeIfAbsent function builds a new empty cache with the name's policy and loader, or fails with the configuration's exception |
| Producer.CacheProducer.GetOrBuild | source/kikaha/caffeine/CacheProducer.java:49-50 | a registered name returns its cache with nothing changed; an absent name gets a new cache, stored only under that name in that flavour, with exactly one build logged; a failed build changes nothing |
| Producer.CacheProducer.Register | source/kikaha/caffeine/CacheProducer.java:49-50 | the store step adds the one entry, keeps the invariant, and logs the build |
| Producer.NameFrom | source/kikaha/caffeine/CacheProducer.java:134-139 | the name is the injection point's @Named value; without one the result is an UnsupportedOperationException |
| Producer.CacheProducer.Produce | source/kikaha/caffeine/CacheProducer.java:134-139 | a new unresolved handle for the injection point's name, with no registry touched; an injection point without @Named is an UnsupportedOperationException |
| Producer.CacheProducer.ProduceCache | source/kikaha/caffeine/CacheProducer.java:41-44 | an unresolved plain-flavour handle, without touching the registries |
| Producer.CacheProducer.ProduceLoadingCache | source/kikaha/caffeine/CacheProducer.java:46-52 | an unresolved loading-flavour handle, without touching the registries |
| Producer.CacheProducer.ProduceAsyncLoadingCache | source/kikaha/caffeine/CacheProducer.java:54-57 | an unresolved asynchronous-flavour handle, without touching the registries |
| Producer.LazyCache.constructor | source/kikaha/caffeine/LazyLoadingCache.java:18-21 | constructing a handle stores its supplier (producer, flavour, name) and resolves nothing |
| Producer.LazyCache.GetTarget | source/kikaha/caffeine/LazyLoadingCache.java:20-21 | the first successful call memoises the registered cache of the name; later calls return it without touching the producer; a failed call leaves the handle unresolved |
| Producer.LazyCache.Get | source/kikaha/caffeine/LazyLoadingCache.java:23-26 | cached value, or the flavour's loader's value, stored unless null |
| Producer.LazyCache.GetAll | source/kikaha/caffeine/LazyLoadingCache.java:28-31 | absent keys are loaded; the answer is the entries of the asked keys |
| Producer.LazyCache.GetIfPresent | source/kikaha/caffeine/LazyLoadingCache.java:38-41 | the cached value iff the key is cached; the entries do not change |
| Producer.LazyCache.GetWith | source/kikaha/caffeine/LazyLoadingCache.java:43-46 | cached value, or the mapping's value, stored unless null |
| Producer.LazyCache.GetAllPresent | source/kikaha/caffeine/LazyLoadingCache.java:48-51 | the cached entries of the asked keys; the entries do not change; offered by plain and loading handles only |
| Producer.LazyCache.Put | source/kikaha/caffeine/LazyLoadingCache.java:53-56 | the target maps the key to the value, all else unchanged |
| Producer.LazyCache.PutAll | source/kikaha/caffeine/LazyLoadingCache.java:58-61 | the target gains the given entries; offered by plain and loading handles only |
| Producer.LazyCache.Invalidate | source/kikaha/caffeine/LazyLoadingCache.java:63-66 | only the key leaves the target; offered by plain and loading handles only |
| Producer.LazyCache.InvalidateKeys | source/kikaha/caffeine/LazyLoadingCache.java:68-71 | only the given keys leave the target; offered by plain and loading handles only |
| Producer.LazyCache.InvalidateAll | source/kikaha/caffeine/LazyLoadingCache.java:73-76 | the target is empty; offered by plain and loading handles only |
| Sessions.Session.constructor | source/kikaha/caffeine/CaffeineSessionStore.java:28 | a new session has the given id and no attributes |
| Sessions.Exchange.AttachSessionId | source/kikaha/caffeine/CaffeineSessionStore.java:29 | the id is appended to those attached to the exchange |
| Sessions.CaffeineSessionStore.CreateOrRetrieveSession | source/kikaha/caffeine/CaffeineSessionStore.java:21-24 | a cached session is returned and nothing changes; otherwise a new session with that id is created, its id attached to the exchange, and it is stored under that id; either way the cache then maps the id to the result |
| Sessions.CaffeineSessionStore.CreateAndStoreNewSession | source/kikaha/caffeine/CaffeineSessionStore.java:26-31 | a new session with the id, whose id is attached to the exchange; the cache is not changed |
| Sessions.CaffeineSessionStore.InvalidateSession | source/kikaha/caffeine/CaffeineSessionStore.java:33-36 | exactly the session's id leaves the cache |
| Sessions.CaffeineSessionStore.Flush | source/kikaha/caffeine/CaffeineSessionStore.java:38-41 | the same new cache as storing the session under its own id |
| Sessions.CaffeineSessionStore.GetSessionFromCache | source/kikaha/caffeine/CaffeineSessionStore.java:43-46 | the cached session iff the id is cached; the cache is only read |
| Sessions.CaffeineSessionStore.StoreSession | source/kikaha/caffeine/CaffeineSessionStore.java:48-51 | the id maps to the session, all else unchanged |
| Scenarios.PutThenGetIfPresent | source/kikaha/caffeine/CacheProducer.java:48-51 | what is put through one handle is found through any handle of the same flavour and name (the same handle included) |
| Scenarios.ResolveTwice | source/kikaha/caffeine/CacheProducer.java:49-50 | two handles of one name resolve to the same cache, with at most one build |
| Scenarios.RetrieveTwice | source/kikaha/caffeine/CaffeineSessionStore.java:23 | two retrievals of one id return the same session, and at most one session is created |
| Scenarios.SessionLifecycle | tests/kikaha/caffeine/CaffeineSessionStoreTest.java:40-82 | a session created for "123" is found, keeps a flushed attribute, and is gone once invalidated |
| Scenarios.TestLoadersOnIntegers | tests/kikaha/caffeine/ConfiguredCacheLoader.java:16 | the example loaders load the decimal text of an Integer as that Integer plus 10, and plus 20 |
| Scenarios.TestLoadersByName | source/kikaha/caffeine/CacheProducer.java:110 | each example loader is found under its own name; the loader "configured" also serves an asynchronous cache of that name, and the asynchronous loader serves no loading cache |
| Scenarios.WriterAttachedByName | source/kikaha/caffeine/CacheProducer.java:101 | the cache "not-configured" gets the writer of that name and no other cache gets a writer |
| Scenarios.ReadFromCacheLoader | tests/kikaha/caffeine/CacheTest.java:78-82 | the loading cache "configured" loads "2" as 12 and keeps it |
| Scenarios.ReadFromAsyncCacheLoader | tests/kikaha/caffeine/CacheTest.java:84-88 | the asynchronous cache "not-configured-async" loads "2" as 22 |
| Scenarios.ReadWithoutLoader | source/kikaha/caffeine/CacheProducer.java:111-113 | with the example components, a loading cache of any name other than "configured" (including the writer-only "not-configured") loads null for every key |

## Left out

- Concurrency: the registries are `HashMap`s and the session store takes no
  locks. Everything is modelled sequentially, and no thread-safety is claimed.
- Caffeine itself is not modelled: eviction and expiration timing,
  `estimatedSize`, `stats`, `asMap`, `policy`, `cleanUp` and `refresh`. The
  policy is data only. Those forwarding methods of the handles are not
  modelled either.
- The builder's own checks are not modelled, e.g. that maximum size and
  maximum weight are not both set, or that a weight needs a weigher. A policy
  with both bounds set is recorded as is.
- Writer callbacks are not modelled. `write` and `delete` of a configured
  writer are not invoked, so write-through is not represented; a writer is
  known by its identity only.
- Time units are enum tags; durations are not converted.
- Configuration.ParseLong: only ASCII digits are accepted. Long.parseLong also
  accepts other Unicode decimal digits.
- Configuration.GetTimeUnit: a time-unit value that is not a string is an error
  (a ClassCastException tag). How the configuration store renders such a value
  is not part of this model. No such rendering names a TimeUnit, so the build
  fails either way.
- Components.Resolve: when several components of a kind share a name, the
  first in discovery order is taken. The container's own rule is not part of
  this model.
- CDI discovery, Lombok code generation (`@Delegate`, `@Getter(lazy = true)`)
  and annotation reflection are not modelled. `@Named` is an optional string
  on components and injection points.
- Asynchronous loading: an asynchronous loader's future is taken as already
  completed with its value.
- Loaders are total functions to an optional value. A loader that throws is
  not modelled: the example loaders load nothing where `Integer.valueOf` would
  throw. Their `+ 10` and `+ 20` are not wrapped at 32 bits.
- Logging is not modelled.
- The HTTP exchange and cookie parsing (`SessionIdManager`) are not modelled.
  The session id is an input, and `attachSessionId` appends to the exchange's
  list of attached ids.
- The session stress test and its counting cache wrapper are not modelled.
  That wrapper counts `put` calls, but `createOrRetrieveSession`, the only
  store method the stress test calls, never calls `put`: it stores through
  compute-if-absent. (`storeSession` and `flush` do call `put`.)
- The asynchronous handle's `synchronous()` view is not modelled. Its handle
  offers only the operations of AsyncLoadingCache: get, getAll,
  getIfPresent, get with a mapping function, and put.
