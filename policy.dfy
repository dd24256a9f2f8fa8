/**
 * The eviction policy a cache is configured with: the record of what the
 * producer sets on Caffeine's builder, the function that derives it from the
 * configuration under server.cache.<name>., and the builder the configure
 * steps mutate.
 */
module Policy {
  import opened Wrappers
  import opened Exceptions
  import opened Configuration
  import opened Components

  datatype Duration = Duration(amount: Int64, unit: TimeUnit)

  /** The settings made on a builder; None is a setting left unset. */
  datatype CachePolicy<!K, V> = CachePolicy(
    maximumSize: Option<Int64>,
    maximumWeight: Option<Int64>,
    expireAfterAccess: Option<Duration>,
    expireAfterWrite: Option<Duration>,
    writer: Option<Component<K, V>>)

  const Prefix: string := "server.cache."

  function SizePath(name: string): string { Prefix + name + ".maximum-size" }
  function WeightPath(name: string): string { Prefix + name + ".maximum-weight" }
  function UnitPath(name: string): string { Prefix + name + ".expiration.time-unit" }
  function AccessPath(name: string): string { Prefix + name + ".expiration.time-after-access" }
  function WritePath(name: string): string { Prefix + name + ".expiration.time-after-write" }

  /** A configured amount takes effect only when it is positive. */
  function Activated(amount: Int64): Option<Int64>
  {
    if amount > 0 then Some(amount) else None
  }

  function ActivatedFor(amount: Int64, unit: TimeUnit): Option<Duration>
  {
    if amount > 0 then Some(Duration(amount, unit)) else None
  }

  /** The policy createNewCacheBuilder configures for a cache name, or the
      exception that interrupts it. The configuration is read in the order of
      the configure steps: size, weight, time unit, access time, write time;
      the writer lookup cannot fail. */
  function PolicyFor<K, V>(config: Config, components: seq<Component<K, V>>, name: string): (r: Result<CachePolicy<K, V>, Exception>)
    ensures r.Ok? <==>
      && GetLong(config, SizePath(name)).Ok? && GetLong(config, WeightPath(name)).Ok?
      && GetTimeUnit(config, UnitPath(name)).Ok?
      && GetLong(config, AccessPath(name)).Ok? && GetLong(config, WritePath(name)).Ok?
    ensures r.Ok? ==>
      var size, weight := GetLong(config, SizePath(name)).value, GetLong(config, WeightPath(name)).value;
      && (r.value.maximumSize.Some? <==> size > 0)
      && (r.value.maximumSize.Some? ==> r.value.maximumSize.value == size)
      && (r.value.maximumWeight.Some? <==> weight > 0)
      && (r.value.maximumWeight.Some? ==> r.value.maximumWeight.value == weight)
    ensures r.Ok? ==>
      var unit := GetTimeUnit(config, UnitPath(name)).value;
      var access, write := GetLong(config, AccessPath(name)).value, GetLong(config, WritePath(name)).value;
      && (r.value.expireAfterAccess.Some? <==> access > 0)
      && (r.value.expireAfterAccess.Some? ==> r.value.expireAfterAccess.value == Duration(access, unit))
      && (r.value.expireAfterWrite.Some? <==> write > 0)
      && (r.value.expireAfterWrite.Some? ==> r.value.expireAfterWrite.value == Duration(write, unit))
    ensures r.Ok? ==>
      && (r.value.writer.Some? <==> exists i :: 0 <= i < |components| && Matches(components[i], WriterKind, name))
      && (r.value.writer.Some? ==> r.value.writer.value in components && Matches(r.value.writer.value, WriterKind, name))
  {
    var size :- GetLong(config, SizePath(name));
    var weight :- GetLong(config, WeightPath(name));
    var unit :- GetTimeUnit(config, UnitPath(name));
    var access :- GetLong(config, AccessPath(name));
    var write :- GetLong(config, WritePath(name));
    Ok(CachePolicy(
      Activated(size), Activated(weight),
      ActivatedFor(access, unit), ActivatedFor(write, unit),
      Resolve(components, WriterKind, name)))
  }

  /** The time unit is read before either amount: an unknown unit name fails
      the build even when no expiration is configured at all. */
  lemma UnknownUnitFails<K, V>(config: Config, components: seq<Component<K, V>>, name: string, text: string)
    requires SizePath(name) !in config && WeightPath(name) !in config
    requires UnitPath(name) in config && config[UnitPath(name)] == StringValue(text)
    requires forall u :: UnitName(u) != text
    ensures PolicyFor(config, components, name) == Err(IllegalArgumentException(UnitPath(name), text))
  {
  }

  /** Without any configuration the policy sets nothing but the writer. */
  lemma UnconfiguredPolicy<K, V>(config: Config, components: seq<Component<K, V>>, name: string)
    requires SizePath(name) !in config && WeightPath(name) !in config && UnitPath(name) !in config
    requires AccessPath(name) !in config && WritePath(name) !in config
    ensures PolicyFor(config, components, name) ==
      Ok(CachePolicy(None, None, None, None, Resolve(components, WriterKind, name)))
  {
  }

  /** The builder, reduced to the settings the producer makes on it. */
  class CaffeineBuilder<!K, V> {
    var maximumSize: Option<Int64>
    var maximumWeight: Option<Int64>
    var expireAfterAccess: Option<Duration>
    var expireAfterWrite: Option<Duration>
    var writer: Option<Component<K, V>>

    /** Caffeine.newBuilder(): nothing is set. */
    constructor ()
      ensures Policy() == CachePolicy(None, None, None, None, None)
    {
      maximumSize, maximumWeight := None, None;
      expireAfterAccess, expireAfterWrite := None, None;
      writer := None;
    }

    /** The settings made so far. */
    function Policy(): CachePolicy<K, V>
      reads this
    {
      CachePolicy(maximumSize, maximumWeight, expireAfterAccess, expireAfterWrite, writer)
    }
  }
}
