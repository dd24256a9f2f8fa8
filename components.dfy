/**
 * The components the container discovers (cache writers, loaders and
 * asynchronous loaders) and their selection by @Named value, as the cache
 * producer asks the container for them.
 */
module Components {
  import opened Wrappers

  datatype Kind = WriterKind | LoaderKind | AsyncLoaderKind

  /** What a component does. A loader maps a key to the value it loads, None
      standing for null; an asynchronous loader's future is taken as already
      completed with its value. A writer is known by its identity only. */
  datatype Capability<!K, V> =
    | CacheWriter(writerId: nat)
    | CacheLoader(load: K -> Option<V>)
    | AsyncCacheLoader(asyncLoad: K -> Option<V>)

  /** A discovered component; `named` is the value of the @Named annotation on
      its class, None when the class has none (getNameFrom(Object) returns
      null). */
  datatype Component<!K, V> = Component(named: Option<string>, capability: Capability<K, V>)
  {
    function KindOf(): Kind
    {
      match capability
      case CacheWriter(_) => WriterKind
      case CacheLoader(_) => LoaderKind
      case AsyncCacheLoader(_) => AsyncLoaderKind
    }

    /** The load behaviour of a loader of either kind. */
    function Load(): K -> Option<V>
      requires !capability.CacheWriter?
    {
      match capability
      case CacheLoader(load) => load
      case AsyncCacheLoader(asyncLoad) => asyncLoad
    }
  }

  /** Whether a component is of the type the container is asked for. A
      CacheLoader is also an AsyncCacheLoader (Caffeine's CacheLoader extends
      AsyncCacheLoader, answering with a completed future), so it serves a
      request for either kind of loader. */
  predicate Serves<K, V>(c: Component<K, V>, kind: Kind)
  {
    match kind
    case WriterKind => c.capability.CacheWriter?
    case LoaderKind => c.capability.CacheLoader?
    case AsyncLoaderKind => c.capability.CacheLoader? || c.capability.AsyncCacheLoader?
  }

  /** The filter handed to the container: name.equals(getNameFrom(c)) on a
      component of the asked type. The cache name is never null, so a
      component without @Named never matches. */
  predicate Matches<K, V>(c: Component<K, V>, kind: Kind, name: string)
    ensures Matches(c, kind, name) ==> c.named == Some(name)
    ensures Matches(c, kind, name) ==> (kind == WriterKind <==> c.capability.CacheWriter?)
  {
    Serves(c, kind) && c.named == Some(name)
  }

  /** A loader matching a name matches the same name when an asynchronous
      loader is asked for, and an asynchronous loader never matches a request
      for a (synchronous) loader. */
  lemma LoaderServesAsync<K, V>(c: Component<K, V>, name: string)
    ensures Matches(c, LoaderKind, name) ==> Matches(c, AsyncLoaderKind, name)
    ensures c.capability.AsyncCacheLoader? ==> !Matches(c, LoaderKind, name)
  {
  }

  /** The container's lookup of one component of a kind whose @Named value is
      `name`; when several match, the first in discovery order is taken. */
  function Resolve<K, V>(components: seq<Component<K, V>>, kind: Kind, name: string): (r: Option<Component<K, V>>)
    ensures r.Some? ==> r.value in components && Matches(r.value, kind, name)
    ensures r.None? <==> forall i :: 0 <= i < |components| ==> !Matches(components[i], kind, name)
  {
    if components == [] then None
    else if Matches(components[0], kind, name) then Some(components[0])
    else
      var rest := Resolve(components[1..], kind, name);
      assert forall i :: 1 <= i < |components| ==> components[i] == components[1..][i - 1];
      rest
  }

  /** The first matching component is the one selected. */
  lemma {:induction false} ResolveFindsFirst<K, V>(components: seq<Component<K, V>>, kind: Kind, name: string, i: nat)
    requires i < |components| && Matches(components[i], kind, name)
    requires forall j :: 0 <= j < i ==> !Matches(components[j], kind, name)
    ensures Resolve(components, kind, name) == Some(components[i])
  {
    if i > 0 {
      assert components[1..][i - 1] == components[i];
      ResolveFindsFirst(components[1..], kind, name, i - 1);
    }
  }

  /** A component that does not match, in particular one without @Named, has no
      influence on the selection wherever it stands. */
  lemma {:induction false} ResolveSkips<K, V>(
    before: seq<Component<K, V>>, c: Component<K, V>, after: seq<Component<K, V>>, kind: Kind, name: string)
    requires !Matches(c, kind, name)
    ensures Resolve(before + [c] + after, kind, name) == Resolve(before + after, kind, name)
  {
    if before == [] {
      assert (before + [c] + after)[1..] == before + after;
    } else {
      assert (before + [c] + after)[1..] == before[1..] + [c] + after;
      assert (before + after)[1..] == before[1..] + after;
      ResolveSkips(before[1..], c, after, kind, name);
    }
  }

  /** A component without @Named is never selected, for any cache name. */
  lemma UnnamedNeverSelected<K, V>(components: seq<Component<K, V>>, c: Component<K, V>, kind: Kind, name: string)
    requires c.named.None?
    ensures Resolve(components + [c], kind, name) == Resolve(components, kind, name)
  {
    ResolveSkips(components, c, [], kind, name);
    assert components + [c] + [] == components + [c];
    assert components + [] == components;
  }

  /** EMPTY_CACHE_LOADER and EMPTY_ASYNC_CACHE_LOADER: null, or a future
      completed with null, for every key. */
  function EmptyLoader<K, V>(): K -> Option<V>
  {
    _ => None
  }

  /** The empty loader answers null for any key. */
  lemma EmptyLoaderYieldsNull<K, V>(key: K)
    ensures EmptyLoader<K, V>()(key) == None
  {
  }

  /** The loader a loading cache of this name is built with: the first
      matching component's, else the empty loader; a missing loader is not an
      error. */
  function LoaderFor<K, V>(components: seq<Component<K, V>>, kind: Kind, name: string): (load: K -> Option<V>)
    requires kind != WriterKind
    ensures (forall i :: 0 <= i < |components| ==> !Matches(components[i], kind, name)) ==> load == EmptyLoader()
    ensures forall i :: (0 <= i < |components| && Matches(components[i], kind, name) &&
      (forall j :: 0 <= j < i ==> !Matches(components[j], kind, name))) ==> load == components[i].Load()
  {
    var found := Resolve(components, kind, name);
    assert forall i :: (0 <= i < |components| && Matches(components[i], kind, name) &&
      (forall j :: 0 <= j < i ==> !Matches(components[j], kind, name))) ==> found == Some(components[i]) by {
      forall i | 0 <= i < |components| && Matches(components[i], kind, name) &&
        (forall j :: 0 <= j < i ==> !Matches(components[j], kind, name))
        ensures found == Some(components[i])
      {
        ResolveFindsFirst(components, kind, name, i);
      }
    }
    if found.None? then EmptyLoader() else found.value.Load()
  }

  /** With no loader of that kind and name, every key loads as null instead
      of failing, even when a component of another kind carries the name. */
  lemma MissingLoaderYieldsNull<K, V>(components: seq<Component<K, V>>, kind: Kind, name: string, key: K)
    requires kind != WriterKind
    requires forall i :: 0 <= i < |components| ==> !Matches(components[i], kind, name)
    ensures LoaderFor(components, kind, name)(key) == None
  {
  }
}
