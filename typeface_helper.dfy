/**
 * `TypefaceHelper.get(name, style)`: a process-wide memo from font name to
 * the typeface the platform loaded for it, so that each font asset is loaded
 * once. The platform loader `Typeface.create(name, style)` is a parameter of
 * each call (it may throw, or return null); the lock around the lookup is
 * left out, so `get` is a sequential method on a cache object.
 */
module TypefaceHelper {
  import opened Wrappers

  /** An opaque handle to a typeface the platform loaded; equal handles are the same instance. */
  datatype Typeface = Typeface(handle: nat)

  /** `Typeface.NORMAL`. */
  const NORMAL: int := 0

  /** What one call of `Typeface.create(name, style)` did: threw a `RuntimeException`, or returned a (possibly null) typeface. */
  datatype Load = Threw | Returned(typeface: Option<Typeface>)

  type Loader = (string, int) -> Load

  /** The contents of the cache: font name to the (possibly null) typeface stored for it. */
  type Entries = map<string, Option<Typeface>>

  /** What a call of `get` returns, and the cache it leaves behind. */
  datatype Outcome = Outcome(typeface: Option<Typeface>, entries: Entries)

  /** `after` keeps every binding of `before`: nothing was removed or overwritten. */
  ghost predicate Extends(before: Entries, after: Entries)
  {
    forall k :: k in before ==> k in after && after[k] == before[k]
  }

  /**
   * One call of `get(name, style)` on a cache holding `entries`, with
   * `create` standing for what the platform loader does at that moment.
   * The style takes no part in the lookup: the key is the name alone.
   */
  function Lookup(entries: Entries, name: string, style: int, create: Loader): (r: Outcome)
    ensures Extends(entries, r.entries)
    ensures r.entries.Keys <= entries.Keys + {name}
    ensures name in entries ==> r == Outcome(entries[name], entries)
    ensures name in r.entries ==> r.typeface == r.entries[name]
    ensures name !in r.entries <==> name !in entries && create(name, style).Threw?
    ensures name !in r.entries ==> r == Outcome(None, entries)
    ensures name !in entries && create(name, style).Returned? ==>
              r.typeface == create(name, style).typeface && r.entries == entries[name := r.typeface]
  {
    if name in entries then
      Outcome(entries[name], entries)
    else
      match create(name, style)
      case Threw => Outcome(None, entries)
      case Returned(t) => Outcome(t, entries[name := t])
  }

  /** Once a name is cached (even bound to null), every later call with that name, in any style, returns that entry and changes nothing. */
  lemma CachedNameIsStable(entries: Entries, name: string, style: int, create: Loader, laterStyle: int, laterCreate: Loader)
    requires name in Lookup(entries, name, style, create).entries
    ensures var first := Lookup(entries, name, style, create);
            Lookup(first.entries, name, laterStyle, laterCreate) == first
  {
  }

  /** A load that throws is not cached: the call returns null, and a later call loads again as if the first had not happened. */
  lemma FailureIsNotCached(entries: Entries, name: string, style: int, create: Loader, laterCreate: Loader)
    requires name !in entries && create(name, style).Threw?
    ensures Lookup(entries, name, style, create) == Outcome(None, entries)
    ensures Lookup(Lookup(entries, name, style, create).entries, name, style, laterCreate)
            == Lookup(entries, name, style, laterCreate)
  {
  }

  /** One call of `get` in a history of calls on the process-wide cache. */
  datatype Request = Request(name: string, style: int, create: Loader)

  /** The cache after the calls `requests`, in order, starting from `entries`. */
  function Replay(entries: Entries, requests: seq<Request>): Entries
    decreases |requests|
  {
    if requests == [] then entries
    else
      var q := requests[0];
      Replay(Lookup(entries, q.name, q.style, q.create).entries, requests[1..])
  }

  /** The cache only grows: across any history of calls no binding is ever removed or overwritten. */
  lemma {:induction false} ReplayExtends(entries: Entries, requests: seq<Request>)
    ensures Extends(entries, Replay(entries, requests))
    decreases |requests|
  {
    if requests != [] {
      var q := requests[0];
      var next := Lookup(entries, q.name, q.style, q.create).entries;
      ReplayExtends(next, requests[1..]);
    }
  }

  /** After any history of calls, a call for a name the cache held at the start returns the entry it held then. */
  lemma ReplayAnswersFromFirstEntry(entries: Entries, requests: seq<Request>, name: string, style: int, create: Loader)
    requires name in entries
    ensures Lookup(Replay(entries, requests), name, style, create).typeface == entries[name]
  {
    ReplayExtends(entries, requests);
  }

  /** The process-wide cache of `TypefaceHelper`. */
  class TypefaceCache {
    var entries: Entries

    /** The cache starts empty. */
    constructor ()
      ensures entries == map[]
    {
      entries := map[];
    }

    /**
     * `get(name, style)`: on a hit the cached entry, without loading; on a
     * miss the loader's result, cached unless the loader threw.
     */
    method Get(name: string, style: int, create: Loader) returns (t: Option<Typeface>)
      modifies this
      ensures Outcome(t, entries) == Lookup(old(entries), name, style, create)
      ensures Extends(old(entries), entries)
    {
      if name !in entries {
        match create(name, style)
        case Threw =>
          return None;
        case Returned(loaded) =>
          entries := entries[name := loaded];
          return loaded;
      }
      t := entries[name];
    }
  }
}
