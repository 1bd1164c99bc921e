/**
 * The abstract object storage: the argument guards of `store` and `fetch`,
 * the per-instance identity cache of `fetch`, and the in-place rewrite
 * `fetchArray` that turns reference markers in a fetched object's state into
 * lazy proxies before the document is thawed.
 */
module ObjectStorage {
  import opened Wrappers
  import opened PhpStrings
  import opened PhpValues
  import opened Rewrite

  datatype Error =
    /** The invalid-argument exception: argument number and the type it must have. */
    | InvalidArgument(argument: nat, expected: string)
    /** PHP's type error for a non-array passed where `array &$array` is declared. */
    | TypeError(expected: string)
    /** An exception raised by the backend or by the freezer, propagated as it is. */
    | Raised(reason: string)

  /** The calls this storage makes to code outside it, in order. */
  datatype Call = DoStore(arg: Value) | DoFetch(id: string) | Thaw(doc: Value)

  /** `['objects'][$id]['state']`: where a fetched document keeps its root object's state. */
  function RootStatePath(id: string): (p: seq<Key>)
  {
    [StrKey("objects"), StrKey(id), StrKey("state")]
  }

  /**
   * The document `fetch` passes to `thaw`: the root state rewritten by
   * `fetchArray`; a root state that is missing or not an array is a type error.
   */
  function PrepareDocument(doc: Value, id: string): (r: Result<Value, Error>)
  {
    match Lookup(doc, RootStatePath(id))
    case Some(Arr(es)) => Ok(Update(doc, RootStatePath(id), Arr(RewriteEntries(es))))
    case _ => Err(TypeError("array"))
  }

  /** The number of backend reads of `id` in a call log. */
  function ReadsOf(log: seq<Call>, id: string): (n: nat)
  {
    if log == [] then 0
    else ReadsOf(log[..|log| - 1], id) + (if log[|log| - 1] == DoFetch(id) then 1 else 0)
  }

  lemma ReadsOfAppend(log: seq<Call>, c: Call, id: string)
    ensures ReadsOf(log + [c], id) == ReadsOf(log, id) + (if c == DoFetch(id) then 1 else 0)
  {
    assert (log + [c])[..|log|] == log;
  }

  /**
   * Fetching succeeds past the rewrite exactly when the backend's document
   * holds an array at `['objects'][$id]['state']`.
   */
  lemma PrepareDocumentSucceeds(doc: Value, id: string)
    ensures PrepareDocument(doc, id).Ok? <==> Lookup(doc, RootStatePath(id)).Some? && Lookup(doc, RootStatePath(id)).value.Arr?
  {
  }

  /**
   * On success only the root state changes: it is the rewritten original
   * state, free of markers, and every path disjoint from it reads as before.
   */
  lemma {:induction false} PrepareDocumentRewritesOnlyRootState(doc: Value, id: string, q: seq<Key>)
    requires PrepareDocument(doc, id).Ok?
    ensures var state := Lookup(doc, RootStatePath(id)).value;
      && Lookup(PrepareDocument(doc, id).value, RootStatePath(id)) == Some(RewriteValue(state))
      && Clean(RewriteValue(state))
    ensures Disjoint(RootStatePath(id), q) ==>
      Lookup(PrepareDocument(doc, id).value, q) == Lookup(doc, q)
    ensures forall k :: 0 <= k < 3 ==> SameKeysAt(doc, PrepareDocument(doc, id).value, RootStatePath(id)[..k])
  {
    var path := RootStatePath(id);
    var state := Lookup(doc, path).value;
    var rewritten := Arr(RewriteEntries(state.entries));
    LookupUpdateSame(doc, path, rewritten);
    RewriteIsClean(state);
    forall k | 0 <= k < 3 ensures SameKeysAt(doc, PrepareDocument(doc, id).value, path[..k]) {
      UpdateKeepsKeysAbove(doc, path, rewritten, k);
    }
    if Disjoint(path, q) {
      LookupUpdateDisjoint(doc, path, rewritten, q);
    }
  }

  class Storage {
    /** Backend write of a frozen object (abstract in the source). */
    const doStore: Value -> Result<string, Error>
    /** Backend read of the frozen document stored under an id (abstract in the source). */
    const doFetch: string -> Result<Value, Error>
    /** `Object_Freezer::thaw` applied to a fetched document. */
    const thaw: Value -> Result<Object, Error>

    /** Objects already thawed, by id. */
    var cache: map<string, Object>
    /** Every call made to the backend and to the freezer so far. */
    ghost var calls: seq<Call>

    /** What a fresh fetch of `id` yields: read, rewrite the root state, thaw. */
    function Load(id: string): (r: Result<Object, Error>)
    {
      match doFetch(id)
      case Err(e) => Err(e)
      case Ok(doc) =>
        match PrepareDocument(doc, id)
        case Err(e) => Err(e)
        case Ok(prepared) => thaw(prepared)
    }

    /** The calls a cache miss on `id` makes, in order. */
    ghost function MissCalls(id: string): seq<Call>
    {
      match doFetch(id)
      case Err(_) => [DoFetch(id)]
      case Ok(doc) =>
        match PrepareDocument(doc, id)
        case Err(_) => [DoFetch(id)]
        case Ok(prepared) => [DoFetch(id), Thaw(prepared)]
    }

    /**
     * Every cached object is what a fresh fetch would yield and cost exactly
     * one backend read; an id that was read but is not cached failed to load.
     */
    ghost predicate Valid()
      reads this
    {
      && (forall id :: id in cache ==> Load(id) == Ok(cache[id]) && ReadsOf(calls, id) == 1)
      && (forall id :: id !in cache && ReadsOf(calls, id) > 0 ==> Load(id).Err?)
    }

    constructor (doStore: Value -> Result<string, Error>, doFetch: string -> Result<Value, Error>,
                 thaw: Value -> Result<Object, Error>)
      ensures Valid()
      ensures this.doStore == doStore && this.doFetch == doFetch && this.thaw == thaw
      ensures cache == map[] && calls == []
    {
      this.doStore := doStore;
      this.doFetch := doFetch;
      this.thaw := thaw;
      cache := map[];
      calls := [];
    }

    /** Freezes and stores an object; anything that is not an object is refused before the backend is called. */
    method Store(obj: Value) returns (r: Result<string, Error>)
      requires Valid()
      modifies this
      ensures Valid() && cache == old(cache)
      ensures !IsObject(obj) ==> r == Err(InvalidArgument(1, "object")) && calls == old(calls)
      ensures IsObject(obj) ==> r == doStore(obj) && calls == old(calls) + [DoStore(obj)]
    {
      if !IsObject(obj) {
        return Err(InvalidArgument(1, "object"));
      }
      r := doStore(obj);
      forall id ensures ReadsOf(calls + [DoStore(obj)], id) == ReadsOf(calls, id) {
        ReadsOfAppend(calls, DoStore(obj), id);
      }
      calls := calls + [DoStore(obj)];
    }

    /**
     * Fetches the object stored under `id`: refuses a non-string id, answers
     * from the cache when it can, and otherwise reads the backend, rewrites the
     * root state, thaws, and caches the result.
     */
    method Fetch(id: Value) returns (r: Result<Object, Error>)
      requires Valid()
      modifies this
      ensures Valid()
      ensures !id.Str? ==> r == Err(InvalidArgument(1, "string")) && unchanged(this)
      ensures id.Str? ==> r == Load(id.s)
      ensures id.Str? && id.s in old(cache) ==> r == Ok(old(cache)[id.s]) && unchanged(this)
      ensures id.Str? && id.s !in old(cache) ==>
        && calls == old(calls) + MissCalls(id.s)
        && cache == (if r.Ok? then old(cache)[id.s := r.value] else old(cache))
      ensures r.Ok? ==> id.Str? && id.s in cache && cache[id.s] == r.value && ReadsOf(calls, id.s) == 1
    {
      if !id.Str? {
        return Err(InvalidArgument(1, "string"));
      }
      var key := id.s;
      if key !in cache {
        var fetched := doFetch(key);
        forall other ensures ReadsOf(calls + [DoFetch(key)], other) == ReadsOf(calls, other) + (if other == key then 1 else 0) {
          ReadsOfAppend(calls, DoFetch(key), other);
        }
        calls := calls + [DoFetch(key)];
        if fetched.Err? {
          return Err(fetched.error);
        }
        var doc := fetched.value;
        var state := Lookup(doc, RootStatePath(key));
        if !(state.Some? && state.value.Arr?) {
          return Err(TypeError("array"));
        }
        var rewritten := FetchArray(state.value.entries);
        doc := Update(doc, RootStatePath(key), Arr(rewritten));
        var thawed := thaw(doc);
        forall other ensures ReadsOf(calls + [Thaw(doc)], other) == ReadsOf(calls, other) {
          ReadsOfAppend(calls, Thaw(doc), other);
        }
        calls := calls + [Thaw(doc)];
        if thawed.Err? {
          return Err(thawed.error);
        }
        cache := cache[key := thawed.value];
      }
      r := Ok(cache[key]);
    }

    /**
     * Rewrites an array in place (PHP passes it by reference): walks the keys
     * in order, recurses into nested arrays and replaces each marker string by
     * a lazy proxy for the id it names.
     */
    method FetchArray(a: seq<Entry>) returns (b: seq<Entry>)
      ensures b == RewriteEntries(a)
      decreases Arr(a)
    {
      b := a;
      var i := 0;
      while i < |a|
        invariant 0 <= i <= |a| && |b| == |a|
        invariant forall j :: 0 <= j < i ==> b[j] == Entry(a[j].key, RewriteValue(a[j].val))
        invariant forall j :: i <= j < |a| ==> b[j] == a[j]
      {
        var e := b[i];
        match e.val {
          case Arr(inner) =>
            var done := FetchArray(inner);
            b := b[i := Entry(e.key, Arr(done))];
          case Str(s) =>
            if StartsWith(s, MarkerPrefix) {
              b := b[i := Entry(e.key, Proxy(RemoveAll(s, MarkerPrefix)))];
            }
          case _ =>
        }
        i := i + 1;
      }
    }
  }

  /** Two fetches of one id in a row give the same answer, and a success costs one backend read. */
  method FetchTwice(st: Storage, id: string) returns (first: Result<Object, Error>, second: Result<Object, Error>)
    requires st.Valid()
    modifies st
    ensures st.Valid()
    ensures second == first == st.Load(id)
    ensures first.Ok? ==> ReadsOf(st.calls, id) == 1
    ensures first.Ok? ==> st.calls == old(st.calls) + (if id in old(st.cache) then [] else st.MissCalls(id))
  {
    first := st.Fetch(Str(id));
    second := st.Fetch(Str(id));
  }
}
