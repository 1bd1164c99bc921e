# Object_Freezer storage: the read path

This project models the abstract storage class `Object_Freezer_Storage` of
php-object-freezer. That class sits between callers and a concrete backend:

- `store` checks that its argument is an object and then delegates to the
  backend's `doStore`.
- `fetch` checks that the id is a string and keeps a per-instance identity
  cache from id to thawed object. On a cache miss it reads the frozen document
  from the backend (`doFetch`). It then rewrites the root object's state
  (`['objects'][$id]['state']`) with `fetchArray`, thaws the document with
  `Object_Freezer::thaw`, and caches the result.
- `fetchArray` walks a nested PHP array in place, depth first. Every string
  value that starts with the reserved prefix `__php_object_freezer_` becomes a
  lazy proxy (`Object_Freezer_LazyProxy`). The proxy is given the string with
  every occurrence of that prefix removed (`str_replace`).

Files:

- `wrappers.dfy`: `Option` and `Result`.
- `php_strings.dfy`: `strpos(...) === 0` as `StartsWith`, and
  `str_replace($search, '', $s)` as `RemoveAll`.
- `php_values.dfy`: PHP values and ordered arrays (`Value`, `Entry`, `Key`).
  Also reading and assigning along key paths (`Lookup`, `Update`), which is
  what `$doc['objects'][$id]['state']` and a write through a reference to it
  do.
- `rewrite.dfy`: `RewriteValue` and `RewriteEntries`, the specification of
  what `fetchArray` leaves behind, with its properties.
- `storage.dfy`: the `Storage` class. Its `cache` field is a map, and a ghost
  log `calls` records every call made to the backend and to the freezer. It
  holds `Store`, `Fetch` and `FetchArray`.

Modelling choices:

- PHP arrays are values, so `fetchArray(array &$array)` is an in/out
  parameter. `FetchArray` is a method that takes the array and returns the
  rewritten one. Its loop overwrites slots index by index, just as the PHP
  loop over `array_keys` does, and it calls itself on nested arrays.
- The backend read (`doFetch`), the backend write (`doStore`) and
  `Object_Freezer::thaw` are abstract or not shown. Each becomes a function
  given to the constructor. Each may fail with any `Error`, which is passed
  on unchanged.
- The source assumes that the backend document has an array at
  `['objects'][$id]['state']`. When it does not, PHP raises a type error,
  because the parameter is declared `array &$array`. The model returns
  `TypeError("array")` and caches nothing. `PrepareDocumentSucceeds` states
  exactly when the rewrite step succeeds.
- `isset($this->cache[$id])` is modelled as "`id` is a key of the cache". This
  is exact here because `thaw` returns an object, never `null`.

- PHP arrays are sequences of slots (`seq<Entry>`). A PHP array never holds
  a key twice (`UniqueKeys`). `Get` and `Set` act on the first slot with a
  key; on a PHP array that is the only one, and `GetAtIndex` shows that
  walking the slots by index, as `FetchArray` does, is then walking them by
  key, as the loop at Storage.php:133-141 does. The lemmas hold for every
  sequence, including ones with repeated keys.

Two behaviours of the code are worth noting:

- `fetch` accepts any string as an id, including the empty string: the only
  guard is `is_string` (Storage.php:109), and its docblock asks for nothing
  more than `@param string $id`.
- The proxy's id is the marker with every occurrence of the prefix removed,
  not only the leading one (`str_replace` at Storage.php:141). One pass of
  `str_replace` can also join the two halves of a new prefix, so the id may
  still contain the prefix (`MarkerTargetMayKeepPrefix`).

## Model

| member | source | states |
|---|---|---|
| ObjectStorage.Storage.constructor | Object/Freezer/Storage.php:63 | a new storage starts with an empty cache and has made no backend or freezer calls |
| ObjectStorage.Storage.Store | Object/Freezer/Storage.php:90-98 | a non-object (anything but an object or a lazy proxy) gives the invalid-argument error for argument 1, type "object", and `doStore` is not called; an object is passed to `doStore` once and its answer is returned; the cache is untouched |
| ObjectStorage.Storage.Fetch | Object/Freezer/Storage.php:106-121 | a non-string id gives the invalid-argument error for argument 1, type "string", and changes nothing; any string passes the guard; the result always equals a fresh load of the id; a cache hit returns the cached object and makes no backend or thaw call; a miss makes exactly one backend read, and a thaw when the read succeeds and the root state is an array; only that id's cache entry changes, and only on success; after a success the id is cached and returned, and later fetches of it make no read and no thaw; with the fixed backend of this model the id has then been read exactly once |
| ObjectStorage.Storage.FetchArray | Object/Freezer/Storage.php:128-145 | the in-place walk leaves exactly `RewriteEntries` of its input |
| ObjectStorage.FetchTwice | Object/Freezer/Storage.php:113-120 | after a first fetch that succeeds, the second fetch makes no read and no thaw: the two together made only the calls of one miss, or none if the id was already cached; with the fixed backend of this model both results agree and the id has been read once |
| ObjectStorage.PrepareDocumentSucceeds | Object/Freezer/Storage.php:114-115 | the rewrite step of a miss succeeds if and only if the document holds an array at `['objects'][$id]['state']` |
| ObjectStorage.PrepareDocumentRewritesOnlyRootState | Object/Freezer/Storage.php:114-117 | the document passed to `thaw` holds the rewritten root state, which is free of markers; every path disjoint from the root state reads as in the fetched document; the document, its `objects` array and the root entry keep their key order |
| ObjectStorage.ReadsOfAppend | Object/Freezer/Storage.php:114 | appending a call to the log adds one backend read for `id` exactly when that call is `doFetch(id)` |
| Rewrite.RewriteEntries | Object/Freezer/Storage.php:130-144 | rewriting an array keeps its length and its key sequence, so a PHP array stays one with unique keys |
| PhpValues.GetAtIndex | Object/Freezer/Storage.php:130-141 | in an array with unique keys, the slot at each index is what reading its key gives |
| Rewrite.GetRewrite | Object/Freezer/Storage.php:133-135 | reading a key of the rewritten array gives the rewritten slot, or nothing when the key is absent |
| Rewrite.LookupRewrite | Object/Freezer/Storage.php:133-144 | following any key path into the rewritten value gives the rewrite of what the same path reaches in the original |
| Rewrite.RewriteAtPath | Object/Freezer/Storage.php:133-144 | at every depth, the same paths exist before and after; a marker string has become a proxy for its target; an array keeps its keys; every other value is unchanged; no path reaches a marker afterwards |
| Rewrite.RewriteIsClean | Object/Freezer/Storage.php:133-144 | after the rewrite no string anywhere in the tree starts with the prefix |
| Rewrite.RewriteFixesClean | Object/Freezer/Storage.php:133-144 | a tree without marker strings is left exactly as it is |
| Rewrite.RewriteIdempotent | Object/Freezer/Storage.php:133-144 | running the rewrite a second time changes nothing |
| Rewrite.MarkerNamesItsId | Object/Freezer/Storage.php:138-142 | the marker prefix + id, for an id that does not contain the prefix, is a marker and becomes a proxy for exactly that id |
| Rewrite.MarkerLosesEveryOccurrence | Object/Freezer/Storage.php:141 | for every marker prefix + u + prefix + t in which no occurrence starts inside u, the proxy id is u followed by the target of t: later occurrences are removed too, not only the leading one |
| Rewrite.MarkerTargetSplitPrefix | Object/Freezer/Storage.php:141 | for a tail that does not contain the prefix, the marker prefix + "__php_" + prefix + tail has the proxy id "__php_" + tail |
| Rewrite.MarkerTargetMayKeepPrefix | Object/Freezer/Storage.php:141 | a concrete marker whose proxy id still starts with the prefix after the one-pass removal |
| PhpStrings.RemoveAll | Object/Freezer/Storage.php:141 | removing the prefix never makes the string longer |
| PhpStrings.RemoveAllWithoutOccurrence | Object/Freezer/Storage.php:141 | a string that does not contain the search string is returned unchanged |
| PhpStrings.RemoveAllLeading | Object/Freezer/Storage.php:138-141 | search + t starts with search, and removing from it is the same as removing from t |
| PhpStrings.RemoveAllCopies | Object/Freezer/Storage.php:141 | a stretch in which the search string starts at no offset is copied through unchanged |
| PhpValues.GetSetSame | Object/Freezer/Storage.php:115 | after assigning to a present key, reading that key gives the new value |
| PhpValues.GetSetOther | Object/Freezer/Storage.php:115 | assigning to one key leaves every other key's value unchanged |
| PhpValues.SetKeepsKeys | Object/Freezer/Storage.php:115 | assigning to a slot keeps the array's key sequence |
| PhpValues.LookupUpdateSame | Object/Freezer/Storage.php:115 | after writing through an existing path, the path holds the new value |
| PhpValues.LookupUpdateDisjoint | Object/Freezer/Storage.php:115 | writing through one path leaves every disjoint path's value unchanged |

## Left out

- ObjectStorage.Storage.Fetch: the backend read and `thaw` are fixed functions,
  so a fetch that fails once fails again on every retry. "Read exactly once per
  cached id" is therefore a fact of this model. The source leaves
  `$this->cache[$id]` unset after an exception (Storage.php:113-118), so a
  retry after a transient backend error reads the id a second time. What holds
  for any backend is what the contract also states: once the id is cached, a
  fetch makes no read and no thaw.
- ObjectStorage.FetchTwice: for the same reason, "both results agree" after a
  failed first fetch, and "read once", depend on the fixed backend. Only
  "the second fetch after a success makes no call" holds for any backend.

- `doStore` and `doFetch` are abstract in this class. Their CouchDB
  implementation is HTTP transport and is not part of this model. They are
  fixed functions given to the constructor, so a `store` does not change what
  a later backend read returns.
- `Object_Freezer::thaw` and freezing are not part of this model. `thaw` is
  a function of the whole rewritten document, so the identity of the object
  it creates is only its value. That a second thaw is never made is shown by
  the call log instead.
- `Object_Freezer_LazyProxy` is not part of this model. Its resolution on
  first access and its replacement of itself in the holder are not modelled.
  A proxy is the value `Proxy(id)`. The storage handle it also holds is always
  this storage and is not recorded.
- The constructor's default `new Object_Freezer` is not modelled, nor is the
  text of the exception built by `Object_Freezer_Util::getInvalidArgumentException`.
  Both are calls into code that is not shown. The error keeps only the
  argument number and the expected type.
- PHP casts array keys that are canonical decimal strings (such as "5") to
  integer keys. That cast is not modelled: an id is always looked up as a
  string key.
- PHP creates the missing entries of `$doc['objects'][$id]['state']` when it
  takes a reference to them, just before it raises the type error. That is not
  modelled, because the document is thrown away on that path.
