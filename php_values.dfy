/**
 * PHP values as they appear in a frozen document and as arguments to the
 * storage entry points, and PHP's ordered arrays addressed by key paths
 * (`$a['objects'][$id]['state']`).
 */
module PhpValues {
  import opened Wrappers

  /** A live PHP object, known only by its identity. */
  datatype Object = Object(handle: nat)

  /** An array key: PHP arrays are keyed by integers or strings. */
  datatype Key = IntKey(i: int) | StrKey(k: string)

  datatype Value =
    | Null
    | Bool(b: bool)
    | Int(i: int)
    | Float(f: real)
    | Str(s: string)
    | Arr(entries: seq<Entry>)
    /** An `Object_Freezer_LazyProxy` for the object with this id. */
    | Proxy(id: string)
    /** Any other live object. */
    | ObjRef(obj: Object)

  /** One slot of an ordered PHP array. */
  datatype Entry = Entry(key: Key, val: Value)

  /** `is_object($v)`; a lazy proxy is itself an object. */
  predicate IsObject(v: Value)
  {
    v.ObjRef? || v.Proxy?
  }

  /** `array_keys($a)`: the keys in array order. */
  function Keys(es: seq<Entry>): (ks: seq<Key>)
  {
    seq(|es|, i requires 0 <= i < |es| => es[i].key)
  }

  /** Every key occurs once, as in every PHP array. */
  predicate UniqueKeys(es: seq<Entry>)
  {
    forall i, j :: 0 <= i < j < |es| ==> es[i].key != es[j].key
  }

  /** `$a[$k]` for a key that may be absent: the first slot with that key. */
  function Get(es: seq<Entry>, k: Key): (r: Option<Value>)
  {
    if es == [] then None
    else if es[0].key == k then Some(es[0].val)
    else Get(es[1..], k)
  }

  /** `$a[$k] = $w` for a key that is present; an absent key leaves the array alone. */
  function Set(es: seq<Entry>, k: Key, w: Value): (r: seq<Entry>)
  {
    if es == [] then []
    else if es[0].key == k then [Entry(k, w)] + es[1..]
    else [es[0]] + Set(es[1..], k, w)
  }

  /** `$v[$p[0]][$p[1]]...`, or None when a step is missing or not an array. */
  function Lookup(v: Value, path: seq<Key>): (r: Option<Value>)
    decreases path
  {
    if path == [] then Some(v)
    else match v
      case Arr(es) =>
        (match Get(es, path[0])
         case Some(c) => Lookup(c, path[1..])
         case None => None)
      case _ => None
  }

  /** `$v[$p[0]][$p[1]]... = $w` along a path that exists; otherwise `v` unchanged. */
  function Update(v: Value, path: seq<Key>, w: Value): (r: Value)
    decreases path
  {
    if path == [] then w
    else match v
      case Arr(es) =>
        (match Get(es, path[0])
         case Some(c) => Arr(Set(es, path[0], Update(c, path[1..], w)))
         case None => v)
      case _ => v
  }

  predicate IsPrefix(p: seq<Key>, q: seq<Key>)
  {
    |p| <= |q| && q[..|p|] == p
  }

  /** Two paths that lead to disjoint parts of a value. */
  predicate Disjoint(p: seq<Key>, q: seq<Key>)
  {
    !IsPrefix(p, q) && !IsPrefix(q, p)
  }

  /** In a PHP array, slot `i` is what its key reads: walking slots by index is walking them by key. */
  lemma {:induction false} GetAtIndex(es: seq<Entry>, i: nat)
    requires UniqueKeys(es) && i < |es|
    ensures Get(es, es[i].key) == Some(es[i].val)
  {
    if i > 0 {
      assert es[0].key != es[i].key;
      assert es[1..][i - 1] == es[i];
      GetAtIndex(es[1..], i - 1);
    }
  }

  lemma {:induction false} GetSetSame(es: seq<Entry>, k: Key, w: Value)
    requires Get(es, k).Some?
    ensures Get(Set(es, k, w), k) == Some(w)
  {
    if es[0].key != k {
      GetSetSame(es[1..], k, w);
    }
  }

  lemma {:induction false} GetSetOther(es: seq<Entry>, k: Key, k': Key, w: Value)
    requires k != k'
    ensures Get(Set(es, k, w), k') == Get(es, k')
  {
    if es != [] && es[0].key != k {
      GetSetOther(es[1..], k, k', w);
    }
  }

  /** Assigning to a slot keeps the array's key sequence. */
  lemma {:induction false} SetKeepsKeys(es: seq<Entry>, k: Key, w: Value)
    ensures Keys(Set(es, k, w)) == Keys(es)
  {
    if es != [] && es[0].key != k {
      SetKeepsKeys(es[1..], k, w);
      assert Set(es, k, w) == [es[0]] + Set(es[1..], k, w);
      assert Keys(Set(es, k, w)) == [es[0].key] + Keys(Set(es[1..], k, w));
      assert Keys(es) == [es[0].key] + Keys(es[1..]);
    }
  }

  lemma IsPrefixTail(p: seq<Key>, q: seq<Key>)
    requires p != [] && q != [] && p[0] == q[0]
    ensures IsPrefix(p, q) <==> IsPrefix(p[1..], q[1..])
  {
    if |p| <= |q| {
      assert q[1..][..|p| - 1] == q[..|p|][1..];
      assert p == [p[0]] + p[1..];
      assert q[..|p|] == [q[0]] + q[..|p|][1..];
    }
  }

  /** At path `p` both values hold arrays with the same key sequence. */
  predicate SameKeysAt(a: Value, b: Value, p: seq<Key>)
  {
    && Lookup(a, p).Some? && Lookup(a, p).value.Arr?
    && Lookup(b, p).Some? && Lookup(b, p).value.Arr?
    && Keys(Lookup(a, p).value.entries) == Keys(Lookup(b, p).value.entries)
  }

  /** Writing through a path keeps the key order of every array above its end. */
  lemma {:induction false} UpdateKeepsKeysAbove(v: Value, path: seq<Key>, w: Value, k: nat)
    requires Lookup(v, path).Some? && k < |path|
    ensures SameKeysAt(v, Update(v, path, w), path[..k])
    decreases path
  {
    var es := v.entries;
    var c := Get(es, path[0]).value;
    var c' := Update(c, path[1..], w);
    GetSetSame(es, path[0], c');
    if k == 0 {
      assert path[..0] == [];
      SetKeepsKeys(es, path[0], c');
    } else {
      UpdateKeepsKeysAbove(c, path[1..], w, k - 1);
      assert path[..k][0] == path[0];
      assert path[..k][1..] == path[1..][..k - 1];
    }
  }

  /** After an update along an existing path, that path holds the new value. */
  lemma {:induction false} LookupUpdateSame(v: Value, path: seq<Key>, w: Value)
    requires Lookup(v, path).Some?
    ensures Lookup(Update(v, path, w), path) == Some(w)
    decreases path
  {
    if path != [] {
      var c := Get(v.entries, path[0]).value;
      LookupUpdateSame(c, path[1..], w);
      GetSetSame(v.entries, path[0], Update(c, path[1..], w));
    }
  }

  /** An update along `path` leaves every disjoint path as it was. */
  lemma {:induction false} LookupUpdateDisjoint(v: Value, path: seq<Key>, w: Value, q: seq<Key>)
    requires Disjoint(path, q)
    ensures Lookup(Update(v, path, w), q) == Lookup(v, q)
    decreases path
  {
    assert path != [] && q != [];
    match v
    case Arr(es) => {
      match Get(es, path[0])
      case Some(c) =>
        var es' := Set(es, path[0], Update(c, path[1..], w));
        if path[0] == q[0] {
          GetSetSame(es, path[0], Update(c, path[1..], w));
          IsPrefixTail(path, q);
          IsPrefixTail(q, path);
          LookupUpdateDisjoint(c, path[1..], w, q[1..]);
        } else {
          GetSetOther(es, path[0], q[0], Update(c, path[1..], w));
        }
      case None =>
    }
    case _ =>
  }
}
