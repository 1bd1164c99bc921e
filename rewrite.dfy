/**
 * The placeholder rewrite that `fetchArray` performs on a fetched object's
 * state: every string that starts with the reserved marker prefix, at any
 * depth, becomes a lazy proxy for the id that the marker names; nested arrays
 * are walked depth first; keys and every other value stay as they are.
 */
module Rewrite {
  import opened Wrappers
  import opened PhpStrings
  import opened PhpValues

  /** The reserved prefix of a reference marker. */
  const MarkerPrefix: string := "__php_object_freezer_"

  predicate IsMarker(v: Value)
  {
    v.Str? && StartsWith(v.s, MarkerPrefix)
  }

  /** The id a marker string names: the string with every occurrence of the prefix removed. */
  function MarkerTarget(s: string): (id: string)
  {
    RemoveAll(s, MarkerPrefix)
  }

  /** What `fetchArray` leaves in one slot. */
  function RewriteValue(v: Value): (r: Value)
    decreases v, 1
  {
    match v
    case Arr(es) => Arr(RewriteEntries(es))
    case Str(s) => if StartsWith(s, MarkerPrefix) then Proxy(MarkerTarget(s)) else v
    case _ => v
  }

  /** What `fetchArray` leaves of a whole array: every slot rewritten, in place. */
  function RewriteEntries(es: seq<Entry>): (r: seq<Entry>)
    ensures |r| == |es| && Keys(r) == Keys(es)
    ensures UniqueKeys(es) ==> UniqueKeys(r)
    decreases Arr(es), 0
  {
    seq(|es|, i requires 0 <= i < |es| => Entry(es[i].key, RewriteValue(es[i].val)))
  }

  function RewriteOption(o: Option<Value>): (r: Option<Value>)
  {
    match o
    case None => None
    case Some(w) => Some(RewriteValue(w))
  }

  /** No string anywhere in `v` starts with the marker prefix. */
  predicate Clean(v: Value)
  {
    match v
    case Str(s) => !StartsWith(s, MarkerPrefix)
    case Arr(es) => forall i :: 0 <= i < |es| ==> Clean(es[i].val)
    case _ => true
  }

  /** Looking a key up in the rewritten array finds the rewritten slot. */
  lemma {:induction false} GetRewrite(es: seq<Entry>, k: Key)
    ensures Get(RewriteEntries(es), k) == RewriteOption(Get(es, k))
  {
    if es != [] {
      assert RewriteEntries(es)[1..] == RewriteEntries(es[1..]);
      GetRewrite(es[1..], k);
    }
  }

  /** The rewrite commutes with following a key path into the value. */
  lemma {:induction false} LookupRewrite(v: Value, path: seq<Key>)
    ensures Lookup(RewriteValue(v), path) == RewriteOption(Lookup(v, path))
    decreases path
  {
    if path != [] {
      match v
      case Arr(es) => {
        GetRewrite(es, path[0]);
        match Get(es, path[0])
        case Some(c) => LookupRewrite(c, path[1..]);
        case None =>
      }
      case _ =>
    }
  }

  /**
   * At every key path: a marker string has become a proxy for its target id,
   * an array is still an array with the same keys, any other value is as it
   * was, and no path reaches a marker afterwards; the rewritten value has
   * exactly the paths of the original.
   */
  lemma RewriteAtPath(v: Value, path: seq<Key>)
    ensures Lookup(RewriteValue(v), path).Some? <==> Lookup(v, path).Some?
    ensures forall s :: Lookup(v, path) == Some(Str(s)) && StartsWith(s, MarkerPrefix) ==>
      Lookup(RewriteValue(v), path) == Some(Proxy(MarkerTarget(s)))
    ensures forall es :: Lookup(v, path) == Some(Arr(es)) ==>
      Lookup(RewriteValue(v), path) == Some(Arr(RewriteEntries(es))) && Keys(RewriteEntries(es)) == Keys(es)
    ensures forall w :: Lookup(v, path) == Some(w) && !w.Arr? && !IsMarker(w) ==>
      Lookup(RewriteValue(v), path) == Some(w)
    ensures Lookup(RewriteValue(v), path).Some? ==> !IsMarker(Lookup(RewriteValue(v), path).value)
  {
    LookupRewrite(v, path);
  }

  /** After the rewrite no string at any depth starts with the prefix. */
  lemma {:induction false} RewriteIsClean(v: Value)
    ensures Clean(RewriteValue(v))
  {
    match v
    case Arr(es) =>
      forall i | 0 <= i < |es| ensures Clean(RewriteEntries(es)[i].val) {
        RewriteIsClean(es[i].val);
      }
    case _ =>
  }

  /** A value without markers is left exactly as it is. */
  lemma {:induction false} RewriteFixesClean(v: Value)
    requires Clean(v)
    ensures RewriteValue(v) == v
  {
    match v
    case Arr(es) =>
      forall i | 0 <= i < |es| ensures RewriteEntries(es)[i] == es[i] {
        RewriteFixesClean(es[i].val);
      }
      assert RewriteEntries(es) == es;
    case _ =>
  }

  /** Running `fetchArray` a second time changes nothing. */
  lemma RewriteIdempotent(v: Value)
    ensures RewriteValue(RewriteValue(v)) == RewriteValue(v)
  {
    RewriteIsClean(v);
    RewriteFixesClean(RewriteValue(v));
  }

  /** A marker written as prefix + id, for an id free of the prefix, becomes a proxy for that id. */
  lemma MarkerNamesItsId(id: string)
    requires !Occurs(MarkerPrefix, id)
    ensures IsMarker(Str(MarkerPrefix + id))
    ensures RewriteValue(Str(MarkerPrefix + id)) == Proxy(id)
  {
    RemoveAllLeading(MarkerPrefix, id);
    RemoveAllWithoutOccurrence(id, MarkerPrefix);
  }

  /**
   * Every occurrence of the prefix is removed, not only the leading one: a
   * second occurrence after a stretch `u` that holds none is dropped too.
   */
  lemma MarkerLosesEveryOccurrence(u: string, t: string)
    requires forall i :: 0 <= i < |u| ==> !StartsWith((u + (MarkerPrefix + t))[i..], MarkerPrefix)
    ensures MarkerTarget(MarkerPrefix + u + MarkerPrefix + t) == u + MarkerTarget(t)
  {
    assert MarkerPrefix + u + MarkerPrefix + t == MarkerPrefix + (u + (MarkerPrefix + t));
    RemoveAllLeading(MarkerPrefix, u + (MarkerPrefix + t));
    RemoveAllCopies(u, MarkerPrefix + t, MarkerPrefix);
    RemoveAllLeading(MarkerPrefix, t);
  }

  /**
   * One pass of the removal can join two halves of a new prefix, so the
   * target id of a marker may itself start with the prefix.
   */
  lemma MarkerTargetMayKeepPrefix()
    ensures MarkerTarget(MarkerPrefix + "__php_" + MarkerPrefix + "object_freezer_x") == MarkerPrefix + "x"
  {
    assert !Occurs(MarkerPrefix, "object_freezer_x");
    MarkerTargetSplitPrefix("object_freezer_x");
    assert "__php_" + "object_freezer_x" == MarkerPrefix + "x";
  }

  lemma MarkerTargetSplitPrefix(tail: string)
    requires !Occurs(MarkerPrefix, tail)
    ensures MarkerTarget(MarkerPrefix + "__php_" + MarkerPrefix + tail) == "__php_" + tail
  {
    var p := MarkerPrefix;
    var inner := p + tail;
    var body := "__php_" + inner;
    assert p + "__php_" + p + tail == p + body;
    RemoveAllLeading(p, body);
    RemoveAllLeading(p, tail);
    assert StartsWith(inner, p);
    NoPrefixInFirstSix(inner);
    RemoveAllCopies("__php_", inner, p);
    RemoveAllWithoutOccurrence(tail, p);
  }

  lemma NoPrefixInFirstSix(t: string)
    requires StartsWith(t, MarkerPrefix)
    ensures forall i :: 0 <= i < 6 ==> !StartsWith(("__php_" + t)[i..], MarkerPrefix)
  {
    var joined := "__php_" + t;
    assert t[..|MarkerPrefix|][0] == '_' && t[..|MarkerPrefix|][1] == '_';
    assert joined[6] == t[0] == '_' && joined[7] == t[1] == '_';
    forall i | 0 <= i < 6 ensures !StartsWith(joined[i..], MarkerPrefix) {
      var j := if i == 0 then 6 else if i == 1 then 1 else if i == 5 then 2 else 0;
      assert joined[i..][j] == joined[i + j];
      DiffersAt(joined[i..], MarkerPrefix, j);
    }
  }
}
