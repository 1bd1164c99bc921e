/**
 * The two PHP string built-ins the read path relies on:
 * `strpos($s, $p) === 0` (a prefix test) and `str_replace($search, '', $s)`
 * (delete every non-overlapping occurrence of `$search`, scanning left to right).
 */
module PhpStrings {

  /** `strpos(s, p) === 0`: `p` occurs at offset 0 of `s`. */
  predicate StartsWith(s: string, p: string)
  {
    |p| <= |s| && s[..|p|] == p
  }

  /** `p` occurs somewhere in `s` (`strpos(s, p) !== false`). */
  predicate Occurs(p: string, s: string)
  {
    exists i :: 0 <= i <= |s| && StartsWith(s[i..], p)
  }

  /**
   * `str_replace(search, '', s)`: one left-to-right pass that deletes each
   * occurrence of `search` found at the scan position. An empty `search`
   * leaves the subject as it is.
   */
  function RemoveAll(s: string, search: string): (r: string)
    ensures |r| <= |s|
    decreases |s|
  {
    if search == [] || s == [] then s
    else if StartsWith(s, search) then RemoveAll(s[|search|..], search)
    else [s[0]] + RemoveAll(s[1..], search)
  }

  /** A subject that does not contain `search` is returned unchanged. */
  lemma {:induction false} RemoveAllWithoutOccurrence(s: string, search: string)
    requires !Occurs(search, s)
    ensures RemoveAll(s, search) == s
    decreases |s|
  {
    if search == [] || s == [] {
    } else {
      assert s[0..] == s;
      assert !StartsWith(s, search);
      forall i | 0 <= i <= |s[1..]|
        ensures !StartsWith(s[1..][i..], search)
      {
        assert s[1..][i..] == s[i + 1..];
      }
      RemoveAllWithoutOccurrence(s[1..], search);
    }
  }

  /** Removing `search` from `search + t` is removing it from `t`. */
  lemma RemoveAllLeading(search: string, t: string)
    requires search != []
    ensures StartsWith(search + t, search)
    ensures RemoveAll(search + t, search) == RemoveAll(t, search)
  {
    assert (search + t)[..|search|] == search;
    assert (search + t)[|search|..] == t;
  }

  /** A stretch `u` at none of whose offsets `search` starts is copied through as it is. */
  lemma {:induction false} RemoveAllCopies(u: string, t: string, search: string)
    requires search != []
    requires forall i :: 0 <= i < |u| ==> !StartsWith((u + t)[i..], search)
    ensures RemoveAll(u + t, search) == u + RemoveAll(t, search)
    decreases |u|
  {
    if u == [] {
      assert u + t == t;
    } else {
      var s := u + t;
      var rest := u[1..] + t;
      assert s[0..] == s;
      assert s[1..] == rest;
      assert RemoveAll(s, search) == [s[0]] + RemoveAll(rest, search);
      forall i | 0 <= i < |u[1..]| ensures !StartsWith(rest[i..], search) {
        assert rest[i..] == s[i + 1..];
      }
      RemoveAllCopies(u[1..], t, search);
      assert u == [u[0]] + u[1..];
    }
  }

  /** Two strings that differ at offset `j < |p|` do not start alike. */
  lemma DiffersAt(s: string, p: string, j: nat)
    requires j < |p| && j < |s| && s[j] != p[j]
    ensures !StartsWith(s, p)
  {
    if |p| <= |s| {
      assert s[..|p|][j] == s[j];
    }
  }
}
