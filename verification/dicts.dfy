/**
  Python dictionaries built from a literal, as the application uses them.

  A dict literal `{k1: v1, k2: v2, ...}` is an insertion-ordered table of
  string keys. It is represented here by the sequence of its entries in the
  order they are written. Building the dict from the literal lets a later
  entry with a repeated key overwrite an earlier one (`ToMap`); the lookup
  `d.get(k, default)` yields the value stored last for `k`, or the default
  (`Get`).
 */
module Dicts {

  /** The result of a lookup: a value, or none when the key is absent */
  datatype Option<+T> = None | Some(value: T) {

    /** The value held, falling back to `default` */
    function GetOr(default: T): T {
      if Some? then value else default
    }
  }

  /** The entries of a dict literal, in the order they are written */
  type Dict<V> = seq<(string, V)>

  /** True iff some entry of `d` has key `k` */
  predicate HasKey<V>(d: Dict<V>, k: string) {
    exists i :: 0 <= i < |d| && d[i].0 == k
  }

  /** True iff entry `i` is the last entry of `d` written for key `k` */
  predicate LastKey<V>(d: Dict<V>, k: string, i: int)
    requires 0 <= i < |d|
  {
    forall j :: i < j < |d| ==> d[j].0 != k
  }

  /** True iff no key is written twice in `d` */
  predicate DistinctKeys<V>(d: Dict<V>) {
    forall i, j :: 0 <= i < j < |d| ==> d[i].0 != d[j].0
  }

  /** The mapping a dict literal denotes: entries are inserted left to right,
      so the last entry written for a key decides its value. */
  ghost function ToMap<V>(d: Dict<V>): map<string, V>
  {
    if |d| == 0 then map[] else ToMap(d[..|d| - 1])[d[|d| - 1].0 := d[|d| - 1].1]
  }

  /** Looks `k` up in the dict a literal builds: the last entry written
      for `k` decides, as a repeated key in a Python literal overwrites the
      earlier one. */
  function Find<V>(d: Dict<V>, k: string): (r: Option<V>)
    ensures r.None? <==> !HasKey(d, k)
    ensures r.Some? ==> exists i :: 0 <= i < |d| && d[i] == (k, r.value) && LastKey(d, k, i)
  {
    if |d| == 0 then None
    else if d[|d| - 1].0 == k then
      assert LastKey(d, k, |d| - 1);
      Some(d[|d| - 1].1)
    else
      var p := d[..|d| - 1];
      var r := Find(p, k);
      assert HasKey(p, k) <==> HasKey(d, k) by {
        if HasKey(d, k) {
          var i :| 0 <= i < |d| && d[i].0 == k;
          assert p[i].0 == k;
        }
      }
      assert r.Some? ==> exists i :: 0 <= i < |d| && d[i] == (k, r.value) && LastKey(d, k, i) by {
        if r.Some? {
          var i :| 0 <= i < |p| && p[i] == (k, r.value) && LastKey(p, k, i);
          assert d[i] == (k, r.value);
        }
      }
      r
  }

  /** `d.get(k, default)`: the value stored last for `k`, or `default` when `k` is absent */
  function Get<V>(d: Dict<V>, k: string, default: V): (r: V)
    ensures !HasKey(d, k) ==> r == default
    ensures HasKey(d, k) ==> exists i :: 0 <= i < |d| && d[i] == (k, r) && LastKey(d, k, i)
  {
    Find(d, k).GetOr(default)
  }

  /** The lookup agrees with the dict the literal builds: same keys, same
      values, repeated keys included. */
  lemma {:induction false} FindMatchesLiteral<V>(d: Dict<V>, k: string)
    ensures Find(d, k) == if k in ToMap(d) then Some(ToMap(d)[k]) else None
  {
    if |d| > 0 {
      FindMatchesLiteral(d[..|d| - 1], k);
    }
  }

  /** With distinct keys, looking up the key of entry `i` yields that entry's value. */
  lemma {:induction false} FindAt<V>(d: Dict<V>, i: int)
    requires DistinctKeys(d)
    requires 0 <= i < |d|
    ensures Find(d, d[i].0) == Some(d[i].1)
  {
    if i < |d| - 1 {
      var p := d[..|d| - 1];
      assert d[|d| - 1].0 != d[i].0;
      assert DistinctKeys(p);
      FindAt(p, i);
    }
  }
}
