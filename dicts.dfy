/**
 * A Python dict as an association list: entries in insertion order. Assigning to a key that is
 * present overwrites its value where it stands; assigning a new key appends it. The keys of
 * every dict the model builds are distinct (`Unique`).
 */
module Dicts {
  import opened Wrappers

  type Dict<V> = seq<(string, V)>

  /** The keys in iteration order. */
  function Keys<V>(d: Dict<V>): (ks: seq<string>)
    ensures |ks| == |d|
    ensures forall i :: 0 <= i < |d| ==> ks[i] == d[i].0
  {
    if d == [] then [] else [d[0].0] + Keys(d[1..])
  }

  predicate Unique<V>(d: Dict<V>)
  {
    forall i, j :: 0 <= i < j < |d| ==> d[i].0 != d[j].0
  }

  /** `d.get(k)`: the value stored under `k`, if any. */
  function Lookup<V>(d: Dict<V>, k: string): (r: Option<V>)
    ensures r.None? <==> k !in Keys(d)
    ensures r.Some? ==> (k, r.value) in d
  {
    if d == [] then None
    else if d[0].0 == k then Some(d[0].1)
    else Lookup(d[1..], k)
  }

  /** With distinct keys, the value under a key is the one its entry holds. */
  lemma {:induction false} LookupUnique<V>(d: Dict<V>, i: nat)
    requires Unique(d) && i < |d|
    ensures Lookup(d, d[i].0) == Some(d[i].1)
  {
    if i > 0 {
      assert d[0].0 != d[i].0;
      assert d[1..][i - 1] == d[i];
      LookupUnique(d[1..], i - 1);
    }
  }

  lemma {:induction false} LookupAppend<V>(d: Dict<V>, k: string, v: V, k': string)
    requires k !in Keys(d)
    ensures Lookup(d + [(k, v)], k') == if k' == k then Some(v) else Lookup(d, k')
  {
    if d != [] {
      assert (d + [(k, v)])[1..] == d[1..] + [(k, v)];
      LookupAppend(d[1..], k, v, k');
    }
  }

  /** Overwrites, where they stand, the values stored under `k`. */
  function Replace<V>(d: Dict<V>, k: string, v: V): (r: Dict<V>)
    ensures Keys(r) == Keys(d)
    ensures k in Keys(d) ==> Lookup(r, k) == Some(v)
    ensures forall k' :: k' != k ==> Lookup(r, k') == Lookup(d, k')
  {
    if d == [] then []
    else [if d[0].0 == k then (k, v) else d[0]] + Replace(d[1..], k, v)
  }

  /**
   * `d[k] = v`: the value under `k` becomes `v`; a key already present keeps its position,
   * a new key goes last; nothing else changes.
   */
  function Set<V>(d: Dict<V>, k: string, v: V): (r: Dict<V>)
    ensures Keys(r) == if k in Keys(d) then Keys(d) else Keys(d) + [k]
    ensures Lookup(r, k) == Some(v)
    ensures forall k' :: k' != k ==> Lookup(r, k') == Lookup(d, k')
    ensures Unique(d) ==> Unique(r)
  {
    if k in Keys(d) then
      Replace(d, k, v)
    else
      var r := d + [(k, v)];
      assert Keys(r) == Keys(d) + [k];
      forall k' ensures Lookup(r, k') == if k' == k then Some(v) else Lookup(d, k') {
        LookupAppend(d, k, v, k');
      }
      r
  }

  /**
   * `del d[k]` once the caller knows `k` is present: every entry under `k` goes, the other
   * entries stay, in their order.
   */
  function Delete<V>(d: Dict<V>, k: string): (r: Dict<V>)
    ensures k !in Keys(r)
    ensures forall k' :: k' != k ==> Lookup(r, k') == Lookup(d, k')
    ensures k !in Keys(d) ==> r == d
  {
    if d == [] then []
    else if d[0].0 == k then Delete(d[1..], k)
    else [d[0]] + Delete(d[1..], k)
  }

  /** `r` is `d` at the strictly increasing positions `pos`. */
  ghost predicate Embeds<V>(r: Dict<V>, d: Dict<V>, pos: seq<int>)
  {
    && |pos| == |r|
    && (forall i :: 0 <= i < |pos| ==> 0 <= pos[i] < |d| && r[i] == d[pos[i]])
    && (forall i, j :: 0 <= i < j < |pos| ==> pos[i] < pos[j])
  }

  /** Each position one further on. */
  function Shift(ps: seq<int>): (r: seq<int>)
    ensures |r| == |ps| && forall i :: 0 <= i < |ps| ==> r[i] == ps[i] + 1
  {
    seq(|ps|, i requires 0 <= i < |ps| => ps[i] + 1)
  }

  lemma EmbedsSkip<V>(r: Dict<V>, d: Dict<V>, pos: seq<int>)
    requires d != [] && Embeds(r, d[1..], pos)
    ensures Embeds(r, d, Shift(pos))
  {
    forall i | 0 <= i < |pos|
      ensures r[i] == d[pos[i] + 1]
    {
      assert d[1..][pos[i]] == d[pos[i] + 1];
    }
  }

  lemma EmbedsKeep<V>(r: Dict<V>, d: Dict<V>, pos: seq<int>)
    requires d != [] && Embeds(r, d[1..], pos)
    ensures Embeds([d[0]] + r, d, [0] + Shift(pos))
  {
    EmbedsSkip(r, d, pos);
    var p := [0] + Shift(pos);
    forall i | 1 <= i < |p|
      ensures ([d[0]] + r)[i] == d[p[i]]
    {
      assert ([d[0]] + r)[i] == r[i - 1] && p[i] == Shift(pos)[i - 1];
    }
  }

  /** Where each remaining entry stood in `d`. */
  lemma {:induction false} DeletePositions<V>(d: Dict<V>, k: string) returns (pos: seq<int>)
    ensures Embeds(Delete(d, k), d, pos)
  {
    if d == [] {
      pos := [];
    } else {
      var tail := DeletePositions(d[1..], k);
      if d[0].0 == k {
        EmbedsSkip(Delete(d[1..], k), d, tail);
        pos := Shift(tail);
      } else {
        EmbedsKeep(Delete(d[1..], k), d, tail);
        pos := [0] + Shift(tail);
      }
    }
  }

  /** Every entry of `d` not under `k` remains. */
  lemma {:induction false} DeleteKeepsOthers<V>(d: Dict<V>, k: string)
    ensures forall i :: 0 <= i < |d| && d[i].0 != k ==> d[i] in Delete(d, k)
  {
    if d != [] {
      DeleteKeepsOthers(d[1..], k);
      forall i | 1 <= i < |d| && d[i].0 != k
        ensures d[i] in Delete(d, k)
      {
        assert d[1..][i - 1] == d[i];
      }
    }
  }

  /** Entries `i` and `j` of `r` appear in `d`, in the same order. */
  ghost predicate Before<V>(r: Dict<V>, d: Dict<V>, i: int, j: int)
    requires 0 <= i < j < |r|
  {
    exists i', j' :: 0 <= i' < j' < |d| && r[i] == d[i'] && r[j] == d[j']
  }

  /** Any two entries of `r` appear in `d`, in the same order. */
  ghost predicate InOrder<V>(r: Dict<V>, d: Dict<V>)
  {
    forall i, j :: 0 <= i < j < |r| ==> Before(r, d, i, j)
  }

  /** Entries taken at increasing positions keep their relative order. */
  lemma EmbedsInOrder<V>(r: Dict<V>, d: Dict<V>, pos: seq<int>)
    requires Embeds(r, d, pos)
    ensures InOrder(r, d)
  {
    forall i, j | 0 <= i < j < |r|
      ensures Before(r, d, i, j)
    {
      var i', j' := pos[i], pos[j];
      assert 0 <= i' < j' < |d| && r[i] == d[i'] && r[j] == d[j'];
    }
  }

  /** Deleting keeps the remaining entries in their order. */
  lemma DeleteKeepsOrder<V>(d: Dict<V>, k: string)
    ensures InOrder(Delete(d, k), d)
  {
    var pos := DeletePositions(d, k);
    EmbedsInOrder(Delete(d, k), d, pos);
  }

  /** Deleting from a dict with distinct keys leaves distinct keys. */
  lemma DeleteUnique<V>(d: Dict<V>, k: string)
    requires Unique(d)
    ensures Unique(Delete(d, k))
  {
    var r := Delete(d, k);
    var pos := DeletePositions(d, k);
    forall i, j | 0 <= i < j < |r|
      ensures r[i].0 != r[j].0
    {
      assert r[i] == d[pos[i]] && r[j] == d[pos[j]];
    }
  }
}
