/**
 * A Python `dict` keyed by strings, kept as its items in insertion order:
 * iterating `d.items()` walks this sequence front to back.
 */
module OrderedDict {

  type Dict<V> = seq<(string, V)>

  function Keys<V>(d: Dict<V>): (ks: seq<string>)
    ensures |ks| == |d| && forall i :: 0 <= i < |d| ==> ks[i] == d[i].0
  {
    if d == [] then [] else [d[0].0] + Keys(d[1..])
  }

  /** A Python dictionary holds each key once. */
  predicate UniqueKeys<V>(d: Dict<V>) {
    forall i, j :: 0 <= i < j < |d| ==> d[i].0 != d[j].0
  }

  /**
   * `d[k] = v`: a key already present keeps its position and takes the new
   * value; a new key goes to the end.
   */
  function Put<V>(d: Dict<V>, k: string, v: V): (r: Dict<V>)
    requires UniqueKeys(d)
    ensures UniqueKeys(r)
    ensures Keys(r) == if k in Keys(d) then Keys(d) else Keys(d) + [k]
    ensures forall i :: 0 <= i < |r| ==> r[i].1 == if r[i].0 == k then v else d[i].1
  {
    if k in Keys(d) then d[IndexOf(d, k) := (k, v)] else d + [(k, v)]
  }

  /** The position of a key that is present. */
  function IndexOf<V>(d: Dict<V>, k: string): (i: nat)
    requires k in Keys(d)
    ensures i < |d| && d[i].0 == k
  {
    if d[0].0 == k then 0 else 1 + IndexOf(d[1..], k)
  }

  /** Inserting a key that is not there appends it and leaves every other item as it was. */
  lemma PutNew<V>(d: Dict<V>, k: string, v: V)
    requires UniqueKeys(d) && k !in Keys(d)
    ensures Put(d, k, v) == d + [(k, v)]
  {
    var r := Put(d, k, v);
    assert Keys(r) == Keys(d) + [k];
    forall i | 0 <= i < |r|
      ensures r[i] == (d + [(k, v)])[i]
    {
      assert Keys(r)[i] == r[i].0;
      if i < |d| {
        assert Keys(d)[i] == d[i].0;
      }
    }
  }
}
