/** Python's `dict` with string keys as an association list in insertion order:
    assigning to a present key keeps its position, assigning to a new key appends,
    and deleting a key keeps the order of the others. */
module OrderedDict {
  import opened Wrappers

  datatype Entry<V> = Entry(key: string, value: V)

  type Dict<V> = seq<Entry<V>>

  /** Python's `list(d.keys())`. */
  function Keys<V>(d: Dict<V>): (ks: seq<string>)
    ensures |ks| == |d|
    ensures forall i :: 0 <= i < |d| ==> ks[i] == d[i].key
  {
    if |d| == 0 then [] else [d[0].key] + Keys(d[1..])
  }

  /** Every key appears once, as in any Python dict. */
  predicate UniqueKeys<V>(d: Dict<V>)
  {
    |d| == 0 || (d[0].key !in Keys(d[1..]) && UniqueKeys(d[1..]))
  }

  /** Python's `d.get(k)`: the value stored under `k`, if any. */
  function Get<V>(d: Dict<V>, k: string): (r: Option<V>)
    ensures r.Some? <==> k in Keys(d)
  {
    if |d| == 0 then None
    else if d[0].key == k then Some(d[0].value)
    else Get(d[1..], k)
  }

  /** A found value is the one stored under `k` in some entry of the dict. */
  lemma {:induction false} GetFindsEntry<V>(d: Dict<V>, k: string)
    ensures Get(d, k).Some? ==> Entry(k, Get(d, k).value) in d
  {
    if |d| > 0 && d[0].key != k {
      GetFindsEntry(d[1..], k);
    }
  }

  /** In a dict with unique keys, looking up the key of any entry yields that entry's value. */
  lemma {:induction false} GetAt<V>(d: Dict<V>, i: nat)
    requires UniqueKeys(d)
    requires i < |d|
    ensures Get(d, d[i].key) == Some(d[i].value)
  {
    if i > 0 {
      assert d[1..][i - 1] == d[i];
      assert d[0].key != d[i].key;
      GetAt(d[1..], i - 1);
    }
  }

  /** Python's `d[k] = v`. */
  function Put<V>(d: Dict<V>, k: string, v: V): (r: Dict<V>)
    ensures Get(r, k) == Some(v)
    ensures forall k' :: k' != k ==> Get(r, k') == Get(d, k')
  {
    if |d| == 0 then [Entry(k, v)]
    else if d[0].key == k then [Entry(k, v)] + d[1..]
    else [d[0]] + Put(d[1..], k, v)
  }

  /** Assignment keeps a present key where it is and appends a new one. */
  lemma {:induction false} PutKeys<V>(d: Dict<V>, k: string, v: V)
    ensures Keys(Put(d, k, v)) == if k in Keys(d) then Keys(d) else Keys(d) + [k]
  {
    if |d| > 0 && d[0].key != k {
      PutKeys(d[1..], k, v);
      assert Keys(Put(d, k, v)) == [d[0].key] + Keys(Put(d[1..], k, v));
    }
  }

  /** Assignment never creates a second entry for a key. */
  lemma {:induction false} PutKeepsUnique<V>(d: Dict<V>, k: string, v: V)
    requires UniqueKeys(d)
    ensures UniqueKeys(Put(d, k, v))
  {
    if |d| > 0 && d[0].key != k {
      PutKeepsUnique(d[1..], k, v);
      PutKeys(d[1..], k, v);
    }
  }

  /** Assigning to the key at position `i` of a dict with unique keys changes that
      entry's value and nothing else. */
  lemma {:induction false} PutAt<V>(d: Dict<V>, i: nat, v: V)
    requires UniqueKeys(d)
    requires i < |d|
    ensures Put(d, d[i].key, v) == d[i := Entry(d[i].key, v)]
  {
    if i > 0 {
      var tail := d[1..];
      assert tail[i - 1] == d[i];
      assert d[0].key != d[i].key;
      PutAt(tail, i - 1, v);
      ConsOntoUpdate(d, i, Entry(d[i].key, v));
    }
  }

  /** Putting the first entry back in front of the rest of an updated sequence. */
  lemma ConsOntoUpdate<V>(d: Dict<V>, i: nat, e: Entry<V>)
    requires 0 < i < |d|
    ensures [d[0]] + d[1..][i - 1 := e] == d[i := e]
  {
  }

  /** Python's `del d[k]` guarded by `if k in d`: every entry under `k` goes,
      nothing else changes. */
  function Remove<V>(d: Dict<V>, k: string): (r: Dict<V>)
    ensures Get(r, k) == None
    ensures forall k' :: k' != k ==> Get(r, k') == Get(d, k')
    ensures k !in Keys(d) ==> r == d
    ensures forall x :: x in Keys(r) ==> x in Keys(d)
  {
    if |d| == 0 then []
    else if d[0].key == k then Remove(d[1..], k)
    else [d[0]] + Remove(d[1..], k)
  }

  /** Deletion never creates a second entry for a key. */
  lemma {:induction false} RemoveKeepsUnique<V>(d: Dict<V>, k: string)
    requires UniqueKeys(d)
    ensures UniqueKeys(Remove(d, k))
  {
    if |d| > 0 {
      RemoveKeepsUnique(d[1..], k);
    }
  }

  /** Removing the first key of a dict with unique keys drops just the first entry. */
  lemma RemoveFirst<V>(d: Dict<V>)
    requires UniqueKeys(d)
    requires |d| > 0
    ensures Remove(d, d[0].key) == d[1..]
  {
    assert d[0].key !in Keys(d[1..]);
  }

  /** Putting the first entry back in front of the rest of a cut sequence. */
  lemma ConsOntoCut<V>(d: Dict<V>, i: nat)
    requires 0 < i < |d|
    ensures [d[0]] + (d[1..][..i - 1] + d[1..][i..]) == d[..i] + d[i + 1..]
  {
    assert d[1..][..i - 1] == d[1..i];
    assert d[1..][i..] == d[i + 1..];
    assert [d[0]] + d[1..i] == d[..i];
  }

  /** Removing a key held at position `i` of a dict with unique keys cuts out exactly
      that entry: the entries before and after keep their order. */
  lemma {:induction false} RemoveAt<V>(d: Dict<V>, i: nat)
    requires UniqueKeys(d)
    requires i < |d|
    ensures Remove(d, d[i].key) == d[..i] + d[i + 1..]
    decreases |d|, 1
  {
    if i == 0 {
      RemoveFirst(d);
      assert d[..0] + d[1..] == d[1..];
    } else {
      RemoveLater(d, i);
    }
  }

  /** The inductive step of `RemoveAt`: a key past the first entry is removed from
      the rest, and the first entry stays in front. */
  lemma {:induction false} RemoveLater<V>(d: Dict<V>, i: nat)
    requires UniqueKeys(d)
    requires 0 < i < |d|
    ensures Remove(d, d[i].key) == d[..i] + d[i + 1..]
    decreases |d|, 0
  {
    var k := d[i].key;
    var tail := d[1..];
    assert tail[i - 1] == d[i];
    RemoveAt(tail, i - 1);
    assert Remove(d, k) == [d[0]] + Remove(tail, k);
    ConsOntoCut(d, i);
  }

  /** The dict read as a finite map: the reference meaning of a Python dict without order. */
  function ToMap<V>(d: Dict<V>): map<string, V>
  {
    if |d| == 0 then map[] else ToMap(d[1..])[d[0].key := d[0].value]
  }

  /** The map view and lookup agree on presence and value. */
  lemma {:induction false} ToMapAgreesWithGet<V>(d: Dict<V>, k: string)
    ensures k in ToMap(d) ==> Get(d, k) == Some(ToMap(d)[k])
    ensures k !in ToMap(d) ==> Get(d, k) == None
  {
    if |d| > 0 {
      ToMapAgreesWithGet(d[1..], k);
    }
  }

  /** Updates of two different keys commute. */
  lemma UpdatesCommute<V>(m: map<string, V>, a: string, x: V, b: string, y: V)
    requires a != b
    ensures m[a := x][b := y] == m[b := y][a := x]
  {
  }

  /** A later update of the same key overrides an earlier one. */
  lemma UpdateOverrides<V>(m: map<string, V>, a: string, x: V, y: V)
    ensures m[a := x][a := y] == m[a := y]
  {
  }

  /** Subtracting a key after updating another is updating after subtracting. */
  lemma SubtractAfterUpdate<V>(m: map<string, V>, a: string, x: V, b: string)
    requires a != b
    ensures m[a := x] - {b} == (m - {b})[a := x]
  {
  }

  /** Subtracting the key just updated forgets the update. */
  lemma SubtractUpdated<V>(m: map<string, V>, a: string, x: V)
    ensures m[a := x] - {a} == m - {a}
  {
  }

  /** Assignment is map update. */
  lemma {:induction false} PutIsMapUpdate<V>(d: Dict<V>, k: string, v: V)
    ensures ToMap(Put(d, k, v)) == ToMap(d)[k := v]
  {
    if |d| == 0 {
    } else if d[0].key == k {
      assert Put(d, k, v)[1..] == d[1..];
      UpdateOverrides(ToMap(d[1..]), k, d[0].value, v);
    } else {
      var tail := d[1..];
      assert Put(d, k, v)[1..] == Put(tail, k, v);
      PutIsMapUpdate(tail, k, v);
      UpdatesCommute(ToMap(tail), k, v, d[0].key, d[0].value);
    }
  }

  /** Deletion is map subtraction. */
  lemma {:induction false} RemoveIsMapSubtraction<V>(d: Dict<V>, k: string)
    ensures ToMap(Remove(d, k)) == ToMap(d) - {k}
  {
    if |d| == 0 {
    } else if d[0].key == k {
      RemoveIsMapSubtraction(d[1..], k);
      SubtractUpdated(ToMap(d[1..]), k, d[0].value);
    } else {
      var tail := d[1..];
      assert Remove(d, k)[1..] == Remove(tail, k);
      RemoveIsMapSubtraction(tail, k);
      SubtractAfterUpdate(ToMap(tail), d[0].key, d[0].value, k);
    }
  }

  /** Deleting a key that was just appended gives back the dict from before. */
  lemma {:induction false} RemoveUndoesPut<V>(d: Dict<V>, k: string, v: V)
    requires k !in Keys(d)
    ensures Remove(Put(d, k, v), k) == d
  {
    if |d| > 0 {
      assert d[0].key != k;
      assert k !in Keys(d[1..]);
      RemoveUndoesPut(d[1..], k, v);
      assert [d[0]] + d[1..] == d;
    }
  }
}
