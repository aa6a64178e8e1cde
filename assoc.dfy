/** Insertion-ordered dictionaries with string keys, as association lists.
    Assigning to a present key overwrites its value where it stands; assigning to
    an absent key appends it, which is how the documents and settings of the
    manager keep their order. */
module Assoc {
  import opened Outcomes

  type Table<V> = seq<(string, V)>

  function Keys<V>(t: Table<V>): (ks: seq<string>)
    ensures |ks| == |t|
    ensures forall i :: 0 <= i < |t| ==> ks[i] == t[i].0
  {
    seq(|t|, i requires 0 <= i < |t| => t[i].0)
  }

  /** No key occurs twice, as in a Python dict. */
  predicate Unique<V>(t: Table<V>) {
    forall i, j :: 0 <= i < j < |t| ==> t[i].0 != t[j].0
  }

  /** `d.get(k)`: the value of the first entry with key `k`. */
  function Get<V>(t: Table<V>, k: string): (r: Option<V>)
    ensures r.None? <==> k !in Keys(t)
    ensures r.Some? ==> exists i :: 0 <= i < |t| && t[i] == (k, r.value)
    decreases |t|
  {
    if t == [] then None
    else if t[0].0 == k then Some(t[0].1)
    else
      assert Keys(t) == [t[0].0] + Keys(t[1..]);
      var r := Get(t[1..], k);
      assert r.Some? ==> exists i :: 0 <= i < |t[1..]| && t[1..][i] == (k, r.value);
      r
  }

  /** `d[k] = v`. */
  function Put<V>(t: Table<V>, k: string, v: V): (r: Table<V>)
    ensures k in Keys(t) ==> Keys(r) == Keys(t)
    ensures k !in Keys(t) ==> r == t + [(k, v)]
    decreases |t|
  {
    if t == [] then [(k, v)]
    else if t[0].0 == k then [(k, v)] + t[1..]
    else
      assert Keys(t) == [t[0].0] + Keys(t[1..]);
      var r := [t[0]] + Put(t[1..], k, v);
      assert Keys(r) == [t[0].0] + Keys(Put(t[1..], k, v));
      r
  }

  /** After `d[k] = v`, `k` maps to `v` and every other key is as before. */
  lemma {:induction false} GetPut<V>(t: Table<V>, k: string, v: V, k': string)
    ensures Get(Put(t, k, v), k') == if k' == k then Some(v) else Get(t, k')
    decreases |t|
  {
    if t != [] && t[0].0 != k {
      GetPut(t[1..], k, v, k');
      assert Put(t, k, v)[1..] == Put(t[1..], k, v);
    }
  }

  /** `del d[k]`, or `d.pop(k)` once the value has been read. */
  function Remove<V>(t: Table<V>, k: string): (r: Table<V>)
    ensures k !in Keys(r)
    ensures k !in Keys(t) ==> r == t
    decreases |t|
  {
    if t == [] then []
    else if t[0].0 == k then Remove(t[1..], k)
    else
      var rest := Remove(t[1..], k);
      assert Keys([t[0]] + rest) == [t[0].0] + Keys(rest);
      assert Keys(t) == [t[0].0] + Keys(t[1..]);
      assert ([t[0]] + rest)[1..] == rest;
      [t[0]] + rest
  }

  /** After `del d[k]`, every other key is as before. */
  lemma {:induction false} GetRemove<V>(t: Table<V>, k: string, k': string)
    requires k' != k
    ensures Get(Remove(t, k), k') == Get(t, k')
    decreases |t|
  {
    if t != [] {
      GetRemove(t[1..], k, k');
      if t[0].0 != k {
        assert ([t[0]] + Remove(t[1..], k))[1..] == Remove(t[1..], k);
      }
    }
  }

  /** `del d[k]` keeps the other entries in their order and adds none. */
  lemma {:induction false} RemoveElems<V>(t: Table<V>, k: string)
    ensures forall i :: 0 <= i < |Remove(t, k)| ==> Remove(t, k)[i] in t
    decreases |t|
  {
    if t != [] {
      RemoveElems(t[1..], k);
      if t[0].0 != k {
        var rest := Remove(t[1..], k);
        forall i | 0 <= i < |[t[0]] + rest| ensures ([t[0]] + rest)[i] in t {
          if i > 0 {
            assert ([t[0]] + rest)[i] == rest[i - 1];
            assert rest[i - 1] in t[1..];
          }
        }
      } else {
        assert forall x :: x in t[1..] ==> x in t;
      }
    }
  }

  /** `del d[k]` adds no key. */
  lemma RemoveKeeps<V>(t: Table<V>, k: string, k': string)
    requires k' !in Keys(t)
    ensures k' !in Keys(Remove(t, k))
  {
    RemoveElems(t, k);
    var r := Remove(t, k);
    forall i | 0 <= i < |r| ensures r[i].0 != k' {
      assert r[i] in t;
    }
  }

  /** Putting back the value a key already has changes nothing. */
  lemma {:induction false} PutSame<V>(t: Table<V>, k: string, v: V)
    requires Get(t, k) == Some(v)
    ensures Put(t, k, v) == t
    decreases |t|
  {
    if t != [] && t[0].0 != k {
      PutSame(t[1..], k, v);
    }
  }

  /** A second assignment to the same key wins, in the same place. */
  lemma {:induction false} PutPut<V>(t: Table<V>, k: string, v: V, w: V)
    ensures Put(Put(t, k, v), k, w) == Put(t, k, w)
    decreases |t|
  {
    if t != [] && t[0].0 != k {
      PutPut(t[1..], k, v, w);
    }
  }

  lemma {:induction false} PutUnique<V>(t: Table<V>, k: string, v: V)
    requires Unique(t)
    ensures Unique(Put(t, k, v))
  {
    var r := Put(t, k, v);
    if k !in Keys(t) {
      forall i, j | 0 <= i < j < |r| ensures r[i].0 != r[j].0 {
        if j == |t| {
          assert r[i].0 == Keys(t)[i];
        }
      }
    }
  }

  /** Lookup in a table with unique keys finds the entry at any position. */
  lemma GetAt<V>(t: Table<V>, i: nat)
    requires Unique(t) && i < |t|
    ensures Get(t, t[i].0) == Some(t[i].1)
  {
    var r := Get(t, t[i].0);
    var j :| 0 <= j < |t| && t[j] == (t[i].0, r.value);
  }

  /** Every entry after `d[k] = v` is the new one or an entry that was there before. */
  lemma {:induction false} PutElems<V>(t: Table<V>, k: string, v: V)
    ensures forall i :: 0 <= i < |Put(t, k, v)| ==>
      Put(t, k, v)[i] == (k, v) || Put(t, k, v)[i] in t
    decreases |t|
  {
    if t != [] && t[0].0 != k {
      PutElems(t[1..], k, v);
      var r := Put(t, k, v);
      assert r[1..] == Put(t[1..], k, v);
      forall i | 1 <= i < |r| ensures r[i] == (k, v) || r[i] in t {
        assert r[i] == Put(t[1..], k, v)[i - 1];
      }
    } else if t != [] {
      var r := Put(t, k, v);
      forall i | 1 <= i < |r| ensures r[i] in t {
        assert r[i] == t[i];
      }
    }
  }

  /** An entry appended under a new key is found by lookup. */
  lemma GetAppended<V>(t: Table<V>, k: string, v: V, k': string)
    requires k !in Keys(t)
    ensures Get(t + [(k, v)], k') == if k' == k then Some(v) else Get(t, k')
  {
    GetPut(t, k, v, k');
  }

  /** Reassigning the last, newly appended key keeps it last. */
  lemma PutAppended<V>(t: Table<V>, k: string, v: V, w: V)
    requires k !in Keys(t)
    ensures Put(t + [(k, v)], k, w) == t + [(k, w)]
  {
    PutPut(t, k, v, w);
  }

  /** A table with unique keys is its front with its last entry put back. */
  lemma SplitLast<V>(t: Table<V>)
    requires t != [] && Unique(t)
    ensures Unique(t[..|t| - 1])
    ensures t[|t| - 1].0 !in Keys(t[..|t| - 1])
    ensures Put(t[..|t| - 1], t[|t| - 1].0, t[|t| - 1].1) == t
  {
    var init := t[..|t| - 1];
    forall i | 0 <= i < |init| ensures init[i].0 != t[|t| - 1].0 {
      assert init[i] == t[i];
    }
    assert init + [t[|t| - 1]] == t;
  }
}
