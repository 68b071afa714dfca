// Python dictionaries keyed by strings. A dict keeps insertion order, and
// the order shows in the output of the serialisers, so a dict is modelled as
// a sequence of (key, value) entries. Assigning to an existing key replaces
// its value in place; assigning to a new key appends an entry.

module Dicts {
  import opened Wrappers

  type Dict<V> = seq<(string, V)>

  function Keys<V>(d: Dict<V>): (r: seq<string>)
    ensures |r| == |d|
    ensures forall i :: 0 <= i < |d| ==> r[i] == d[i].0
  {
    seq(|d|, i requires 0 <= i < |d| => d[i].0)
  }

  function Values<V>(d: Dict<V>): (r: seq<V>)
    ensures |r| == |d|
    ensures forall i :: 0 <= i < |d| ==> r[i] == d[i].1
  {
    seq(|d|, i requires 0 <= i < |d| => d[i].1)
  }

  predicate HasKey<V>(d: Dict<V>, k: string)
  {
    exists i :: 0 <= i < |d| && d[i].0 == k
  }

  /** No key occurs twice: what every Python dict satisfies. */
  predicate DistinctKeys<V>(d: Dict<V>)
  {
    forall i, j :: 0 <= i < j < |d| ==> d[i].0 != d[j].0
  }

  /** `d.get(k)`. */
  function Get<V>(d: Dict<V>, k: string): (r: Option<V>)
    ensures r.Some? <==> HasKey(d, k)
  {
    if |d| == 0 then None
    else if d[0].0 == k then Some(d[0].1)
    else
      var r := Get(d[1..], k);
      assert HasKey(d[1..], k) ==> HasKey(d, k) by {
        if HasKey(d[1..], k) { var i :| 0 <= i < |d[1..]| && d[1..][i].0 == k; assert d[i + 1].0 == k; }
      }
      assert HasKey(d, k) ==> HasKey(d[1..], k) by {
        if HasKey(d, k) { var i :| 0 <= i < |d| && d[i].0 == k; assert i > 0 && d[1..][i - 1].0 == k; }
      }
      r
  }

  /** A key's value is the value of one of its entries. */
  lemma {:induction false} GetFound<V>(d: Dict<V>, k: string)
    requires HasKey(d, k)
    ensures exists i :: 0 <= i < |d| && d[i] == (k, Get(d, k).value)
  {
    if d[0].0 != k {
      HasKeyTail(d, k);
      GetFound(d[1..], k);
      var i :| 0 <= i < |d[1..]| && d[1..][i] == (k, Get(d[1..], k).value);
      assert d[i + 1] == d[1..][i];
    }
  }

  /** In a dict with distinct keys, the entry at position `i` is what `Get` finds. */
  lemma {:induction false} GetAt<V>(d: Dict<V>, i: nat)
    requires DistinctKeys(d) && i < |d|
    ensures Get(d, d[i].0) == Some(d[i].1)
  {
    if i > 0 {
      assert d[0].0 != d[i].0;
      assert d[1..][i - 1] == d[i];
      GetAt(d[1..], i - 1);
    }
  }

  /** `d[k] = v`: replace in place when `k` is present, append otherwise. */
  function Set<V>(d: Dict<V>, k: string, v: V): (r: Dict<V>)
    ensures Get(r, k) == Some(v)
  {
    if |d| == 0 then [(k, v)]
    else if d[0].0 == k then [(k, v)] + d[1..]
    else
      var r := [d[0]] + Set(d[1..], k, v);
      assert r[1..] == Set(d[1..], k, v);
      r
  }

  /** Every entry after `d[k] = v` is an entry of `d` or the new one. */
  lemma {:induction false} SetEntries<V>(d: Dict<V>, k: string, v: V)
    ensures forall i :: 0 <= i < |Set(d, k, v)| ==> Set(d, k, v)[i] in d || Set(d, k, v)[i] == (k, v)
    ensures forall e :: e in Set(d, k, v) ==> e in d || e == (k, v)
  {
    if |d| > 0 && d[0].0 != k {
      SetEntries(d[1..], k, v);
      var r := Set(d, k, v);
      assert r == [d[0]] + Set(d[1..], k, v);
      forall i | 0 <= i < |r| ensures r[i] in d || r[i] == (k, v) {
        if i > 0 {
          assert r[i] == Set(d[1..], k, v)[i - 1];
        }
      }
    } else if |d| > 0 {
      var r := Set(d, k, v);
      forall i | 0 <= i < |r| ensures r[i] in d || r[i] == (k, v) {
        if i > 0 {
          assert r[i] == d[i];
        }
      }
    }
  }

  /** `d[k]`: the value under `k`, or a KeyError naming the key. */
  function Index<V>(d: Dict<V>, k: string): (r: Result<V>)
    ensures r.Ok? <==> HasKey(d, k)
    ensures r.Ok? ==> Get(d, k) == Some(r.value)
    ensures r.Err? ==> r.error == KeyError(k)
  {
    match Get(d, k)
    case Some(v) => Ok(v)
    case None => Err(KeyError(k))
  }

  /** Setting one key leaves every other key's value as it was. */
  lemma {:induction false} SetOther<V>(d: Dict<V>, k: string, v: V, k': string)
    requires k' != k
    ensures Get(Set(d, k, v), k') == Get(d, k')
  {
    if |d| > 0 && d[0].0 != k {
      var r := Set(d, k, v);
      assert r[1..] == Set(d[1..], k, v);
      SetOther(d[1..], k, v, k');
    } else if |d| > 0 {
      assert Set(d, k, v)[1..] == d[1..];
    }
  }

  lemma {:induction false} HasKeyTail<V>(d: Dict<V>, k: string)
    requires |d| > 0 && d[0].0 != k
    ensures HasKey(d, k) <==> HasKey(d[1..], k)
  {
    if HasKey(d, k) { var i :| 0 <= i < |d| && d[i].0 == k; assert i > 0 && d[1..][i - 1].0 == k; }
    if HasKey(d[1..], k) { var i :| 0 <= i < |d[1..]| && d[1..][i].0 == k; assert d[i + 1].0 == k; }
  }

  /** Replacing keeps the key order; a new key goes at the end. */
  lemma {:induction false} SetKeys<V>(d: Dict<V>, k: string, v: V)
    ensures HasKey(d, k) ==> Keys(Set(d, k, v)) == Keys(d)
    ensures !HasKey(d, k) ==> Keys(Set(d, k, v)) == Keys(d) + [k]
  {
    if |d| > 0 && d[0].0 != k {
      HasKeyTail(d, k);
      SetKeys(d[1..], k, v);
      assert Set(d, k, v) == [d[0]] + Set(d[1..], k, v);
      assert Keys(Set(d, k, v)) == [d[0].0] + Keys(Set(d[1..], k, v));
      assert Keys(d) == [d[0].0] + Keys(d[1..]);
    } else if |d| > 0 {
      assert Keys(Set(d, k, v)) == Keys(d);
    }
  }

  lemma {:induction false} DistinctKeysByKeys<V>(d: Dict<V>, e: Dict<V>)
    requires Keys(d) == Keys(e) && DistinctKeys(d)
    ensures DistinctKeys(e)
  {
    forall i, j | 0 <= i < j < |e| ensures e[i].0 != e[j].0 {
      assert Keys(d)[i] == e[i].0 && Keys(d)[j] == e[j].0;
    }
  }

  /** Setting a key keeps the keys distinct. */
  lemma {:induction false} SetDistinct<V>(d: Dict<V>, k: string, v: V)
    requires DistinctKeys(d)
    ensures DistinctKeys(Set(d, k, v))
  {
    SetKeys(d, k, v);
    var r := Set(d, k, v);
    if HasKey(d, k) {
      DistinctKeysByKeys(d, r);
    } else {
      forall i, j | 0 <= i < j < |r| ensures r[i].0 != r[j].0 {
        assert Keys(r)[i] == r[i].0 && Keys(r)[j] == r[j].0;
        if j == |d| {
          assert r[j].0 == k;
          assert Keys(d)[i] == d[i].0;
        } else {
          assert Keys(d)[i] == d[i].0 && Keys(d)[j] == d[j].0;
        }
      }
    }
  }

  /** A dict comprehension `{key(e): e for e in entries}`: later entries with
      the same key overwrite earlier ones. */
  function FromList<V>(entries: seq<(string, V)>): (r: Dict<V>)
    ensures DistinctKeys(r)
  {
    if |entries| == 0 then []
    else
      var last := entries[|entries| - 1];
      var prev := FromList(entries[..|entries| - 1]);
      SetDistinct(prev, last.0, last.1);
      Set(prev, last.0, last.1)
  }

  /** Appending an entry to a comprehension's input sets that entry. */
  lemma {:induction false} FromListSnoc<V>(entries: seq<(string, V)>, e: (string, V))
    ensures FromList(entries + [e]) == Set(FromList(entries), e.0, e.1)
  {
    assert (entries + [e])[..|entries|] == entries;
  }

  /** The value of the last entry with key `k`: the reference meaning of `FromList`. */
  function LastWith<V>(entries: seq<(string, V)>, k: string): Option<V>
  {
    if |entries| == 0 then None
    else if entries[|entries| - 1].0 == k then Some(entries[|entries| - 1].1)
    else LastWith(entries[..|entries| - 1], k)
  }

  lemma {:induction false} FromListGet<V>(entries: seq<(string, V)>, k: string)
    ensures Get(FromList(entries), k) == LastWith(entries, k)
  {
    if |entries| > 0 {
      var last := entries[|entries| - 1];
      FromListGet(entries[..|entries| - 1], k);
      if last.0 != k {
        SetOther(FromList(entries[..|entries| - 1]), last.0, last.1, k);
      }
    }
  }

  /** An entry appended under another key does not change what a key finds. */
  lemma {:induction false} GetSnocOther<V>(d: Dict<V>, e: (string, V), k: string)
    requires e.0 != k
    ensures Get(d + [e], k) == Get(d, k)
  {
    if |d| > 0 && d[0].0 != k {
      assert (d + [e])[1..] == d[1..] + [e];
      GetSnocOther(d[1..], e, k);
    }
  }

  /** With distinct keys, looking a key up from the front finds the entry
      `LastWith` finds from the back. */
  lemma {:induction false} GetLast<V>(d: Dict<V>, k: string)
    requires DistinctKeys(d)
    ensures Get(d, k) == LastWith(d, k)
  {
    if |d| > 0 {
      var n := |d| - 1;
      var init := d[..n];
      assert d == init + [d[n]];
      GetLast(init, k);
      if d[n].0 == k {
        GetAt(d, n);
      } else {
        GetSnocOther(init, d[n], k);
      }
    }
  }

  function MapValues<V, W>(d: Dict<V>, f: V -> W): (r: Dict<W>)
    ensures Keys(r) == Keys(d)
    ensures forall i :: 0 <= i < |d| ==> r[i] == (d[i].0, f(d[i].1))
  {
    seq(|d|, i requires 0 <= i < |d| => (d[i].0, f(d[i].1)))
  }
}
