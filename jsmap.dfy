/**
 * JavaScript's Map: a dictionary that remembers the order in which its keys
 * were first set. Also the plain-object form (`Record`) that
 * `Object.fromEntries` produces and `new Map(Object.entries(...))` reads back.
 */
module JsMap {
  import opened Js

  /** The entries of a Map in insertion order. */
  type Entries<V> = seq<(string, V)>

  function Keys<V>(m: Entries<V>): (r: seq<string>)
    ensures |r| == |m|
    ensures forall i | 0 <= i < |m| :: r[i] == m[i].0
  {
    seq(|m|, i requires 0 <= i < |m| => m[i].0)
  }

  /** No key occurs twice: what every Map satisfies. */
  predicate UniqueKeys<V>(m: Entries<V>) {
    forall i, j | 0 <= i < j < |m| :: m[i].0 != m[j].0
  }

  /** Map.prototype.has */
  predicate Has<V>(m: Entries<V>, k: string) {
    k in Keys(m)
  }

  /** Map.prototype.get: `None` stands for `undefined`. */
  function Get<V>(m: Entries<V>, k: string): (r: Option<V>)
    ensures r.None? <==> !Has(m, k)
  {
    if m == [] then None
    else if m[0].0 == k then Some(m[0].1)
    else Get(m[1..], k)
  }

  /** The position of a present key. */
  function IndexOf<V>(m: Entries<V>, k: string): (i: nat)
    requires Has(m, k)
    ensures i < |m| && m[i].0 == k
    ensures forall j | 0 <= j < i :: m[j].0 != k
  {
    if m[0].0 == k then 0 else 1 + IndexOf(m[1..], k)
  }

  /** `get` answers with the value stored at the key's position. */
  lemma {:induction false} GetAt<V>(m: Entries<V>, k: string, i: nat)
    requires i < |m| && m[i].0 == k
    requires forall j | 0 <= j < i :: m[j].0 != k
    ensures Get(m, k) == Some(m[i].1)
    decreases i
  {
    if i > 0 {
      GetAt(m[1..], k, i - 1);
    }
  }

  /** Map.prototype.set: replaces the value of a present key in place, and
      appends an absent key at the end. */
  function Set<V>(m: Entries<V>, k: string, v: V): (r: Entries<V>)
    ensures Has(m, k) ==> Keys(r) == Keys(m)
    ensures !Has(m, k) ==> Keys(r) == Keys(m) + [k]
    ensures Get(r, k) == Some(v)
    ensures forall k' | k' != k :: Get(r, k') == Get(m, k')
  {
    if Has(m, k) then
      var i := IndexOf(m, k);
      var r := m[i := (k, v)];
      GetAt(r, k, i);
      assert forall k' | k' != k :: Get(r, k') == Get(m, k') by {
        forall k' | k' != k ensures Get(r, k') == Get(m, k') {
          if Has(m, k') {
            var j := IndexOf(m, k');
            GetAt(m, k', j);
            GetAt(r, k', j);
          } else {
            assert Keys(r) == Keys(m);
          }
        }
      }
      r
    else
      var r := m + [(k, v)];
      assert Keys(r) == Keys(m) + [k];
      GetAt(r, k, |m|);
      assert forall k' | k' != k :: Get(r, k') == Get(m, k') by {
        forall k' | k' != k ensures Get(r, k') == Get(m, k') {
          if Has(m, k') {
            var j := IndexOf(m, k');
            GetAt(m, k', j);
            GetAt(r, k', j);
          } else {
            assert k' !in Keys(r);
          }
        }
      }
      r
  }

  lemma SetKeepsKeysUnique<V>(m: Entries<V>, k: string, v: V)
    requires UniqueKeys(m)
    ensures UniqueKeys(Set(m, k, v))
  {
    var r := Set(m, k, v);
    var ks := Keys(r);
    assert forall i | 0 <= i < |r| :: r[i].0 == ks[i];
    if Has(m, k) {
      assert ks == Keys(m);
    } else {
      assert ks == Keys(m) + [k];
    }
  }
  /** `set` keeps every key in place and adds at most one. */
  lemma SetGrowsByOne<V>(m: Entries<V>, k: string, v: V)
    ensures UniqueKeys(m) ==> UniqueKeys(Set(m, k, v))
    ensures Keys(m) <= Keys(Set(m, k, v)) && |Set(m, k, v)| <= |m| + 1
  {
    if UniqueKeys(m) {
      SetKeepsKeysUnique(m, k, v);
    }
  }


  /** `Object.fromEntries(map)`: a later entry for a key overrides an earlier one. */
  function ToRecord<V>(m: Entries<V>): (r: map<string, V>)
    ensures r.Keys == set i | 0 <= i < |m| :: m[i].0
  {
    if m == [] then map[]
    else
      var r := ToRecord(m[..|m| - 1])[m[|m| - 1].0 := m[|m| - 1].1];
      assert forall i | 0 <= i < |m| - 1 :: m[..|m| - 1][i] == m[i];
      r
  }

  /** `true` when `order` lists every key of `rec` exactly once: the property
      order in which `Object.entries` visits a plain object. */
  ghost predicate EnumeratesKeys<V>(rec: map<string, V>, order: seq<string>) {
    && (forall k :: k in rec <==> k in order)
    && (forall i, j | 0 <= i < j < |order| :: order[i] != order[j])
  }

  /** `new Map(Object.entries(rec))`, visiting the keys in `order`. */
  function FromRecord<V>(rec: map<string, V>, order: seq<string>): (r: Entries<V>)
    requires forall i | 0 <= i < |order| :: order[i] in rec
    ensures Keys(r) == order
    ensures forall i | 0 <= i < |r| :: r[i] == (order[i], rec[order[i]])
  {
    if order == [] then []
    else [(order[0], rec[order[0]])] + FromRecord(rec, order[1..])
  }

  lemma {:induction false} GetOfToRecord<V>(m: Entries<V>, k: string)
    requires UniqueKeys(m)
    ensures Get(m, k).Some? <==> k in ToRecord(m)
    ensures Get(m, k).Some? ==> ToRecord(m)[k] == Get(m, k).value
    decreases |m|
  {
    if m != [] {
      var init := m[..|m| - 1];
      var last := m[|m| - 1];
      assert UniqueKeys(init);
      GetOfToRecord(init, k);
      GetLastEntry(m, k);
    }
  }

  /** Looking a key up in `init + [last]` gives `last`'s value for `last`'s key
      and the lookup in `init` otherwise, when `last`'s key is new. */
  lemma {:induction false} GetLastEntry<V>(m: Entries<V>, k: string)
    requires m != [] && UniqueKeys(m)
    ensures k == m[|m| - 1].0 ==> Get(m, k) == Some(m[|m| - 1].1)
    ensures k != m[|m| - 1].0 ==> Get(m, k) == Get(m[..|m| - 1], k)
    decreases |m|
  {
    if |m| > 1 {
      var tail := m[1..];
      assert UniqueKeys(tail);
      GetLastEntry(tail, k);
      assert tail[..|tail| - 1] == m[..|m| - 1][1..];
      assert tail[|tail| - 1] == m[|m| - 1];
    }
  }

  lemma GetOfFromRecord<V>(rec: map<string, V>, order: seq<string>, k: string)
    requires EnumeratesKeys(rec, order)
    ensures Get(FromRecord(rec, order), k) == if k in rec then Some(rec[k]) else None
  {
    if k in rec {
      var i :| 0 <= i < |order| && order[i] == k;
      FromRecordAt(rec, order, i);
    } else {
      assert k !in Keys(FromRecord(rec, order));
    }
  }

  /** The entry of a key listed once in `order` holds the record's value. */
  lemma FromRecordAt<V>(rec: map<string, V>, order: seq<string>, i: nat)
    requires forall j | 0 <= j < |order| :: order[j] in rec
    requires i < |order| && forall j | 0 <= j < i :: order[j] != order[i]
    ensures Get(FromRecord(rec, order), order[i]) == Some(rec[order[i]])
  {
    GetAt(FromRecord(rec, order), order[i], i);
  }

  /** Turning a Map into a plain object and back, in whatever order the
      object's keys are visited, keeps every key and its value. */
  lemma RecordRoundTrip<V>(m: Entries<V>, order: seq<string>, k: string)
    requires UniqueKeys(m)
    requires EnumeratesKeys(ToRecord(m), order)
    ensures Get(FromRecord(ToRecord(m), order), k) == Get(m, k)
  {
    GetOfToRecord(m, k);
    GetOfFromRecord(ToRecord(m), order, k);
  }
}
