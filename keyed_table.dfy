/**
 * A database table seen through one unique column: a map from that key to the row.
 * An upsert on conflict of the key is a map update.
 */
module KeyedTable {

  /** The keys written by a sequence of (key, row) upserts. */
  function KeysOf<R>(entries: seq<(string, R)>): set<string> {
    set i | 0 <= i < |entries| :: entries[i].0
  }

  /** Applies the upserts one after the other, in order. */
  function UpsertAll<R>(t: map<string, R>, entries: seq<(string, R)>): (r: map<string, R>)
    ensures r.Keys == t.Keys + KeysOf(entries)
    decreases |entries|
  {
    if entries == [] then t
    else
      var last := entries[|entries| - 1];
      assert KeysOf(entries) == KeysOf(entries[..|entries| - 1]) + {last.0};
      UpsertAll(t, entries[..|entries| - 1])[last.0 := last.1]
  }

  /** The position of the last upsert of key k. */
  function LastIndex<R>(entries: seq<(string, R)>, k: string): (i: nat)
    requires k in KeysOf(entries)
    ensures i < |entries| && entries[i].0 == k
    ensures forall j :: i < j < |entries| ==> entries[j].0 != k
    decreases |entries|
  {
    var n := |entries| - 1;
    if entries[n].0 == k then n
    else
      assert k in KeysOf(entries[..n]);
      LastIndex(entries[..n], k)
  }

  /** The row under each key after the upserts: the last upsert of that key wins; other keys keep their row. */
  lemma {:induction false} UpsertAllAt<R>(t: map<string, R>, entries: seq<(string, R)>, k: string)
    requires k in t || k in KeysOf(entries)
    ensures k in UpsertAll(t, entries)
    ensures k in KeysOf(entries) ==> UpsertAll(t, entries)[k] == entries[LastIndex(entries, k)].1
    ensures k !in KeysOf(entries) ==> UpsertAll(t, entries)[k] == t[k]
    decreases |entries|
  {
    if entries != [] {
      var n := |entries| - 1;
      var init := entries[..n];
      assert KeysOf(entries) == KeysOf(init) + {entries[n].0};
      if entries[n].0 != k {
        UpsertAllAt(t, init, k);
        if k in KeysOf(entries) {
          assert LastIndex(entries, k) == LastIndex(init, k);
        }
      }
    }
  }

  /** Upserts confined to the keys in s leave every row outside s as it was. */
  lemma UpsertAllOutside<R>(t: map<string, R>, entries: seq<(string, R)>, s: set<string>)
    requires KeysOf(entries) <= s
    ensures forall k :: k in t && k !in s ==> k in UpsertAll(t, entries) && UpsertAll(t, entries)[k] == t[k]
  {
    forall k | k in t && k !in s ensures k in UpsertAll(t, entries) && UpsertAll(t, entries)[k] == t[k] {
      UpsertAllAt(t, entries, k);
    }
  }

  /** An upsert that no later upsert of the same key overrides decides the row under that key. */
  lemma UpsertAllLast<R>(t: map<string, R>, entries: seq<(string, R)>, i: nat)
    requires i < |entries|
    requires forall j :: i < j < |entries| ==> entries[j].0 != entries[i].0
    ensures entries[i].0 in UpsertAll(t, entries)
    ensures UpsertAll(t, entries)[entries[i].0] == entries[i].1
  {
    var k := entries[i].0;
    assert k in KeysOf(entries);
    UpsertAllAt(t, entries, k);
    assert LastIndex(entries, k) == i;
  }

  /** Applying the same upserts twice gives the same table as applying them once. */
  lemma UpsertAllIdempotent<R>(t: map<string, R>, entries: seq<(string, R)>)
    ensures UpsertAll(UpsertAll(t, entries), entries) == UpsertAll(t, entries)
  {
    var once := UpsertAll(t, entries);
    var twice := UpsertAll(once, entries);
    forall k | k in twice
      ensures k in once && twice[k] == once[k]
    {
      UpsertAllAt(once, entries, k);
      UpsertAllAt(t, entries, k);
    }
    assert twice.Keys == once.Keys;
  }

  /** Upserting a concatenation is upserting the first part, then the second. */
  lemma {:induction false} UpsertAllAppend<R>(t: map<string, R>, a: seq<(string, R)>, b: seq<(string, R)>)
    ensures UpsertAll(t, a + b) == UpsertAll(UpsertAll(t, a), b)
    decreases |b|
  {
    if b == [] {
      assert a + b == a;
    } else {
      var n := |b| - 1;
      assert (a + b)[..|a + b| - 1] == a + b[..n];
      UpsertAllAppend(t, a, b[..n]);
    }
  }

  /** One more upsert on top of earlier ones. */
  lemma UpsertAllSnoc<R>(t: map<string, R>, entries: seq<(string, R)>, k: string, row: R)
    ensures UpsertAll(t, entries + [(k, row)]) == UpsertAll(t, entries)[k := row]
  {
    assert (entries + [(k, row)])[..|entries|] == entries;
  }
}
