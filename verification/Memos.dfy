/**
 * The process-local memo of apps/api/src/redirect/resolve-tenant.ts and packages/core/src/redis/salt.ts:
 * an insertion-ordered map with a cap, evicting the oldest entry first.
 */
module Memos {
  datatype Memo<K(!new), V> = Memo(entries: map<K, V>, order: seq<K>) {
    ghost predicate Valid() {
      && (forall i, j :: 0 <= i < j < |order| ==> order[i] != order[j])
      && (forall k :: k in order <==> k in entries)
    }
  }

  function Empty<K(!new), V>(): Memo<K, V> { Memo(map[], []) }

  /** Evict the oldest entry if the map is full and the key is new. */
  function MakeRoom<K(==, !new), V>(m: Memo<K, V>, k: K, cap: nat): Memo<K, V> {
    if |m.entries| >= cap && k !in m.entries && m.order != [] then Memo(m.entries - {m.order[0]}, m.order[1..]) else m
  }

  function Remember<K(==, !new), V>(m: Memo<K, V>, k: K, v: V, cap: nat): Memo<K, V> {
    var room := MakeRoom(m, k, cap);
    Memo(room.entries[k := v], if k in room.entries then room.order else room.order + [k])
  }

  lemma RememberKeepsValid<K(!new), V>(m: Memo<K, V>, k: K, v: V, cap: nat)
    requires m.Valid()
    ensures Remember(m, k, v, cap).Valid()
  {
    MakeRoomValid(m, k, cap);
  }

  lemma MakeRoomValid<K(!new), V>(m: Memo<K, V>, k: K, cap: nat)
    requires m.Valid()
    ensures MakeRoom(m, k, cap).Valid() && (k in MakeRoom(m, k, cap).entries <==> k in m.entries)
  {
    if m.order != [] { EvictedValid(m); }
  }

  lemma EvictedValid<K(!new), V>(m: Memo<K, V>)
    requires m.Valid() && m.order != []
    ensures Memo(m.entries - {m.order[0]}, m.order[1..]).Valid()
  {
    var rest := m.order[1..];
    assert m.order == [m.order[0]] + rest;
    forall i, j | 0 <= i < j < |rest| ensures rest[i] != rest[j] { assert m.order[i + 1] != m.order[j + 1]; }
    forall i | 0 <= i < |rest| ensures rest[i] != m.order[0] { assert m.order[0] != m.order[i + 1]; }
  }

  lemma SizeAfterSet<K, V>(m: map<K, V>, k: K, v: V)
    ensures |m[k := v]| == |m| + if k in m then 0 else 1
  {
    assert m[k := v].Keys == m.Keys + {k};
    assert |m[k := v].Keys| == |m.Keys + {k}|;
  }

  lemma SizeAfterRemove<K, V>(m: map<K, V>, k: K)
    requires k in m
    ensures |m - {k}| == |m| - 1
  {
    assert (m - {k}).Keys == m.Keys - {k};
    assert |(m - {k}).Keys| == |m.Keys - {k}|;
  }

  lemma MakeRoomSize<K(!new), V>(m: Memo<K, V>, k: K, cap: nat)
    requires m.Valid() && |m.entries| <= (if cap == 0 then 1 else cap) && k !in m.entries
    ensures |MakeRoom(m, k, cap).entries| < (if cap == 0 then 1 else cap)
  {
    if m.order == [] {
      assert m.entries.Keys == {};
      assert |m.entries.Keys| == 0;
    } else {
      SizeAfterRemove(m.entries, m.order[0]);
    }
  }

  /** The memo never exceeds its cap; a cap of zero still holds the entry just written. */
  lemma RememberKeepsCap<K(!new), V>(m: Memo<K, V>, k: K, v: V, cap: nat)
    requires m.Valid() && |m.entries| <= (if cap == 0 then 1 else cap)
    ensures |Remember(m, k, v, cap).entries| <= (if cap == 0 then 1 else cap)
  {
    SizeAfterSet(MakeRoom(m, k, cap).entries, k, v);
    if k !in m.entries { MakeRoomSize(m, k, cap); }
  }

  /** Only the key itself changes, and only the oldest other entry can go, when the memo is full. */
  lemma RememberMeaning<K(!new), V>(m: Memo<K, V>, k: K, v: V, cap: nat)
    requires m.Valid()
    ensures var n := Remember(m, k, v, cap).entries;
            && k in n && n[k] == v
            && (forall j :: j in n && j != k ==> j in m.entries && n[j] == m.entries[j])
            && (forall j :: j in m.entries && j !in n ==> |m.entries| >= cap && k !in m.entries && j == m.order[0])
  {
  }

  /** A new key goes last, and the oldest first if the memo is full; a known key keeps its place. */
  lemma RememberOrder<K(!new), V>(m: Memo<K, V>, k: K, v: V, cap: nat)
    requires m.Valid()
    ensures Remember(m, k, v, cap).order ==
            if k in m.entries then m.order
            else if |m.entries| >= cap && m.order != [] then m.order[1..] + [k]
            else m.order + [k]
  {
  }

  /** Whatever the memo was, it now has this entry. */
  lemma RemembersIt<K(!new), V>(m: Memo<K, V>, k: K, v: V, cap: nat)
    ensures k in Remember(m, k, v, cap).entries && Remember(m, k, v, cap).entries[k] == v
  {
  }

  class HandleMemo<K(==, !new), V> {
    var entries: map<K, V>
    var order: seq<K>
    const cap: nat

    constructor (cap: nat)
      ensures Snapshot() == Empty() && this.cap == cap
    {
      this.cap := cap;
      entries := map[];
      order := [];
    }

    function Snapshot(): Memo<K, V>
      reads this
    {
      Memo(entries, order)
    }

    method RememberInMemo(k: K, v: V)
      requires Snapshot().Valid()
      modifies this
      ensures Snapshot() == Remember(old(Snapshot()), k, v, cap) && Snapshot().Valid()
    {
      RememberKeepsValid(Snapshot(), k, v, cap);
      if |entries| >= cap && k !in entries {
        if |order| > 0 {
          entries := entries - {order[0]};
          order := order[1..];
        }
      }
      if k !in entries {
        order := order + [k];
      }
      entries := entries[k := v];
    }
  }
}
