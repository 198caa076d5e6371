/** Listing the calendar partitions one after the other visits every object once. */
module EventLog {
  import opened Prelude
  import opened Keys
  import opened KeysTheorems

  lemma {:induction false} DisjointLists<T(!new)>(xss: seq<seq<T>>)
    requires forall i :: 0 <= i < |xss| ==> NoDup(xss[i])
    requires forall i, j, x :: 0 <= i < j < |xss| && x in xss[i] ==> x !in xss[j]
    ensures NoDup(Flatten(xss))
    decreases |xss|
  {
    if xss != [] {
      var rest := xss[1..];
      forall i, j, x | 0 <= i < j < |rest| && x in rest[i] ensures x !in rest[j] {
        assert rest[i] == xss[i + 1] && rest[j] == xss[j + 1];
      }
      DisjointLists(rest);
      forall x | x in xss[0] ensures x !in Flatten(rest) {
        FlattenMembers(rest, x);
        forall j | 0 <= j < |rest| ensures x !in rest[j] { assert rest[j] == xss[j + 1]; }
      }
      NoDupJoin(xss[0], Flatten(rest));
    }
  }

  lemma NoDupJoin<T(!new)>(a: seq<T>, b: seq<T>)
    requires NoDup(a) && NoDup(b) && forall x :: x in a ==> x !in b
    ensures NoDup(a + b)
  {
    var c := a + b;
    forall i, j | 0 <= i < j < |c| ensures c[i] != c[j] {
      if i < |a| <= j { assert c[i] in a && c[j] in b; }
    }
  }

  /** `keys[i]` are the keys found under the i-th hour; `PrefixesOfDays` lists the hours. */
  lemma EachKeyIsVisitedOnce(fromDay: int, toDay: int, keys: seq<seq<string>>)
    requires fromDay <= toDay && |keys| == 24 * (toDay - fromDay + 1)
    requires forall i :: 0 <= i < |keys| ==> NoDup(keys[i])
    requires forall i, k :: 0 <= i < |keys| && k in keys[i] ==> PartitionAt(fromDay, i) <= k
    ensures |PrefixesOfDays(fromDay, toDay)| == |keys|
    ensures forall i :: 0 <= i < |keys| ==> PrefixesOfDays(fromDay, toDay)[i] == PartitionAt(fromDay, i)
    ensures NoDup(Flatten(keys))
  {
    forall i, j, k | 0 <= i < j < |keys| && k in keys[i] ensures k !in keys[j] {
      if k in keys[j] { OnePartitionOnly(fromDay, i, j, k); }
    }
    DisjointLists(keys);
  }

  /** A key starts with one hour's prefix only. */
  lemma OnePartitionOnly(fromDay: int, i: nat, j: nat, key: string)
    requires PartitionAt(fromDay, i) <= key && PartitionAt(fromDay, j) <= key
    ensures i == j
  {
    hide Partition;
    PartitionsArePrefixFree(fromDay + i / 24, i % 24, fromDay + j / 24, j % 24, key);
    SameSlot(fromDay, i, j);
  }

  lemma SameSlot(fromDay: int, i: nat, j: nat)
    requires fromDay + i / 24 == fromDay + j / 24 && i % 24 == j % 24
    ensures i == j
  {
  }
}
