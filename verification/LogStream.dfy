/**
 * packages/core/src/r2/ndjson.ts, the second half: list the objects under each prefix page by page and
 * stream the records of one object after the other. A generator is modelled by what it yields and the
 * error it ends with.
 */
module LogStream {
  import opened Prelude
  import opened Utf16
  import opened Ndjson

  // ---------------------------------------------------------------------------------------------
  // Listing
  // ---------------------------------------------------------------------------------------------

  /** One answer of a paginated listing; a token is the position after the page. */
  datatype Page = Page(keys: seq<string>, truncated: bool, next: Option<nat>)

  type Listing = nat -> Page

  /** The listing serves `keys` in pages of any sizes, and gives the right token if it gives one. */
  ghost predicate Serves(listing: Listing, keys: seq<string>) {
    forall pos: nat :: pos <= |keys| ==>
      var page := listing(pos);
      && pos + |page.keys| <= |keys| && page.keys == keys[pos..pos + |page.keys|]
      && (page.truncated <==> pos + |page.keys| < |keys|)
      && (page.truncated ==> page.keys != [])
      && (page.next.Some? ==> page.next.value == pos + |page.keys|)
  }

  /** How many keys come before the listing's end, or before its first truncated page without a token. */
  ghost function Reach(listing: Listing, keys: seq<string>, pos: nat): (r: nat)
    requires Serves(listing, keys) && pos <= |keys|
    ensures pos <= r <= |keys|
    decreases |keys| - pos
  {
    var page := listing(pos);
    if page.truncated && page.next.Some? then Reach(listing, keys, page.next.value) else pos + |page.keys|
  }

  /** Every truncated page comes with a token. */
  ghost predicate Continues(listing: Listing) { forall pos :: listing(pos).truncated ==> listing(pos).next.Some? }

  lemma {:induction false} ContinuingListingsReachAll(listing: Listing, keys: seq<string>, pos: nat)
    requires Serves(listing, keys) && Continues(listing) && pos <= |keys|
    ensures Reach(listing, keys, pos) == |keys|
    decreases |keys| - pos
  {
    var page := listing(pos);
    if page.truncated { ContinuingListingsReachAll(listing, keys, page.next.value); }
  }

  /**
   * Every key once and in order, whatever the page boundaries, up to the first truncated page that has
   * no token; an error exactly when there is one.
   */
  method ListObjectKeys(listing: Listing, ghost keys: seq<string>)
      returns (found: seq<string>, error: Option<StreamError>)
    requires Serves(listing, keys)
    ensures found == keys[..Reach(listing, keys, 0)]
    ensures error == if found == keys then None else Some(NoContinuation)
    ensures Continues(listing) ==> found == keys
  {
    found := [];
    var token := 0;
    if Continues(listing) { ContinuingListingsReachAll(listing, keys, 0); }
    while true
      invariant 0 <= token <= |keys| && found == keys[..token]
      invariant Reach(listing, keys, token) == Reach(listing, keys, 0)
      decreases |keys| - token
    {
      var page := listing(token);
      found := found + page.keys;
      if !page.truncated {
        return found, None;
      }
      if page.next.None? {
        return found, Some(NoContinuation);
      }
      token := page.next.value;
    }
  }

  // ---------------------------------------------------------------------------------------------
  // Streaming
  // ---------------------------------------------------------------------------------------------

  /** Object after object. */
  function StreamOf(store: map<string, Text>, keys: seq<string>, ends: Ends): Emitted
    requires forall k :: k in keys ==> k in store
  {
    if keys == [] then Emitted([], None)
    else Then(RecordsOf(Lines(store[keys[0]], ends), 1), StreamOf(store, keys[1..], ends))
  }

  lemma ThenAssociates(a: Emitted, b: Emitted, c: Emitted)
    ensures Then(Then(a, b), c) == Then(a, Then(b, c))
  {
    if a.error.None? { assert (a.records + b.records) + c.records == a.records + (b.records + c.records); }
  }

  lemma ThenNothing(a: Emitted)
    ensures Then(a, Emitted([], None)) == a == Then(Emitted([], None), a)
  {
    assert a.records + [] == a.records == [] + a.records;
  }

  lemma {:induction false} StreamAppend(store: map<string, Text>, a: seq<string>, b: seq<string>, ends: Ends)
    requires forall k :: k in a + b ==> k in store
    ensures (forall k :: k in a ==> k in store) && (forall k :: k in b ==> k in store)
    ensures StreamOf(store, a + b, ends) == Then(StreamOf(store, a, ends), StreamOf(store, b, ends))
    decreases |a|
  {
    forall k | k in a || k in b ensures k in store { assert k in a + b; }
    if a == [] {
      assert a + b == b;
      ThenNothing(StreamOf(store, b, ends));
    } else {
      assert (a + b)[1..] == a[1..] + b;
      StreamAppend(store, a[1..], b, ends);
      ThenAssociates(RecordsOf(Lines(store[a[0]], ends), 1), StreamOf(store, a[1..], ends), StreamOf(store, b, ends));
    }
  }

  /** The prefixes' listings, and the keys each has to serve. */
  ghost predicate AllServe(listings: seq<Listing>, keys: seq<seq<string>>) {
    |keys| == |listings| && forall i :: 0 <= i < |listings| ==> Serves(listings[i], keys[i])
  }

  /** The listings up to the first that breaks off have their whole keys listed, that one its first pages. */
  ghost function Reached(listings: seq<Listing>, keys: seq<seq<string>>): seq<string>
    requires AllServe(listings, keys)
    decreases |keys|
  {
    if keys == [] then []
    else
      var n := Reach(listings[0], keys[0], 0);
      if n == |keys[0]| then keys[0] + Reached(listings[1..], keys[1..]) else keys[0][..n]
  }

  ghost predicate BreaksOff(listings: seq<Listing>, keys: seq<seq<string>>)
    requires AllServe(listings, keys)
  {
    exists i :: 0 <= i < |keys| && Reach(listings[i], keys[i], 0) < |keys[i]|
  }

  /** All the stream yields: the objects of the keys reached, then the error if a listing breaks off. */
  ghost function StreamReached(store: map<string, Text>, listings: seq<Listing>, keys: seq<seq<string>>, ends: Ends)
      : Emitted
    requires AllServe(listings, keys) && forall k :: k in Flatten(keys) ==> k in store
  {
    ReachedKeysExist(listings, keys);
    Then(StreamOf(store, Reached(listings, keys), ends),
         Emitted([], if BreaksOff(listings, keys) then Some(NoContinuation) else None))
  }

  lemma {:induction false} ReachedKeysExist(listings: seq<Listing>, keys: seq<seq<string>>)
    requires AllServe(listings, keys)
    ensures Reached(listings, keys) <= Flatten(keys)
    ensures !BreaksOff(listings, keys) ==> Reached(listings, keys) == Flatten(keys)
    decreases |keys|
  {
    if keys != [] {
      var n, more := Reach(listings[0], keys[0], 0), Flatten(keys[1..]);
      if n == |keys[0]| {
        ReachedKeysExist(listings[1..], keys[1..]);
        PrefixBehind(keys[0], Reached(listings[1..], keys[1..]), more);
        BreaksOffLater(listings, keys);
      } else {
        PrefixOfFirst(keys[0], n, more);
        assert Reach(listings[0], keys[0], 0) < |keys[0]|;
      }
    }
  }

  lemma PrefixBehind<T>(a: seq<T>, b: seq<T>, c: seq<T>)
    requires b <= c
    ensures a + b <= a + c
  {
    assert c == b + c[|b|..];
    assert a + c == (a + b) + c[|b|..];
  }

  lemma PrefixOfFirst<T>(a: seq<T>, n: nat, b: seq<T>)
    requires n <= |a|
    ensures a[..n] <= a + b
  {
    assert a + b == a[..n] + (a[n..] + b);
  }

  /** The first listing and then the others. */
  lemma StreamFirst(store: map<string, Text>, listings: seq<Listing>, keys: seq<seq<string>>, ends: Ends)
    requires AllServe(listings, keys) && keys != [] && forall k :: k in Flatten(keys) ==> k in store
    ensures forall k :: k in keys[0] + Flatten(keys[1..]) ==> k in store
    ensures var n := Reach(listings[0], keys[0], 0);
            StreamReached(store, listings, keys, ends) ==
            if n == |keys[0]| then Then(StreamOf(store, keys[0], ends),
              StreamReached(store, listings[1..], keys[1..], ends))
            else Then(StreamOf(store, keys[0][..n], ends), Emitted([], Some(NoContinuation)))
  {
    var n := Reach(listings[0], keys[0], 0);
    if n == |keys[0]| {
      var rest := Reached(listings[1..], keys[1..]);
      ReachedKeysExist(listings[1..], keys[1..]);
      assert keys[0] + rest <= keys[0] + Flatten(keys[1..]);
      StreamAppend(store, keys[0], rest, ends);
      BreaksOffLater(listings, keys);
      ThenAssociates(StreamOf(store, keys[0], ends), StreamOf(store, rest, ends),
                     Emitted([], if BreaksOff(listings, keys) then Some(NoContinuation) else None));
    }
  }

  lemma StreamNone(store: map<string, Text>, listings: seq<Listing>, keys: seq<seq<string>>, ends: Ends)
    requires AllServe(listings, keys) && keys == []
    ensures StreamReached(store, listings, keys, ends) == Emitted([], None)
  {
  }

  /** The p-th listing and then the others. */
  lemma StreamNext(store: map<string, Text>, listings: seq<Listing>, keys: seq<seq<string>>, ends: Ends, p: nat)
    requires AllServe(listings, keys) && p < |keys| && AllServe(listings[p..], keys[p..])
    requires forall k :: k in Flatten(keys[p..]) ==> k in store
    ensures AllServe(listings[p + 1..], keys[p + 1..])
    ensures forall k :: k in keys[p] || k in Flatten(keys[p + 1..]) ==> k in store
    ensures var n := Reach(listings[p], keys[p], 0);
            StreamReached(store, listings[p..], keys[p..], ends) ==
            if n == |keys[p]| then Then(StreamOf(store, keys[p], ends),
              StreamReached(store, listings[p + 1..], keys[p + 1..], ends))
            else Then(StreamOf(store, keys[p][..n], ends), Emitted([], Some(NoContinuation)))
  {
    hide StreamReached, StreamOf, Reached;
    assert listings[p..][1..] == listings[p + 1..] && keys[p..][1..] == keys[p + 1..];
    assert listings[p..][0] == listings[p] && keys[p..][0] == keys[p];
    StreamFirst(store, listings[p..], keys[p..], ends);
  }

  lemma BreaksOffLater(listings: seq<Listing>, keys: seq<seq<string>>)
    requires AllServe(listings, keys) && keys != [] && Reach(listings[0], keys[0], 0) == |keys[0]|
    ensures BreaksOff(listings, keys) <==> BreaksOff(listings[1..], keys[1..])
  {
    if i :| 0 <= i < |keys| && Reach(listings[i], keys[i], 0) < |keys[i]| {
      assert keys[1..][i - 1] == keys[i] && listings[1..][i - 1] == listings[i];
    }
    if i :| 0 <= i < |keys[1..]| && Reach(listings[1..][i], keys[1..][i], 0) < |keys[1..][i]| {
      assert keys[i + 1] == keys[1..][i] && listings[i + 1] == listings[1..][i];
    }
  }

  /** The inner loop: the objects of one prefix, as long as none fails. */
  method StreamObjects(store: map<string, Text>, keys: seq<string>, ends: Ends) returns (r: Emitted)
    requires forall k :: k in keys ==> k in store
    ensures r == StreamOf(store, keys, ends)
  {
    var records: seq<Record> := [];
    var i := 0;
    ThenNothing(StreamOf(store, keys, ends));
    assert keys[0..] == keys;
    while i < |keys|
      invariant 0 <= i <= |keys|
      invariant Then(Emitted(records, None), StreamOf(store, keys[i..], ends)) == StreamOf(store, keys, ends)
    {
      var more := StreamRecordsFromObject(store[keys[i]], ends);
      assert keys[i..][1..] == keys[i + 1..];
      ThenAssociates(Emitted(records, None), more, StreamOf(store, keys[i + 1..], ends));
      records := records + more.records;
      if more.error.Some? {
        return Emitted(records, more.error);
      }
      i := i + 1;
    }
    ThenNothing(Emitted(records, None));
    return Emitted(records, None);
  }

  /**
   * The loops of `streamEventLog` over prefixes and keys; the i-th listing is the one of the i-th
   * prefix. When no listing breaks off, exactly the stream over all keys, with the error of the first
   * bad line of the first bad object if there is one.
   */
  method StreamEventLog(store: map<string, Text>, listings: seq<Listing>, ghost keys: seq<seq<string>>, ends: Ends)
    returns (r: Emitted)
    requires AllServe(listings, keys) && forall k :: k in Flatten(keys) ==> k in store
    ensures r == StreamReached(store, listings, keys, ends)
    ensures (forall i :: 0 <= i < |listings| ==> Continues(listings[i])) ==> r == StreamOf(store, Flatten(keys), ends)
  {
    hide StreamReached, StreamOf, Reached, Flatten, Continues;
    var records: seq<Record> := [];
    var p := 0;
    ThenNothing(StreamReached(store, listings, keys, ends));
    assert listings[0..] == listings && keys[0..] == keys;
    WhenNoneBreaksOff(store, listings, keys, ends);
    while p < |listings|
      invariant 0 <= p <= |listings| && AllServe(listings[p..], keys[p..])
      invariant forall k :: k in Flatten(keys[p..]) ==> k in store
      invariant Then(Emitted(records, None), StreamReached(store, listings[p..], keys[p..], ends))
                == StreamReached(store, listings, keys, ends)
    {
      StreamNext(store, listings, keys, ends, p);
      var listed, error := ListObjectKeys(listings[p], keys[p]);
      var more := StreamObjects(store, listed, ends);
      ghost var rest := if error.Some? then Emitted([], error)
        else StreamReached(store, listings[p + 1..], keys[p + 1..], ends);
      ThenAssociates(Emitted(records, None), more, rest);
      records := records + more.records;
      if more.error.Some? {
        return Emitted(records, more.error);
      }
      if error.Some? {
        ThenNothing(Emitted(records, None));
        return Emitted(records, error);
      }
      p := p + 1;
    }
    StreamNone(store, listings[p..], keys[p..], ends);
    ThenNothing(Emitted(records, None));
    return Emitted(records, None);
  }

  lemma WhenNoneBreaksOff(store: map<string, Text>, listings: seq<Listing>, keys: seq<seq<string>>, ends: Ends)
    requires AllServe(listings, keys) && forall k :: k in Flatten(keys) ==> k in store
    ensures (forall i :: 0 <= i < |listings| ==> Continues(listings[i])) ==>
              StreamReached(store, listings, keys, ends) == StreamOf(store, Flatten(keys), ends)
  {
    if forall i :: 0 <= i < |listings| ==> Continues(listings[i]) {
      forall i | 0 <= i < |listings| ensures Reach(listings[i], keys[i], 0) == |keys[i]| {
        ContinuingListingsReachAll(listings[i], keys[i], 0);
      }
      ReachedKeysExist(listings, keys);
      ThenNothing(StreamOf(store, Flatten(keys), ends));
    }
  }

  // ---------------------------------------------------------------------------------------------
  // The round trip of the whole log
  // ---------------------------------------------------------------------------------------------

  /** The records that were archived under these keys, as far as they are columns. */
  function Archived(batches: map<string, seq<Record>>, keys: seq<string>): seq<Record>
    requires forall k :: k in keys ==> k in batches
  {
    if keys == [] then [] else AllowedAll(batches[keys[0]]) + Archived(batches, keys[1..])
  }

  /** The object under each of these keys is its serialized batch. */
  ghost predicate Stores(store: map<string, Text>, batches: map<string, seq<Record>>, keys: seq<string>) {
    forall k :: k in keys ==> k in store && k in batches && store[k] == SerializeBatch(batches[k])
  }

  ghost predicate AllLoggable(batch: seq<Record>, ends: Ends) {
    forall i :: 0 <= i < |batch| ==> Loggable(batch[i], ends)
  }

  /**
   * For a store of serialized batches: streaming yields exactly the original records, object by object
   * in key order, if and only if no record holds a unit at which the reader also breaks lines; if one
   * does, an error is reported.
   */
  lemma {:induction false} StreamRecoversTheBatches(
    store: map<string, Text>, batches: map<string, seq<Record>>, keys: seq<string>, ends: Ends)
    requires Stores(store, batches, keys) && forall u :: u in ends ==> Verbatim(u)
    ensures (forall k :: k in keys ==> AllLoggable(batches[k], ends)) ==>
              StreamOf(store, keys, ends) == Emitted(Archived(batches, keys), None)
    ensures (exists k :: k in keys && !AllLoggable(batches[k], ends)) ==> StreamOf(store, keys, ends).error.Some?
    decreases |keys|
  {
    if keys != [] {
      hide Loggable, RecordsOf, Lines, SerializeBatch, Verbatim;
      assert keys[0] in keys && keys == [keys[0]] + keys[1..];
      RoundTripIsExact(batches[keys[0]], ends);
      StreamRecoversTheBatches(store, batches, keys[1..], ends);
    }
  }
}
