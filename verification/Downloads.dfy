/**
 The attachment download store: payloads behind single-use tickets in an ordered
 dictionary, pruned from the front only and evicted oldest first. It refines a
 plain map of issued, unexpired, unconsumed, not evicted tickets.

 The clock is monotonic: every operation is given a reading that is not before
 the previous one. Digests of tokens are injective.
 */
module Downloads {
  import opened Basics

  datatype Digest = Sha256(token: string)

  datatype Payload = Payload(filename: string, contentType: Option<string>, content: seq<bv8>)

  datatype Stored = Stored(payload: Payload, expiresAt: real)

  datatype Item = Item(key: Digest, stored: Stored)

  datatype IssueResult =
    | Issued(token: string)
    | TooLarge
    | InvalidToken
    | NoUniqueToken

  // ----- the ordered dictionary -----

  function Size(item: Item): nat {
    |item.stored.payload.content|
  }

  function Bytes(items: seq<Item>): nat {
    if items == [] then 0 else Size(items[0]) + Bytes(items[1..])
  }

  lemma {:induction false} BytesOfConcat(a: seq<Item>, b: seq<Item>)
    ensures Bytes(a + b) == Bytes(a) + Bytes(b)
  {
    if a == [] {
      assert a + b == b;
    } else {
      assert (a + b)[1..] == a[1..] + b;
      BytesOfConcat(a[1..], b);
    }
  }

  predicate HasKey(items: seq<Item>, key: Digest) {
    exists i :: 0 <= i < |items| && items[i].key == key
  }

  predicate DistinctKeys(items: seq<Item>) {
    forall i, j :: 0 <= i < j < |items| ==> items[i].key != items[j].key
  }

  predicate SortedByExpiry(items: seq<Item>) {
    forall i, j :: 0 <= i < j < |items| ==> items[i].stored.expiresAt <= items[j].stored.expiresAt
  }

  /** The abstract content: which token digest holds what. */
  function AsMap(items: seq<Item>): map<Digest, Stored> {
    if items == [] then map[] else AsMap(items[1..])[items[0].key := items[0].stored]
  }

  lemma {:induction false} AsMapHolds(items: seq<Item>, key: Digest)
    requires DistinctKeys(items)
    ensures key in AsMap(items) <==> HasKey(items, key)
    ensures forall i :: 0 <= i < |items| && items[i].key == key ==> AsMap(items)[key] == items[i].stored
  {
    if items != [] {
      AsMapHolds(items[1..], key);
      assert HasKey(items, key) <==> items[0].key == key || HasKey(items[1..], key) by {
        if i :| 0 <= i < |items| && items[i].key == key {
          assert i == 0 || items[1..][i - 1].key == key;
        }
      }
    }
  }

  // ----- what pruning and eviction are for -----

  /** Every expired item dropped, wherever it is. */
  function Unexpired(items: seq<Item>, now: real): seq<Item> {
    if items == [] then []
    else if items[0].stored.expiresAt > now then [items[0]] + Unexpired(items[1..], now)
    else Unexpired(items[1..], now)
  }

  /** If the first n items have expired and no other has, dropping the expired means dropping the first n. */
  lemma {:induction false} UnexpiredIsSuffix(items: seq<Item>, n: nat, now: real)
    requires n <= |items|
    requires forall i :: 0 <= i < n ==> items[i].stored.expiresAt <= now
    requires forall i :: n <= i < |items| ==> items[i].stored.expiresAt > now
    ensures Unexpired(items, now) == items[n..]
  {
    if items != [] {
      UnexpiredIsSuffix(items[1..], if n == 0 then 0 else n - 1, now);
    }
  }

  lemma {:induction false} UnexpiredAsMap(items: seq<Item>, now: real)
    requires DistinctKeys(items)
    ensures AsMap(Unexpired(items, now)) == Live(AsMap(items), now)
  {
    if items != [] {
      UnexpiredAsMap(items[1..], now);
      AsMapHolds(items[1..], items[0].key);
    }
  }

  predicate Fits(items: seq<Item>, size: nat, maxItems: nat, maxBytes: nat) {
    |items| < maxItems && Bytes(items) + size <= maxBytes
  }

  /** Room for a newcomer was made by dropping the shortest oldest-first prefix that leaves room. */
  predicate MinimalRoom(before: seq<Item>, after: seq<Item>, size: nat, maxItems: nat, maxBytes: nat) {
    && |after| <= |before| && after == before[|before| - |after|..]
    && Fits(after, size, maxItems, maxBytes)
    && forall n :: 0 <= n < |before| - |after| ==> !Fits(before[n..], size, maxItems, maxBytes)
  }

  lemma IndexOf(items: seq<Item>, k: Digest) returns (i: nat)
    requires DistinctKeys(items) && k in AsMap(items)
    ensures i < |items| && items[i] == Item(k, AsMap(items)[k])
  {
    AsMapHolds(items, k);
    i :| 0 <= i < |items| && items[i].key == k;
  }

  lemma SuffixHolds(items: seq<Item>, n: nat, i: nat)
    requires n <= |items| && i < |items| && DistinctKeys(items)
    ensures items[i].key in AsMap(items[n..]) <==> n <= i
    ensures items[i].key in AsMap(items) && AsMap(items)[items[i].key] == items[i].stored
  {
    AsMapHolds(items, items[i].key);
    AsMapHolds(items[n..], items[i].key);
    assert n <= i ==> items[n..][i - n] == items[i];
  }

  lemma SuffixIsNewest(items: seq<Item>, n: nat, k: Digest, x: Digest)
    requires n <= |items| && DistinctKeys(items) && SortedByExpiry(items)
    requires x in AsMap(items[n..])
    ensures x in AsMap(items) && AsMap(items)[x] == AsMap(items[n..])[x]
    ensures k in AsMap(items) && k !in AsMap(items[n..]) ==> AsMap(items)[k].expiresAt <= AsMap(items)[x].expiresAt
  {
    var j := IndexOf(items[n..], x);
    SuffixHolds(items, n, n + j);
    if k in AsMap(items) {
      var i := IndexOf(items, k);
      SuffixHolds(items, n, i);
    }
  }

  /** On the plain map: no ticket is evicted that expires after one that is kept, and kept tickets stay as they were. */
  lemma EvictionTakesTheOldest(before: seq<Item>, after: seq<Item>, size: nat, maxItems: nat, maxBytes: nat,
                               k: Digest, x: Digest)
    requires DistinctKeys(before) && SortedByExpiry(before) && MinimalRoom(before, after, size, maxItems, maxBytes)
    requires x in AsMap(after)
    ensures x in AsMap(before) && AsMap(before)[x] == AsMap(after)[x]
    ensures k in AsMap(before) && k !in AsMap(after) ==> AsMap(before)[k].expiresAt <= AsMap(after)[x].expiresAt
  {
    SuffixIsNewest(before, |before| - |after|, k, x);
  }

  // ----- the token draws -----

  /** What the allocation loop makes of the drawn tokens, in order. */
  function Pick(draws: seq<string>, items: seq<Item>): (r: IssueResult)
    ensures !r.TooLarge?
  {
    if draws == [] then NoUniqueToken
    else if !TokenShaped(draws[0]) then InvalidToken
    else if HasKey(items, Sha256(draws[0])) then Pick(draws[1..], items)
    else Issued(draws[0])
  }

  predicate Taken(token: string, items: seq<Item>) {
    TokenShaped(token) && HasKey(items, Sha256(token))
  }

  /**
   The first draw that is not a taken token decides: it is issued if it is well-formed, whatever follows it, and ends
   the allocation if it is not. If every draw is taken, there is none.
   */
  lemma {:induction false} FirstFreeDrawDecides(draws: seq<string>, items: seq<Item>)
    ensures match Pick(draws, items)
            case Issued(token) =>
              && TokenShaped(token) && !HasKey(items, Sha256(token))
              && exists i :: 0 <= i < |draws| && draws[i] == token && forall k :: 0 <= k < i ==> Taken(draws[k], items)
            case InvalidToken =>
              exists i :: 0 <= i < |draws| && !TokenShaped(draws[i])
                && forall k :: 0 <= k < i ==> Taken(draws[k], items)
            case NoUniqueToken => forall i :: 0 <= i < |draws| ==> Taken(draws[i], items)
            case TooLarge => false
  {
    if draws != [] && Taken(draws[0], items) {
      FirstFreeDrawDecides(draws[1..], items);
      match Pick(draws, items) {
        case NoUniqueToken =>
        case Issued(token) =>
          var i :| 0 <= i < |draws[1..]| && draws[1..][i] == token
                   && forall k :: 0 <= k < i ==> Taken(draws[1..][k], items);
          FirstFreeShifts(draws, items, i);
        case InvalidToken =>
          var i :| 0 <= i < |draws[1..]| && !TokenShaped(draws[1..][i])
                   && forall k :: 0 <= k < i ==> Taken(draws[1..][k], items);
          FirstFreeShifts(draws, items, i);
      }
    }
  }

  lemma FirstFreeShifts(draws: seq<string>, items: seq<Item>, i: nat)
    requires i < |draws| - 1 && Taken(draws[0], items) && forall k :: 0 <= k < i ==> Taken(draws[1..][k], items)
    ensures draws[i + 1] == draws[1..][i] && forall k :: 0 <= k < i + 1 ==> Taken(draws[k], items)
  {
    forall k | 0 <= k < i + 1 ensures Taken(draws[k], items) {
      assert k > 0 ==> draws[k] == draws[1..][k - 1];
    }
  }

  // ----- removal from the middle -----

  function Without(items: seq<Item>, i: nat): seq<Item>
    requires i < |items|
  {
    items[..i] + items[i + 1..]
  }

  lemma WithoutAt(items: seq<Item>, i: nat, j: nat)
    requires i < |items| && j < |items| - 1
    ensures Without(items, i)[j] == items[if j < i then j else j + 1]
  {}

  lemma RemovalKeepsOrder(items: seq<Item>, i: nat)
    requires i < |items| && DistinctKeys(items) && SortedByExpiry(items)
    ensures var rest := Without(items, i);
            DistinctKeys(rest) && SortedByExpiry(rest) && !HasKey(rest, items[i].key)
  {
    var rest := Without(items, i);
    forall a, b | 0 <= a < b < |rest|
      ensures rest[a].key != rest[b].key && rest[a].stored.expiresAt <= rest[b].stored.expiresAt
    {
      WithoutAt(items, i, a);
      WithoutAt(items, i, b);
    }
    forall a | 0 <= a < |rest| ensures rest[a].key != items[i].key {
      WithoutAt(items, i, a);
    }
  }

  lemma RemovalBytes(items: seq<Item>, i: nat)
    requires i < |items|
    ensures Bytes(Without(items, i)) == Bytes(items) - Size(items[i])
  {
    var front, back := items[..i], items[i..];
    BytesOfConcat(front, back);
    BytesOfConcat(front, back[1..]);
    assert items == front + back && Without(items, i) == front + back[1..];
  }

  lemma PutThenRemove(m: map<Digest, Stored>, first: Digest, stored: Stored, k: Digest)
    requires first != k
    ensures (m - {k})[first := stored] == m[first := stored] - {k}
  {}

  lemma {:induction false} RemovalAsMap(items: seq<Item>, i: nat)
    requires i < |items| && DistinctKeys(items)
    ensures AsMap(Without(items, i)) == AsMap(items) - {items[i].key}
  {
    if i == 0 {
      assert Without(items, 0) == items[1..];
      AsMapHolds(items[1..], items[0].key);
    } else {
      RemovalAsMap(items[1..], i - 1);
      WithoutTail(items, i);
      assert items[1..][i - 1] == items[i];
      PutThenRemove(AsMap(items[1..]), items[0].key, items[0].stored, items[i].key);
    }
  }

  lemma WithoutTail(items: seq<Item>, i: nat)
    requires 0 < i < |items|
    ensures Without(items, i)[0] == items[0] && Without(items, i)[1..] == Without(items[1..], i - 1)
  {}

  lemma {:induction false} AppendAsMap(items: seq<Item>, last: Item)
    requires DistinctKeys(items) && !HasKey(items, last.key)
    ensures AsMap(items + [last]) == AsMap(items)[last.key := last.stored]
  {
    if items == [] {
      assert [] + [last] == [last];
    } else {
      assert (items + [last])[1..] == items[1..] + [last];
      assert forall i :: 0 <= i < |items[1..]| ==> items[1..][i] == items[i + 1];
      AppendAsMap(items[1..], last);
      assert items[0].key != last.key;
    }
  }

  // ----- what has become of every token -----

  /** What each token was last issued for, and how often it was issued and redeemed. */
  datatype Log = Log(lastIssued: map<Digest, Stored>, issues: multiset<Digest>, redemptions: multiset<Digest>)

  /** A retained item is what its token was last issued for, and that issue has not been redeemed. */
  ghost predicate ItemAccounted(item: Item, log: Log) {
    && item.key in log.lastIssued && log.lastIssued[item.key] == item.stored
    && log.redemptions[item.key] < log.issues[item.key]
  }

  ghost predicate Accounted(items: seq<Item>, log: Log) {
    && (forall k :: log.redemptions[k] <= log.issues[k])
    && (forall i :: 0 <= i < |items| ==> ItemAccounted(items[i], log))
  }

  function LogIssue(log: Log, item: Item): Log {
    log.(lastIssued := log.lastIssued[item.key := item.stored], issues := log.issues + multiset{item.key})
  }

  function LogRedemption(log: Log, k: Digest): Log {
    log.(redemptions := log.redemptions + multiset{k})
  }

  lemma SuffixAccounted(items: seq<Item>, n: nat, log: Log)
    requires n <= |items| && Accounted(items, log)
    ensures Accounted(items[n..], log)
  {}

  lemma IssueAccounted(items: seq<Item>, log: Log, item: Item)
    requires Accounted(items, log) && !HasKey(items, item.key)
    ensures Accounted(items + [item], LogIssue(log, item))
  {
    var all := items + [item];
    forall i | 0 <= i < |all| ensures ItemAccounted(all[i], LogIssue(log, item)) {
      if i < |items| {
        assert ItemAccounted(items[i], log) && all[i] == items[i] && items[i].key != item.key;
      }
    }
  }

  lemma RedemptionAccounted(items: seq<Item>, i: nat, log: Log)
    requires i < |items| && Accounted(items, log) && DistinctKeys(items)
    ensures Accounted(Without(items, i), log) && Accounted(Without(items, i), LogRedemption(log, items[i].key))
  {
    var rest := Without(items, i);
    assert ItemAccounted(items[i], log);
    forall j | 0 <= j < |rest|
      ensures ItemAccounted(rest[j], log) && ItemAccounted(rest[j], LogRedemption(log, items[i].key))
    {
      WithoutAt(items, i, j);
    }
  }

  // ----- the store -----

  class AttachmentDownloadStore {
    const ttl: nat
    const maxItems: nat
    const maxBytes: nat
    var entries: seq<Item>
    var totalBytes: int
    ghost var clock: real
    ghost var log: Log

    /** The entries are in order of expiry, counted exactly, and within both limits. */
    ghost predicate Bounded()
      reads this
    {
      && 0 < ttl && 0 < maxItems && 0 < maxBytes
      && DistinctKeys(entries) && SortedByExpiry(entries)
      && (forall i :: 0 <= i < |entries| ==> entries[i].stored.expiresAt <= clock + ttl as real)
      && |entries| <= maxItems
      && totalBytes == Bytes(entries) <= maxBytes
    }

    ghost predicate Valid()
      reads this
    {
      Bounded() && Accounted(entries, log)
    }

    /** The store as a plain map of live tickets. */
    ghost function Tickets(): map<Digest, Stored>
      reads this
    {
      AsMap(entries)
    }

    constructor (ttl: nat, maxItems: nat, maxBytes: nat)
      requires 0 < ttl && 0 < maxItems && 0 < maxBytes
      ensures Valid() && Tickets() == map[] && clock == 0.0 && log == Log(map[], multiset{}, multiset{})
      ensures this.ttl == ttl && this.maxItems == maxItems && this.maxBytes == maxBytes
    {
      this.ttl, this.maxItems, this.maxBytes := ttl, maxItems, maxBytes;
      entries, totalBytes, clock := [], 0, 0.0;
      log := Log(map[], multiset{}, multiset{});
    }

    /** Limits must be positive. */
    static method Create(ttl: int, maxItems: int, maxBytes: int) returns (store: AttachmentDownloadStore?)
      ensures store == null <==> ttl <= 0 || maxItems <= 0 || maxBytes <= 0
      ensures store != null ==> fresh(store) && store.Valid() && store.Tickets() == map[]
    {
      if ttl <= 0 || maxItems <= 0 || maxBytes <= 0 {
        return null;
      }
      store := new AttachmentDownloadStore(ttl, maxItems, maxBytes);
    }

    method RemoveOldest()
      requires Bounded() && entries != []
      modifies this`entries, this`totalBytes
      ensures Bounded() && entries == old(entries)[1..]
    {
      totalBytes := totalBytes - |entries[0].stored.payload.content|;
      entries := entries[1..];
    }

    /** Drops items from the front while the first has expired, which drops all that have. */
    method PruneExpired(now: real)
      requires Bounded() && clock <= now
      modifies this`entries, this`totalBytes, this`clock
      ensures Bounded() && clock == now
      ensures |entries| <= |old(entries)| && entries == old(entries)[|old(entries)| - |entries|..]
      ensures entries == Unexpired(old(entries), now)
    {
      clock := now;
      ghost var n := 0;
      while entries != []
        invariant Bounded() && clock == now
        invariant n <= |old(entries)| && entries == old(entries)[n..]
        invariant forall i :: 0 <= i < n ==> old(entries)[i].stored.expiresAt <= now
        decreases |entries|
      {
        if entries[0].stored.expiresAt > now {
          break;
        }
        RemoveOldest();
        n := n + 1;
      }
      UnexpiredIsSuffix(old(entries), n, now);
    }

    /** Evicts the oldest until the newcomer fits. */
    method EvictFor(size: nat)
      requires Bounded() && size <= maxBytes
      modifies this`entries, this`totalBytes
      ensures Bounded() && MinimalRoom(old(entries), entries, size, maxItems, maxBytes)
    {
      ghost var n := 0;
      while entries != [] && (|entries| >= maxItems || totalBytes + size > maxBytes)
        invariant Bounded()
        invariant n <= |old(entries)| && entries == old(entries)[n..]
        invariant forall m :: 0 <= m < n ==> !Fits(old(entries)[m..], size, maxItems, maxBytes)
        decreases |entries|
      {
        RemoveOldest();
        n := n + 1;
      }
    }

    method Allocate(draws: seq<string>) returns (r: IssueResult)
      requires |draws| == 5
      ensures r == Pick(draws, entries)
    {
      var tries := 0;
      while tries < 5
        invariant 0 <= tries <= 5
        invariant Pick(draws, entries) == Pick(draws[tries..], entries)
      {
        var token := draws[tries];
        if !TokenShaped(token) {
          return InvalidToken;
        }
        if !HasKey(entries, Sha256(token)) {
          return Issued(token);
        }
        tries := tries + 1;
      }
      return NoUniqueToken;
    }

    method Append(item: Item)
      requires Bounded() && !HasKey(entries, item.key) && Fits(entries, Size(item), maxItems, maxBytes)
      requires item.stored.expiresAt == clock + ttl as real
      modifies this`entries, this`totalBytes
      ensures Bounded() && entries == old(entries) + [item]
    {
      BytesOfConcat(entries, [item]);
      entries := entries + [item];
      totalBytes := totalBytes + |item.stored.payload.content|;
    }

    /** Retains one payload behind the first unused token of five draws. */
    method Issue(payload: Payload, now: real, draws: seq<string>) returns (r: IssueResult)
      requires Valid() && clock <= now && |draws| == 5
      modifies this
      ensures Valid()
      ensures r.TooLarge? <==> |payload.content| > maxBytes
      ensures r.TooLarge? ==> entries == old(entries) && totalBytes == old(totalBytes) && clock == old(clock)
      ensures !r.TooLarge? ==>
                var kept := if r.Issued? && |entries| > 0 then entries[..|entries| - 1] else entries;
                && MinimalRoom(Unexpired(old(entries), now), kept, |payload.content|, maxItems, maxBytes)
                && r == Pick(draws, kept)
                && Tickets() == if r.Issued? then AsMap(kept)[Sha256(r.token) := Stored(payload, now + ttl as real)]
                                else AsMap(kept)
      ensures r.Issued? ==>
                var item := Item(Sha256(r.token), Stored(payload, now + ttl as real));
                |entries| > 0 && entries[|entries| - 1] == item && log == LogIssue(old(log), item)
      ensures !r.Issued? ==> log == old(log)
    {
      if |payload.content| > maxBytes {
        return TooLarge;
      }
      MakeRoom(|payload.content|, now);
      r := Allocate(draws);
      if r.Issued? {
        FirstFreeDrawDecides(draws, entries);
        AppendAsMap(entries, Item(Sha256(r.token), Stored(payload, now + ttl as real)));
        Retain(Item(Sha256(r.token), Stored(payload, now + ttl as real)));
      }
    }

    method MakeRoom(size: nat, now: real)
      requires Valid() && clock <= now && size <= maxBytes
      modifies this`entries, this`totalBytes, this`clock
      ensures Valid() && clock == now
      ensures MinimalRoom(Unexpired(old(entries), now), entries, size, maxItems, maxBytes)
    {
      PurgeExpired(now);
      ghost var pruned := entries;
      EvictFor(size);
      SuffixAccounted(pruned, |pruned| - |entries|, log);
    }

    method Retain(item: Item)
      requires Valid() && !HasKey(entries, item.key) && Fits(entries, Size(item), maxItems, maxBytes)
      requires item.stored.expiresAt == clock + ttl as real
      modifies this`entries, this`totalBytes, this`log
      ensures Valid() && entries == old(entries) + [item] && log == LogIssue(old(log), item)
    {
      IssueAccounted(entries, log, item);
      Append(item);
      log := LogIssue(log, item);
    }

    /** Removes the entry under a key, if there is one, with its bytes. */
    method Pop(k: Digest) returns (r: Option<Stored>)
      requires Valid()
      modifies this`entries, this`totalBytes
      ensures Valid() && Tickets() == old(Tickets()) - {k}
      ensures r == if k in old(Tickets()) then Some(old(Tickets())[k]) else None
      ensures r.Some? ==> k in log.lastIssued && log.lastIssued[k] == r.value
      ensures r.Some? ==> Accounted(entries, LogRedemption(log, k))
    {
      AsMapHolds(entries, k);
      if i :| 0 <= i < |entries| && entries[i].key == k {
        var entry := entries[i].stored;
        RemovalKeepsOrder(entries, i);
        RemovalBytes(entries, i);
        RemovalAsMap(entries, i);
        RedemptionAccounted(entries, i, log);
        assert ItemAccounted(entries[i], log);
        entries := Without(entries, i);
        totalBytes := totalBytes - |entry.payload.content|;
        return Some(entry);
      } else {
        return None;
      }
    }

    /** Redeems a live ticket once; anything else looks absent. */
    method Consume(token: string, now: real) returns (r: Option<Payload>)
      requires Valid() && clock <= now
      modifies this
      ensures Valid()
      ensures !TokenShaped(token) ==> r.None? && entries == old(entries)
      ensures TokenShaped(token) ==> r == Redeemed(old(Tickets()), Sha256(token), now)
      ensures r.Some? <==> TokenShaped(token) && Sha256(token) in old(Tickets())
                           && old(Tickets())[Sha256(token)].expiresAt > now
      ensures TokenShaped(token) ==> Tickets() == Live(old(Tickets()), now) - {Sha256(token)}
      ensures r.Some? ==> Sha256(token) in log.lastIssued && r.value == log.lastIssued[Sha256(token)].payload
      ensures log == if r.Some? then LogRedemption(old(log), Sha256(token)) else old(log)
    {
      if !TokenShaped(token) {
        return None;
      }
      UnexpiredAsMap(entries, now);
      PurgeExpired(now);
      var k := Sha256(token);
      var entry := Pop(k);
      if entry.None? {
        return None;
      }
      assert entry.value.expiresAt > now;
      if entry.value.expiresAt <= now {
        return None;
      }
      log := LogRedemption(log, k);
      return Some(entry.value.payload);
    }

    method PurgeExpired(now: real)
      requires Valid() && clock <= now
      modifies this`entries, this`totalBytes, this`clock
      ensures Valid() && clock == now && entries == Unexpired(old(entries), now)
    {
      PruneExpired(now);
      SuffixAccounted(old(entries), |old(entries)| - |entries|, log);
    }

    /** Releases every retained byte. */
    method Clear()
      requires Valid()
      modifies this`entries, this`totalBytes
      ensures Valid() && Tickets() == map[] && totalBytes == 0
    {
      entries, totalBytes := [], 0;
    }
  }

  // ----- the plain specification -----

  function Live(tickets: map<Digest, Stored>, now: real): map<Digest, Stored> {
    map k | k in tickets && tickets[k].expiresAt > now :: tickets[k]
  }

  function Redeemed(tickets: map<Digest, Stored>, k: Digest, now: real): Option<Payload> {
    if k in Live(tickets, now) then Some(tickets[k].payload) else None
  }
}
