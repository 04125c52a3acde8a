/**
 The attachment upload store: bytes staged for a draft behind one-use handles.
 A handle is either issued with its payload, or issued as a push grant that
 fixes what may be uploaded, completed once, and then consumed.

 Handles are random, so each one is assumed to differ from all issued before;
 digests are injective; clock readings do not go back.
 */
module Uploads {
  import opened Basics

  datatype Digest = Sha256(token: string)

  /** A declared SHA-256 text: the digest of some content, of no content, or not a digest at all. */
  datatype DeclaredHash = HexOf(content: seq<bv8>) | HexOfNothing(hex: string) | NotHex

  datatype Owner = Owner(tenant: string, user: string, subject: string)

  datatype Attachment = Attachment(name: string, contentType: string, content: seq<bv8>)

  datatype Entry = Entry(owner: Owner, payload: Attachment, expiresAt: real, draft: Option<string>)

  datatype Grant = Grant(owner: Owner, draft: string, name: string, contentType: string, size: nat, hash: DeclaredHash,
                         expiresAt: real)

  datatype IssueResult = Handle(token: string) | Invalid | Full

  datatype CompleteResult = Staged(payload: Attachment) | NoGrant | Mismatch | NoRoom

  const MAX_ATTACHMENT_BYTES := 20 * 1024 * 1024

  predicate ValidName(name: string) {
    0 < |name| <= 255
    && forall i :: 0 <= i < |name| ==> ' ' <= name[i] && name[i] != '\U{7F}' && name[i] != '/' && name[i] != '\\'
  }

  predicate MediaChar(c: char) {
    'A' <= c <= 'Z' || 'a' <= c <= 'z' || '0' <= c <= '9'
    || c == '!' || c == '#' || c == '$' || c == '&' || c == '^' || c == '_' || c == '.' || c == '+' || c == '-'
  }

  predicate ValidContentType(text: string) {
    |text| <= 127
    && exists slash :: 0 < slash < |text| - 1 && text[slash] == '/'
         && forall i :: 0 <= i < |text| && i != slash ==> MediaChar(text[i])
  }

  predicate Acceptable(payload: Attachment) {
    ValidName(payload.name) && ValidContentType(payload.contentType) && 1 <= |payload.content| <= MAX_ATTACHMENT_BYTES
  }

  predicate Grantable(draft: string, name: string, contentType: string, size: int, hash: DeclaredHash) {
    1 <= |draft| <= 1024 && ValidName(name) && ValidContentType(contentType)
    && 1 <= size <= MAX_ATTACHMENT_BYTES && !hash.NotHex?
  }

  /** The content that a grant allows: of the granted size, and with the granted digest. */
  predicate Matches(grant: Grant, content: seq<bv8>) {
    |content| == grant.size && grant.hash == HexOf(content)
  }

  /** The entry is what the grant promised, for the user and the draft it was made for. */
  predicate Fulfils(entry: Entry, grant: Grant) {
    && entry.owner == grant.owner && entry.draft == Some(grant.draft)
    && entry.payload.name == grant.name && entry.payload.contentType == grant.contentType
    && Matches(grant, entry.payload.content)
  }

  // ----- byte totals over a dictionary -----

  ghost function Bytes(m: map<Digest, Entry>): nat {
    if m == map[] then 0
    else
      var k :| k in m;
      |m[k].payload.content| + Bytes(m - {k})
  }

  lemma {:induction false} BytesWithout(m: map<Digest, Entry>, k: Digest)
    requires k in m
    ensures Bytes(m) == |m[k].payload.content| + Bytes(m - {k})
    decreases m
  {
    var first :| first in m && Bytes(m) == |m[first].payload.content| + Bytes(m - {first});
    if first != k {
      BytesWithout(m - {first}, k);
      BytesWithout(m - {k}, first);
      assert m - {first} - {k} == m - {k} - {first};
    }
  }

  lemma BytesWith(m: map<Digest, Entry>, k: Digest, e: Entry)
    requires k !in m
    ensures Bytes(m[k := e]) == Bytes(m) + |e.payload.content|
  {
    BytesWithout(m[k := e], k);
    assert m[k := e] - {k} == m;
  }

  function LiveEntries(m: map<Digest, Entry>, now: real): map<Digest, Entry> {
    map k | k in m && m[k].expiresAt > now :: m[k]
  }

  function LiveGrants(m: map<Digest, Grant>, now: real): map<Digest, Grant> {
    map k | k in m && m[k].expiresAt > now :: m[k]
  }

  class AttachmentUploadStore {
    const ttl: nat
    const maxItems: nat
    const maxBytes: nat
    const maxGrants: nat
    var entries: map<Digest, Entry>
    var grants: map<Digest, Grant>
    var totalBytes: int
    /** Everything that ever was granted, staged and consumed. */
    ghost var granted: map<Digest, Grant>
    ghost var staged: map<Digest, Entry>
    ghost var consumed: set<Digest>

    ghost predicate Bounded()
      reads this
    {
      && totalBytes == Bytes(entries) <= maxBytes
      && |entries| <= maxItems
      && |grants| <= maxGrants
    }

    /** Every handle only moves forward: granted, then staged, then consumed. */
    ghost predicate Forward()
      reads this
    {
      && (forall k <- grants :: k in granted && granted[k] == grants[k] && k !in staged)
      && (forall k <- entries :: k in staged && staged[k] == entries[k] && k !in consumed)
      && consumed <= staged.Keys
      && (forall k <- staged :: k in granted ==> Fulfils(staged[k], granted[k]))
    }

    ghost predicate Valid()
      reads this
    {
      Bounded() && Forward()
    }

    ghost predicate Unused(token: string)
      reads this
    {
      Sha256(token) !in granted && Sha256(token) !in staged
    }

    constructor (ttl: nat, maxItems: nat, maxBytes: nat, maxGrants: nat)
      requires 0 < ttl && 0 < maxItems && 0 < maxBytes && 0 < maxGrants
      ensures Valid() && entries == map[] && grants == map[] && granted == map[] && staged == map[] && consumed == {}
      ensures this.ttl == ttl && this.maxItems == maxItems && this.maxBytes == maxBytes && this.maxGrants == maxGrants
    {
      this.ttl, this.maxItems, this.maxBytes, this.maxGrants := ttl, maxItems, maxBytes, maxGrants;
      entries, grants, totalBytes := map[], map[], 0;
      granted, staged, consumed := map[], map[], {};
    }

    /** Limits must be positive. */
    static method Create(ttl: int, maxItems: int, maxBytes: int, maxGrants: int) returns (store: AttachmentUploadStore?)
      ensures store == null <==> ttl <= 0 || maxItems <= 0 || maxBytes <= 0 || maxGrants <= 0
      ensures store != null ==> fresh(store) && store.Valid() && store.entries == map[] && store.grants == map[]
    {
      if ttl <= 0 || maxItems <= 0 || maxBytes <= 0 || maxGrants <= 0 {
        return null;
      }
      store := new AttachmentUploadStore(ttl, maxItems, maxBytes, maxGrants);
    }

    method DeleteEntry(k: Digest)
      requires Valid() && k in entries
      modifies this`entries, this`totalBytes
      ensures Valid() && entries == old(entries) - {k}
    {
      BytesWithout(entries, k);
      totalBytes := totalBytes - |entries[k].payload.content|;
      assert (entries - {k}).Keys == entries.Keys - {k};
      entries := entries - {k};
    }

    method DeleteGrant(k: Digest)
      requires Valid() && k in grants
      modifies this`grants
      ensures Valid() && grants == old(grants) - {k}
    {
      assert (grants - {k}).Keys == grants.Keys - {k};
      grants := grants - {k};
    }

    method PruneEntries(now: real)
      requires Valid()
      modifies this`entries, this`totalBytes
      ensures Valid() && entries == LiveEntries(old(entries), now)
    {
      var todo := entries.Keys;
      while todo != {}
        invariant Valid() && todo <= entries.Keys <= old(entries).Keys
        invariant forall k <- entries :: entries[k] == old(entries)[k]
        invariant forall k <- old(entries) :: k in entries <==> k in todo || old(entries)[k].expiresAt > now
        decreases todo
      {
        var k :| k in todo;
        todo := todo - {k};
        if entries[k].expiresAt <= now {
          DeleteEntry(k);
        }
      }
    }

    method PruneGrants(now: real)
      requires Valid()
      modifies this`grants
      ensures Valid() && grants == LiveGrants(old(grants), now)
    {
      var todo := grants.Keys;
      while todo != {}
        invariant Valid() && todo <= grants.Keys <= old(grants).Keys
        invariant forall k <- grants :: grants[k] == old(grants)[k]
        invariant forall k <- old(grants) :: k in grants <==> k in todo || old(grants)[k].expiresAt > now
        decreases todo
      {
        var k :| k in todo;
        todo := todo - {k};
        if grants[k].expiresAt <= now {
          DeleteGrant(k);
        }
      }
    }

    method Prune(now: real)
      requires Valid()
      modifies this`entries, this`grants, this`totalBytes
      ensures Valid() && entries == LiveEntries(old(entries), now) && grants == LiveGrants(old(grants), now)
    {
      PruneEntries(now);
      PruneGrants(now);
    }

    method AddEntry(k: Digest, entry: Entry)
      requires Valid() && k !in staged && k !in grants && (k in granted ==> Fulfils(entry, granted[k]))
      requires |entries| < maxItems && totalBytes + |entry.payload.content| <= maxBytes
      modifies this`entries, this`totalBytes, this`staged
      ensures Valid() && entries == old(entries)[k := entry] && staged == old(staged)[k := entry]
    {
      BytesWith(entries, k, entry);
      entries := entries[k := entry];
      totalBytes := totalBytes + |entry.payload.content|;
      staged := staged[k := entry];
    }

    /** Stages a payload directly for its owner; refused for bad metadata, or for lack of room after pruning. */
    method Issue(owner: Owner, payload: Attachment, token: string, now: real, later: real) returns (r: IssueResult)
      requires Valid() && Unused(token) && now <= later
      modifies this
      ensures Valid() && granted == old(granted) && consumed == old(consumed)
      ensures r.Invalid? <==> !Acceptable(payload)
      ensures r.Invalid? ==> entries == old(entries) && grants == old(grants)
      ensures !r.Invalid? ==>
                var live := LiveEntries(old(entries), now);
                var entry := Entry(owner, payload, later + ttl as real, None);
                && grants == LiveGrants(old(grants), now)
                && (r.Full? <==> |live| >= maxItems || Bytes(live) + |payload.content| > maxBytes)
                && entries == (if r.Full? then live else live[Sha256(token) := entry])
                && staged == (if r.Full? then old(staged) else old(staged)[Sha256(token) := entry])
                && (!r.Full? ==> r == Handle(token))
    {
      if !ValidName(payload.name) || !ValidContentType(payload.contentType)
         || !(1 <= |payload.content| <= MAX_ATTACHMENT_BYTES) {
        return Invalid;
      }
      Prune(now);
      if |entries| >= maxItems || totalBytes + |payload.content| > maxBytes {
        return Full;
      }
      var entry := Entry(owner, payload, later + ttl as real, None);
      AddEntry(Sha256(token), entry);
      return Handle(token);
    }

    /** Issues a grant to push one file of exactly this size and digest for this user and draft. */
    method IssuePushGrant(owner: Owner, draft: string, name: string, contentType: string, size: int, hash: DeclaredHash,
                          token: string, now: real, later: real) returns (r: IssueResult)
      requires Valid() && Unused(token) && now <= later
      modifies this
      ensures Valid() && staged == old(staged) && consumed == old(consumed)
      ensures r.Invalid? <==> !Grantable(draft, name, contentType, size, hash)
      ensures r.Invalid? ==> entries == old(entries) && grants == old(grants)
      ensures !r.Invalid? ==>
                var live := LiveGrants(old(grants), now);
                var grant := Grant(owner, draft, name, contentType, size, hash, later + ttl as real);
                && entries == LiveEntries(old(entries), now)
                && (r.Full? <==> |live| >= maxGrants)
                && grants == (if r.Full? then live else live[Sha256(token) := grant])
                && granted == (if r.Full? then old(granted) else old(granted)[Sha256(token) := grant])
                && (!r.Full? ==> r == Handle(token))
    {
      if !(1 <= |draft| <= 1024) || !ValidName(name) || !ValidContentType(contentType)
         || !(1 <= size <= MAX_ATTACHMENT_BYTES) || hash.NotHex? {
        return Invalid;
      }
      Prune(now);
      if |grants| >= maxGrants {
        return Full;
      }
      var grant := Grant(owner, draft, name, contentType, size, hash, later + ttl as real);
      grants := grants[Sha256(token) := grant];
      granted := granted[Sha256(token) := grant];
      return Handle(token);
    }

    method PushGrantSize(token: string, now: real) returns (r: Option<nat>)
      requires Valid()
      modifies this`entries, this`grants, this`totalBytes
      ensures Valid()
      ensures !TokenShaped(token) ==>
                r == None && entries == old(entries) && grants == old(grants) && totalBytes == old(totalBytes)
      ensures TokenShaped(token) ==>
                var k, live := Sha256(token), LiveGrants(old(grants), now);
                && r == (if k in live then Some(live[k].size) else None)
                && entries == LiveEntries(old(entries), now) && grants == live
    {
      if !TokenShaped(token) {
        return None;
      }
      Prune(now);
      if Sha256(token) in grants {
        return Some(grants[Sha256(token)].size);
      }
      return None;
    }

    /**
     Turns a live grant into a staged entry, once. Wrong content and a full
     store leave the grant as it was.
     */
    method CompletePushGrant(token: string, content: seq<bv8>, now: real, later: real) returns (r: CompleteResult)
      requires Valid() && now <= later
      modifies this
      ensures Valid() && granted == old(granted) && consumed == old(consumed)
      ensures !r.Staged? ==> staged == old(staged)
      ensures !TokenShaped(token) ==> r.NoGrant? && entries == old(entries) && grants == old(grants)
      ensures TokenShaped(token) ==>
                var k, g, e := Sha256(token), LiveGrants(old(grants), now), LiveEntries(old(entries), now);
                && (r.NoGrant? <==> k !in g)
                && (r.Mismatch? <==> k in g && !Matches(g[k], content))
                && (r.NoRoom? <==> k in g && Matches(g[k], content)
                                   && (|e| >= maxItems || Bytes(e) + |content| > maxBytes))
                && (r.Staged? ==> r.payload == Attachment(g[k].name, g[k].contentType, content)
                                  && entries == e[k := Entry(g[k].owner, r.payload, later + ttl as real,
                                                             Some(g[k].draft))]
                                  && grants == g - {k}
                                  && k !in old(staged) && staged == old(staged)[k := entries[k]])
                && (!r.Staged? ==> entries == e && grants == g)
    {
      if !TokenShaped(token) {
        return NoGrant;
      }
      Prune(now);
      var k := Sha256(token);
      if k !in grants {
        return NoGrant;
      }
      var grant := grants[k];
      if |content| != grant.size || grant.hash != HexOf(content) {
        return Mismatch;
      }
      if |entries| >= maxItems || totalBytes + grant.size > maxBytes {
        return NoRoom;
      }
      r := Staged(Attachment(grant.name, grant.contentType, content));
      DeleteGrant(k);
      AddEntry(k, Entry(grant.owner, r.payload, later + ttl as real, Some(grant.draft)));
    }

    /** Removes an entry for good; what came through a grant is what the grant promised. */
    method Take(k: Digest) returns (entry: Entry)
      requires Valid() && k in entries
      modifies this`entries, this`totalBytes, this`consumed
      ensures Valid() && entry == old(entries)[k] && entries == old(entries) - {k}
      ensures k !in old(consumed) && consumed == old(consumed) + {k}
      ensures k in granted ==> Fulfils(entry, granted[k])
    {
      entry := entries[k];
      DeleteEntry(k);
      consumed := consumed + {k};
    }

    /** Hands the payload out, once, to its owner and for its draft; any other attempt leaves the entry as it was. */
    method Consume(owner: Owner, token: string, draft: Option<string>, now: real) returns (r: Option<Attachment>)
      requires Valid()
      modifies this
      ensures Valid() && granted == old(granted) && staged == old(staged)
      ensures !TokenShaped(token) ==> r.None? && entries == old(entries) && grants == old(grants)
      ensures TokenShaped(token) ==>
                var k, e := Sha256(token), LiveEntries(old(entries), now);
                && (r.Some? <==> k in e && e[k].owner == owner && (e[k].draft.Some? ==> e[k].draft == draft))
                && (r.Some? ==> r.value == e[k].payload)
                && entries == (if r.Some? then e - {k} else e)
                && grants == LiveGrants(old(grants), now)
      ensures r.Some? ==> Sha256(token) !in old(consumed) && consumed == old(consumed) + {Sha256(token)}
      ensures r.None? ==> consumed == old(consumed)
      ensures r.Some? && Sha256(token) in granted ==>
                var grant := granted[Sha256(token)];
                && owner == grant.owner && draft == Some(grant.draft)
                && r.value.name == grant.name && r.value.contentType == grant.contentType
                && Matches(grant, r.value.content)
    {
      if !TokenShaped(token) {
        return None;
      }
      Prune(now);
      var k := Sha256(token);
      if k !in entries || entries[k].owner != owner || (entries[k].draft.Some? && entries[k].draft != draft) {
        return None;
      }
      var entry := Take(k);
      return Some(entry.payload);
    }

    method Clear()
      requires Valid()
      modifies this`entries, this`grants, this`totalBytes
      ensures Valid() && entries == map[] && grants == map[] && totalBytes == 0
    {
      entries, grants, totalBytes := map[], map[], 0;
    }
  }
}
