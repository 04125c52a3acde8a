/**
 The cache of identity metadata and signing keys. What a call does under the lock is one step; steps of any
 number of calls follow one another in the order of the clock, and reads without the lock change nothing.
 */
module OidcCache {
  import opened Basics

  /** A fetched document; `jwksUri` is empty when it names no usable signing-key URL. */
  datatype Document = Document(jwksUri: string, content: string)

  datatype Stored = Stored(at: real, document: Document)

  /** What the provider remembers. No forced refresh yet stands for the one at minus infinity. */
  datatype Cache = Cache(jwks: Option<Stored>, lastForced: Option<real>)

  datatype Result = Served(document: Document) | Unavailable

  /** The clock readings of one locked section, in their order: limiter, freshness, forced refresh, after the fetch. */
  datatype Readings = Readings(allowedAt: real, checkedAt: real, forcedAt: real, storedAt: real) {
    predicate Ordered() {
      allowedAt <= checkedAt <= forcedAt <= storedAt
    }
  }

  const INTERVAL := 60.0

  predicate Fresh(cached: Option<Stored>, now: real, ttl: real) {
    cached.Some? && now - cached.value.at < ttl
  }

  predicate Elapsed(lastForced: Option<real>, now: real) {
    lastForced.None? || now - lastForced.value >= INTERVAL
  }

  class OidcDocumentProvider {
    const ttl: real
    var configuration: Option<Stored>
    var jwks: Option<Stored>
    var lastForced: Option<real>

    constructor (ttl: real)
      ensures this.ttl == ttl && configuration == None && Keys() == Cache(None, None)
    {
      this.ttl := ttl;
      configuration, jwks, lastForced := None, None, None;
    }

    function Keys(): Cache
      reads this
    {
      Cache(jwks, lastForced)
    }

    /** The metadata with its fetch time, as a cache that is never refreshed by force. */
    function Metadata(): Cache
      reads this
    {
      Cache(configuration, None)
    }

    /** The locked part of `configuration`: the step of an unforced call on the metadata. */
    method LoadConfiguration(t: Readings, fetched: Option<Document>) returns (r: Result)
      modifies this`configuration
      ensures Metadata() == After(old(Metadata()), ttl, Call(false, t, fetched))
      ensures r == Answer(old(Metadata()), ttl, Call(false, t, fetched))
      // What is served is what is cached from then on; past its lifetime nothing is served that was not just fetched.
      ensures r.Served? ==> configuration.Some? && r.document == configuration.value.document
      ensures !(old(configuration).Some? && t.checkedAt - old(configuration).value.at < ttl) ==>
                if fetched.None? then r == Unavailable && configuration == old(configuration)
                else configuration == Some(Stored(t.storedAt, fetched.value))
    {
      if Fresh(configuration, t.checkedAt, ttl) {
        return Served(configuration.value.document);
      }
      match fetched {
        case None => r := Unavailable;
        case Some(document) =>
          configuration := Some(Stored(t.storedAt, document));
          r := Served(document);
      }
    }

    /** The locked part of `signing_keys`. */
    method LoadKeys(force: bool, t: Readings, fetched: Option<Document>) returns (r: Result)
      modifies this`jwks, this`lastForced
      ensures Keys() == After(old(Keys()), ttl, Call(force, t, fetched))
      ensures r == Answer(old(Keys()), ttl, Call(force, t, fetched))
      // What is served is what is cached from then on. Past their lifetime, and at every forced refresh a minute after
      // the one before, keys are served only if they were just fetched.
      ensures r.Served? ==> jwks.Some? && r.document == jwks.value.document
      ensures || !(old(jwks).Some? && t.checkedAt - old(jwks).value.at < ttl)
              || (force && (old(lastForced).None? || t.allowedAt - old(lastForced).value >= 60.0)) ==>
                && lastForced == (if force then Some(t.forcedAt) else old(lastForced))
                && if fetched.None? then r == Unavailable && jwks == old(jwks)
                   else jwks == Some(Stored(t.storedAt, fetched.value))
    {
      var refreshAllowed := force && Elapsed(lastForced, t.allowedAt);
      if Fresh(jwks, t.checkedAt, ttl) && !refreshAllowed {
        return Served(jwks.value.document);
      }
      if force {
        lastForced := Some(t.forcedAt);
      }
      match fetched {
        case None => r := Unavailable;
        case Some(document) =>
          jwks := Some(Stored(t.storedAt, document));
          r := Served(document);
      }
    }

    /**
     A call that no other call interrupts; `now` is its first clock reading. It stops at fresh keys unless
     forced, at metadata that cannot be had or name no key URL, and otherwise goes on to the locked part.
     */
    method SigningKeys(force: bool, now: real, c: Readings, metadata: Option<Document>, t: Readings,
                       fetched: Option<Document>)
      returns (r: Result)
      modifies this
      ensures var served := !force && Fresh(old(jwks), now, ttl);
              var m := Call(false, c, metadata);
              var loaded := Answer(old(Metadata()), ttl, m);
              if served then
                Keys() == old(Keys()) && Metadata() == old(Metadata()) && r == Served(old(jwks).value.document)
              else
                && Metadata() == After(old(Metadata()), ttl, m)
                && if loaded.Unavailable? || loaded.document.jwksUri == "" then
                     r == Unavailable && Keys() == old(Keys())
                   else
                     Keys() == After(old(Keys()), ttl, Call(force, t, fetched))
                     && r == Answer(old(Keys()), ttl, Call(force, t, fetched))
      ensures r.Served? ==> jwks.Some? && r.document == jwks.value.document
      ensures r.Served? && fetched != Some(r.document) ==>
        && (Fresh(old(jwks), now, ttl) || Fresh(old(jwks), t.checkedAt, ttl))
        && r.document == old(jwks).value.document
    {
      if Fresh(jwks, now, ttl) && !force {
        return Served(jwks.value.document);
      }
      var loaded := LoadConfiguration(c, metadata);
      if loaded.Unavailable? || loaded.document.jwksUri == "" {
        return Unavailable;
      }
      r := LoadKeys(force, t, fetched);
    }
  }

  // ----- one step -----

  /** One locked section for the signing keys: whether a refresh is forced, its readings, what a fetch would bring. */
  datatype Call = Call(force: bool, t: Readings, fetched: Option<Document>)

  predicate Stale(k: Cache, ttl: real, c: Call) {
    !Fresh(k.jwks, c.t.checkedAt, ttl)
  }

  /** A refresh of keys that are still fresh. */
  predicate Forced(k: Cache, ttl: real, c: Call) {
    !Stale(k, ttl, c) && c.force && Elapsed(k.lastForced, c.t.allowedAt)
  }

  predicate Fetches(k: Cache, ttl: real, c: Call) {
    Stale(k, ttl, c) || Forced(k, ttl, c)
  }

  function After(k: Cache, ttl: real, c: Call): Cache {
    if !Fetches(k, ttl, c) then k
    else
      Cache(if c.fetched.Some? then Some(Stored(c.t.storedAt, c.fetched.value)) else k.jwks,
            if c.force then Some(c.t.forcedAt) else k.lastForced)
  }

  function Answer(k: Cache, ttl: real, c: Call): Result {
    if !Fetches(k, ttl, c) then Served(k.jwks.value.document)
    else if c.fetched.Some? then Served(c.fetched.value)
    else Unavailable
  }

  /** What is served was just fetched or is younger than the lifetime; a failed fetch keeps what was stored. */
  lemma ServedIsFresh(k: Cache, ttl: real, c: Call)
    ensures match Answer(k, ttl, c)
            case Served(document) =>
              || c.fetched == Some(document)
              || (k.jwks.Some? && document == k.jwks.value.document && c.t.checkedAt - k.jwks.value.at < ttl)
            case Unavailable => c.fetched.None? && After(k, ttl, c).jwks == k.jwks
  {}

  /** An answer without a fetch is the cached document, and then a forced refresh was less than an interval ago. */
  lemma CachedKeysAreFresh(k: Cache, ttl: real, c: Call)
    requires !Fetches(k, ttl, c)
    ensures Answer(k, ttl, c).Served? && k.jwks == Some(Stored(k.jwks.value.at, Answer(k, ttl, c).document))
    ensures c.t.checkedAt - k.jwks.value.at < ttl
    ensures !c.force || c.t.allowedAt - k.lastForced.value < INTERVAL
  {}

  // ----- runs -----

  /** The clock never goes back, within a section and from one to the next. */
  ghost predicate Timely(calls: seq<Call>) {
    && (forall i :: 0 <= i < |calls| ==> calls[i].t.Ordered())
    && (forall i, j :: 0 <= i < j < |calls| ==> calls[i].t.storedAt <= calls[j].t.allowedAt)
  }

  const INITIAL := Cache(None, None)

  function State(ttl: real, calls: seq<Call>): Cache {
    if calls == [] then INITIAL
    else After(State(ttl, calls[..|calls| - 1]), ttl, calls[|calls| - 1])
  }

  /** When a section's fetch begins. */
  function Began(c: Call): real {
    c.t.forcedAt
  }

  /** When the fetches of stale keys began, in order. */
  function StaleTimes(ttl: real, calls: seq<Call>): seq<real> {
    if calls == [] then []
    else
      var before, last := calls[..|calls| - 1], calls[|calls| - 1];
      StaleTimes(ttl, before) + if Stale(State(ttl, before), ttl, last) then [Began(last)] else []
  }

  /** When the fetches of keys still fresh began, in order. */
  function ForcedTimes(ttl: real, calls: seq<Call>): seq<real> {
    if calls == [] then []
    else
      var before, last := calls[..|calls| - 1], calls[|calls| - 1];
      ForcedTimes(ttl, before) + if Forced(State(ttl, before), ttl, last) then [Began(last)] else []
  }

  /** How many sections fetched in a window of time. */
  function FetchesIn(ttl: real, calls: seq<Call>, lo: real, hi: real): nat {
    if calls == [] then 0
    else
      var before, last := calls[..|calls| - 1], calls[|calls| - 1];
      FetchesIn(ttl, before, lo, hi)
      + if Fetches(State(ttl, before), ttl, last) && lo <= Began(last) <= hi then 1 else 0
  }

  function Within(times: seq<real>, lo: real, hi: real): nat {
    if times == [] then 0
    else Within(times[..|times| - 1], lo, hi) + if lo <= times[|times| - 1] <= hi then 1 else 0
  }

  /** Every time is at least the gap after the one before. */
  ghost predicate Spaced(times: seq<real>, gap: real) {
    forall i :: 0 <= i < |times| - 1 ==> times[i] + gap <= times[i + 1]
  }

  // ----- spacing -----

  predicate NotAfter(times: seq<real>, bound: Option<real>) {
    times != [] ==> bound.Some? && times[|times| - 1] <= bound.value
  }

  function FetchedAt(k: Cache): Option<real> {
    match k.jwks case Some(stored) => Some(stored.at) case None => None
  }

  lemma EarlierCalls(calls: seq<Call>)
    requires Timely(calls) && calls != []
    ensures Timely(calls[..|calls| - 1]) && calls[|calls| - 1].t.Ordered()
    ensures forall i :: 0 <= i < |calls| - 1 ==> calls[i].t.storedAt <= calls[|calls| - 1].t.allowedAt
  {}

  /** What is remembered lies in the past of every later section. */
  lemma {:induction false} StateIsPast(ttl: real, calls: seq<Call>)
    requires Timely(calls)
    ensures calls == [] ==> State(ttl, calls) == INITIAL
    ensures var k := State(ttl, calls);
      && (k.lastForced.Some? ==> calls != [] && k.lastForced.value <= calls[|calls| - 1].t.storedAt)
      && (k.jwks.Some? ==> calls != [] && k.jwks.value.at <= calls[|calls| - 1].t.storedAt)
  {
    if calls != [] {
      EarlierCalls(calls);
      StateIsPast(ttl, calls[..|calls| - 1]);
    }
  }

  lemma SpacedGrows(times: seq<real>, bound: Option<real>, gap: real, next: real)
    requires Spaced(times, gap) && NotAfter(times, bound)
    requires bound.None? || bound.value + gap <= next
    ensures Spaced(times + [next], gap)
  {}

  /** Forced fetches of fresh keys leave the interval between them, whether they bring anything or not. */
  lemma {:induction false} ForcedFetchesAreSpaced(ttl: real, calls: seq<Call>)
    requires Timely(calls)
    ensures Spaced(ForcedTimes(ttl, calls), INTERVAL)
    ensures NotAfter(ForcedTimes(ttl, calls), State(ttl, calls).lastForced)
  {
    if calls != [] {
      var before, last := calls[..|calls| - 1], calls[|calls| - 1];
      EarlierCalls(calls);
      StateIsPast(ttl, before);
      ForcedFetchesAreSpaced(ttl, before);
      var k := State(ttl, before);
      if Forced(k, ttl, last) {
        SpacedGrows(ForcedTimes(ttl, before), k.lastForced, INTERVAL, Began(last));
      }
    }
  }

  /** While fetches succeed, those of stale keys leave the lifetime between them. */
  lemma {:induction false} StaleFetchesAreSpaced(ttl: real, calls: seq<Call>)
    requires Timely(calls) && forall i :: 0 <= i < |calls| ==> calls[i].fetched.Some?
    ensures Spaced(StaleTimes(ttl, calls), ttl)
    ensures NotAfter(StaleTimes(ttl, calls), FetchedAt(State(ttl, calls)))
  {
    if calls != [] {
      var before, last := calls[..|calls| - 1], calls[|calls| - 1];
      EarlierCalls(calls);
      StateIsPast(ttl, before);
      StaleFetchesAreSpaced(ttl, before);
      var k := State(ttl, before);
      if Stale(k, ttl, last) {
        SpacedGrows(StaleTimes(ttl, before), FetchedAt(k), ttl, Began(last));
      }
    }
  }

  // ----- counting -----

  lemma {:induction false} FetchesSplit(ttl: real, calls: seq<Call>, lo: real, hi: real)
    ensures FetchesIn(ttl, calls, lo, hi)
         == Within(ForcedTimes(ttl, calls), lo, hi) + Within(StaleTimes(ttl, calls), lo, hi)
  {
    if calls != [] {
      FetchesSplit(ttl, calls[..|calls| - 1], lo, hi);
      var before, last := calls[..|calls| - 1], calls[|calls| - 1];
      WithinGrows(ForcedTimes(ttl, before), Began(last), lo, hi);
      WithinGrows(StaleTimes(ttl, before), Began(last), lo, hi);
      assert ForcedTimes(ttl, before) + [] == ForcedTimes(ttl, before);
      assert StaleTimes(ttl, before) + [] == StaleTimes(ttl, before);
    }
  }

  lemma WithinGrows(times: seq<real>, next: real, lo: real, hi: real)
    ensures Within(times + [next], lo, hi) == Within(times, lo, hi) + if lo <= next <= hi then 1 else 0
  {
    assert (times + [next])[..|times|] == times;
  }

  lemma {:induction false} SpacedIsSorted(times: seq<real>, gap: real, i: nat)
    requires Spaced(times, gap) && 0.0 <= gap && i < |times|
    ensures times[i] <= times[|times| - 1]
    ensures i < |times| - 1 ==> times[i] + gap <= times[|times| - 1]
  {
    if i < |times| - 1 {
      SpacedIsSorted(times[..|times| - 1], gap, i);
    }
  }

  /** Times that leave a gap between them fit one more than the whole gaps into a window. */
  lemma {:induction false} SpacedFit(times: seq<real>, gap: real, lo: real, hi: real)
    requires Spaced(times, gap) && 0.0 < gap
    ensures Within(times, lo, hi) > 0 ==> Times(Within(times, lo, hi) - 1, gap) <= hi - lo
  {
    if times != [] {
      var before, last := times[..|times| - 1], times[|times| - 1];
      if lo <= last <= hi {
        SpacedFit(before, gap, lo, last - gap);
        forall i | 0 <= i < |before| ensures before[i] <= last - gap {
          SpacedIsSorted(times, gap, i);
        }
        WithinEarlier(before, lo, last - gap, hi);
      } else {
        SpacedFit(before, gap, lo, hi);
      }
    }
  }

  /** Nothing before lies in the window later than the last allowed time. */
  lemma {:induction false} WithinEarlier(times: seq<real>, lo: real, mid: real, hi: real)
    requires mid <= hi && forall i :: 0 <= i < |times| ==> times[i] <= mid
    ensures Within(times, lo, hi) == Within(times, lo, mid)
  {
    if times != [] {
      WithinEarlier(times[..|times| - 1], lo, mid, hi);
    }
  }

  /** A number of whole gaps that fit into a length is at most the length's quotient. */
  lemma WholeGaps(n: nat, gap: real, length: real)
    requires 0.0 < gap && Times(n, gap) <= length
    ensures n <= (length / gap).Floor
  {
    assert n as real <= length / gap;
  }

  /**
   However many unknown key ids arrive, and however calls interleave: while fetches succeed, a window of time
   holds at most one fetch more than its whole intervals, and one more than its whole lifetimes.
   */
  lemma WindowBound(ttl: real, calls: seq<Call>, lo: real, hi: real)
    requires 0.0 < ttl && lo <= hi && Timely(calls) && forall i :: 0 <= i < |calls| ==> calls[i].fetched.Some?
    ensures FetchesIn(ttl, calls, lo, hi) <= ((hi - lo) / INTERVAL).Floor + ((hi - lo) / ttl).Floor + 2
  {
    FetchesSplit(ttl, calls, lo, hi);
    ForcedFetchesAreSpaced(ttl, calls);
    StaleFetchesAreSpaced(ttl, calls);
    AtMost(ForcedTimes(ttl, calls), INTERVAL, lo, hi);
    AtMost(StaleTimes(ttl, calls), ttl, lo, hi);
  }

  lemma AtMost(times: seq<real>, gap: real, lo: real, hi: real)
    requires Spaced(times, gap) && 0.0 < gap && lo <= hi
    ensures Within(times, lo, hi) <= ((hi - lo) / gap).Floor + 1
  {
    SpacedFit(times, gap, lo, hi);
    var n := Within(times, lo, hi);
    WholeGaps(if n == 0 then 0 else n - 1, gap, hi - lo);
  }

  /** The limiter on its own needs no success: refreshes of fresh keys keep to it even when every fetch fails. */
  lemma ForcedBound(ttl: real, calls: seq<Call>, lo: real, hi: real)
    requires lo <= hi && Timely(calls)
    ensures Within(ForcedTimes(ttl, calls), lo, hi) <= ((hi - lo) / INTERVAL).Floor + 1
  {
    ForcedFetchesAreSpaced(ttl, calls);
    AtMost(ForcedTimes(ttl, calls), INTERVAL, lo, hi);
  }

  // ----- metadata -----

  lemma {:induction false} UnforcedNeverForces(ttl: real, calls: seq<Call>)
    requires forall i :: 0 <= i < |calls| ==> !calls[i].force
    ensures ForcedTimes(ttl, calls) == []
  {
    if calls != [] {
      UnforcedNeverForces(ttl, calls[..|calls| - 1]);
    }
  }

  /** The metadata is never forced: while fetches succeed, a window holds one fetch more than its whole lifetimes. */
  lemma MetadataBound(ttl: real, calls: seq<Call>, lo: real, hi: real)
    requires 0.0 < ttl && lo <= hi && Timely(calls)
    requires forall i :: 0 <= i < |calls| ==> !calls[i].force && calls[i].fetched.Some?
    ensures FetchesIn(ttl, calls, lo, hi) <= ((hi - lo) / ttl).Floor + 1
  {
    FetchesSplit(ttl, calls, lo, hi);
    UnforcedNeverForces(ttl, calls);
    StaleFetchesAreSpaced(ttl, calls);
    AtMost(StaleTimes(ttl, calls), ttl, lo, hi);
  }

  // ----- exactly when the limiter fails -----

  /** The state that the i-th section of a run finds. */
  function Found(ttl: real, calls: seq<Call>, i: nat): Cache
    requires i <= |calls|
  {
    State(ttl, calls[..i])
  }

  /** A forced refresh that went through to a fetch. */
  predicate Attempts(ttl: real, calls: seq<Call>, i: nat)
    requires i < |calls|
  {
    calls[i].force && Fetches(Found(ttl, calls, i), ttl, calls[i])
  }

  lemma FoundNext(ttl: real, calls: seq<Call>, i: nat)
    requires i < |calls|
    ensures Found(ttl, calls, i + 1) == After(Found(ttl, calls, i), ttl, calls[i])
  {
    assert calls[..i + 1][..i] == calls[..i];
  }

  /** What the limiter remembers: the latest attempt, with none since. */
  lemma {:induction false} LastAttempt(ttl: real, calls: seq<Call>, i: nat, j: nat)
    requires Timely(calls) && i < j <= |calls| && Attempts(ttl, calls, i)
    ensures Found(ttl, calls, j).lastForced.Some? && Began(calls[i]) <= Found(ttl, calls, j).lastForced.value
  {
    FoundNext(ttl, calls, j - 1);
    if i < j - 1 {
      LastAttempt(ttl, calls, i, j - 1);
      StateIsPast(ttl, calls[..j - 1]);
    }
  }

  /** And what the cache remembers: the latest fetch that brought keys. */
  lemma {:induction false} LastFetch(ttl: real, calls: seq<Call>, i: nat, j: nat)
    requires Timely(calls) && i < j <= |calls| && Brings(ttl, calls, i)
    ensures Found(ttl, calls, j).jwks.Some? && calls[i].t.storedAt <= Found(ttl, calls, j).jwks.value.at
  {
    FoundNext(ttl, calls, j - 1);
    if i < j - 1 {
      LastFetch(ttl, calls, i, j - 1);
      StateIsPast(ttl, calls[..j - 1]);
    }
  }

  predicate Brings(ttl: real, calls: seq<Call>, i: nat)
    requires i < |calls|
  {
    Fetches(Found(ttl, calls, i), ttl, calls[i]) && calls[i].fetched.Some?
  }

  lemma {:induction false} StoredByFetch(ttl: real, calls: seq<Call>, j: nat) returns (i: nat)
    requires j <= |calls| && Found(ttl, calls, j).jwks.Some?
    ensures i < j && Brings(ttl, calls, i)
    ensures Found(ttl, calls, j).jwks.value == Stored(calls[i].t.storedAt, calls[i].fetched.value)
    ensures forall k :: i < k < j ==> !Brings(ttl, calls, k)
  {
    FoundNext(ttl, calls, j - 1);
    if Brings(ttl, calls, j - 1) {
      i := j - 1;
    } else {
      i := StoredByFetch(ttl, calls, j - 1);
    }
  }

  lemma {:induction false} ForcedByAttempt(ttl: real, calls: seq<Call>, j: nat) returns (i: nat)
    requires j <= |calls| && Found(ttl, calls, j).lastForced.Some?
    ensures i < j && Attempts(ttl, calls, i) && calls[i].t.forcedAt == Found(ttl, calls, j).lastForced.value
  {
    FoundNext(ttl, calls, j - 1);
    if Attempts(ttl, calls, j - 1) {
      i := j - 1;
    } else {
      i := ForcedByAttempt(ttl, calls, j - 1);
    }
  }

  /**
   In every run, a call fetches if and only if no fetch within the last lifetime brought keys, or it forces a refresh
   and every earlier attempt at one began at least a minute before.
   */
  lemma FetchesExactly(ttl: real, calls: seq<Call>, j: nat)
    requires Timely(calls) && j < |calls|
    ensures Fetches(Found(ttl, calls, j), ttl, calls[j])
       <==> || (forall i :: 0 <= i < j && Brings(ttl, calls, i) ==> calls[j].t.checkedAt - calls[i].t.storedAt >= ttl)
            || (calls[j].force
                && forall i :: 0 <= i < j && Attempts(ttl, calls, i) ==>
                     calls[j].t.allowedAt - calls[i].t.forcedAt >= 60.0)
  {
    StaleExactly(ttl, calls, j);
    forall i | 0 <= i < j && Attempts(ttl, calls, i)
      ensures Found(ttl, calls, j).lastForced.Some?
              && calls[i].t.forcedAt <= Found(ttl, calls, j).lastForced.value
    {
      LastAttempt(ttl, calls, i, j);
    }
    if Found(ttl, calls, j).lastForced.Some? {
      var i := ForcedByAttempt(ttl, calls, j);
    }
  }

  /**
   In every run, a call is unavailable if and only if it fetches and that brings nothing; otherwise it serves the
   newest keys that any call has brought, its own fetch included.
   */
  lemma ServesTheNewest(ttl: real, calls: seq<Call>, j: nat)
    requires j < |calls|
    ensures var r := Answer(Found(ttl, calls, j), ttl, calls[j]);
            && (r.Unavailable? <==> Fetches(Found(ttl, calls, j), ttl, calls[j]) && calls[j].fetched.None?)
            && (r.Served? ==>
                  exists i :: 0 <= i <= j && Brings(ttl, calls, i) && calls[i].fetched == Some(r.document)
                    && forall k :: i < k <= j ==> !Brings(ttl, calls, k))
  {
    if Answer(Found(ttl, calls, j), ttl, calls[j]).Served? && !Brings(ttl, calls, j) {
      var i := StoredByFetch(ttl, calls, j);
    }
  }

  /** In every run, keys are stale exactly when no fetch within the last lifetime brought any. */
  lemma StaleExactly(ttl: real, calls: seq<Call>, j: nat)
    requires Timely(calls) && j < |calls|
    ensures Stale(Found(ttl, calls, j), ttl, calls[j])
       <==> forall i :: 0 <= i < j && Brings(ttl, calls, i) ==> calls[j].t.checkedAt - calls[i].t.storedAt >= ttl
  {
    forall i | 0 <= i < j && Brings(ttl, calls, i)
      ensures Stale(Found(ttl, calls, j), ttl, calls[j]) ==> calls[j].t.checkedAt - calls[i].t.storedAt >= ttl
    {
      LastFetch(ttl, calls, i, j);
    }
    if Found(ttl, calls, j).jwks.Some? {
      var i := StoredByFetch(ttl, calls, j);
    }
  }

  /** The limiter has not elapsed at some section if an attempt began less than an interval before it. */
  predicate Limited(ttl: real, calls: seq<Call>, j: nat)
    requires j < |calls|
  {
    exists i :: 0 <= i < j && Attempts(ttl, calls, i) && calls[j].t.allowedAt - Began(calls[i]) < INTERVAL
  }

  /**
   In every run, whether fetches succeed or not: a forced call within an interval of an earlier attempt, fresh or
   stale, fetches all the same if and only if no fetch within the last lifetime brought keys.
   */
  lemma LimiterFailsExactly(ttl: real, calls: seq<Call>, j: nat)
    requires Timely(calls) && j < |calls| && calls[j].force && Limited(ttl, calls, j)
    ensures Attempts(ttl, calls, j)
       <==> forall i :: 0 <= i < j && Brings(ttl, calls, i) ==> calls[j].t.checkedAt - calls[i].t.storedAt >= ttl
  {
    var i :| 0 <= i < j && Attempts(ttl, calls, i) && calls[j].t.allowedAt - Began(calls[i]) < INTERVAL;
    LastAttempt(ttl, calls, i, j);
    StaleExactly(ttl, calls, j);
  }

  /** So an attempt that begins less than an interval after any earlier one met stale keys, ... */
  lemma CloseAttemptMetStaleKeys(ttl: real, calls: seq<Call>, i: nat, j: nat)
    requires Timely(calls) && i < j < |calls| && Attempts(ttl, calls, i) && Attempts(ttl, calls, j)
    requires Began(calls[j]) < Began(calls[i]) + INTERVAL
    ensures Stale(Found(ttl, calls, j), ttl, calls[j])
  {
    LastAttempt(ttl, calls, i, j);
  }

  /** ... and one that met fresh keys leaves the interval after every earlier attempt, fresh or stale. */
  lemma ForcedAttemptsAreSpaced(ttl: real, calls: seq<Call>, i: nat, j: nat)
    requires Timely(calls) && i < j < |calls| && Attempts(ttl, calls, i)
    requires Forced(Found(ttl, calls, j), ttl, calls[j])
    ensures Began(calls[i]) + INTERVAL <= Began(calls[j])
  {
    LastAttempt(ttl, calls, i, j);
  }

  // ----- a run in which it fails -----

  function FailedRefresh(at: real): Call {
    Call(true, Readings(at, at, at, at), None)
  }

  function Outage(at: real, n: nat): (calls: seq<Call>)
    ensures |calls| == n && forall i :: 0 <= i < n ==> calls[i] == FailedRefresh(at)
  {
    if n == 0 then [] else Outage(at, n - 1) + [FailedRefresh(at)]
  }

  /** From any state whose keys are stale, every forced refresh whose fetch fails is followed by another. */
  lemma {:induction false} OutageFetches(ttl: real, start: seq<Call>, at: real, n: nat)
    requires !Fresh(State(ttl, start).jwks, at, ttl)
    ensures State(ttl, start + Outage(at, n)).jwks == State(ttl, start).jwks
    ensures FetchesIn(ttl, start + Outage(at, n), at, at) == FetchesIn(ttl, start, at, at) + n
  {
    if n == 0 {
      assert start + Outage(at, 0) == start;
    } else {
      OutageFetches(ttl, start, at, n - 1);
      assert (start + Outage(at, n))[..|start| + n - 1] == start + Outage(at, n - 1);
    }
  }

  /** With nothing cached, any number of forced refreshes fetch at the same instant. */
  lemma OutageIsUnlimited(ttl: real, at: real, n: nat)
    ensures Timely(Outage(at, n)) && FetchesIn(ttl, Outage(at, n), at, at) == n
  {
    OutageFetches(ttl, [], at, n);
    assert [] + Outage(at, n) == Outage(at, n);
  }

  function Loaded(at: real, document: Document): Call {
    Call(false, Readings(at, at, at, at), Some(document))
  }

  /**
   The token validator forces a refresh only after an unforced call has served it a document without its key. That
   does not help when the keys expire in between: any number of validators that looked at the same fresh document
   shortly before its expiry all fetch at the instant of the expiry, while the fetches fail.
   */
  lemma ExpiryBetweenLooks(ttl: real, at: real, document: Document, look: real, n: nat)
    requires 0.0 < ttl && at <= look < at + ttl
    ensures var calls := [Loaded(at, document)] + Outage(at + ttl, n);
            && Timely(calls)
            && Fresh(Found(ttl, calls, 1).jwks, look, ttl) && Found(ttl, calls, 1).jwks.value.document == document
            && FetchesIn(ttl, calls, at + ttl, at + ttl) == n
  {
    var first := [Loaded(at, document)];
    var calls := first + Outage(at + ttl, n);
    assert calls[..1] == first && first[..0] == [];
    assert State(ttl, []) == INITIAL;
    OutageFetches(ttl, first, at + ttl, n);
  }
}
