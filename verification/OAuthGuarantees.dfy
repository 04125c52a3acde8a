/** The guarantees of the OAuth services, read off the invariant and lifted to runs. */
module OAuthGuarantees {
  import opened Basics
  import opened OAuthRecords
  import opened OAuthTables
  import opened OAuthProtocol
  import opened OAuthInvariant
  import opened OAuthSteps
  import opened OAuthRefreshSteps
  import opened OAuthTheorems

  // ----- refresh families -----

  /** Two requests that rotated the same handle are one request. */
  lemma HandleRotatedAtMostOnce(s: Settings, w: World, p: nat, q: nat)
    requires Inv(s, w) && p in w.ledger.deeds && q in w.ledger.deeds
    requires w.ledger.deeds[p].RotatedHandle? && w.ledger.deeds[q].RotatedHandle?
    requires w.ledger.deeds[p].spent == w.ledger.deeds[q].spent
    ensures p == q
  {
    var l := w.ledger;
    var a, b := l.deeds[p], l.deeds[q];
    assert DeedDone(l, p) && DeedDone(l, q);
    assert Placed(l, a.sessionId, a.generation) && Placed(l, b.sessionId, b.generation);
  }

  ghost function HistoryOf(db: Tables, id: string): set<HistoryKey> {
    set k | k in db.history && db.history[k].sessionId == id
  }

  function SpentKeys(session: Session, chain: seq<Digest>): set<HistoryKey> {
    set g | 0 <= g < |chain| :: HistoryKey(session.facts.issuer, session.facts.client, chain[g])
  }

  lemma {:induction false} SpentKeysCount(session: Session, chain: seq<Digest>)
    requires forall i, j :: 0 <= i < j < |chain| ==> chain[i] != chain[j]
    ensures |SpentKeys(session, chain)| == |chain|
  {
    if |chain| > 0 {
      var n := |chain| - 1;
      SpentKeysCount(session, chain[..n]);
      var last := HistoryKey(session.facts.issuer, session.facts.client, chain[n]);
      assert SpentKeys(session, chain) == SpentKeys(session, chain[..n]) + {last};
      assert last !in SpentKeys(session, chain[..n]);
    }
  }

  /**
   The history of a stored session holds exactly the handles that were current
   once and are no longer, one row for each rotation, and no more of them than
   the configured maximum.
   */
  lemma HistoryIsExact(s: Settings, w: World, id: string)
    requires Inv(s, w) && id in w.db.sessions
    ensures var session := w.db.sessions[id];
            && id in w.ledger.chains && |w.ledger.chains[id]| == session.rotationCount + 1
            && session.tokenHash == w.ledger.chains[id][session.rotationCount]
            && HistoryOf(w.db, id) == SpentKeys(session, w.ledger.chains[id][..session.rotationCount])
            && |HistoryOf(w.db, id)| == session.rotationCount <= s.maxRotations
  {
    var l, session := w.ledger, w.db.sessions[id];
    RowIsHome(s, l, w.db, id);
    assert SessionBorn(s, l, id);
    var spent := l.chains[id][..session.rotationCount];
    forall k | k in HistoryOf(w.db, id) ensures k in SpentKeys(session, spent) {
      assert HistorySound(l, w.db, k);
      PlaceIsReal(s, l, k.tokenHash);
    }
    forall k | k in SpentKeys(session, spent) ensures k in HistoryOf(w.db, id) {
      var g :| 0 <= g < |spent| && k == HistoryKey(session.facts.issuer, session.facts.client, spent[g]);
      assert HistoryComplete(l, w.db, id, g);
    }
    forall i, j | 0 <= i < j < |spent| ensures spent[i] != spent[j] {
      assert Placed(l, id, i) && Placed(l, id, j);
    }
    SpentKeysCount(session, spent);
  }

  /** Replaying any past handle of a live, unexpired session revokes the current successor, and nothing else changes. */
  lemma ReplayRevokesSuccessor(s: Settings, w: World, id: string, g: nat, now: Time)
    requires Inv(s, w) && id in w.db.sessions && id in w.ledger.chains && g < w.db.sessions[id].rotationCount
    requires g < |w.ledger.chains[id]|
    requires w.db.sessions[id].revokedAt.None? && w.db.sessions[id].facts.expiresAt > now
    ensures var session := w.db.sessions[id];
            var a := RevokeReplayed(w.db, s.issuer, w.ledger.chains[id][g], session.facts.client, now);
            && a.answer == Some(session.(revokedAt := Some(now)))
            && a.tables == w.db.(sessions := w.db.sessions[id := Retired(session, now)])
  {
    assert HistoryComplete(w.ledger, w.db, id, g);
    RowIsHome(s, w.ledger, w.db, id);
    assert SessionBorn(s, w.ledger, id);
  }

  /** Every stored cache opens under its own row's context, so a lookup only fails a request for its own reasons. */
  lemma CachesOpenUnderTheirRows(s: Settings, w: World, r: RefreshRequest, now: Time)
    requires Inv(s, w) && FindCurrent(w.db, s.issuer, Sha256(r.handle), r.client, now).Some?
    ensures var snap := FindCurrent(w.db, s.issuer, Sha256(r.handle), r.client, now).value;
            var next := AfterLookup(s, r, snap);
            && (r.scope.Some? && r.scope.value != snap.facts.scope ==> next == RefreshRefused(InvalidScope))
            && (!(r.scope.Some? && r.scope.value != snap.facts.scope) ==>
                  if snap.rotationCount >= s.maxRotations then next == Revoking(snap)
                  else next.AtUpstream? && next.cache != ""
                       && Open(snap.cache, ContextOfSession(snap)) == Some(Cache(next.cache)))
  {
    var snap := FindCurrent(w.db, s.issuer, Sha256(r.handle), r.client, now).value;
    RowIsHome(s, w.ledger, w.db, snap.id);
    assert SessionBorn(s, w.ledger, snap.id);
  }

  /**
   At the swap, whatever has happened since the lookup: a matching hash means
   an unmoved row, so the blob that was sealed for the predicted successor is
   sealed for the actual one.
   */
  lemma SwapSealsTheActualSuccessor(s: Settings, w: World, p: nat, next: string)
    requires Inv(s, w) && p in w.procs && w.procs[p].Refreshing? && w.procs[p].refresh.Swapping?
    ensures var proc := w.procs[p];
            var snap := proc.refresh.snap;
            var a := SwapOf(s, w.db, proc.refreshRequest, proc.now, snap, next, proc.refresh.cache);
            && (snap.id in w.db.sessions && w.db.sessions[snap.id].tokenHash == snap.tokenHash ==>
                  w.db.sessions[snap.id].rotationCount == snap.rotationCount)
            && a.answer != LimitReached
            && (a.answer == Rotated ==>
                  var row := a.tables.sessions[snap.id];
                  row.tokenHash == Sha256(next)
                  && Open(row.cache, ContextOfSession(row)) == Some(Cache(proc.refresh.cache)))
  {
    var proc := w.procs[p];
    var snap := proc.refresh.snap;
    assert ProcInv(s, w.ledger, w.db, p, proc);
    SwapBelowLimit(s, p, w.ledger, w.db, proc, next);
    if snap.id in w.db.sessions && w.db.sessions[snap.id].tokenHash == snap.tokenHash {
      HashMatchMeansUnmoved(s, w.ledger, w.db, proc.refreshRequest, proc.now, snap);
    }
  }

  // ----- outcomes of a refresh request -----

  /**
   A refresh request succeeds exactly when it made a rotation, which spent the
   handle it presented; refused for an invalid grant, the handle belongs to no
   live, unexpired session of its client; refused for any other reason, the
   request made no session write at all.
   */
  lemma RefreshOutcomes(s: Settings, w: World, p: nat)
    requires Inv(s, w) && p in w.procs && w.procs[p].Refreshing?
    ensures var proc, deeds := w.procs[p], w.ledger.deeds;
            var rotated := p in deeds && deeds[p].RotatedHandle?;
            && (proc.refresh.Refreshed? <==> rotated)
            && (rotated ==> deeds[p].spent == Sha256(proc.refreshRequest.handle)
                            && deeds[p].next == Sha256(proc.refresh.handle))
            && (proc.refresh == RefreshRefused(InvalidGrant) ==>
                  Settled(w.ledger, w.db, proc.refreshRequest, proc.now))
            && (proc.refresh.RefreshRefused? && proc.refresh.refusal != InvalidGrant ==> p !in deeds)
  {
    assert ProcInv(s, w.ledger, w.db, p, w.procs[p]);
  }

  /** A handle presented by another client has no effect on its family, whatever happens to the request. */
  lemma ForeignHandleIsHarmless(s: Settings, w: World, p: nat)
    requires Inv(s, w) && p in w.procs && w.procs[p].Refreshing?
    requires var home := Home(w.ledger, Sha256(w.procs[p].refreshRequest.handle));
             home.Some? ==> home.value.id in w.ledger.sessions
                            && w.ledger.sessions[home.value.id].facts.client != w.procs[p].refreshRequest.client
    ensures p !in w.ledger.deeds && !w.procs[p].refresh.Refreshed?
  {
    assert ProcInv(s, w.ledger, w.db, p, w.procs[p]);
  }

  // ----- deeds are exactly the session writes -----

  /** How a surviving row may differ after a step: by the one deed of the process that moved. */
  ghost predicate WrittenBy(w: World, w': World, p: nat, id: string)
    requires id in w.db.sessions && id in w'.db.sessions
  {
    var row, row' := w.db.sessions[id], w'.db.sessions[id];
    && p in w.procs && w.procs[p].Refreshing? && p !in w.ledger.deeds && p in w'.ledger.deeds
    && row.revokedAt.None?
    && match w'.ledger.deeds[p]
       case RotatedHandle(sid, g, spent, next) =>
         && sid == id && g == row.rotationCount && spent == row.tokenHash && next == row'.tokenHash
         && row'.facts == row.facts && row'.rotationCount == row.rotationCount + 1 && row'.revokedAt.None?
       case RevokedSession(sid) => sid == id && row' == Retired(row, w.procs[p].now)
       case _ => false
  }

  /** Which row a compare-and-swap with its sweep may change, and how. */
  lemma RotateChanges(t: Tables, issuer: string, id: string, client: string, current: Digest, next: Digest,
                      cache: Blob, max: nat, now: Time, other: string)
    requires other in t.sessions
    ensures var a := Rotate(t, issuer, id, client, current, next, cache, max, now);
            other in a.tables.sessions && a.tables.sessions[other] != t.sessions[other] && a.answer != LimitReached ==>
              other == id && a.answer == Rotated
              && t.sessions[id].revokedAt.None? && t.sessions[id].tokenHash == current
              && a.tables.sessions[id] == Succeeded(t.sessions[id], next, cache, now)
  {}

  lemma SwapWrites(s: Settings, w: World, p: nat, f: Fate, id: string)
    requires Inv(s, w) && p in w.procs && FateAllowed(w, f)
    requires w.procs[p].Refreshing? && w.procs[p].refresh.Swapping? && !f.storeFails
    requires id in w.db.sessions
    ensures var x := Move(s, w, p, f);
            id in x.db.sessions && x.db.sessions[id] != w.db.sessions[id] ==>
              && p !in w.ledger.deeds && p in x.ledger.deeds && w.db.sessions[id].revokedAt.None?
              && x.ledger.deeds[p] == RotatedHandle(id, w.db.sessions[id].rotationCount, w.db.sessions[id].tokenHash,
                                                    x.db.sessions[id].tokenHash)
              && x.db.sessions[id].facts == w.db.sessions[id].facts && x.db.sessions[id].revokedAt.None?
              && x.db.sessions[id].rotationCount == w.db.sessions[id].rotationCount + 1
  {
    var proc := w.procs[p];
    assert ProcInv(s, w.ledger, w.db, p, proc);
    SwapBelowLimit(s, p, w.ledger, w.db, proc, f.first);
    var r, snap := proc.refreshRequest, proc.refresh.snap;
    if snap.id in w.db.sessions && w.db.sessions[snap.id].tokenHash == snap.tokenHash {
      HashMatchMeansUnmoved(s, w.ledger, w.db, r, proc.now, snap);
    }
    RotateChanges(w.db, s.issuer, snap.id, snap.facts.client, Sha256(r.handle), Sha256(f.first),
                  Resealed(snap, Sha256(f.first), proc.refresh.cache), s.maxRotations, proc.now, id);
  }

  lemma RevocationWrites(s: Settings, w: World, p: nat, f: Fate, id: string)
    requires Inv(s, w) && p in w.procs && !f.storeFails
    requires w.procs[p].Refreshing? && (w.procs[p].refresh.Revoking? || w.procs[p].refresh.Committing?)
    requires id in w.db.sessions
    ensures var x := Move(s, w, p, f);
            id in x.db.sessions && x.db.sessions[id] != w.db.sessions[id] ==>
              && p !in w.ledger.deeds && p in x.ledger.deeds && w.db.sessions[id].revokedAt.None?
              && x.ledger.deeds[p] == RevokedSession(id)
              && x.db.sessions[id] == Retired(w.db.sessions[id], w.procs[p].now)
  {
    var proc := w.procs[p];
    assert ProcInv(s, w.ledger, w.db, p, proc);
    if proc.refresh.Committing? && FindReplayed(w.db, s.issuer, Sha256(proc.refreshRequest.handle),
                                                proc.refreshRequest.client, proc.now).Some? {
      FoundIsHome(s, w.ledger, w.db, proc.refreshRequest, proc.now);
    }
  }

  lemma ReadingWritesNothing(s: Settings, w: World, p: nat, f: Fate)
    requires p in w.procs && w.procs[p].Refreshing?
    requires f.storeFails
             || !(w.procs[p].refresh.Swapping? || w.procs[p].refresh.Revoking? || w.procs[p].refresh.Committing?)
    ensures Move(s, w, p, f).db == w.db
  {}

  ghost predicate KeepsRow(t: Tables, u: Tables, id: string) {
    id in t.sessions && id in u.sessions ==> u.sessions[id] == t.sessions[id]
  }

  lemma TransactionKeepsRow(t: Tables, tx: Transaction, id: string)
    ensures KeepsRow(t, CreateTransaction(t, tx).tables, id)
  {}

  lemma CodeKeepsRow(t: Tables, code: AuthCode, id: string)
    ensures KeepsRow(t, CreateCode(t, code).tables, id)
  {}

  lemma SessionKeepsRow(t: Tables, session: Session, id: string)
    requires session.id != id
    ensures KeepsRow(t, CreateSession(t, session).tables, id)
  {}

  lemma AuthorizeWritesNoRow(s: Settings, w: World, p: nat, proc: Proc, f: Fate, id: string)
    requires proc.Authorizing?
    ensures KeepsRow(w.db, AdvanceAuthorize(s, w, p, proc, f).db, id)
  {
    if proc.authorize.Storing? {
      TransactionKeepsRow(w.db, NewTransaction(s, proc.terms, proc.clientState, f.first, f.second, proc.authorize.flow,
                                               proc.authorize.now), id);
    }
  }

  lemma CompleteWritesNoRow(s: Settings, w: World, p: nat, proc: Proc, f: Fate, id: string)
    requires proc.Completing?
    ensures KeepsRow(w.db, AdvanceComplete(s, w, p, proc, f).db, id)
  {
    if proc.complete.Issuing? {
      CodeKeepsRow(w.db,
                   NewCode(s, proc.complete.tx, proc.complete.owner, f.first, proc.complete.bundle, proc.complete.now),
                   id);
    }
  }

  lemma ExchangeWritesNoRow(s: Settings, w: World, p: nat, proc: Proc, f: Fate, id: string)
    requires proc.Exchanging? && id != f.second
    ensures KeepsRow(w.db, AdvanceExchange(s, w, p, proc, f).db, id)
  {
    if proc.exchange.Opening? {
      SessionKeepsRow(w.db, NewSession(s, proc.exchange.code, f.second, f.first, f.third, proc.exchange.cache,
                                       proc.exchange.now), id);
    }
  }

  lemma GrantsWriteNoRow(s: Settings, w: World, p: nat, f: Fate, id: string)
    requires Inv(s, w) && p in w.procs && FateAllowed(w, f) && !w.procs[p].Refreshing? && id in w.db.sessions
    ensures KeepsRow(w.db, Move(s, w, p, f).db, id)
  {
    RowIsHome(s, w.ledger, w.db, id);
    assert SessionBorn(s, w.ledger, id);
    match w.procs[p]
    case Authorizing(_, _, _) => AuthorizeWritesNoRow(s, w, p, w.procs[p], f, id);
    case Completing(_, _, _) => CompleteWritesNoRow(s, w, p, w.procs[p], f, id);
    case Exchanging(_, _) => ExchangeWritesNoRow(s, w, p, w.procs[p], f, id);
  }

  /**
   A stored session row changes only by the one deed of a refresh request: it
   is rotated from a live row to its successor, or revoked. So the deeds that
   the outcomes speak of are all the session writes there are.
   */
  lemma SessionWritesAreDeeds(s: Settings, w: World, e: Event, id: string)
    requires Inv(s, w) && Enabled(w, e)
    requires id in w.db.sessions && id in Apply(s, w, e).db.sessions
    requires Apply(s, w, e).db.sessions[id] != w.db.sessions[id]
    ensures e.Advance? && WrittenBy(w, Apply(s, w, e), e.p, id)
  {
    if e.Advance? {
      var proc := w.procs[e.p];
      if !proc.Refreshing? {
        GrantsWriteNoRow(s, w, e.p, e.fate, id);
      } else if proc.refresh.Swapping? && !e.fate.storeFails {
        SwapWrites(s, w, e.p, e.fate, id);
      } else if (proc.refresh.Revoking? || proc.refresh.Committing?) && !e.fate.storeFails {
        RevocationWrites(s, w, e.p, e.fate, id);
      } else {
        ReadingWritesNothing(s, w, e.p, e.fate);
      }
    }
  }

  // ----- dead families stay dead -----

  /** A family grows only by a swap of its live row. */
  lemma DeadStepStaysDead(s: Settings, w: World, e: Event, id: string)
    requires Inv(s, w) && Enabled(w, e)
    requires id in w.ledger.sessions && Dead(w.db, id)
    ensures var w' := Apply(s, w, e);
            id in w'.ledger.sessions && Dead(w'.db, id) && Chain(w'.ledger, id) == Chain(w.ledger, id)
  {
    if e.Advance? {
      MoveKeepsOrder(s, w, e.p, e.fate);
    }
  }

  /** Once a session is revoked or gone, it stays so, and no handle of its family is rotated ever again. */
  lemma {:induction false} DeadFamiliesStayDead(s: Settings, run: seq<World>, events: seq<Event>, i: nat, j: nat,
                                                id: string)
    requires Run(s, run, events) && i <= j < |run|
    requires id in run[i].ledger.sessions && Dead(run[i].db, id)
    ensures id in run[j].ledger.sessions && Dead(run[j].db, id)
    ensures Chain(run[j].ledger, id) == Chain(run[i].ledger, id)
  {
    if i < j {
      DeadFamiliesStayDead(s, run, events, i, j - 1, id);
      EveryRunIsSafe(s, run, events, j - 1);
      assert Follows(s, run, events, j - 1);
      DeadStepStaysDead(s, run[j - 1], events[j - 1], id);
    }
  }

  // ----- the loser of a race kills the family -----

  /** What a refresh request and the place of its handle look like later on. */
  ghost predicate Later(w: World, w': World, p: nat) {
    && p in w.procs && p in w'.procs && w.procs[p].Refreshing? && SameRequest(w.procs[p], w'.procs[p])
    && var hash := Sha256(w.procs[p].refreshRequest.handle);
       Home(w.ledger, hash).Some? ==>
         && Home(w'.ledger, hash) == Home(w.ledger, hash)
         && var id := Home(w.ledger, hash).value.id;
            id in w.ledger.sessions ==> id in w'.ledger.sessions && w'.ledger.sessions[id] == w.ledger.sessions[id]
  }

  lemma EffectIsLater(s: Settings, w: World, q: nat, x: Effect, drawn: set<string>, p: nat)
    requires q in w.procs && EffectOk(s, w.ledger, w.db, q, w.procs[q], x, drawn)
    requires DrawersActed(w.ledger) && p in w.procs && w.procs[p].Refreshing?
    ensures Later(w, w.(db := x.db, ledger := x.ledger, procs := w.procs[q := x.proc]), p)
  {}

  lemma StepIsLater(s: Settings, w: World, e: Event, p: nat)
    requires Inv(s, w) && Enabled(w, e) && p in w.procs && w.procs[p].Refreshing?
    ensures Later(w, Apply(s, w, e), p)
  {
    if e.Advance? {
      MoveKeepsOrder(s, w, e.p, e.fate);
      EffectIsLater(s, w, e.p, Move(s, w, e.p, e.fate), {e.fate.first, e.fate.second, e.fate.third}, p);
    }
  }

  lemma {:induction false} RunIsLater(s: Settings, run: seq<World>, events: seq<Event>, i: nat, j: nat, p: nat)
    requires Run(s, run, events) && i <= j < |run|
    requires p in run[i].procs && run[i].procs[p].Refreshing?
    ensures Later(run[i], run[j], p)
  {
    if i < j {
      RunIsLater(s, run, events, i, j - 1, p);
      EveryRunIsSafe(s, run, events, j - 1);
      assert Later(run[j - 1], run[j], p) by {
        assert Follows(s, run, events, j - 1);
        StepIsLater(s, run[j - 1], events[j - 1], p);
      }
    }
  }

  predicate HoldsSnapshot(stage: RefreshStage) {
    stage.AtUpstream? || stage.Swapping? || stage.Revoking?
  }

  /**
   A request that saw its session live and was then refused for an invalid
   grant, whether by its own revocation or because it lost the swap, leaves the
   session revoked or gone, at once and for the rest of the run, and no handle
   of the family is rotated from then on.
   */
  lemma LoserKillsTheFamily(s: Settings, run: seq<World>, events: seq<Event>, i: nat, j: nat, k: nat, p: nat)
    requires Run(s, run, events) && i <= j <= k < |run|
    requires p in run[i].procs && run[i].procs[p].Refreshing? && HoldsSnapshot(run[i].procs[p].refresh)
    requires p in run[j].procs && run[j].procs[p].Refreshing?
    requires run[j].procs[p].refresh == RefreshRefused(InvalidGrant)
    ensures var id := run[i].procs[p].refresh.snap.id;
            Dead(run[k].db, id) && Chain(run[k].ledger, id) == Chain(run[j].ledger, id)
  {
    var id := run[i].procs[p].refresh.snap.id;
    assert Home(run[i].ledger, Sha256(run[i].procs[p].refreshRequest.handle)).Some?
           && SnapshotInv(run[i].ledger, run[i].procs[p].refreshRequest, run[i].procs[p].now,
                          run[i].procs[p].refresh.snap)
    by {
      EveryRunIsSafe(s, run, events, i);
      assert ProcInv(s, run[i].ledger, run[i].db, p, run[i].procs[p]);
    }
    RunIsLater(s, run, events, i, j, p);
    assert Settled(run[j].ledger, run[j].db, run[j].procs[p].refreshRequest, run[j].procs[p].now) by {
      EveryRunIsSafe(s, run, events, j);
      assert ProcInv(s, run[j].ledger, run[j].db, p, run[j].procs[p]);
    }
    DeadFamiliesStayDead(s, run, events, j, k, id);
  }
}
