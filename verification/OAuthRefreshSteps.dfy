/**
 The refresh request, stage by stage: what its snapshot still means when it
 acts, and that each of its steps keeps every invariant.
 */
module OAuthRefreshSteps {
  import opened Basics
  import opened OAuthRecords
  import opened OAuthTables
  import opened OAuthProtocol
  import opened OAuthInvariant
  import opened OAuthSteps

  // ----- what the tables say about a presented handle -----

  /** A stored row's current handle has its home in that row, at its own rotation count. */
  lemma RowIsHome(s: Settings, l: Ledger, db: Tables, id: string)
    requires LedgerInv(s, l) && TablesInv(l, db) && id in db.sessions
    ensures SessionRow(l, id, db.sessions[id])
    ensures Home(l, db.sessions[id].tokenHash) == Some(Place(id, db.sessions[id].rotationCount))
  {
    assert SessionRow(l, id, db.sessions[id]);
    assert Placed(l, id, db.sessions[id].rotationCount);
  }

  /** No ABA: if the hash still matches, nothing happened to the row since the snapshot that the swap depends on. */
  lemma HashMatchMeansUnmoved(s: Settings, l: Ledger, db: Tables, r: RefreshRequest, now: Time, snap: Session)
    requires LedgerInv(s, l) && TablesInv(l, db) && SnapshotInv(l, r, now, snap)
    requires snap.id in db.sessions && db.sessions[snap.id].tokenHash == Sha256(r.handle)
    ensures db.sessions[snap.id].rotationCount == snap.rotationCount
    ensures db.sessions[snap.id].facts == snap.facts
    ensures snap.id in l.chains && |l.chains[snap.id]| == snap.rotationCount + 1
    ensures l.chains[snap.id][snap.rotationCount] == snap.tokenHash
  {
    RowIsHome(s, l, db, snap.id);
  }

  /** If the handle does not select the row of its home, then it is superseded. */
  lemma UnselectedIsSuperseded(s: Settings, l: Ledger, db: Tables, r: RefreshRequest, now: Time)
    requires LedgerInv(s, l) && TablesInv(l, db)
    requires Home(l, Sha256(r.handle)).Some? ==>
               var id := Home(l, Sha256(r.handle)).value.id;
               id in db.sessions ==> !Current(db.sessions[id], s.issuer, r.client, Sha256(r.handle), now)
    ensures Superseded(l, db, r, now)
  {
    var hash := Sha256(r.handle);
    match Home(l, hash)
    case None =>
    case Some(Place(id, g)) =>
      PlaceIsReal(s, l, hash);
      if id in db.sessions {
        RowIsHome(s, l, db, id);
        assert SessionBorn(s, l, id);
      }
  }

  /** A superseded handle that no replay query finds is settled. */
  lemma UnfoundIsSettled(s: Settings, l: Ledger, db: Tables, r: RefreshRequest, now: Time)
    requires LedgerInv(s, l) && TablesInv(l, db) && Superseded(l, db, r, now)
    requires FindReplayed(db, s.issuer, Sha256(r.handle), r.client, now).None?
    ensures Settled(l, db, r, now)
  {
    var hash := Sha256(r.handle);
    match Home(l, hash)
    case None =>
    case Some(Place(id, g)) =>
      PlaceIsReal(s, l, hash);
      if id in db.sessions && g + 1 < |l.chains[id]| {
        RowIsHome(s, l, db, id);
        assert SessionBorn(s, l, id);
        assert HistoryComplete(l, db, id, g);
      }
  }

  /** What a replay query finds is the home of the handle, and belongs to the asking client. */
  lemma FoundIsHome(s: Settings, l: Ledger, db: Tables, r: RefreshRequest, now: Time)
    requires LedgerInv(s, l) && TablesInv(l, db)
    requires FindReplayed(db, s.issuer, Sha256(r.handle), r.client, now).Some?
    ensures var row := FindReplayed(db, s.issuer, Sha256(r.handle), r.client, now).value;
            row.id in db.sessions && db.sessions[row.id] == row && OwnFamily(l, r, row.id)
  {
    var k := HistoryKey(s.issuer, r.client, Sha256(r.handle));
    assert HistorySound(l, db, k);
    RowIsHome(s, l, db, db.history[k].sessionId);
  }

  lemma LookupSnapshot(s: Settings, l: Ledger, db: Tables, r: RefreshRequest, now: Time)
    requires LedgerInv(s, l) && TablesInv(l, db)
    requires FindCurrent(db, s.issuer, Sha256(r.handle), r.client, now).Some?
    ensures SnapshotInv(l, r, now, FindCurrent(db, s.issuer, Sha256(r.handle), r.client, now).value)
  {
    RowIsHome(s, l, db, FindCurrent(db, s.issuer, Sha256(r.handle), r.client, now).value.id);
  }

  // ----- the swap -----

  ghost function SwapOf(s: Settings, db: Tables, r: RefreshRequest, now: Time, snap: Session, next: string,
                        cache: string)
    : After<RotateAnswer>
  {
    Swap(db, s.issuer, snap.id, snap.facts.client, Sha256(r.handle), Sha256(next),
         Resealed(snap, Sha256(next), cache), s.maxRotations, now)
  }

  lemma SwapKeepsHistorySound(s: Settings, p: nat, l: Ledger, db: Tables, r: RefreshRequest, now: Time, snap: Session,
                              next: string, cache: string, k: HistoryKey)
    requires LedgerInv(s, l) && TablesInv(l, db) && SnapshotInv(l, r, now, snap)
    requires next !in l.issued && Grows(p, l, RecordRotation(l, p, snap, next))
    requires SwapOf(s, db, r, now, snap, next, cache).answer == Rotated
    requires k in SwapOf(s, db, r, now, snap, next, cache).tables.history
    ensures HistorySound(RecordRotation(l, p, snap, next), SwapOf(s, db, r, now, snap, next, cache).tables, k)
  {
    var l' := RecordRotation(l, p, snap, next);
    HashMatchMeansUnmoved(s, l, db, r, now, snap);
    HomeIsStable(p, l, l', Sha256(r.handle));
    if k in db.history {
      assert HistorySound(l, db, k);
      HomeIsStable(p, l, l', k.tokenHash);
    }
  }

  lemma SwapKeepsHistoryComplete(s: Settings, p: nat, l: Ledger, db: Tables, r: RefreshRequest, now: Time,
                                 snap: Session, next: string, cache: string, id: string, g: nat)
    requires LedgerInv(s, l) && TablesInv(l, db) && SnapshotInv(l, r, now, snap)
    requires SwapOf(s, db, r, now, snap, next, cache).answer == Rotated
    requires id in db.sessions && g < SwapOf(s, db, r, now, snap, next, cache).tables.sessions[id].rotationCount
    requires id in l.chains && g < |RecordRotation(l, p, snap, next).chains[id]|
    ensures HistoryComplete(RecordRotation(l, p, snap, next), SwapOf(s, db, r, now, snap, next, cache).tables, id, g)
  {
    HashMatchMeansUnmoved(s, l, db, r, now, snap);
    RowIsHome(s, l, db, id);
    if id != snap.id || g != snap.rotationCount {
      assert HistoryComplete(l, db, id, g);
    }
  }

  lemma SwapKeepsHistory(s: Settings, p: nat, l: Ledger, db: Tables, r: RefreshRequest, now: Time, snap: Session,
                         next: string, cache: string)
    requires LedgerInv(s, l) && TablesInv(l, db) && SnapshotInv(l, r, now, snap)
    requires next !in l.issued && Grows(p, l, RecordRotation(l, p, snap, next))
    requires SwapOf(s, db, r, now, snap, next, cache).answer == Rotated
    ensures HistoryInv(RecordRotation(l, p, snap, next), SwapOf(s, db, r, now, snap, next, cache).tables)
  {
    var l' := RecordRotation(l, p, snap, next);
    var db' := SwapOf(s, db, r, now, snap, next, cache).tables;
    forall k | k in db'.history ensures HistorySound(l', db', k) {
      SwapKeepsHistorySound(s, p, l, db, r, now, snap, next, cache, k);
    }
    forall id, g | id in db'.sessions && id in l'.chains
                   && 0 <= g < db'.sessions[id].rotationCount && g < |l'.chains[id]|
      ensures HistoryComplete(l', db', id, g)
    {
      RowIsHome(s, l, db, id);
      SwapKeepsHistoryComplete(s, p, l, db, r, now, snap, next, cache, id, g);
    }
  }

  /** The swapped row is the next link of its chain, sealed as itself. */
  lemma SwappedRow(s: Settings, p: nat, l: Ledger, db: Tables, r: RefreshRequest, now: Time, snap: Session,
                   next: string, cache: string)
    requires LedgerInv(s, l) && TablesInv(l, db) && SnapshotInv(l, r, now, snap) && cache != ""
    requires SwapOf(s, db, r, now, snap, next, cache).answer == Rotated
    ensures var db' := SwapOf(s, db, r, now, snap, next, cache).tables;
            && snap.id in db.sessions && db'.sessions.Keys == db.sessions.Keys
            && (forall id <- db.sessions :: id != snap.id ==> db'.sessions[id] == db.sessions[id])
            && db'.transactions == db.transactions && db'.codes == db.codes
            && SessionRow(RecordRotation(l, p, snap, next), snap.id, db'.sessions[snap.id])
  {
    HashMatchMeansUnmoved(s, l, db, r, now, snap);
  }

  lemma SwappedStillFades(s: Settings, l: Ledger, db: Tables, r: RefreshRequest, now: Time, snap: Session,
                          next: string, cache: string)
    requires SwapOf(s, db, r, now, snap, next, cache).answer == Rotated
    ensures Fades(l, db, SwapOf(s, db, r, now, snap, next, cache).tables)
  {}

  lemma HandleSwapped(s: Settings, p: nat, l: Ledger, db: Tables, r: RefreshRequest, now: Time, snap: Session,
                      next: string, cache: string)
    requires LedgerInv(s, l) && TablesInv(l, db) && SnapshotInv(l, r, now, snap) && cache != ""
    requires next !in l.issued && Grows(p, l, RecordRotation(l, p, snap, next))
    requires SwapOf(s, db, r, now, snap, next, cache).answer == Rotated
    ensures TablesInv(RecordRotation(l, p, snap, next), SwapOf(s, db, r, now, snap, next, cache).tables)
  {
    SwappedRow(s, p, l, db, r, now, snap, next, cache);
    SwapKeepsHistory(s, p, l, db, r, now, snap, next, cache);
    SwapKeepsSchema(db, s.issuer, snap.id, snap.facts.client, Sha256(r.handle), Sha256(next),
                    Resealed(snap, Sha256(next), cache), s.maxRotations, now);
    ChangedSessionStands(p, l, db, RecordRotation(l, p, snap, next), SwapOf(s, db, r, now, snap, next, cache).tables,
                     snap.id);
  }

  // ----- the stages -----

  lemma LookedUp(s: Settings, l: Ledger, db: Tables, p: nat, r: RefreshRequest, now: Time)
    requires LedgerInv(s, l) && TablesInv(l, db) && p !in l.deeds
    ensures match FindCurrent(db, s.issuer, Sha256(r.handle), r.client, now)
            case None => Superseded(l, db, r, now)
            case Some(snap) => RefreshInv(s, l, db, p, Refreshing(r, now, AfterLookup(s, r, snap)))
  {
    match FindCurrent(db, s.issuer, Sha256(r.handle), r.client, now)
    case None => UnselectedIsSuperseded(s, l, db, r, now);
    case Some(snap) => LookupSnapshot(s, l, db, r, now);
  }

  /** Whoever revokes the family of its own handle may answer that the grant is invalid. */
  lemma FamilyRevoked(s: Settings, l: Ledger, db: Tables, p: nat, proc: Proc, id: string)
    requires LedgerInv(s, l) && TablesInv(l, db) && p !in l.deeds
    requires proc.Refreshing? && id in db.sessions && OwnFamily(l, proc.refreshRequest, id)
    ensures EffectOk(s, l, db, p, proc,
                     Effect(db.(sessions := db.sessions[id := Retired(db.sessions[id], proc.now)]),
                            RecordRevocation(l, p, id), proc.(refresh := RefreshRefused(InvalidGrant))), {})
  {
    SessionRetired(p, l, db, id, proc.now);
    RevocationRecorded(s, p, l, id);
    HomeIsStable(p, l, RecordRevocation(l, p, id), Sha256(proc.refreshRequest.handle));
  }

  lemma RotationStands(s: Settings, p: nat, l: Ledger, db: Tables, r: RefreshRequest, now: Time, snap: Session,
                       next: string, cache: string)
    requires LedgerInv(s, l) && TablesInv(l, db) && SnapshotInv(l, r, now, snap)
    requires cache != "" && snap.rotationCount < s.maxRotations
    requires p !in l.deeds && next !in l.issued && TokenShaped(next)
    requires SwapOf(s, db, r, now, snap, next, cache).answer == Rotated
    ensures var db' := Reclaim(SwapOf(s, db, r, now, snap, next, cache).tables, now);
            var l' := RecordRotation(l, p, snap, next);
            LedgerInv(s, l') && TablesInv(l', db') && Grows(p, l, l') && Fades(l, db, db') && Freezes(l, db, l')
  {
    HashMatchMeansUnmoved(s, l, db, r, now, snap);
    RotationRecorded(s, p, l, snap, next);
    HandleSwapped(s, p, l, db, r, now, snap, next, cache);
    SwappedStillFades(s, l, db, r, now, snap, next, cache);
    ReclaimKeepsTables(RecordRotation(l, p, snap, next), SwapOf(s, db, r, now, snap, next, cache).tables, now);
  }

  lemma WinnerInv(s: Settings, p: nat, l: Ledger, db': Tables, r: RefreshRequest, now: Time, snap: Session,
                  next: string, tokens: Tokens)
    requires DrawersActed(l) && SnapshotInv(l, r, now, snap)
    requires Grows(p, l, RecordRotation(l, p, snap, next)) && next != r.handle
    ensures RefreshInv(s, RecordRotation(l, p, snap, next), db', p, Refreshing(r, now, Refreshed(tokens, next)))
  {
    HomeIsStable(p, l, RecordRotation(l, p, snap, next), Sha256(r.handle));
  }

  /** The winner's effect, put together. */
  lemma WinnerIsOk(s: Settings, p: nat, l: Ledger, db: Tables, db': Tables, proc: Proc, snap: Session, next: string,
                   tokens: Tokens)
    requires proc.Refreshing? && DrawersActed(l) && SnapshotInv(l, proc.refreshRequest, proc.now, snap)
    requires next != proc.refreshRequest.handle
    requires var l' := RecordRotation(l, p, snap, next);
             LedgerInv(s, l') && TablesInv(l', db') && Grows(p, l, l') && Fades(l, db, db') && Freezes(l, db, l')
    ensures EffectOk(s, l, db, p, proc,
                     Effect(db', RecordRotation(l, p, snap, next), proc.(refresh := Refreshed(tokens, next))), {next})
  {
    WinnerInv(s, p, l, db', proc.refreshRequest, proc.now, snap, next, tokens);
  }

  lemma HandleRotated(s: Settings, p: nat, l: Ledger, db: Tables, r: RefreshRequest, now: Time, snap: Session,
                      next: string, cache: string, tokens: Tokens)
    requires LedgerInv(s, l) && TablesInv(l, db) && SnapshotInv(l, r, now, snap)
    requires cache != "" && snap.rotationCount < s.maxRotations
    requires p !in l.deeds && next !in l.issued && TokenShaped(next) && next != r.handle
    requires SwapOf(s, db, r, now, snap, next, cache).answer == Rotated
    ensures EffectOk(s, l, db, p, Refreshing(r, now, Swapping(snap, tokens, cache)),
                     Effect(Reclaim(SwapOf(s, db, r, now, snap, next, cache).tables, now),
                            RecordRotation(l, p, snap, next), Refreshing(r, now, Refreshed(tokens, next))), {next})
  {
    RotationStands(s, p, l, db, r, now, snap, next, cache);
    WinnerIsOk(s, p, l, db, Reclaim(SwapOf(s, db, r, now, snap, next, cache).tables, now),
               Refreshing(r, now, Swapping(snap, tokens, cache)), snap, next, tokens);
  }

  /** At the swap the limit is never the reason: the snapshot was below it, and the row has not moved. */
  lemma SwapBelowLimit(s: Settings, p: nat, l: Ledger, db: Tables, proc: Proc, next: string)
    requires LedgerInv(s, l) && TablesInv(l, db)
    requires proc.Refreshing? && proc.refresh.Swapping? && RefreshInv(s, l, db, p, proc)
    ensures SwapOf(s, db, proc.refreshRequest, proc.now, proc.refresh.snap, next,
                   proc.refresh.cache).answer != LimitReached
  {
    var r, snap := proc.refreshRequest, proc.refresh.snap;
    if snap.id in db.sessions && db.sessions[snap.id].tokenHash == Sha256(r.handle) {
      HashMatchMeansUnmoved(s, l, db, r, proc.now, snap);
    }
  }

  lemma SwapStep(s: Settings, w: World, p: nat, proc: Proc, f: Fate)
    requires LedgerInv(s, w.ledger) && TablesInv(w.ledger, w.db)
    requires proc.Refreshing? && proc.refresh.Swapping? && RefreshInv(s, w.ledger, w.db, p, proc) && !f.storeFails
    requires f.first !in w.ledger.issued && TokenShaped(f.first) && f.first != proc.refreshRequest.handle
    ensures EffectOk(s, w.ledger, w.db, p, proc, AdvanceRefresh(s, w, p, proc, f), {f.first})
  {
    var r, snap, cache := proc.refreshRequest, proc.refresh.snap, proc.refresh.cache;
    var a := SwapOf(s, w.db, r, proc.now, snap, f.first, cache);
    match a.answer
    case Failed =>
    case Conflict => UnselectedIsSuperseded(s, w.ledger, w.db, r, proc.now);
    case LimitReached => SwapBelowLimit(s, p, w.ledger, w.db, proc, f.first);
    case Rotated => HandleRotated(s, p, w.ledger, w.db, r, proc.now, snap, f.first, cache, proc.refresh.tokens);
  }

  lemma RevokeStep(s: Settings, w: World, p: nat, proc: Proc, f: Fate)
    requires LedgerInv(s, w.ledger) && TablesInv(w.ledger, w.db)
    requires proc.Refreshing? && proc.refresh.Revoking? && RefreshInv(s, w.ledger, w.db, p, proc) && !f.storeFails
    ensures EffectOk(s, w.ledger, w.db, p, proc, AdvanceRefresh(s, w, p, proc, f), {})
  {
    var r, snap := proc.refreshRequest, proc.refresh.snap;
    if Revoke(w.db, s.issuer, snap.id, snap.facts.client, Sha256(r.handle), proc.now).answer {
      FamilyRevoked(s, w.ledger, w.db, p, proc, snap.id);
    } else {
      UnselectedIsSuperseded(s, w.ledger, w.db, r, proc.now);
    }
  }

  lemma CommitStep(s: Settings, w: World, p: nat, proc: Proc, f: Fate)
    requires LedgerInv(s, w.ledger) && TablesInv(w.ledger, w.db)
    requires proc.Refreshing? && proc.refresh.Committing? && RefreshInv(s, w.ledger, w.db, p, proc) && !f.storeFails
    ensures EffectOk(s, w.ledger, w.db, p, proc, AdvanceRefresh(s, w, p, proc, f), {})
  {
    var r := proc.refreshRequest;
    match FindReplayed(w.db, s.issuer, Sha256(r.handle), r.client, proc.now)
    case None => UnfoundIsSettled(s, w.ledger, w.db, r, proc.now);
    case Some(row) =>
      FoundIsHome(s, w.ledger, w.db, r, proc.now);
      FamilyRevoked(s, w.ledger, w.db, p, proc, row.id);
  }

  /** The remaining stages write nothing. */
  lemma ReadingInv(s: Settings, w: World, p: nat, proc: Proc, f: Fate)
    requires LedgerInv(s, w.ledger) && TablesInv(w.ledger, w.db)
    requires proc.Refreshing? && RefreshInv(s, w.ledger, w.db, p, proc)
    requires f.storeFails || !(proc.refresh.Swapping? || proc.refresh.Revoking? || proc.refresh.Committing?)
    requires f.reply.Identified? ==> f.reply.cache != ""
    ensures var x := AdvanceRefresh(s, w, p, proc, f);
            && x.db == w.db && x.ledger == w.ledger && SameRequest(proc, x.proc)
            && RefreshInv(s, w.ledger, w.db, p, x.proc)
  {
    var r := proc.refreshRequest;
    if proc.refresh.LookingUp? {
      LookedUp(s, w.ledger, w.db, p, r, proc.now);
    } else if proc.refresh.Replaying? && FindReplayed(w.db, s.issuer, Sha256(r.handle), r.client, proc.now).None? {
      UnfoundIsSettled(s, w.ledger, w.db, r, proc.now);
    }
  }

  lemma ReadingStep(s: Settings, w: World, p: nat, proc: Proc, f: Fate)
    requires LedgerInv(s, w.ledger) && TablesInv(w.ledger, w.db)
    requires proc.Refreshing? && RefreshInv(s, w.ledger, w.db, p, proc)
    requires f.storeFails || !(proc.refresh.Swapping? || proc.refresh.Revoking? || proc.refresh.Committing?)
    requires f.reply.Identified? ==> f.reply.cache != ""
    ensures EffectOk(s, w.ledger, w.db, p, proc, AdvanceRefresh(s, w, p, proc, f), {})
  {
    ReadingInv(s, w, p, proc, f);
    NothingWritten(s, w.ledger, w.db, p, proc, AdvanceRefresh(s, w, p, proc, f).proc, {});
  }

  lemma RefreshStep(s: Settings, w: World, p: nat, proc: Proc, f: Fate)
    requires LedgerInv(s, w.ledger) && TablesInv(w.ledger, w.db)
    requires proc.Refreshing? && RefreshInv(s, w.ledger, w.db, p, proc)
    requires f.first !in w.ledger.issued && TokenShaped(f.first) && f.first != proc.refreshRequest.handle
    requires f.reply.Identified? ==> f.reply.cache != ""
    ensures EffectOk(s, w.ledger, w.db, p, proc, AdvanceRefresh(s, w, p, proc, f), {f.first})
  {
    if f.storeFails {
      ReadingStep(s, w, p, proc, f);
    } else if proc.refresh.Swapping? {
      SwapStep(s, w, p, proc, f);
    } else if proc.refresh.Revoking? {
      RevokeStep(s, w, p, proc, f);
    } else if proc.refresh.Committing? {
      CommitStep(s, w, p, proc, f);
    } else {
      ReadingStep(s, w, p, proc, f);
    }
  }
}
