/**
 A refresh request hands out what upstream confirmed for the owner of its session, and nothing else: every rotation
 has such a confirmation behind it, and without one the request is refused, the family revoked if upstream said no.
 */
module OAuthIdentity {
  import opened Basics
  import opened OAuthRecords
  import opened OAuthTables
  import opened OAuthProtocol
  import opened OAuthProvenance
  import opened OAuthInvariant
  import opened OAuthRefreshSteps
  import opened OAuthRuns
  import opened OAuthTheorems
  import opened OAuthGuarantees
  import opened OAuthReplay

  /** The live row that a presented handle selects for its client. */
  ghost predicate Selects(s: Settings, db: Tables, r: RefreshRequest, now: Time, row: Session) {
    && row.id in db.sessions && db.sessions[row.id] == row
    && row.tokenHash == Sha256(r.handle) && row.revokedAt.None? && row.facts.expiresAt > now
    && row.facts.client == r.client && row.facts.issuer == s.issuer
  }

  /** What had to hold of it for the request to go upstream with its cache. */
  ghost predicate Selected(s: Settings, db: Tables, r: RefreshRequest, now: Time, row: Session, cache: string) {
    && Selects(s, db, r, now, row)
    && row.facts.scope == s.requiredScopes && row.facts.resource == s.resource
    && (r.scope.Some? ==> r.scope.value == row.facts.scope)
    && row.rotationCount < s.maxRotations
    && row.cache == Sealed(SessionContext(row.id, row.facts, row.tokenHash, row.rotationCount), Cache(cache))
  }

  /** The row's successor, sealing the new cache as itself. */
  ghost predicate Renewed(db: Tables, row: Session, handle: string, cache: string, now: Time) {
    && row.id in db.sessions
    && db.sessions[row.id]
       == Session(row.id, row.facts, Sha256(handle),
                  Sealed(SessionContext(row.id, row.facts, Sha256(handle), row.rotationCount + 1), Cache(cache)),
                  now, None, row.rotationCount + 1)
  }

  lemma LookupEntry(s: Settings, w: World, p: nat, proc: Proc, f: Fate)
    requires Inv(s, w) && proc.Refreshing? && proc.refresh.LookingUp?
    ensures var x, r, now := AdvanceRefresh(s, w, p, proc, f), proc.refreshRequest, proc.now;
            && x.proc.Refreshing? && x.proc.refreshRequest == r && x.proc.now == now
            && match x.proc.refresh
               case RefreshRefused(Unavailable) => f.storeFails
               case RefreshRefused(InvalidScope) =>
                 r.scope.Some? && exists row :: Selects(s, w.db, r, now, row) && r.scope.value != row.facts.scope
               case Replaying => forall row :: !Selects(s, w.db, r, now, row)
               case Revoking(row) => Selects(s, w.db, r, now, row) && row.rotationCount >= s.maxRotations
               case AtUpstream(row, cache) => Selected(s, w.db, r, now, row, cache)
               case _ => false
  {
    var r, now := proc.refreshRequest, proc.now;
    var found := FindCurrent(w.db, s.issuer, Sha256(r.handle), r.client, now);
    if found.Some? {
      RowIsHome(s, w.ledger, w.db, found.value.id);
      assert SessionBorn(s, w.ledger, found.value.id);
      assert Selects(s, w.db, r, now, found.value);
    }
  }

  lemma UpstreamEntry(s: Settings, w: World, p: nat, proc: Proc, f: Fate)
    requires proc.Refreshing? && proc.refresh.AtUpstream?
    ensures var x, snap := AdvanceRefresh(s, w, p, proc, f).proc, proc.refresh.snap;
            && x.Refreshing? && x.refreshRequest == proc.refreshRequest && x.now == proc.now
            && match f.reply
               case Identified(owner, token, expiresIn, cache) =>
                 x.refresh == if owner == snap.facts.owner then Swapping(snap, Tokens(token, expiresIn), cache)
                              else Revoking(snap)
               case Denied => x.refresh == Revoking(snap)
               case InvalidToken => x.refresh == Revoking(snap)
               case _ => x.refresh == RefreshRefused(Unavailable)
  {}

  /** The swapped row outlives the sweep. */
  lemma SwappedRowStands(t: Tables, issuer: string, id: string, client: string, current: Digest, next: Digest,
                         cache: Blob, max: nat, now: Time)
    requires Rotate(t, issuer, id, client, current, next, cache, max, now).answer == Rotated
    ensures var db := Rotate(t, issuer, id, client, current, next, cache, max, now).tables;
            && id in t.sessions && t.sessions[id].tokenHash == current && t.sessions[id].revokedAt.None?
            && id in db.sessions && db.sessions[id] == Succeeded(t.sessions[id], next, cache, now)
  {}

  lemma SnapshotRenewed(s: Settings, w: World, p: nat, proc: Proc, next: string)
    requires Inv(s, w) && proc.Refreshing? && proc.refresh.Swapping? && RefreshInv(s, w.ledger, w.db, p, proc)
    requires var Swapping(snap, _, cache) := proc.refresh;
             SwapOf(s, w.db, proc.refreshRequest, proc.now, snap, next, cache).answer == Rotated
    ensures var Swapping(snap, _, cache) := proc.refresh;
            var hash := Sha256(next);
            Renewed(Rotate(w.db, s.issuer, snap.id, snap.facts.client, Sha256(proc.refreshRequest.handle), hash,
                           Resealed(snap, hash, cache), s.maxRotations, proc.now).tables,
                    snap, next, cache, proc.now)
  {
    var Swapping(snap, _, cache) := proc.refresh;
    HashMatchMeansUnmoved(s, w.ledger, w.db, proc.refreshRequest, proc.now, snap);
    SwappedRowStands(w.db, s.issuer, snap.id, snap.facts.client, Sha256(proc.refreshRequest.handle), Sha256(next),
                     Resealed(snap, Sha256(next), cache), s.maxRotations, proc.now);
  }

  lemma SwapEntry(s: Settings, w: World, p: nat, f: Fate)
    requires Inv(s, w) && FateAllowed(w, f)
    requires p in w.procs && w.procs[p].Refreshing? && w.procs[p].refresh.Swapping?
    ensures var proc := w.procs[p];
            var x, Swapping(snap, tokens, cache) := AdvanceRefresh(s, w, p, proc, f), proc.refresh;
            && x.proc.Refreshing? && x.proc.refreshRequest == proc.refreshRequest && x.proc.now == proc.now
            && match x.proc.refresh
               case RefreshRefused(Unavailable) => f.storeFails
               case Replaying => true
               case Refreshed(granted, handle) =>
                 granted == tokens && handle == f.first && Renewed(x.db, snap, f.first, cache, proc.now)
               case _ => false
  {
    SwapNeverFails(s, w, p, f);
    var proc := w.procs[p];
    var Swapping(snap, _, cache) := proc.refresh;
    if SwapOf(s, w.db, proc.refreshRequest, proc.now, snap, f.first, cache).answer == Rotated {
      assert ProcInv(s, w.ledger, w.db, p, proc);
      SnapshotRenewed(s, w, p, proc, f.first);
    }
  }

  /** After any other stage nothing is looked up, confirmed or handed out any more. */
  lemma LateEntry(s: Settings, w: World, p: nat, proc: Proc, f: Fate)
    requires proc.Refreshing? && (proc.refresh.Revoking? || proc.refresh.Replaying? || proc.refresh.Committing?)
    ensures var x := AdvanceRefresh(s, w, p, proc, f).proc;
            && x.Refreshing? && x.refreshRequest == proc.refreshRequest && x.now == proc.now
            && match x.refresh
               case RefreshRefused(Unavailable) => f.storeFails
               case RefreshRefused(InvalidGrant) =>
                 proc.refresh.Replaying? ==>
                   FindReplayed(w.db, s.issuer, Sha256(proc.refreshRequest.handle), proc.refreshRequest.client,
                                proc.now).None?
               case Replaying => proc.refresh.Revoking?
               case Committing => proc.refresh.Replaying?
               case _ => false
  {}

  /** Upstream refused the session, or named someone else. */
  predicate SaysNo(reply: Reply, row: Session) {
    reply.Denied? || reply.InvalidToken? || (reply.Identified? && reply.owner != row.facts.owner)
  }

  /** Upstream could not be reached or gave no usable answer. */
  predicate SaysNothing(reply: Reply) {
    reply.Unreachable? || reply.Unverifiable? || reply.Began?
  }

  /** What a step that ends in a refusal met. */
  ghost predicate RefusedFor(s: Settings, db: Tables, r: RefreshRequest, now: Time, stage: RefreshStage, f: Fate,
                             x: Refusal)
  {
    match x
    case Unavailable => if stage.AtUpstream? then SaysNothing(f.reply) else f.storeFails
    case InvalidScope =>
      && stage.LookingUp? && r.scope.Some?
      && exists row :: Selects(s, db, r, now, row) && r.scope.value != row.facts.scope
    case InvalidGrant =>
      || stage.Revoking? || stage.Committing?
      || (stage.Replaying? && FindReplayed(db, s.issuer, Sha256(r.handle), r.client, now).None?)
    case _ => false
  }

  /** How a refresh request may have come to a stage, in one step from the tables `db` to `db'`. */
  ghost predicate Entered(s: Settings, db: Tables, db': Tables, proc: Proc, stage: RefreshStage, f: Fate)
    requires proc.Refreshing?
  {
    var r, now := proc.refreshRequest, proc.now;
    && !Resting(proc.refresh)
    && match stage
       case LookingUp => false
       case AtUpstream(row, cache) => proc.refresh.LookingUp? && Selected(s, db, r, now, row, cache)
       case Swapping(row, tokens, cache) =>
         && proc.refresh.AtUpstream? && proc.refresh.snap == row && f.reply.Identified?
         && f.reply.owner == row.facts.owner
         && tokens == Tokens(f.reply.accessToken, f.reply.expiresIn) && cache == f.reply.cache
       case Revoking(row) =>
         || (proc.refresh.LookingUp? && Selects(s, db, r, now, row) && row.rotationCount >= s.maxRotations)
         || (proc.refresh.AtUpstream? && proc.refresh.snap == row && SaysNo(f.reply, row))
       case Refreshed(tokens, handle) =>
         && proc.refresh.Swapping? && tokens == proc.refresh.tokens && handle == f.first
         && Renewed(db', proc.refresh.snap, f.first, proc.refresh.cache, now)
       case RefreshRefused(x) => RefusedFor(s, db, r, now, proc.refresh, f, x)
       case _ => true
  }

  lemma StageEntered(s: Settings, w: World, p: nat, f: Fate)
    requires Inv(s, w) && FateAllowed(w, f) && p in w.procs && w.procs[p].Refreshing?
    ensures var proc, x := w.procs[p], AdvanceRefresh(s, w, p, w.procs[p], f);
            && x.proc.Refreshing? && x.proc.refreshRequest == proc.refreshRequest && x.proc.now == proc.now
            && (x.proc != proc ==> Entered(s, w.db, x.db, proc, x.proc.refresh, f))
  {
    match w.procs[p].refresh
    case LookingUp => LookupEntry(s, w, p, w.procs[p], f);
    case AtUpstream(_, _) => UpstreamEntry(s, w, p, w.procs[p], f);
    case Swapping(_, _, _) => SwapEntry(s, w, p, f);
    case Refreshed(_, _) =>
    case RefreshRefused(_) =>
    case _ => LateEntry(s, w, p, w.procs[p], f);
  }

  /** The step of a refresh request that changed it. */
  lemma StepOfRefresh(s: Settings, run: seq<World>, events: seq<Event>, m: nat, p: nat)
    requires Run(s, run, events) && m < |events| && p in run[m].procs && Moves(events, p, m)
    requires p in run[m + 1].procs && run[m + 1].procs[p].Refreshing? && run[m + 1].procs[p] != run[m].procs[p]
    ensures run[m].procs[p].Refreshing?
    ensures var proc, stage := run[m].procs[p], run[m + 1].procs[p].refresh;
            && At(run[m + 1], p, proc.refreshRequest, proc.now, stage)
            && Entered(s, run[m].db, run[m + 1].db, proc, stage, events[m].fate)
  {
    OwnStep(s, run, events, m, p);
    EveryRunIsSafe(s, run, events, m);
    assert Follows(s, run, events, m);
    RefreshStaysRefresh(s, run[m], p, events[m].fate);
    StageEntered(s, run[m], p, events[m].fate);
  }

  lemma RefreshStaysRefresh(s: Settings, w: World, p: nat, f: Fate)
    requires p in w.procs && Move(s, w, p, f).proc.Refreshing?
    ensures w.procs[p].Refreshing?
  {}

  /**
   Every rotation has upstream's confirmation behind it. The presented handle selected a live row of its client and
   this server below the limit; upstream was given the cache that this row had sealed, and identified that row's own
   owner; the client was handed the tokens of that reply; and the row's successor seals the cache of that reply.
   */
  lemma RotationWasConfirmed(s: Settings, run: seq<World>, events: seq<Event>, j: nat, p: nat)
    returns (a: nat, b: nat, c: nat, d: nat, row: Session, cache: string)
    requires Run(s, run, events) && j < |run|
    requires p in run[j].procs && run[j].procs[p].Refreshing? && run[j].procs[p].refresh.Refreshed?
    ensures a < b < c < d < j && events[a] == Refresh(p, run[j].procs[p].refreshRequest, false)
    ensures Moves(events, p, b) && Moves(events, p, c) && Moves(events, p, d)
    ensures var r, now, reply := events[a].refreshRequest, run[a].clock, events[c].fate.reply;
            && Selected(s, run[b].db, r, now, row, cache)
            && At(run[c], p, r, now, AtUpstream(row, cache))
            && reply.Identified? && reply.owner == row.facts.owner
            && run[j].procs[p].refresh
               == Refreshed(Tokens(reply.accessToken, reply.expiresIn), events[d].fate.first)
            && Renewed(run[d + 1].db, row, events[d].fate.first, reply.cache, now)
  {
    d := LastChange(s, run, events, j, p);
    if p in run[d].procs {
      StepOfRefresh(s, run, events, d, p);
    }
    c := LastChange(s, run, events, d, p);
    if p in run[c].procs {
      StepOfRefresh(s, run, events, c, p);
    }
    a, b := UpstreamHistory(s, run, events, c, p);
    row, cache := run[c].procs[p].refresh.snap, run[c].procs[p].refresh.cache;
  }

  /** How a request came to contact upstream. */
  lemma UpstreamHistory(s: Settings, run: seq<World>, events: seq<Event>, j: nat, p: nat) returns (a: nat, b: nat)
    requires Run(s, run, events) && j < |run|
    requires p in run[j].procs && run[j].procs[p].Refreshing? && run[j].procs[p].refresh.AtUpstream?
    ensures a < b < j && events[a] == Refresh(p, run[j].procs[p].refreshRequest, false) && Moves(events, p, b)
    ensures run[j].procs[p].now == run[a].clock
    ensures Selected(s, run[b].db, run[j].procs[p].refreshRequest, run[a].clock, run[j].procs[p].refresh.snap,
                     run[j].procs[p].refresh.cache)
  {
    b := LastChange(s, run, events, j, p);
    if p in run[b].procs {
      StepOfRefresh(s, run, events, b, p);
    }
    a := LastChange(s, run, events, b, p);
    if p in run[a].procs {
      StepOfRefresh(s, run, events, a, p);
    }
  }

  // ----- without a confirmation -----

  ghost predicate StoreFailed(events: seq<Event>, p: nat, i: nat, j: nat)
    requires j <= |events|
  {
    exists m :: i <= m < j && Moves(events, p, m) && events[m].fate.storeFails
  }

  /** No handle will come of it, and unless the store fails the family is revoked. */
  predicate Doomed(stage: RefreshStage, failed: bool) {
    stage.Revoking? || stage.Replaying? || stage.Committing? || stage == RefreshRefused(InvalidGrant)
    || (stage == RefreshRefused(Unavailable) && failed)
  }

  lemma DoomedEntry(s: Settings, w: World, p: nat, proc: Proc, f: Fate)
    requires proc.Refreshing? && Doomed(proc.refresh, true)
    ensures var x := AdvanceRefresh(s, w, p, proc, f).proc;
            && x.Refreshing? && x.refreshRequest == proc.refreshRequest && x.now == proc.now
            && Doomed(x.refresh, f.storeFails || proc.refresh == RefreshRefused(Unavailable))
  {}

  lemma {:induction false} DoomedStays(s: Settings, run: seq<World>, events: seq<Event>, i: nat, j: nat, p: nat,
                                       r: RefreshRequest, now: Time)
    requires Run(s, run, events) && i <= j < |run| && p in run[i].procs && run[i].procs[p].Refreshing?
    requires At(run[i], p, r, now, run[i].procs[p].refresh) && Doomed(run[i].procs[p].refresh, false)
    ensures p in run[j].procs && run[j].procs[p].Refreshing? && At(run[j], p, r, now, run[j].procs[p].refresh)
    ensures Doomed(run[j].procs[p].refresh, StoreFailed(events, p, i, j))
  {
    if i < j {
      DoomedStays(s, run, events, i, j - 1, p, r, now);
      if Moves(events, p, j - 1) {
        OwnStep(s, run, events, j - 1, p);
        DoomedEntry(s, run[j - 1], p, run[j - 1].procs[p], events[j - 1].fate);
      } else {
        OthersLeaveProc(s, run, events, j - 1, p);
      }
      assert StoreFailed(events, p, i, j - 1) ==> StoreFailed(events, p, i, j);
    }
  }

  /**
   If upstream refuses the session or names someone else than its owner, the request never gets a handle. Once it
   has ended, and the store has not failed it on the way, it is refused for an invalid grant; and so refused, its
   session is revoked or gone, then and for the rest of the run.
   */
  lemma DenialKillsTheFamily(s: Settings, run: seq<World>, events: seq<Event>, m: nat, j: nat, k: nat, p: nat)
    requires Run(s, run, events) && m < j <= k < |run| && Moves(events, p, m)
    requires p in run[m].procs && run[m].procs[p].Refreshing? && run[m].procs[p].refresh.AtUpstream?
    requires SaysNo(events[m].fate.reply, run[m].procs[p].refresh.snap)
    ensures p in run[j].procs && run[j].procs[p].Refreshing?
    ensures var stage := run[j].procs[p].refresh;
            && !stage.Refreshed? && !(p in run[j].ledger.deeds && run[j].ledger.deeds[p].RotatedHandle?)
            && (stage.RefreshRefused? ==>
                  stage.refusal == InvalidGrant
                  || (stage.refusal == Unavailable && StoreFailed(events, p, m + 1, j)))
            && (stage == RefreshRefused(InvalidGrant) ==> Dead(run[k].db, run[m].procs[p].refresh.snap.id))
  {
    var proc := run[m].procs[p];
    OwnStep(s, run, events, m, p);
    UpstreamEntry(s, run[m], p, proc, events[m].fate);
    DoomedStays(s, run, events, m + 1, j, p, proc.refreshRequest, proc.now);
    EveryRunIsSafe(s, run, events, j);
    RefreshOutcomes(s, run[j], p);
    if run[j].procs[p].refresh == RefreshRefused(InvalidGrant) {
      LoserKillsTheFamily(s, run, events, m, j, k, p);
    }
  }

  /** If upstream cannot be reached or gives no usable answer, the request is refused as such and writes nothing. */
  lemma TroubleIsUnavailable(s: Settings, run: seq<World>, events: seq<Event>, m: nat, j: nat, p: nat)
    requires Run(s, run, events) && m < j < |run| && Moves(events, p, m)
    requires p in run[m].procs && run[m].procs[p].Refreshing? && run[m].procs[p].refresh.AtUpstream?
    requires SaysNothing(events[m].fate.reply)
    ensures var r, now := run[m].procs[p].refreshRequest, run[m].procs[p].now;
            At(run[j], p, r, now, RefreshRefused(Unavailable)) && p !in run[j].ledger.deeds
  {
    var proc := run[m].procs[p];
    OwnStep(s, run, events, m, p);
    UpstreamEntry(s, run[m], p, proc, events[m].fate);
    RestsOn(s, run, events, m + 1, j, p, proc.refreshRequest, proc.now, RefreshRefused(Unavailable));
    EveryRunIsSafe(s, run, events, j);
    RefreshOutcomes(s, run[j], p);
  }
}
