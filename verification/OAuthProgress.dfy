/** Safety is not bought by refusing everything: from any reachable world, an honest request by itself succeeds. */
module OAuthProgress {
  import opened Basics
  import opened OAuthRecords
  import opened OAuthTables
  import opened OAuthProtocol
  import opened OAuthInvariant
  import opened OAuthRefreshSteps
  import opened OAuthTheorems
  import opened OAuthGuarantees
  import opened OAuthHistory
  import opened OAuthProvenance
  import opened OAuthServices

  // ----- refresh -----

  /** With a fresh successor, the swap of a live row below the limit goes through. */
  lemma LiveSwapRotates(s: Settings, w: World, r: RefreshRequest, now: Time, snap: Session, next: string, cache: string)
    requires Inv(s, w) && next !in w.ledger.issued
    requires FindCurrent(w.db, s.issuer, Sha256(r.handle), r.client, now) == Some(snap)
    requires snap.rotationCount < s.maxRotations
    ensures SwapOf(s, w.db, r, now, snap, next, cache).answer == Rotated
  {
    var l, db := w.ledger, w.db;
    RowIsHome(s, l, db, snap.id);
    forall id | id in db.sessions ensures db.sessions[id].tokenHash != Sha256(next) {
      RowIsHome(s, l, db, id);
    }
    var k := HistoryKey(s.issuer, snap.facts.client, Sha256(r.handle));
    assert k in db.history ==> HistorySound(l, db, k);
  }

  /** The row that the swap makes survives its sweep and is selected by the next handle. */
  lemma NextHandleIsCurrent(t: Tables, issuer: string, row: Session, client: string, current: Digest, next: Digest,
                            cache: Blob, max: nat, now: Time)
    requires Schema(t) && FindCurrent(t, issuer, current, client, now) == Some(row)
    requires Rotate(t, issuer, row.id, client, current, next, cache, max, now).answer == Rotated
    ensures FindCurrent(Rotate(t, issuer, row.id, client, current, next, cache, max, now).tables, issuer, next, client,
                        now)
         == Some(Succeeded(row, next, cache, now))
  {
    RotateKeepsSchema(t, issuer, row.id, client, current, next, cache, max, now);
    CurrentIsUnique(Rotate(t, issuer, row.id, client, current, next, cache, max, now).tables, issuer, next, client,
                    now, row.id);
  }

  /** What upstream issued. */
  function TokensOf(reply: Reply): Tokens
    requires reply.Identified?
  {
    Tokens(reply.accessToken, reply.expiresIn)
  }

  /** The fates of an honest refresh: no store error, and upstream confirms the owner of the session. */
  predicate HonestRefresh(snap: Session, fates: seq<Fate>) {
    |fates| == 3 && !fates[0].storeFails && !fates[2].storeFails
    && fates[1].reply.Identified? && fates[1].reply.owner == snap.facts.owner
  }

  lemma SwapFinishes(s: Settings, w: World, r: RefreshRequest, now: Time, snap: Session, tokens: Tokens, cache: string,
                     f: Fate)
    requires Inv(s, w) && f.first !in w.ledger.issued && !f.storeFails
    requires FindCurrent(w.db, s.issuer, Sha256(r.handle), r.client, now) == Some(snap)
    requires snap.rotationCount < s.maxRotations
    ensures var end := Finish(s, Refreshing(r, now, Swapping(snap, tokens, cache)), w.db, map[], 0, [f]);
            && end.0 == Refreshing(r, now, Refreshed(tokens, f.first))
            && FindCurrent(end.1, s.issuer, Sha256(f.first), r.client, now)
            == Some(Succeeded(snap, Sha256(f.first), Resealed(snap, Sha256(f.first), cache), now))
  {
    FinishStep(s, Refreshing(r, now, Swapping(snap, tokens, cache)), w.db, map[], 0, [f]);
    LiveSwapRotates(s, w, r, now, snap, f.first, cache);
    NextHandleIsCurrent(w.db, s.issuer, snap, r.client, Sha256(r.handle), Sha256(f.first),
                        Resealed(snap, Sha256(f.first), cache), s.maxRotations, now);
  }

  lemma SnapshotOpens(s: Settings, w: World, r: RefreshRequest, now: Time, snap: Session)
    requires Inv(s, w) && FindCurrent(w.db, s.issuer, Sha256(r.handle), r.client, now) == Some(snap)
    requires snap.rotationCount < s.maxRotations && (r.scope.Some? ==> r.scope.value == snap.facts.scope)
    ensures AfterLookup(s, r, snap).AtUpstream? && AfterLookup(s, r, snap).snap == snap
  {
    CachesOpenUnderTheirRows(s, w, r, now);
  }

  lemma UpstreamConfirms(s: Settings, r: RefreshRequest, now: Time, snap: Session, cache: string, db: Tables, f: Fate,
                         g: Fate)
    requires f.reply.Identified? && f.reply.owner == snap.facts.owner
    ensures Finish(s, Refreshing(r, now, AtUpstream(snap, cache)), db, map[], 0, [f, g])
         == Finish(s, Refreshing(r, now, Swapping(snap, TokensOf(f.reply), f.reply.cache)), db, map[], 0, [g])
  {
    FinishStep(s, Refreshing(r, now, AtUpstream(snap, cache)), db, map[], 0, [f, g]);
    assert [f, g][1..] == [g];
  }

  lemma LookupGoesUpstream(s: Settings, w: World, r: RefreshRequest, now: Time, snap: Session, fates: seq<Fate>)
    requires Inv(s, w) && HonestRefresh(snap, fates)
    requires FindCurrent(w.db, s.issuer, Sha256(r.handle), r.client, now) == Some(snap)
    requires snap.rotationCount < s.maxRotations && (r.scope.Some? ==> r.scope.value == snap.facts.scope)
    ensures Finish(s, Refreshing(r, now, LookingUp), w.db, map[], 0, fates)
         == var reply := fates[1].reply;
            Finish(s, Refreshing(r, now, Swapping(snap, TokensOf(reply), reply.cache)), w.db, map[], 0, [fates[2]])
  {
    SnapshotOpens(s, w, r, now, snap);
    FinishStep(s, Refreshing(r, now, LookingUp), w.db, map[], 0, fates);
    UpstreamConfirms(s, r, now, snap, AfterLookup(s, r, snap).cache, w.db, fates[1], fates[2]);
    assert fates[1..] == [fates[1], fates[2]];
  }

  lemma RefreshFinishes(s: Settings, w: World, r: RefreshRequest, now: Time, snap: Session, fates: seq<Fate>)
    requires Inv(s, w) && HonestRefresh(snap, fates) && fates[2].first !in w.ledger.issued
    requires FindCurrent(w.db, s.issuer, Sha256(r.handle), r.client, now) == Some(snap)
    requires snap.rotationCount < s.maxRotations && (r.scope.Some? ==> r.scope.value == snap.facts.scope)
    ensures var end := Finish(s, Refreshing(r, now, LookingUp), w.db, map[], 0, fates);
            && end.0 == Refreshing(r, now, Refreshed(TokensOf(fates[1].reply), fates[2].first))
            && FindCurrent(end.1, s.issuer, Sha256(fates[2].first), r.client, now).Some?
  {
    LookupGoesUpstream(s, w, r, now, snap, fates);
    SwapFinishes(s, w, r, now, snap, TokensOf(fates[1].reply), fates[1].reply.cache, fates[2]);
  }

  lemma MovedIsSafe(s: Settings, w: World, p: nat, f: Fate)
    requires Inv(s, w) && p in w.procs && FateAllowed(w, f)
    ensures Inv(s, Moved(s, w, p, f)) && forall v <- w.ledger.issued :: v in Moved(s, w, p, f).ledger.issued
  {
    MoveKeepsOrder(s, w, p, f);
    MovedIsApplied(s, w, p, f);
    AdvanceKeepsInv(s, w, p, f);
  }

  /** What may be drawn in the third step of a process has not been drawn before its first. */
  lemma ThirdDrawIsFresh(s: Settings, w: World, p: nat, fates: seq<Fate>)
    requires Inv(s, w) && p in w.procs && |fates| == 3 && AllowedAlone(s, w, p, fates)
    ensures fates[2].first !in w.ledger.issued && fates[2].second !in w.ledger.issued
  {
    var w1 := Moved(s, w, p, fates[0]);
    MovedIsSafe(s, w, p, fates[0]);
    assert AllowedAlone(s, w1, p, fates[1..]);
    var w2 := Moved(s, w1, p, fates[1..][0]);
    MovedIsSafe(s, w1, p, fates[1..][0]);
    assert AllowedAlone(s, w2, p, fates[1..][1..]) && fates[1..][1..][0] == fates[2];
  }

  /** The last world of a run. */
  function Last(run: seq<World>): World
    requires run != []
  {
    run[|run| - 1]
  }

  /**
   Every run in which a request of the right client has arrived, with the current handle of an unexpired session
   below the limit, can be continued by three steps of that request to a world where it has got the next handle
   and that handle is the current one.
   */
  lemma HonestRefreshSucceeds(s: Settings, run: seq<World>, events: seq<Event>, p: nat, snap: Session, fates: seq<Fate>)
    requires Run(s, run, events)
    requires p in Last(run).procs && Last(run).procs[p].Refreshing? && Last(run).procs[p].refresh == LookingUp
    requires HonestRefresh(snap, fates) && AllowedAlone(s, Last(run), p, fates)
    requires var proc := Last(run).procs[p];
             var r := proc.refreshRequest;
             && FindCurrent(Last(run).db, s.issuer, Sha256(r.handle), r.client, proc.now) == Some(snap)
             && snap.rotationCount < s.maxRotations && (r.scope.Some? ==> r.scope.value == snap.facts.scope)
    ensures var run' := run + AloneWorlds(s, Last(run), p, fates);
            var r, now := Last(run).procs[p].refreshRequest, Last(run).procs[p].now;
            && Run(s, run', events + Advances(p, fates))
            && p in Last(run').procs
            && Last(run').procs[p] == Refreshing(r, now, Refreshed(TokensOf(fates[1].reply), fates[2].first))
            && FindCurrent(Last(run').db, s.issuer, Sha256(fates[2].first), r.client, now).Some?
  {
    var w := Last(run);
    var r, now := w.procs[p].refreshRequest, w.procs[p].now;
    EveryRunIsSafe(s, run, events, |run| - 1);
    AloneContinuesRun(s, run, events, p, fates);
    AloneIsFinish(s, w, p, fates);
    RefreshIgnoresSurroundings(s, r, now, LookingUp, w.db, w.clients, w.clock, fates);
    ThirdDrawIsFresh(s, w, p, fates);
    RefreshFinishes(s, w, r, now, snap, fates);
  }

  // ----- exchange -----

  /** The fates of an honest exchange: no store error. */
  predicate HonestExchange(fates: seq<Fate>) {
    |fates| == 3 && !fates[0].storeFails && !fates[1].storeFails && !fates[2].storeFails
  }

  /** What a bundle is still worth. */
  function LastingTokens(bundle: Payload, now: Time): Tokens
    requires bundle.Bundle?
  {
    Tokens(bundle.accessToken, bundle.accessExpiresAt - now)
  }

  /** A stored code's tokens can be read by whoever redeems it, as long as the access token lasts. */
  lemma RedeemedCodeOpens(s: Settings, w: World, clients: map<string, Client>, r: ExchangeRequest, now: Time)
    requires Inv(s, w) && r.client in clients && clients[r.client].mayRefresh
    requires Sha256(r.code) in w.db.codes && w.db.codes[Sha256(r.code)].bundle.Sealed?
    requires var payload := w.db.codes[Sha256(r.code)].bundle.payload; payload.Bundle? ==> payload.accessExpiresAt > now
    ensures var code := w.db.codes[Sha256(r.code)].(usedAt := Some(now));
            && AfterRedeeming(s, code, now) == Granting(code, now)
            && code.bundle.payload.Bundle?
            && AfterGranting(clients, r, code, now)
            == Opening(code, LastingTokens(code.bundle.payload, now), code.bundle.payload.cache, now)
  {
    var c := Sha256(r.code);
    assert CodeRow(w.ledger, c, w.db.codes[c]);
    assert CodeBorn(s, w.ledger, c);
    assert TransactionBorn(s, w.ledger, w.ledger.codes[c].tx);
  }

  lemma ExchangeFinishes(s: Settings, w: World, clients: map<string, Client>, clock: Time, r: ExchangeRequest,
                         now: Time, fates: seq<Fate>)
    requires Inv(s, w) && HonestExchange(fates)
    requires fates[2].first !in w.ledger.issued && fates[2].second !in w.ledger.issued
    requires r.client in clients && clients[r.client].mayRefresh
    requires Sha256(r.code) in w.db.codes && w.db.codes[Sha256(r.code)].bundle.Sealed?
    requires Redeemable(w.db.codes[Sha256(r.code)], s.issuer, r.client, r.redirect, S256(r.verifier), now)
    requires var payload := w.db.codes[Sha256(r.code)].bundle.payload;
             payload.Bundle? ==> payload.accessExpiresAt > now
    ensures var end := Finish(s, Exchanging(r, Redeeming(now)), w.db, clients, clock, fates).0;
            && end.Exchanging? && end.exchangeRequest == r && end.exchange.Granted?
            && end.exchange.handle == Some(fates[2].first)
            && w.db.codes[Sha256(r.code)].bundle.payload.Bundle?
            && end.exchange.tokens == LastingTokens(w.db.codes[Sha256(r.code)].bundle.payload, now)
  {
    RedeemedCodeOpens(s, w, clients, r, now);
    var code := w.db.codes[Sha256(r.code)].(usedAt := Some(now));
    var db := w.db.(codes := w.db.codes[Sha256(r.code) := code]);
    FinishStep(s, Exchanging(r, Redeeming(now)), w.db, clients, clock, fates);
    FinishStep(s, Exchanging(r, Granting(code, now)), db, clients, clock, fates[1..]);
    OpeningFinishes(s, w, clients, clock, r, code, db, now, fates[2]);
    assert fates[1..][1..] == [fates[2]];
  }

  /**
   Every run in which an exchange has arrived, from a registered client that may refresh, with an unspent,
   unexpired code of its own, the redirect and the verifier of that code, while the access token lasts, can be
   continued by three steps of that exchange to a world where it was granted a token and a handle.
   */
  lemma HonestExchangeSucceeds(s: Settings, run: seq<World>, events: seq<Event>, p: nat, fates: seq<Fate>)
    requires Run(s, run, events)
    requires p in Last(run).procs && Last(run).procs[p].Exchanging? && Last(run).procs[p].exchange.Redeeming?
    requires HonestExchange(fates) && AllowedAlone(s, Last(run), p, fates)
    requires var w := Last(run);
             var r, now, c := w.procs[p].exchangeRequest, w.procs[p].exchange.now,
                 Sha256(w.procs[p].exchangeRequest.code);
             && r.client in w.clients && w.clients[r.client].mayRefresh
             && c in w.db.codes && Redeemable(w.db.codes[c], s.issuer, r.client, r.redirect, S256(r.verifier), now)
             && (w.db.codes[c].bundle.Sealed? && w.db.codes[c].bundle.payload.Bundle? ==>
                   w.db.codes[c].bundle.payload.accessExpiresAt > now)
    ensures var run' := run + AloneWorlds(s, Last(run), p, fates);
            && Run(s, run', events + Advances(p, fates))
            && p in Last(run').procs && Last(run').procs[p].Exchanging? && Last(run').procs[p].exchange.Granted?
            && Last(run').procs[p].exchange.handle == Some(fates[2].first)
            && var w := Last(run);
               var bundle := w.db.codes[Sha256(w.procs[p].exchangeRequest.code)].bundle;
               && bundle.Sealed? && bundle.payload.Bundle?
               && Last(run').procs[p].exchange.tokens == LastingTokens(bundle.payload, w.procs[p].exchange.now)
  {
    var w := Last(run);
    var r, now := w.procs[p].exchangeRequest, w.procs[p].exchange.now;
    EveryRunIsSafe(s, run, events, |run| - 1);
    StoredCodeIsSealed(s, w, Sha256(r.code));
    AloneContinuesRun(s, run, events, p, fates);
    AloneIsFinish(s, w, p, fates);
    ThirdDrawIsFresh(s, w, p, fates);
    ExchangeFinishes(s, w, w.clients, w.clock, r, now, fates);
  }

  lemma StoredCodeIsSealed(s: Settings, w: World, c: Digest)
    requires Inv(s, w) && c in w.db.codes
    ensures w.db.codes[c].bundle.Sealed? && w.db.codes[c].bundle.payload.Bundle?
  {
    assert CodeRow(w.ledger, c, w.db.codes[c]);
    assert CodeBorn(s, w.ledger, c);
  }

  lemma OpeningFinishes(s: Settings, w: World, clients: map<string, Client>, clock: Time, r: ExchangeRequest,
                        code: AuthCode, db: Tables, now: Time, f: Fate)
    requires Inv(s, w) && f.first !in w.ledger.issued && f.second !in w.ledger.issued && !f.storeFails
    requires db.sessions == w.db.sessions && code.bundle.Sealed? && code.bundle.payload.Bundle?
    ensures var tokens := LastingTokens(code.bundle.payload, now);
            Finish(s, Exchanging(r, Opening(code, tokens, code.bundle.payload.cache, now)), db, clients, clock, [f]).0
            == Exchanging(r, Granted(tokens, Some(f.first)))
  {
    var bundle := code.bundle.payload;
    FinishStep(s, Exchanging(r, Opening(code, LastingTokens(bundle, now), bundle.cache, now)), db, clients, clock, [f]);
    FreshSessionInserts(s, w, f, db, NewSession(s, code, f.second, f.first, f.third, bundle.cache, now));
  }

  // ----- authorize and callback -----

  lemma FirstStep(s: Settings, w: World, p: nat, fates: seq<Fate>)
    requires p in w.procs && fates != []
    ensures Alone(s, w, p, fates) == Alone(s, Moved(s, w, p, fates[0]), p, fates[1..])
    ensures AllowedAlone(s, w, p, fates) ==>
              FateAllowed(w, fates[0]) && AllowedAlone(s, Moved(s, w, p, fates[0]), p, fates[1..])
  {}

  lemma TwoSteps(s: Settings, w: World, p: nat, f: Fate, g: Fate)
    requires p in w.procs
    ensures Alone(s, w, p, [f, g]) == Moved(s, Moved(s, w, p, f), p, g)
    ensures AllowedAlone(s, w, p, [f, g]) ==> FateAllowed(w, f) && FateAllowed(Moved(s, w, p, f), g)
  {
    FirstStep(s, w, p, [f, g]);
    assert [f, g][1..] == [g];
    FirstStep(s, Moved(s, w, p, f), p, [g]);
  }

  lemma StoringStores(s: Settings, w: World, p: nat, f: Fate)
    requires Inv(s, w) && p in w.procs && FateAllowed(w, f) && !f.storeFails
    requires w.procs[p].Authorizing? && w.procs[p].authorize.Storing?
    ensures var proc, x := w.procs[p], Move(s, w, p, f);
            && x.proc == Authorizing(proc.terms, proc.clientState, Started(f.first))
            && Sha256(f.second) in x.db.transactions
            && x.db.transactions[Sha256(f.second)]
               == TransactionRecord(s, proc.terms, proc.clientState, f.first, f.second, proc.authorize.flow,
                                    proc.authorize.now)
  {
    var proc := w.procs[p];
    var Storing(flow, now) := proc.authorize;
    FreshTransactionInserts(s, w, f, NewTransaction(s, proc.terms, proc.clientState, f.first, f.second, flow, now));
  }

  lemma AuthorizeFinishes(s: Settings, w: World, p: nat, f: Fate, g: Fate)
    requires Inv(s, w) && p in w.procs && w.procs[p].Authorizing? && w.procs[p].authorize.Beginning?
    requires AllowedAlone(s, w, p, [f, g]) && f.reply.Began? && !g.storeFails
    ensures var proc, w' := w.procs[p], Alone(s, w, p, [f, g]);
            && p in w'.procs && w'.procs[p] == Authorizing(proc.terms, proc.clientState, Started(g.first))
            && Sha256(g.second) in w'.db.transactions
            && w'.db.transactions[Sha256(g.second)]
               == TransactionRecord(s, proc.terms, proc.clientState, g.first, g.second, f.reply.flow, w.clock)
  {
    TwoSteps(s, w, p, f, g);
    MovedIsSafe(s, w, p, f);
    StoringStores(s, Moved(s, w, p, f), p, g);
  }

  /**
   Every run in which an authorization request has started can be continued by two steps of that request, if upstream
   begins a flow, to a world where it was sent there with a state of its own and its transaction is stored.
   */
  lemma HonestAuthorizeSucceeds(s: Settings, run: seq<World>, events: seq<Event>, p: nat, f: Fate, g: Fate)
    requires Run(s, run, events)
    requires p in Last(run).procs && Last(run).procs[p].Authorizing? && Last(run).procs[p].authorize.Beginning?
    requires AllowedAlone(s, Last(run), p, [f, g]) && f.reply.Began? && !g.storeFails
    ensures var run', proc := run + AloneWorlds(s, Last(run), p, [f, g]), Last(run).procs[p];
            && Run(s, run', events + Advances(p, [f, g]))
            && p in Last(run').procs
            && Last(run').procs[p] == Authorizing(proc.terms, proc.clientState, Started(g.first))
            && Sha256(g.second) in Last(run').db.transactions
            && Last(run').db.transactions[Sha256(g.second)]
               == TransactionRecord(s, proc.terms, proc.clientState, g.first, g.second, f.reply.flow, Last(run).clock)
  {
    AloneContinuesRun(s, run, events, p, [f, g]);
    assert Inv(s, Last(run)) by {
      EveryRunIsSafe(s, run, events, |run| - 1);
    }
    AuthorizeFinishes(s, Last(run), p, f, g);
  }

  lemma IssuingStores(s: Settings, w: World, p: nat, f: Fate)
    requires Inv(s, w) && p in w.procs && FateAllowed(w, f) && !f.storeFails
    requires w.procs[p].Completing? && w.procs[p].complete.Issuing?
    ensures var proc, x := w.procs[p], Move(s, w, p, f);
            var Issuing(tx, owner, bundle, now) := proc.complete;
            && x.proc == proc.(complete := Redirected(tx.terms.redirect, f.first, tx.clientState))
            && Sha256(f.first) in x.db.codes
            && x.db.codes[Sha256(f.first)]
               == var c, over := Sha256(f.first), now + s.codeTtl;
                  AuthCode(c, s.issuer, tx.terms, owner,
                           Sealed(CodeContext(c, s.issuer, tx.terms, owner, now, over), bundle), now, over, None)
  {
    var Issuing(tx, owner, bundle, now) := w.procs[p].complete;
    FreshCodeInserts(s, w, f, NewCode(s, tx, owner, f.first, bundle, now));
  }

  lemma IssueFinishes(s: Settings, w: World, p: nat, f: Fate, g: Fate)
    requires Inv(s, w) && p in w.procs && w.procs[p].Completing? && w.procs[p].complete.Contacting?
    requires AllowedAlone(s, w, p, [f, g]) && f.reply.Identified? && !g.storeFails
    ensures var tx, w' := w.procs[p].complete.tx, Alone(s, w, p, [f, g]);
            && p in w'.procs
            && w'.procs[p] == w.procs[p].(complete := Redirected(tx.terms.redirect, g.first, tx.clientState))
            && Sha256(g.first) in w'.db.codes
            && w'.db.codes[Sha256(g.first)] == CodeRecord(s, tx.terms, g.first, f.reply, w.clock)
  {
    TwoSteps(s, w, p, f, g);
    assert Inv(s, Moved(s, w, p, f)) by {
      MovedIsSafe(s, w, p, f);
    }
    IssuingStores(s, Moved(s, w, p, f), p, g);
  }

  lemma CallbackTakes(s: Settings, w: World, p: nat, f: Fate, h: Digest)
    requires Inv(s, w) && p in w.procs && FateAllowed(w, f) && !f.storeFails
    requires w.procs[p].Completing? && w.procs[p].complete.Consuming? && !w.procs[p].denied
    requires h in w.db.transactions
    requires Pending(w.db.transactions[h], s.issuer, Sha256(w.procs[p].state), w.procs[p].complete.now)
    ensures var w' := Moved(s, w, p, f);
            && Inv(s, w')
            && w'.procs[p] == w.procs[p].(complete := Contacting(w.db.transactions[h].(completedAt :=
                                                                   Some(w.procs[p].complete.now))))
  {
    TakingStep(s, w, p, f, h);
    MovedIsSafe(s, w, p, f);
  }

  lemma CallbackFinishes(s: Settings, w: World, p: nat, tx: Transaction, fates: seq<Fate>)
    requires |fates| == 3 && p in w.procs && w.procs[p].Completing? && AllowedAlone(s, w, p, fates)
    requires var w' := Moved(s, w, p, fates[0]); Inv(s, w') && w'.procs[p] == w.procs[p].(complete := Contacting(tx))
    requires fates[1].reply.Identified? && !fates[2].storeFails
    ensures var w', secret := Alone(s, w, p, fates), fates[2].first;
            && p in w'.procs
            && w'.procs[p] == w.procs[p].(complete := Redirected(tx.terms.redirect, secret, tx.clientState))
            && Sha256(secret) in w'.db.codes
            && w'.db.codes[Sha256(secret)] == CodeRecord(s, tx.terms, secret, fates[1].reply, w.clock)
  {
    FirstStep(s, w, p, fates);
    assert fates[1..] == [fates[1], fates[2]];
    IssueFinishes(s, Moved(s, w, p, fates[0]), p, fates[1], fates[2]);
  }

  /**
   Every run in which a callback has arrived, not denied, with the state of a pending, unexpired transaction, can be
   continued by three steps of that callback, if upstream identifies someone, to a world where it redirects to where
   the authorization asked for, with an unspent code for that owner.
   */
  lemma HonestCallbackSucceeds(s: Settings, run: seq<World>, events: seq<Event>, p: nat, h: Digest, fates: seq<Fate>)
    requires Run(s, run, events) && |fates| == 3
    requires p in Last(run).procs && Last(run).procs[p].Completing? && Last(run).procs[p].complete.Consuming?
    requires !Last(run).procs[p].denied && h in Last(run).db.transactions
    requires Pending(Last(run).db.transactions[h], s.issuer, Sha256(Last(run).procs[p].state),
                     Last(run).procs[p].complete.now)
    requires AllowedAlone(s, Last(run), p, fates)
    requires !fates[0].storeFails && fates[1].reply.Identified? && !fates[2].storeFails
    ensures var run', tx := run + AloneWorlds(s, Last(run), p, fates), Last(run).db.transactions[h];
            var secret, proc := fates[2].first, Last(run).procs[p];
            && Run(s, run', events + Advances(p, fates))
            && p in Last(run').procs
            && Last(run').procs[p] == proc.(complete := Redirected(tx.terms.redirect, secret, tx.clientState))
            && Sha256(secret) in Last(run').db.codes
            && Last(run').db.codes[Sha256(secret)]
               == CodeRecord(s, tx.terms, secret, fates[1].reply, Last(run).clock)
  {
    EveryRunIsSafe(s, run, events, |run| - 1);
    AloneContinuesRun(s, run, events, p, fates);
    CallbackTakes(s, Last(run), p, fates[0], h);
    CallbackFinishes(s, Last(run), p, Moved(s, Last(run), p, fates[0]).procs[p].complete.tx, fates);
  }
}
