/**
 The two OAuth services as methods over the store, statement by statement. A call that no other request
 interrupts leaves the tables, and answers, exactly as its process does when its steps follow one another.
 What upstream, the random source and store failures bring to the k-th step is read from the k-th fate.
 */
module OAuthServices {
  import opened Basics
  import opened OAuthRecords
  import opened OAuthTables
  import opened OAuthStore
  import opened OAuthProtocol

  // ----- a request by itself -----

  predicate Over(proc: Proc) {
    match proc
    case Authorizing(_, _, stage) => stage.Started? || stage.AuthorizeRefused?
    case Completing(_, _, stage) => stage.Redirected? || stage.CompleteRefused?
    case Exchanging(_, stage) => stage.Granted? || stage.ExchangeRefused?
    case Refreshing(_, _, stage) => stage.Refreshed? || stage.RefreshRefused?
  }

  const UNKNOWN := Ledger(map[], map[], map[], map[], map[], map[], map[], map[])

  /** What a step of a process depends on: the tables, the clients and the clock. */
  ghost function Surroundings(db: Tables, clients: map<string, Client>, clock: Time): World {
    World(db, clients, clock, map[], UNKNOWN)
  }

  /** One step of a process: what becomes of it and of the tables. */
  ghost function Next(s: Settings, proc: Proc, db: Tables, clients: map<string, Client>, clock: Time, f: Fate)
    : (Proc, Tables)
  {
    var w := Surroundings(db, clients, clock);
    var x := match proc
      case Authorizing(_, _, _) => AdvanceAuthorize(s, w, 0, proc, f)
      case Completing(_, _, _) => AdvanceComplete(s, w, 0, proc, f)
      case Exchanging(_, _) => AdvanceExchange(s, w, 0, proc, f)
      case Refreshing(_, _, _) => AdvanceRefresh(s, w, 0, proc, f);
    (x.proc, x.db)
  }

  /** Its steps one after another, until it is over. */
  ghost function Finish(s: Settings, proc: Proc, db: Tables, clients: map<string, Client>, clock: Time,
                        fates: seq<Fate>)
    : (Proc, Tables)
    decreases |fates|
  {
    if fates == [] || Over(proc) then (proc, db)
    else
      var next := Next(s, proc, db, clients, clock, fates[0]);
      Finish(s, next.0, next.1, clients, clock, fates[1..])
  }

  lemma FinishStep(s: Settings, proc: Proc, db: Tables, clients: map<string, Client>, clock: Time, fates: seq<Fate>)
    requires fates != [] && !Over(proc)
    ensures var next := Next(s, proc, db, clients, clock, fates[0]);
      Finish(s, proc, db, clients, clock, fates)
      == if Over(next.0) then next else Finish(s, next.0, next.1, clients, clock, fates[1..])
  {}

  // ----- sessions -----

  class OAuthSessionService {
    const settings: Settings
    const store: SQLiteOAuthStore

    constructor (settings: Settings, store: SQLiteOAuthStore)
      ensures this.settings == settings && this.store == store
    {
      this.settings := settings;
      this.store := store;
    }

    method RevokeReplayedSession(r: RefreshRequest, now: Time, fates: seq<Fate>) returns (outcome: RefreshStage)
      requires store.Valid() && |fates| >= 2
      modifies store
      ensures store.Valid()
      ensures (Refreshing(r, now, outcome), store.Contents())
           == Finish(settings, Refreshing(r, now, Replaying), old(store.Contents()), map[], 0, fates)
    {
      ghost var db := store.Contents();
      FinishStep(settings, Refreshing(r, now, Replaying), db, map[], 0, fates);
      var hash := Sha256(r.handle);
      if fates[0].storeFails {
        return RefreshRefused(Unavailable);
      }
      var seen := store.FindReplayedSession(settings.issuer, hash, r.client, now);
      if seen.None? {
        return RefreshRefused(InvalidGrant);
      }
      FinishStep(settings, Refreshing(r, now, Committing), db, map[], 0, fates[1..]);
      if fates[1].storeFails {
        return RefreshRefused(Unavailable);
      }
      var _ := store.RevokeReplayedUnderLock(settings.issuer, hash, r.client, now);
      outcome := RefreshRefused(InvalidGrant);
    }

    method Revoke(snap: Session, r: RefreshRequest, now: Time, fates: seq<Fate>) returns (outcome: RefreshStage)
      requires store.Valid() && |fates| >= 3
      modifies store
      ensures store.Valid()
      ensures (Refreshing(r, now, outcome), store.Contents())
           == Finish(settings, Refreshing(r, now, Revoking(snap)), old(store.Contents()), map[], 0, fates)
    {
      FinishStep(settings, Refreshing(r, now, Revoking(snap)), store.Contents(), map[], 0, fates);
      if fates[0].storeFails {
        return RefreshRefused(Unavailable);
      }
      var revoked := store.RevokeRefreshSession(settings.issuer, snap.id, snap.facts.client, Sha256(r.handle), now);
      if !revoked {
        outcome := RevokeReplayedSession(r, now, fates[1..]);
      } else {
        outcome := RefreshRefused(InvalidGrant);
      }
    }

    /** The whole call; upstream answers with the second fate's reply, a new handle is the third's first draw. */
    method Refresh(r: RefreshRequest, now: Time, fates: seq<Fate>) returns (outcome: RefreshStage)
      requires store.Valid() && |fates| >= 5
      modifies store
      ensures store.Valid()
      ensures (Refreshing(r, now, outcome), store.Contents())
           == Finish(settings,
                     Refreshing(r, now, if TokenShaped(r.handle) then LookingUp else RefreshRefused(InvalidGrant)),
                     old(store.Contents()), map[], 0, fates)
    {
      if !TokenShaped(r.handle) {
        return RefreshRefused(InvalidGrant);
      }
      FinishStep(settings, Refreshing(r, now, LookingUp), store.Contents(), map[], 0, fates);
      var hash := Sha256(r.handle);
      if fates[0].storeFails {
        return RefreshRefused(Unavailable);
      }
      var found := store.GetRefreshSession(settings.issuer, hash, r.client, now);
      if found.None? {
        outcome := RevokeReplayedSession(r, now, fates[1..]);
        return;
      }
      var session := found.value;
      if !BindingValid(settings, session.facts) {
        outcome := Revoke(session, r, now, fates[1..]);
        return;
      }
      if r.scope.Some? && r.scope.value != session.facts.scope {
        return RefreshRefused(InvalidScope);
      }
      if session.rotationCount >= settings.maxRotations {
        outcome := Revoke(session, r, now, fates[1..]);
        return;
      }
      var payload := Open(session.cache, ContextOfSession(session));
      if payload.None? || !payload.value.Cache? || payload.value.cache == "" {
        outcome := Revoke(session, r, now, fates[1..]);
        return;
      }
      outcome := RefreshUpstream(session, payload.value.cache, r, now, fates[1..]);
    }

    /** From the call upstream on. */
    method RefreshUpstream(session: Session, cache: string, r: RefreshRequest, now: Time, fates: seq<Fate>)
      returns (outcome: RefreshStage)
      requires store.Valid() && |fates| >= 4
      modifies store
      ensures store.Valid()
      ensures (Refreshing(r, now, outcome), store.Contents())
           == Finish(settings, Refreshing(r, now, AtUpstream(session, cache)), old(store.Contents()), map[], 0, fates)
    {
      FinishStep(settings, Refreshing(r, now, AtUpstream(session, cache)), store.Contents(), map[], 0, fates);
      match fates[0].reply {
        case Denied => outcome := Revoke(session, r, now, fates[1..]);
        case InvalidToken => outcome := Revoke(session, r, now, fates[1..]);
        case Identified(owner, accessToken, expiresIn, renewed) =>
          if owner != session.facts.owner {
            outcome := Revoke(session, r, now, fates[1..]);
          } else {
            outcome := RotateHandle(session, Tokens(accessToken, expiresIn), renewed, r, now, fates[1..]);
          }
        case _ => outcome := RefreshRefused(Unavailable);
      }
    }

    /** From the draw of the next handle on. */
    method RotateHandle(session: Session, tokens: Tokens, renewed: string, r: RefreshRequest, now: Time,
                        fates: seq<Fate>)
      returns (outcome: RefreshStage)
      requires store.Valid() && |fates| >= 3
      modifies store
      ensures store.Valid()
      ensures (Refreshing(r, now, outcome), store.Contents())
           == Finish(settings, Refreshing(r, now, Swapping(session, tokens, renewed)), old(store.Contents()), map[], 0,
                     fates)
    {
      FinishStep(settings, Refreshing(r, now, Swapping(session, tokens, renewed)), store.Contents(), map[], 0, fates);
      var handle := fates[0].first;
      var next := Sha256(handle);
      var rotated := session.(tokenHash := next, rotationCount := session.rotationCount + 1);
      var sealedCache := Sealed(ContextOfSession(rotated), Cache(renewed));
      if fates[0].storeFails {
        return RefreshRefused(Unavailable);
      }
      var result := store.RotateRefreshSession(settings.issuer, session.id, session.facts.client, Sha256(r.handle),
                                               next, sealedCache, settings.maxRotations, now);
      match result {
        case Failed => outcome := RefreshRefused(Unavailable);
        case LimitReached => outcome := RefreshRefused(InvalidGrant);
        case Conflict => outcome := RevokeReplayedSession(r, now, fates[1..]);
        case Rotated => outcome := Refreshed(tokens, handle);
      }
    }

    /** Stores a new session for a redeemed code; the handle, the id and the family are the fate's draws. */
    method Issue(code: AuthCode, cache: string, now: Time, f: Fate) returns (handle: Option<string>)
      requires store.Valid()
      modifies store
      ensures store.Valid()
      ensures cache != "" && !f.storeFails ==>
        var a := CreateSession(old(store.Contents()),
                               NewSession(settings, code, f.second, f.first, f.third, cache, now));
        store.Contents() == a.tables && handle == if a.answer == Inserted then Some(f.first) else None
      ensures cache == "" || f.storeFails ==> store.Contents() == old(store.Contents()) && handle == None
    {
      if cache == "" {
        return None;
      }
      var facts := SessionFacts(settings.issuer, code.terms.client, code.owner, code.terms.scope, code.terms.resource,
                                now, now + settings.sessionTtl, f.third);
      var session := Session(f.second, facts, Sha256(f.first), Blank, now, None, 0);
      session := session.(cache := Sealed(ContextOfSession(session), Cache(cache)));
      if f.storeFails {
        return None;
      }
      var inserted := store.CreateSession(session);
      return if inserted == Inserted then Some(f.first) else None;
    }
  }

  // ----- authorization -----

  class OAuthAuthorizationService {
    const settings: Settings
    const store: SQLiteOAuthStore
    const sessionService: OAuthSessionService

    constructor (settings: Settings, sessionService: OAuthSessionService)
      requires sessionService.settings == settings
      ensures this.settings == settings && this.sessionService == sessionService && store == sessionService.store
      ensures Wired()
    {
      this.settings := settings;
      this.sessionService := sessionService;
      this.store := sessionService.store;
    }

    ghost predicate Wired() {
      sessionService.store == store && sessionService.settings == settings
    }

    /** The whole call; `now` is read after upstream has begun the sign-in. */
    method Authorize(r: AuthorizeRequest, clients: map<string, Client>, down: bool, now: Time, fates: seq<Fate>)
      returns (outcome: AuthorizeStage)
      requires store.Valid() && |fates| >= 2
      modifies store
      ensures store.Valid()
      ensures (Authorizing(TermsOf(settings, r), r.clientState, outcome), store.Contents())
           == Finish(settings, Arrival(settings, clients, now, OAuthProtocol.Authorize(0, r, down)),
                     old(store.Contents()), clients, now, fates)
    {
      if r.responseType != "code" {
        return AuthorizeRefused(UnsupportedResponseType);
      }
      if r.challengeMethod != "S256" || (r.challenge.NoImage? && !TokenShaped(r.challenge.text)) {
        return AuthorizeRefused(InvalidRequest);
      }
      if r.scope != settings.requiredScopes {
        return AuthorizeRefused(InvalidScope);
      }
      var resource := if r.resource == "" then settings.resource else r.resource;
      if resource != settings.resource {
        return AuthorizeRefused(InvalidTarget);
      }
      if down {
        return AuthorizeRefused(Unavailable);
      }
      if r.client !in clients {
        return AuthorizeRefused(InvalidClient);
      }
      if r.redirect !in clients[r.client].redirects {
        return AuthorizeRefused(InvalidRequest);
      }
      outcome := AuthorizeUpstream(Terms(r.client, r.redirect, r.challenge, r.scope, resource), r.clientState, clients,
                                   now, fates);
    }

    /** From the call upstream on. */
    method AuthorizeUpstream(terms: Terms, clientState: string, ghost clients: map<string, Client>, now: Time,
                             fates: seq<Fate>)
      returns (outcome: AuthorizeStage)
      requires store.Valid() && |fates| >= 2
      modifies store
      ensures store.Valid()
      ensures (Authorizing(terms, clientState, outcome), store.Contents())
           == Finish(settings, Authorizing(terms, clientState, Beginning), old(store.Contents()), clients, now, fates)
    {
      ghost var proc := Authorizing(terms, clientState, Beginning);
      FinishStep(settings, proc, store.Contents(), clients, now, fates);
      if !fates[0].reply.Began? {
        return AuthorizeRefused(Unavailable);
      }
      var flow := fates[0].reply.flow;
      FinishStep(settings, proc.(authorize := Storing(flow, now)), store.Contents(), clients, now, fates[1..]);
      var state, id := fates[1].first, fates[1].second;
      var tx := Transaction(Sha256(id), settings.issuer, terms, clientState, Sha256(state), Blank,
                            now, now + settings.transactionTtl, None);
      tx := tx.(flow := Sealed(ContextOfTransaction(tx), Flow(flow)));
      if fates[1].storeFails {
        return AuthorizeRefused(Unavailable);
      }
      var inserted := store.CreateTransaction(tx);
      return if inserted == Inserted then Started(state) else AuthorizeRefused(Unavailable);
    }

    /** The whole call; `later` is read after upstream has redeemed the response. */
    method Complete(state: string, denied: bool, now: Time, later: Time, fates: seq<Fate>)
      returns (outcome: CompleteStage)
      requires store.Valid() && |fates| >= 3
      modifies store
      ensures store.Valid()
      ensures (Completing(state, denied, outcome), store.Contents())
           == Finish(settings, Arrival(settings, map[], now, OAuthProtocol.Complete(0, state, denied)),
                     old(store.Contents()), map[], later, fates)
    {
      if state == "" {
        return CompleteRefused(InvalidRequest);
      }
      FinishStep(settings, Completing(state, denied, Consuming(now)), store.Contents(), map[], later, fates);
      if fates[0].storeFails {
        return CompleteRefused(Unavailable);
      }
      var consumed := store.ConsumeTransaction(settings.issuer, Sha256(state), now);
      if consumed.None? {
        return CompleteRefused(InvalidRequest);
      }
      var tx := consumed.value;
      if denied {
        return CompleteRefused(AccessDenied);
      }
      var payload := Open(tx.flow, ContextOfTransaction(tx));
      if payload.None? || !payload.value.Flow? {
        return CompleteRefused(ServerError);
      }
      outcome := CompleteUpstream(tx, state, denied, later, fates[1..]);
    }

    /** From the call upstream on. */
    method CompleteUpstream(tx: Transaction, ghost state: string, ghost denied: bool, now: Time, fates: seq<Fate>)
      returns (outcome: CompleteStage)
      requires store.Valid() && |fates| >= 2
      modifies store
      ensures store.Valid()
      ensures (Completing(state, denied, outcome), store.Contents())
           == Finish(settings, Completing(state, denied, Contacting(tx)), old(store.Contents()), map[], now, fates)
    {
      ghost var proc := Completing(state, denied, Contacting(tx));
      FinishStep(settings, proc, store.Contents(), map[], now, fates);
      if !fates[0].reply.Identified? {
        return CompleteRefused(ServerError);
      }
      var reply := fates[0].reply;
      var bundle := Bundle(reply.accessToken, now + reply.expiresIn, reply.cache);
      FinishStep(settings, proc.(complete := Issuing(tx, reply.owner, bundle, now)), store.Contents(), map[], now,
                 fates[1..]);
      var secret := fates[1].first;
      var code := AuthCode(Sha256(secret), settings.issuer, tx.terms, reply.owner, Blank, now, now + settings.codeTtl,
                           None);
      code := code.(bundle := Sealed(ContextOfCode(code), bundle));
      if fates[1].storeFails {
        return CompleteRefused(Unavailable);
      }
      var inserted := store.CreateCode(code);
      if inserted != Inserted {
        return CompleteRefused(Unavailable);
      }
      return Redirected(tx.terms.redirect, secret, tx.clientState);
    }

    method Exchange(r: ExchangeRequest, clients: map<string, Client>, now: Time, fates: seq<Fate>)
      returns (outcome: ExchangeStage)
      requires store.Valid() && Wired() && |fates| >= 3
      modifies store
      ensures store.Valid()
      ensures (Exchanging(r, outcome), store.Contents())
           == Finish(settings, Arrival(settings, clients, now, OAuthProtocol.Exchange(0, r)), old(store.Contents()),
                     clients, now, fates)
    {
      if r.resource.Some? && r.resource.value != settings.resource {
        return ExchangeRefused(InvalidTarget);
      }
      if !VerifierShaped(r.verifier) {
        return ExchangeRefused(InvalidGrant);
      }
      FinishStep(settings, Exchanging(r, Redeeming(now)), store.Contents(), clients, now, fates);
      if fates[0].storeFails {
        return ExchangeRefused(Unavailable);
      }
      var consumed := store.ConsumeCode(settings.issuer, Sha256(r.code), r.client, r.redirect, S256(r.verifier), now);
      if consumed.None? {
        return ExchangeRefused(InvalidGrant);
      }
      var code := consumed.value;
      if code.terms.resource != settings.resource || code.terms.scope != settings.requiredScopes {
        return ExchangeRefused(InvalidGrant);
      }
      outcome := Grant(code, r, clients, now, fates[1..]);
    }

    /** From the second look at the client on. */
    method Grant(code: AuthCode, r: ExchangeRequest, clients: map<string, Client>, now: Time, fates: seq<Fate>)
      returns (outcome: ExchangeStage)
      requires store.Valid() && Wired() && |fates| >= 2
      modifies store
      ensures store.Valid()
      ensures (Exchanging(r, outcome), store.Contents())
           == Finish(settings, Exchanging(r, Granting(code, now)), old(store.Contents()), clients, now, fates)
    {
      FinishStep(settings, Exchanging(r, Granting(code, now)), store.Contents(), clients, now, fates);
      if fates[0].storeFails {
        return ExchangeRefused(Unavailable);
      }
      if r.client !in clients {
        return ExchangeRefused(InvalidClient);
      }
      var payload := Open(code.bundle, ContextOfCode(code));
      if payload.None? || !payload.value.Bundle? {
        return ExchangeRefused(InvalidGrant);
      }
      var bundle := payload.value;
      if bundle.accessToken == "" || bundle.cache == "" || bundle.accessExpiresAt - now <= 0 {
        return ExchangeRefused(InvalidGrant);
      }
      var tokens := Tokens(bundle.accessToken, bundle.accessExpiresAt - now);
      if !clients[r.client].mayRefresh {
        return Granted(tokens, None);
      }
      ghost var stage := Opening(code, tokens, bundle.cache, now);
      FinishStep(settings, Exchanging(r, stage), store.Contents(), clients, now, fates[1..]);
      var handle := sessionService.Issue(code, bundle.cache, now, fates[1]);
      return if handle.Some? then Granted(tokens, handle) else ExchangeRefused(Unavailable);
    }

    method Refresh(r: RefreshRequest, clients: map<string, Client>, down: bool, now: Time, fates: seq<Fate>)
      returns (outcome: RefreshStage)
      requires store.Valid() && Wired() && |fates| >= 5
      modifies store
      ensures store.Valid()
      ensures (Refreshing(r, now, outcome), store.Contents())
           == Finish(settings, Arrival(settings, clients, now, OAuthProtocol.Refresh(0, r, down)),
                     old(store.Contents()), map[], 0, fates)
    {
      if r.resource.Some? && r.resource.value != settings.resource {
        return RefreshRefused(InvalidTarget);
      }
      if down {
        return RefreshRefused(Unavailable);
      }
      if r.client !in clients {
        return RefreshRefused(InvalidGrant);
      }
      if !clients[r.client].mayRefresh {
        return RefreshRefused(UnauthorizedClient);
      }
      outcome := sessionService.Refresh(r, now, fates);
    }
  }

  // ----- an uninterrupted call is a stretch of a run -----

  /** The world after a process took a step. */
  ghost function Moved(s: Settings, w: World, p: nat, f: Fate): (w': World)
    requires p in w.procs
    ensures p in w'.procs && w'.clients == w.clients && w'.clock == w.clock
  {
    var x := Move(s, w, p, f);
    w.(db := x.db, ledger := x.ledger, procs := w.procs[p := x.proc])
  }

  ghost function Alone(s: Settings, w: World, p: nat, fates: seq<Fate>): World
    requires p in w.procs
    decreases |fates|
  {
    if fates == [] then w else Alone(s, Moved(s, w, p, fates[0]), p, fates[1..])
  }

  predicate SameTables(x: Effect, y: Effect) {
    x.proc == y.proc && x.db == y.db
  }

  lemma AuthorizeSeesTables(s: Settings, w: World, p: nat, proc: Proc, f: Fate)
    requires proc.Authorizing?
    ensures SameTables(AdvanceAuthorize(s, w, p, proc, f),
                       AdvanceAuthorize(s, Surroundings(w.db, w.clients, w.clock), 0, proc, f))
    ensures Over(proc) ==> AdvanceAuthorize(s, w, p, proc, f) == Effect(w.db, w.ledger, proc)
  {}

  lemma CompleteSeesTables(s: Settings, w: World, p: nat, proc: Proc, f: Fate)
    requires proc.Completing?
    ensures SameTables(AdvanceComplete(s, w, p, proc, f),
                       AdvanceComplete(s, Surroundings(w.db, w.clients, w.clock), 0, proc, f))
    ensures Over(proc) ==> AdvanceComplete(s, w, p, proc, f) == Effect(w.db, w.ledger, proc)
  {}

  lemma ExchangeSeesTables(s: Settings, w: World, p: nat, proc: Proc, f: Fate)
    requires proc.Exchanging?
    ensures SameTables(AdvanceExchange(s, w, p, proc, f),
                       AdvanceExchange(s, Surroundings(w.db, w.clients, w.clock), 0, proc, f))
    ensures Over(proc) ==> AdvanceExchange(s, w, p, proc, f) == Effect(w.db, w.ledger, proc)
  {}

  lemma RefreshSeesTables(s: Settings, w: World, p: nat, proc: Proc, f: Fate)
    requires proc.Refreshing?
    ensures SameTables(AdvanceRefresh(s, w, p, proc, f),
                       AdvanceRefresh(s, Surroundings(w.db, w.clients, w.clock), 0, proc, f))
    ensures Over(proc) ==> AdvanceRefresh(s, w, p, proc, f) == Effect(w.db, w.ledger, proc)
  {}

  lemma MovedIsNext(s: Settings, w: World, p: nat, f: Fate)
    requires p in w.procs
    ensures (Moved(s, w, p, f).procs[p], Moved(s, w, p, f).db) == Next(s, w.procs[p], w.db, w.clients, w.clock, f)
    ensures Over(w.procs[p]) ==> Moved(s, w, p, f).procs[p] == w.procs[p] && Moved(s, w, p, f).db == w.db
  {
    match w.procs[p]
    case Authorizing(_, _, _) => AuthorizeSeesTables(s, w, p, w.procs[p], f);
    case Completing(_, _, _) => CompleteSeesTables(s, w, p, w.procs[p], f);
    case Exchanging(_, _) => ExchangeSeesTables(s, w, p, w.procs[p], f);
    case Refreshing(_, _, _) => RefreshSeesTables(s, w, p, w.procs[p], f);
  }

  /** The steps of one process in a row, inside any world, do what the uninterrupted call does. */
  lemma {:induction false} AloneIsFinish(s: Settings, w: World, p: nat, fates: seq<Fate>)
    requires p in w.procs
    ensures p in Alone(s, w, p, fates).procs
    ensures (Alone(s, w, p, fates).procs[p], Alone(s, w, p, fates).db)
         == Finish(s, w.procs[p], w.db, w.clients, w.clock, fates)
    decreases |fates|
  {
    if fates != [] {
      MovedIsNext(s, w, p, fates[0]);
      AloneIsFinish(s, Moved(s, w, p, fates[0]), p, fates[1..]);
    }
  }

  /** A refresh request looks at neither the clients nor the clock of its surroundings once it has arrived. */
  lemma {:induction false} RefreshIgnoresSurroundings(s: Settings, r: RefreshRequest, now: Time, stage: RefreshStage,
                                                      db: Tables, clients: map<string, Client>, clock: Time,
                                                      fates: seq<Fate>)
    ensures Finish(s, Refreshing(r, now, stage), db, clients, clock, fates)
         == Finish(s, Refreshing(r, now, stage), db, map[], 0, fates)
    decreases |fates|
  {
    var proc := Refreshing(r, now, stage);
    if fates != [] && !Over(proc) {
      var next := Next(s, proc, db, clients, clock, fates[0]);
      RefreshNextIgnores(s, r, now, stage, db, clients, clock, fates[0]);
      RefreshIgnoresSurroundings(s, r, now, next.0.refresh, next.1, clients, clock, fates[1..]);
    }
  }

  lemma RefreshNextIgnores(s: Settings, r: RefreshRequest, now: Time, stage: RefreshStage, db: Tables,
                           clients: map<string, Client>, clock: Time, f: Fate)
    ensures Next(s, Refreshing(r, now, stage), db, clients, clock, f)
         == Next(s, Refreshing(r, now, stage), db, map[], 0, f)
    ensures var proc := Next(s, Refreshing(r, now, stage), db, clients, clock, f).0;
            proc.Refreshing? && proc.refreshRequest == r && proc.now == now
  {}

  /** The fates may come one after another, with nothing in between. */
  ghost predicate AllowedAlone(s: Settings, w: World, p: nat, fates: seq<Fate>)
    requires p in w.procs
    decreases |fates|
  {
    fates == [] || (FateAllowed(w, fates[0]) && AllowedAlone(s, Moved(s, w, p, fates[0]), p, fates[1..]))
  }

  ghost function AloneWorlds(s: Settings, w: World, p: nat, fates: seq<Fate>): seq<World>
    requires p in w.procs
    decreases |fates|
  {
    if fates == [] then [] else
      var w' := Moved(s, w, p, fates[0]);
      [w'] + AloneWorlds(s, w', p, fates[1..])
  }

  function Advances(p: nat, fates: seq<Fate>): seq<Event> {
    if fates == [] then [] else [Advance(p, fates[0])] + Advances(p, fates[1..])
  }

  lemma RunGrows(s: Settings, run: seq<World>, events: seq<Event>, p: nat, f: Fate)
    requires Run(s, run, events)
    requires var w := run[|run| - 1]; p in w.procs && FateAllowed(w, f)
    ensures Run(s, run + [Moved(s, run[|run| - 1], p, f)], events + [Advance(p, f)])
  {
    var w := run[|run| - 1];
    var run', events' := run + [Moved(s, w, p, f)], events + [Advance(p, f)];
    MovedIsApplied(s, w, p, f);
    forall i | 0 <= i < |events'| ensures Follows(s, run', events', i) {
      assert i < |events| ==> Follows(s, run, events, i);
    }
  }

  lemma MovedIsApplied(s: Settings, w: World, p: nat, f: Fate)
    requires Enabled(w, Advance(p, f))
    ensures Moved(s, w, p, f) == Apply(s, w, Advance(p, f))
  {}

  /** With allowed fates, the steps of one process in a row continue a run, and `Alone` is where it ends. */
  lemma {:induction false} AloneContinuesRun(s: Settings, run: seq<World>, events: seq<Event>, p: nat, fates: seq<Fate>)
    requires Run(s, run, events)
    requires var w := run[|run| - 1]; p in w.procs && AllowedAlone(s, w, p, fates)
    ensures var w, run' := run[|run| - 1], run + AloneWorlds(s, run[|run| - 1], p, fates);
            && Run(s, run', events + Advances(p, fates))
            && run'[|run'| - 1] == Alone(s, w, p, fates)
    decreases |fates|
  {
    var w := run[|run| - 1];
    if fates == [] {
      assert run + AloneWorlds(s, w, p, fates) == run && events + Advances(p, fates) == events;
    } else {
      var w' := Moved(s, w, p, fates[0]);
      RunGrows(s, run, events, p, fates[0]);
      AloneContinuesRun(s, run + [w'], events + [Advance(p, fates[0])], p, fates[1..]);
      assert run + AloneWorlds(s, w, p, fates) == (run + [w']) + AloneWorlds(s, w', p, fates[1..]);
      assert events + Advances(p, fates) == (events + [Advance(p, fates[0])]) + Advances(p, fates[1..]);
    }
  }
}
