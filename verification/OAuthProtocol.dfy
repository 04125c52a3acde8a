/**
 The OAuth services as a concurrent system. Every request in flight is a process
 with a stage; between two stages of one process any number of stages of other
 processes may run. A store transaction, together with the random draws that
 it is the first to store, is one atomic step; each process keeps the time it
 read at its start, so it may act on a stale clock.

 Upstream replies, store failures and drawn values are inputs of a step. A drawn
 value is fresh: it differs from every value drawn before and from every secret
 that some request has presented.
 */
module OAuthProtocol {
  import opened Basics
  import opened OAuthRecords
  import opened OAuthTables

  datatype Settings = Settings(
    issuer: string, resource: string, requiredScopes: set<string>,
    transactionTtl: nat, codeTtl: nat, sessionTtl: nat, maxRotations: nat)

  datatype Refusal =
    | UnsupportedResponseType | InvalidRequest | InvalidScope | InvalidTarget | InvalidClient
    | UnauthorizedClient | InvalidGrant | AccessDenied | ServerError | Unavailable

  // ----- requests -----

  datatype AuthorizeRequest = AuthorizeRequest(
    responseType: string, challengeMethod: string, client: string, redirect: string,
    challenge: Challenge, scope: set<string>, resource: string, clientState: string)

  datatype ExchangeRequest = ExchangeRequest(
    code: string, client: string, redirect: string, verifier: string, resource: Option<string>)

  datatype RefreshRequest = RefreshRequest(
    handle: string, client: string, scope: Option<set<string>>, resource: Option<string>)

  predicate VerifierShaped(text: string) {
    43 <= |text| <= 128 && forall i :: 0 <= i < |text| ==> UrlSafe(text[i]) || text[i] == '.' || text[i] == '~'
  }

  function TermsOf(s: Settings, r: AuthorizeRequest): Terms {
    Terms(r.client, r.redirect, r.challenge, r.scope, if r.resource == "" then s.resource else r.resource)
  }

  function CheckAuthorize(s: Settings, clients: map<string, Client>, down: bool, r: AuthorizeRequest)
    : Option<Refusal>
  {
    if r.responseType != "code" then Some(UnsupportedResponseType)
    else if r.challengeMethod != "S256" then Some(InvalidRequest)
    else if r.challenge.NoImage? && !TokenShaped(r.challenge.text) then Some(InvalidRequest)
    else if r.scope != s.requiredScopes then Some(InvalidScope)
    else if TermsOf(s, r).resource != s.resource then Some(InvalidTarget)
    else if down then Some(Unavailable)
    else if r.client !in clients then Some(InvalidClient)
    else if r.redirect !in clients[r.client].redirects then Some(InvalidRequest)
    else None
  }

  function CheckResource(s: Settings, resource: Option<string>): Option<Refusal> {
    if resource.Some? && resource.value != s.resource then Some(InvalidTarget) else None
  }

  function CheckExchange(s: Settings, r: ExchangeRequest): Option<Refusal> {
    if CheckResource(s, r.resource).Some? then Some(InvalidTarget)
    else if !VerifierShaped(r.verifier) then Some(InvalidGrant)
    else None
  }

  function CheckRefresh(s: Settings, clients: map<string, Client>, down: bool, r: RefreshRequest)
    : Option<Refusal>
  {
    if CheckResource(s, r.resource).Some? then Some(InvalidTarget)
    else if down then Some(Unavailable)
    else if r.client !in clients then Some(InvalidGrant)
    else if !clients[r.client].mayRefresh then Some(UnauthorizedClient)
    else if !TokenShaped(r.handle) then Some(InvalidGrant)
    else None
  }

  // ----- processes -----

  /** What a client is handed: an access token and for how long it lasts. */
  datatype Tokens = Tokens(accessToken: string, expiresIn: int)

  datatype AuthorizeStage =
    | Beginning
    | Storing(flow: string, now: Time)
    | Started(state: string)
    | AuthorizeRefused(refusal: Refusal)

  datatype CompleteStage =
    | Consuming(now: Time)
    | Contacting(tx: Transaction)
    | Issuing(tx: Transaction, owner: Identity, bundle: Payload, now: Time)
    | Redirected(redirect: string, code: string, clientState: string)
    | CompleteRefused(refusal: Refusal)

  datatype ExchangeStage =
    | Redeeming(now: Time)
    | Granting(code: AuthCode, now: Time)
    | Opening(code: AuthCode, tokens: Tokens, cache: string, now: Time)
    | Granted(tokens: Tokens, handle: Option<string>)
    | ExchangeRefused(refusal: Refusal)

  datatype RefreshStage =
    | LookingUp
    | AtUpstream(snap: Session, cache: string)
    | Swapping(snap: Session, tokens: Tokens, cache: string)
    | Revoking(snap: Session)
    | Replaying
    | Committing
    | Refreshed(tokens: Tokens, handle: string)
    | RefreshRefused(refusal: Refusal)

  datatype Proc =
    | Authorizing(terms: Terms, clientState: string, authorize: AuthorizeStage)
    | Completing(state: string, denied: bool, complete: CompleteStage)
    | Exchanging(exchangeRequest: ExchangeRequest, exchange: ExchangeStage)
    | Refreshing(refreshRequest: RefreshRequest, now: Time, refresh: RefreshStage)

  /** The secret that a request brings along. */
  function Presented(proc: Proc): Option<string> {
    match proc
    case Authorizing(_, _, _) => None
    case Completing(state, _, _) => Some(state)
    case Exchanging(r, _) => Some(r.code)
    case Refreshing(r, _, _) => Some(r.handle)
  }

  // ----- the ledger: what has happened so far, kept for the proofs only -----

  datatype Deed =
    | BeganTransaction(tx: Digest)
    | IssuedCode(code: Digest)
    | OpenedSession(sessionId: string, first: Digest)
    | RotatedHandle(sessionId: string, generation: nat, spent: Digest, next: Digest)
    | RevokedSession(sessionId: string)

  datatype CodeBirth = CodeBirth(row: AuthCode, tx: Digest)

  datatype SessionBirth = SessionBirth(facts: SessionFacts, code: Digest)

  datatype Ledger = Ledger(
    issued: map<string, nat>,
    transactions: map<Digest, Transaction>,
    codes: map<Digest, CodeBirth>,
    sessions: map<string, SessionBirth>,
    chains: map<string, seq<Digest>>,
    completedBy: map<Digest, nat>,
    redeemedBy: map<Digest, nat>,
    deeds: map<nat, Deed>)

  function Issue(issued: map<string, nat>, p: nat, drawn: set<string>): map<string, nat> {
    issued + map v | v in drawn :: p
  }

  function RecordTransaction(l: Ledger, p: nat, drawn: set<string>, tx: Transaction): Ledger {
    l.(issued := Issue(l.issued, p, drawn),
       transactions := l.transactions[tx.idHash := tx],
       deeds := l.deeds[p := BeganTransaction(tx.idHash)])
  }

  function RecordCode(l: Ledger, p: nat, drawn: set<string>, code: AuthCode, tx: Digest): Ledger {
    l.(issued := Issue(l.issued, p, drawn),
       codes := l.codes[code.codeHash := CodeBirth(code, tx)],
       deeds := l.deeds[p := IssuedCode(code.codeHash)])
  }

  function RecordSession(l: Ledger, p: nat, drawn: set<string>, session: Session, code: Digest): Ledger {
    l.(issued := Issue(l.issued, p, drawn),
       sessions := l.sessions[session.id := SessionBirth(session.facts, code)],
       chains := l.chains[session.id := [session.tokenHash]],
       deeds := l.deeds[p := OpenedSession(session.id, session.tokenHash)])
  }

  function Chain(l: Ledger, id: string): seq<Digest> {
    if id in l.chains then l.chains[id] else []
  }

  function RecordRotation(l: Ledger, p: nat, snap: Session, next: string): Ledger {
    l.(issued := Issue(l.issued, p, {next}),
       chains := l.chains[snap.id := Chain(l, snap.id) + [Sha256(next)]],
       deeds := l.deeds[p := RotatedHandle(snap.id, snap.rotationCount, snap.tokenHash, Sha256(next))])
  }

  function RecordRevocation(l: Ledger, p: nat, id: string): Ledger {
    l.(deeds := l.deeds[p := RevokedSession(id)])
  }

  // ----- the system -----

  datatype World = World(db: Tables, clients: map<string, Client>, clock: Time, procs: map<nat, Proc>, ledger: Ledger)

  /** What upstream, with the validation of its token, comes to. A lifetime is what is left after the validation. */
  datatype Reply =
    | Unreachable
    | Denied
    | InvalidToken
    | Unverifiable
    | Began(flow: string)
    | Identified(owner: Identity, accessToken: string, expiresIn: int, cache: string)

  /** What the environment decides about one step of one process. */
  datatype Fate = Fate(storeFails: bool, first: string, second: string, third: string, reply: Reply)

  datatype Event =
    | Tick(seconds: nat)
    | Reinitialize
    | Register(client: string, record: Client)
    | Authorize(p: nat, authorizeRequest: AuthorizeRequest, down: bool)
    | Complete(p: nat, state: string, denied: bool)
    | Exchange(p: nat, exchangeRequest: ExchangeRequest)
    | Refresh(p: nat, refreshRequest: RefreshRequest, down: bool)
    | Advance(p: nat, fate: Fate)

  ghost predicate Fresh(w: World, v: string) {
    v !in w.ledger.issued && forall p <- w.procs :: Presented(w.procs[p]) != Some(v)
  }

  ghost predicate FateAllowed(w: World, f: Fate) {
    && Fresh(w, f.first) && Fresh(w, f.second) && Fresh(w, f.third)
    && f.first != f.second && f.first != f.third && f.second != f.third
    && TokenShaped(f.first)
    && (f.reply.Identified? ==> f.reply.cache != "" && f.reply.accessToken != "")
  }

  ghost predicate Enabled(w: World, e: Event) {
    match e
    case Tick(_) => true
    case Reinitialize => true
    case Register(client, _) => client !in w.clients
    case Authorize(p, _, _) => p !in w.procs
    case Complete(p, _, _) => p !in w.procs
    case Exchange(p, _) => p !in w.procs
    case Refresh(p, _, _) => p !in w.procs
    case Advance(p, f) => p in w.procs && FateAllowed(w, f)
  }

  /** What one step of a process does to the tables, the ledger and itself. */
  datatype Effect = Effect(db: Tables, ledger: Ledger, proc: Proc)

  ghost function AdvanceAuthorize(s: Settings, w: World, p: nat, proc: Proc, f: Fate): Effect
    requires proc.Authorizing?
  {
    match proc.authorize
    case Beginning =>
      if f.reply.Began? then Effect(w.db, w.ledger, proc.(authorize := Storing(f.reply.flow, w.clock)))
      else Effect(w.db, w.ledger, proc.(authorize := AuthorizeRefused(Unavailable)))
    case Storing(flow, now) =>
      var tx := NewTransaction(s, proc.terms, proc.clientState, f.first, f.second, flow, now);
      var a := CreateTransaction(w.db, tx);
      if f.storeFails || a.answer == Rejected then
        Effect(w.db, w.ledger, proc.(authorize := AuthorizeRefused(Unavailable)))
      else
        Effect(a.tables, RecordTransaction(w.ledger, p, {f.first, f.second}, tx), proc.(authorize := Started(f.first)))
    case _ => Effect(w.db, w.ledger, proc)
  }

  function NewTransaction(s: Settings, terms: Terms, clientState: string, state: string, id: string, flow: string,
                          now: Time): Transaction
  {
    var tx := Transaction(Sha256(id), s.issuer, terms, clientState, Sha256(state), Blank, now, now + s.transactionTtl,
                          None);
    tx.(flow := Sealed(ContextOfTransaction(tx), Flow(flow)))
  }

  ghost function AdvanceComplete(s: Settings, w: World, p: nat, proc: Proc, f: Fate): Effect
    requires proc.Completing?
  {
    match proc.complete
    case Consuming(now) =>
      var a := ConsumeTransaction(w.db, s.issuer, Sha256(proc.state), now);
      if f.storeFails then Effect(w.db, w.ledger, proc.(complete := CompleteRefused(Unavailable)))
      else if a.answer.None? then Effect(w.db, w.ledger, proc.(complete := CompleteRefused(InvalidRequest)))
      else
        var tx := a.answer.value;
        Effect(a.tables,
               w.ledger.(completedBy := w.ledger.completedBy[tx.idHash := p]),
               proc.(complete := AfterConsuming(tx, proc.denied)))
    case Contacting(tx) =>
      if f.reply.Identified? then
        var bundle := Bundle(f.reply.accessToken, w.clock + f.reply.expiresIn, f.reply.cache);
        Effect(w.db, w.ledger, proc.(complete := Issuing(tx, f.reply.owner, bundle, w.clock)))
      else Effect(w.db, w.ledger, proc.(complete := CompleteRefused(ServerError)))
    case Issuing(tx, owner, bundle, now) =>
      var code := NewCode(s, tx, owner, f.first, bundle, now);
      var a := CreateCode(w.db, code);
      if f.storeFails || a.answer == Rejected then
        Effect(w.db, w.ledger, proc.(complete := CompleteRefused(Unavailable)))
      else
        Effect(a.tables, RecordCode(w.ledger, p, {f.first}, code, tx.idHash),
               proc.(complete := Redirected(tx.terms.redirect, f.first, tx.clientState)))
    case _ => Effect(w.db, w.ledger, proc)
  }

  function AfterConsuming(tx: Transaction, denied: bool): CompleteStage {
    if denied then CompleteRefused(AccessDenied)
    else match Open(tx.flow, ContextOfTransaction(tx))
      case Some(Flow(_)) => Contacting(tx)
      case _ => CompleteRefused(ServerError)
  }

  function NewCode(s: Settings, tx: Transaction, owner: Identity, secret: string, bundle: Payload, now: Time): AuthCode
  {
    var code := AuthCode(Sha256(secret), s.issuer, tx.terms, owner, Blank, now, now + s.codeTtl, None);
    code.(bundle := Sealed(ContextOfCode(code), bundle))
  }

  ghost function AdvanceExchange(s: Settings, w: World, p: nat, proc: Proc, f: Fate): Effect
    requires proc.Exchanging?
  {
    var r := proc.exchangeRequest;
    match proc.exchange
    case Redeeming(now) =>
      var a := ConsumeCode(w.db, s.issuer, Sha256(r.code), r.client, r.redirect, S256(r.verifier), now);
      if f.storeFails then Effect(w.db, w.ledger, proc.(exchange := ExchangeRefused(Unavailable)))
      else if a.answer.None? then Effect(w.db, w.ledger, proc.(exchange := ExchangeRefused(InvalidGrant)))
      else
        Effect(a.tables,
               w.ledger.(redeemedBy := w.ledger.redeemedBy[Sha256(r.code) := p]),
               proc.(exchange := AfterRedeeming(s, a.answer.value, now)))
    case Granting(code, now) =>
      if f.storeFails then Effect(w.db, w.ledger, proc.(exchange := ExchangeRefused(Unavailable)))
      else Effect(w.db, w.ledger, proc.(exchange := AfterGranting(w.clients, r, code, now)))
    case Opening(code, tokens, cache, now) =>
      var session := NewSession(s, code, f.second, f.first, f.third, cache, now);
      var a := CreateSession(w.db, session);
      if f.storeFails || a.answer == Rejected then
        Effect(w.db, w.ledger, proc.(exchange := ExchangeRefused(Unavailable)))
      else
        Effect(a.tables, RecordSession(w.ledger, p, {f.first, f.second, f.third}, session, code.codeHash),
               proc.(exchange := Granted(tokens, Some(f.first))))
    case _ => Effect(w.db, w.ledger, proc)
  }

  function AfterRedeeming(s: Settings, code: AuthCode, now: Time): ExchangeStage {
    if code.terms.resource == s.resource && code.terms.scope == s.requiredScopes then Granting(code, now)
    else ExchangeRefused(InvalidGrant)
  }

  function AfterGranting(clients: map<string, Client>, r: ExchangeRequest, code: AuthCode, now: Time): ExchangeStage {
    if r.client !in clients then ExchangeRefused(InvalidClient)
    else match Open(code.bundle, ContextOfCode(code))
      case Some(Bundle(accessToken, accessExpiresAt, cache)) =>
        if accessToken == "" || cache == "" || accessExpiresAt - now <= 0 then ExchangeRefused(InvalidGrant)
        else
          var tokens := Tokens(accessToken, accessExpiresAt - now);
          if clients[r.client].mayRefresh then Opening(code, tokens, cache, now) else Granted(tokens, None)
      case _ => ExchangeRefused(InvalidGrant)
  }

  function NewSession(s: Settings, code: AuthCode, id: string, handle: string, family: string, cache: string,
                      now: Time): Session
  {
    var facts := SessionFacts(s.issuer, code.terms.client, code.owner, code.terms.scope, code.terms.resource,
                              now, now + s.sessionTtl, family);
    var session := Session(id, facts, Sha256(handle), Blank, now, None, 0);
    session.(cache := Sealed(ContextOfSession(session), Cache(cache)))
  }

  // ----- the refresh request -----

  predicate BindingValid(s: Settings, facts: SessionFacts) {
    facts.issuer == s.issuer && facts.resource == s.resource && facts.scope == s.requiredScopes
  }

  function AfterLookup(s: Settings, r: RefreshRequest, snap: Session): RefreshStage {
    if !BindingValid(s, snap.facts) then Revoking(snap)
    else if r.scope.Some? && r.scope.value != snap.facts.scope then RefreshRefused(InvalidScope)
    else if snap.rotationCount >= s.maxRotations then Revoking(snap)
    else match Open(snap.cache, ContextOfSession(snap))
      case Some(Cache(cache)) => if cache == "" then Revoking(snap) else AtUpstream(snap, cache)
      case _ => Revoking(snap)
  }

  function AfterUpstream(snap: Session, reply: Reply): RefreshStage {
    match reply
    case Identified(owner, accessToken, expiresIn, cache) =>
      if owner != snap.facts.owner then Revoking(snap) else Swapping(snap, Tokens(accessToken, expiresIn), cache)
    case Denied => Revoking(snap)
    case InvalidToken => Revoking(snap)
    case _ => RefreshRefused(Unavailable)
  }

  /** The cache resealed for the successor that the snapshot predicts. */
  function Resealed(snap: Session, next: Digest, cache: string): Blob {
    Sealed(ContextOfSession(snap.(tokenHash := next, rotationCount := snap.rotationCount + 1)), Cache(cache))
  }

  predicate CallsStore(stage: RefreshStage) {
    stage.LookingUp? || stage.Swapping? || stage.Revoking? || stage.Replaying? || stage.Committing?
  }

  ghost function AdvanceRefresh(s: Settings, w: World, p: nat, proc: Proc, f: Fate): Effect
    requires proc.Refreshing?
  {
    var r, now := proc.refreshRequest, proc.now;
    var hash := Sha256(r.handle);
    if f.storeFails && CallsStore(proc.refresh)
    then Effect(w.db, w.ledger, proc.(refresh := RefreshRefused(Unavailable)))
    else match proc.refresh
      case LookingUp =>
        match FindCurrent(w.db, s.issuer, hash, r.client, now) {
          case None => Effect(w.db, w.ledger, proc.(refresh := Replaying))
          case Some(snap) => Effect(w.db, w.ledger, proc.(refresh := AfterLookup(s, r, snap)))
        }
      case AtUpstream(snap, _) =>
        Effect(w.db, w.ledger, proc.(refresh := AfterUpstream(snap, f.reply)))
      case Swapping(snap, tokens, cache) =>
        var next := Sha256(f.first);
        var a := Rotate(w.db, s.issuer, snap.id, snap.facts.client, hash, next, Resealed(snap, next, cache),
                        s.maxRotations, now);
        match a.answer {
          case Failed => Effect(w.db, w.ledger, proc.(refresh := RefreshRefused(Unavailable)))
          case Conflict => Effect(w.db, w.ledger, proc.(refresh := Replaying))
          case LimitReached =>
            Effect(a.tables, RecordRevocation(w.ledger, p, snap.id), proc.(refresh := RefreshRefused(InvalidGrant)))
          case Rotated =>
            Effect(a.tables, RecordRotation(w.ledger, p, snap, f.first), proc.(refresh := Refreshed(tokens, f.first)))
        }
      case Revoking(snap) =>
        var a := Revoke(w.db, s.issuer, snap.id, snap.facts.client, hash, now);
        if a.answer then
          Effect(a.tables, RecordRevocation(w.ledger, p, snap.id), proc.(refresh := RefreshRefused(InvalidGrant)))
        else Effect(w.db, w.ledger, proc.(refresh := Replaying))
      case Replaying =>
        if FindReplayed(w.db, s.issuer, hash, r.client, now).None?
        then Effect(w.db, w.ledger, proc.(refresh := RefreshRefused(InvalidGrant)))
        else Effect(w.db, w.ledger, proc.(refresh := Committing))
      case Committing =>
        var a := RevokeReplayed(w.db, s.issuer, hash, r.client, now);
        (match a.answer
         case None => Effect(w.db, w.ledger, proc.(refresh := RefreshRefused(InvalidGrant)))
         case Some(row) =>
           Effect(a.tables, RecordRevocation(w.ledger, p, row.id), proc.(refresh := RefreshRefused(InvalidGrant))))
      case _ => Effect(w.db, w.ledger, proc)
  }

  // ----- steps and runs -----

  ghost function Move(s: Settings, w: World, p: nat, f: Fate): Effect
    requires p in w.procs
  {
    match w.procs[p]
    case Authorizing(_, _, _) => AdvanceAuthorize(s, w, p, w.procs[p], f)
    case Completing(_, _, _) => AdvanceComplete(s, w, p, w.procs[p], f)
    case Exchanging(_, _) => AdvanceExchange(s, w, p, w.procs[p], f)
    case Refreshing(_, _, _) => AdvanceRefresh(s, w, p, w.procs[p], f)
  }

  function Arrival(s: Settings, clients: map<string, Client>, clock: Time, e: Event): Proc
    requires e.Authorize? || e.Complete? || e.Exchange? || e.Refresh?
  {
    match e
    case Authorize(_, r, _) =>
      Authorizing(TermsOf(s, r), r.clientState,
                  match CheckAuthorize(s, clients, e.down, r)
                  case None => Beginning case Some(x) => AuthorizeRefused(x))
    case Complete(_, state, denied) =>
      Completing(state, denied, if state == "" then CompleteRefused(InvalidRequest) else Consuming(clock))
    case Exchange(_, r) =>
      Exchanging(r, match CheckExchange(s, r) case None => Redeeming(clock) case Some(x) => ExchangeRefused(x))
    case Refresh(_, r, _) =>
      Refreshing(r, clock, match CheckRefresh(s, clients, e.down, r)
                 case None => LookingUp case Some(x) => RefreshRefused(x))
  }

  ghost function Apply(s: Settings, w: World, e: Event): World
    requires Enabled(w, e)
  {
    match e
    case Tick(n) => w.(clock := w.clock + n)
    case Reinitialize => w.(db := Reclaim(w.db, w.clock))
    case Register(client, record) => w.(clients := w.clients[client := record])
    case Advance(p, f) =>
      var x := Move(s, w, p, f);
      w.(db := x.db, ledger := x.ledger, procs := w.procs[p := x.proc])
    case _ => w.(procs := w.procs[e.p := Arrival(s, w.clients, w.clock, e)])
  }

  ghost predicate Initial(w: World) {
    && w.db == Tables(map[], map[], map[], map[])
    && w.procs == map[]
    && w.ledger == Ledger(map[], map[], map[], map[], map[], map[], map[], map[])
  }

  /** A run is a sequence of worlds, each one the result of an enabled event in the one before. */
  ghost predicate Run(s: Settings, run: seq<World>, events: seq<Event>) {
    && |run| == |events| + 1
    && Initial(run[0])
    && forall i {:trigger Follows(s, run, events, i)} :: 0 <= i < |events| ==> Follows(s, run, events, i)
  }

  ghost predicate Follows(s: Settings, run: seq<World>, events: seq<Event>, i: int)
    requires |run| == |events| + 1 && 0 <= i < |events|
  {
    Enabled(run[i], events[i]) && run[i + 1] == Apply(s, run[i], events[i])
  }
}
