/**
 What holds in every reachable world: an invariant of the ledger alone, one of
 the tables against the ledger, and one of each process. The ledger only grows,
 so the third is stable under the steps of other processes.
 */
module OAuthInvariant {
  import opened Basics
  import opened OAuthRecords
  import opened OAuthTables
  import opened OAuthProtocol

  /** A handle's place in its family: the session, and the generation counted from zero. */
  datatype Place = Place(id: string, generation: nat)

  function Home(l: Ledger, hash: Digest): Option<Place> {
    if hash.preimage !in l.issued || l.issued[hash.preimage] !in l.deeds then None
    else
      match l.deeds[l.issued[hash.preimage]]
      case OpenedSession(id, first) => if first == hash then Some(Place(id, 0)) else None
      case RotatedHandle(id, g, _, next) => if next == hash then Some(Place(id, g + 1)) else None
      case _ => None
  }

  // ----- the ledger -----

  ghost predicate TransactionBorn(s: Settings, l: Ledger, h: Digest)
    requires h in l.transactions
  {
    var tx := l.transactions[h];
    && tx.idHash == h && tx.issuer == s.issuer && tx.completedAt.None?
    && tx.terms.scope == s.requiredScopes && tx.terms.resource == s.resource
    && (exists flow :: tx.flow == Sealed(ContextOfTransaction(tx), Flow(flow)))
    && h.preimage in l.issued && tx.entraStateHash.preimage in l.issued
    && l.issued[h.preimage] in l.deeds
    && l.deeds[l.issued[h.preimage]] == BeganTransaction(h)
  }

  predicate Bundled(code: AuthCode) {
    code.bundle.Sealed? && code.bundle.context == ContextOfCode(code) && code.bundle.payload.Bundle?
    && code.bundle.payload.accessToken != "" && code.bundle.payload.cache != ""
  }

  ghost predicate CodeBorn(s: Settings, l: Ledger, c: Digest)
    requires c in l.codes
  {
    var code, tx := l.codes[c].row, l.codes[c].tx;
    && code.codeHash == c && code.issuer == s.issuer && code.usedAt.None?
    && Bundled(code)
    && tx in l.transactions && code.terms == l.transactions[tx].terms
    && c.preimage in l.issued
    && tx in l.completedBy && l.completedBy[tx] == l.issued[c.preimage]
    && l.issued[c.preimage] in l.deeds
    && l.deeds[l.issued[c.preimage]] == IssuedCode(c)
  }

  ghost predicate SessionBorn(s: Settings, l: Ledger, id: string)
    requires id in l.sessions
  {
    var facts, c := l.sessions[id].facts, l.sessions[id].code;
    && BindingValid(s, facts)
    && c in l.codes
    && facts.client == l.codes[c].row.terms.client && facts.owner == l.codes[c].row.owner
    && facts.scope == l.codes[c].row.terms.scope && facts.resource == l.codes[c].row.terms.resource
    && id in l.issued
    && c in l.redeemedBy && l.redeemedBy[c] == l.issued[id]
    && id in l.chains && 0 < |l.chains[id]| <= s.maxRotations + 1
    && l.issued[id] in l.deeds
    && l.deeds[l.issued[id]] == OpenedSession(id, l.chains[id][0])
  }

  ghost predicate DeedDone(l: Ledger, p: nat)
    requires p in l.deeds
  {
    match l.deeds[p]
    case BeganTransaction(h) => h in l.transactions && h.preimage in l.issued && l.issued[h.preimage] == p
    case IssuedCode(c) => c in l.codes && c.preimage in l.issued && l.issued[c.preimage] == p
    case OpenedSession(id, first) =>
      && id in l.sessions && id in l.chains && 0 < |l.chains[id]| && l.chains[id][0] == first
      && id in l.issued && l.issued[id] == p
      && first.preimage in l.issued && l.issued[first.preimage] == p
    case RotatedHandle(id, g, spent, next) =>
      && id in l.sessions && id in l.chains && g + 1 < |l.chains[id]|
      && l.chains[id][g] == spent && l.chains[id][g + 1] == next
      && next.preimage in l.issued && l.issued[next.preimage] == p
    case RevokedSession(id) => id in l.sessions
  }

  ghost predicate Placed(l: Ledger, id: string, g: int)
    requires id in l.chains && 0 <= g < |l.chains[id]|
  {
    Home(l, l.chains[id][g]) == Some(Place(id, g)) && TokenShaped(l.chains[id][g].preimage)
  }

  // The triggers keep the solver from following the chain of causes on its own.

  ghost predicate LedgerInv(s: Settings, l: Ledger) {
    && (forall h {:trigger TransactionBorn(s, l, h)} :: h in l.transactions ==> TransactionBorn(s, l, h))
    && (forall c {:trigger CodeBorn(s, l, c)} :: c in l.codes ==> CodeBorn(s, l, c))
    && (forall id {:trigger SessionBorn(s, l, id)} :: id in l.sessions ==> SessionBorn(s, l, id))
    && (forall p {:trigger DeedDone(l, p)} :: p in l.deeds ==> DeedDone(l, p))
    && ChainsInv(l)
    && DrawersActed(l)
    && l.completedBy.Keys <= l.transactions.Keys
    && l.redeemedBy.Keys <= l.codes.Keys
  }

  ghost predicate ChainsInv(l: Ledger) {
    && l.chains.Keys == l.sessions.Keys
    && (forall id, g {:trigger Placed(l, id, g)} :: id in l.chains && 0 <= g < |l.chains[id]| ==> Placed(l, id, g))
  }

  /** A process draws values only in the step that makes its deed. */
  ghost predicate DrawersActed(l: Ledger) {
    forall v <- l.issued :: l.issued[v] in l.deeds
  }

  // ----- the tables -----

  ghost predicate TransactionRow(l: Ledger, h: Digest, tx: Transaction) {
    && h in l.transactions && tx == l.transactions[h].(completedAt := tx.completedAt)
    && (h in l.completedBy ==> tx.completedAt.Some?)
  }

  ghost predicate CodeRow(l: Ledger, c: Digest, code: AuthCode) {
    && c in l.codes && code == l.codes[c].row.(usedAt := code.usedAt)
    && (c in l.redeemedBy ==> code.usedAt.Some?)
  }

  /** The blob opens under the row's own context and holds a usable cache. */
  predicate SealedAsItself(session: Session) {
    session.cache.Sealed? && session.cache.context == ContextOfSession(session) && session.cache.payload.Cache?
    && session.cache.payload.cache != ""
  }

  ghost predicate SessionRow(l: Ledger, id: string, session: Session) {
    && id in l.sessions && id in l.chains && session.facts == l.sessions[id].facts
    && |l.chains[id]| == session.rotationCount + 1
    && session.tokenHash == l.chains[id][session.rotationCount]
    && SealedAsItself(session)
  }

  /** Every history row is a spent generation of a stored session. */
  ghost predicate HistorySound(l: Ledger, db: Tables, k: HistoryKey)
    requires k in db.history
  {
    var row := db.history[k];
    && row.sessionId in db.sessions
    && var session := db.sessions[row.sessionId];
       && k.issuer == session.facts.issuer && k.client == session.facts.client && row.family == session.facts.family
       && Home(l, k.tokenHash).Some? && Home(l, k.tokenHash).value.id == row.sessionId
       && Home(l, k.tokenHash).value.generation < session.rotationCount
  }

  /** Every spent generation of a stored session is a history row. */
  ghost predicate HistoryComplete(l: Ledger, db: Tables, id: string, g: nat)
    requires id in db.sessions && id in l.chains && g < |l.chains[id]|
  {
    var session := db.sessions[id];
    var k := HistoryKey(session.facts.issuer, session.facts.client, l.chains[id][g]);
    k in db.history && db.history[k].sessionId == id && db.history[k].family == session.facts.family
  }

  ghost predicate TablesInv(l: Ledger, db: Tables) {
    && Schema(db)
    && (forall h {:trigger TransactionRow(l, h, db.transactions[h])} :: h in db.transactions
          ==> TransactionRow(l, h, db.transactions[h]))
    && (forall c {:trigger CodeRow(l, c, db.codes[c])} :: c in db.codes ==> CodeRow(l, c, db.codes[c]))
    && (forall id {:trigger SessionRow(l, id, db.sessions[id])} :: id in db.sessions
          ==> SessionRow(l, id, db.sessions[id]))
    && HistoryInv(l, db)
  }

  ghost predicate HistoryInv(l: Ledger, db: Tables) {
    && (forall k {:trigger HistorySound(l, db, k)} :: k in db.history ==> HistorySound(l, db, k))
    && (forall id, g {:trigger HistoryComplete(l, db, id, g)} ::
          id in db.sessions && id in l.chains && 0 <= g < db.sessions[id].rotationCount && g < |l.chains[id]|
          ==> HistoryComplete(l, db, id, g))
  }

  // ----- the processes -----

  /** A session is dead once it is revoked or its row is gone. */
  ghost predicate Dead(db: Tables, id: string) {
    id in db.sessions ==> db.sessions[id].revokedAt.Some?
  }

  /** The presented handle is not in use any more: if it is this client's, its session is dead or had expired. */
  ghost predicate Settled(l: Ledger, db: Tables, r: RefreshRequest, now: Time) {
    match Home(l, Sha256(r.handle))
    case None => true
    case Some(Place(id, _)) =>
      id in l.sessions && l.sessions[id].facts.client == r.client ==>
        Dead(db, id) || l.sessions[id].facts.expiresAt <= now
  }

  /** As Settled, or the handle is at least spent. */
  ghost predicate Superseded(l: Ledger, db: Tables, r: RefreshRequest, now: Time) {
    match Home(l, Sha256(r.handle))
    case None => true
    case Some(Place(id, g)) =>
      id in l.sessions && l.sessions[id].facts.client == r.client ==>
        Dead(db, id) || l.sessions[id].facts.expiresAt <= now || (id in l.chains && g + 1 < |l.chains[id]|)
  }

  /** The snapshot was a live row of this client, reached by the presented handle. */
  ghost predicate SnapshotInv(l: Ledger, r: RefreshRequest, now: Time, snap: Session) {
    && Home(l, Sha256(r.handle)) == Some(Place(snap.id, snap.rotationCount))
    && snap.id in l.sessions && snap.facts == l.sessions[snap.id].facts
    && snap.tokenHash == Sha256(r.handle)
    && snap.facts.client == r.client
    && snap.facts.expiresAt > now
    && SealedAsItself(snap)
  }

  ghost predicate AuthorizeInv(s: Settings, l: Ledger, p: nat, proc: Proc)
    requires proc.Authorizing?
  {
    match proc.authorize
    case Started(state) =>
      && p in l.deeds && l.deeds[p].BeganTransaction?
      && l.deeds[p].tx in l.transactions
      && l.transactions[l.deeds[p].tx].terms == proc.terms
      && l.transactions[l.deeds[p].tx].entraStateHash == Sha256(state)
    case AuthorizeRefused(_) => p !in l.deeds
    case _ => p !in l.deeds && proc.terms.scope == s.requiredScopes && proc.terms.resource == s.resource
  }

  ghost predicate Consumed(l: Ledger, p: nat, state: string, tx: Transaction) {
    && tx.idHash in l.transactions && tx == l.transactions[tx.idHash].(completedAt := tx.completedAt)
    && tx.entraStateHash == Sha256(state)
    && tx.idHash in l.completedBy && l.completedBy[tx.idHash] == p
  }

  ghost predicate CompleteInv(l: Ledger, p: nat, proc: Proc)
    requires proc.Completing?
  {
    match proc.complete
    case Contacting(tx) => p !in l.deeds && Consumed(l, p, proc.state, tx)
    case Issuing(tx, _, bundle, _) =>
      && p !in l.deeds && Consumed(l, p, proc.state, tx)
      && bundle.Bundle? && bundle.accessToken != "" && bundle.cache != ""
    case Redirected(_, code, _) => p in l.deeds && l.deeds[p] == IssuedCode(Sha256(code))
    case _ => p !in l.deeds
  }

  /** This request spent the code it presented, and the code was made for this client, redirect and verifier. */
  ghost predicate Redeemed(l: Ledger, p: nat, r: ExchangeRequest) {
    var c := Sha256(r.code);
    && c in l.codes && c in l.redeemedBy && l.redeemedBy[c] == p
    && l.codes[c].row.terms.client == r.client
    && l.codes[c].row.terms.redirect == r.redirect
    && l.codes[c].row.terms.challenge == S256(r.verifier)
  }

  ghost predicate Holds(s: Settings, l: Ledger, r: ExchangeRequest, code: AuthCode) {
    && Sha256(r.code) in l.codes && code == l.codes[Sha256(r.code)].row.(usedAt := code.usedAt)
    && code.terms.resource == s.resource && code.terms.scope == s.requiredScopes
  }

  ghost predicate ExchangeInv(s: Settings, l: Ledger, p: nat, proc: Proc)
    requires proc.Exchanging?
  {
    var r := proc.exchangeRequest;
    match proc.exchange
    case Granting(code, _) => p !in l.deeds && Redeemed(l, p, r) && Holds(s, l, r, code)
    case Opening(code, _, cache, _) => p !in l.deeds && Redeemed(l, p, r) && Holds(s, l, r, code) && cache != ""
    case Granted(_, None) => p !in l.deeds && Redeemed(l, p, r)
    case Granted(_, Some(handle)) =>
      && Redeemed(l, p, r)
      && p in l.deeds && l.deeds[p].OpenedSession? && l.deeds[p].first == Sha256(handle)
      && l.deeds[p].sessionId in l.sessions && l.sessions[l.deeds[p].sessionId].code == Sha256(r.code)
    case _ => p !in l.deeds
  }

  /** Any session write of a refresh request is on the family of the handle it presented, by that family's client. */
  ghost predicate OwnFamily(l: Ledger, r: RefreshRequest, id: string) {
    && Home(l, Sha256(r.handle)).Some? && Home(l, Sha256(r.handle)).value.id == id
    && id in l.sessions && l.sessions[id].facts.client == r.client
  }

  ghost predicate RefreshInv(s: Settings, l: Ledger, db: Tables, p: nat, proc: Proc)
    requires proc.Refreshing?
  {
    var r, now := proc.refreshRequest, proc.now;
    match proc.refresh
    case LookingUp => p !in l.deeds
    case AtUpstream(snap, _) => p !in l.deeds && SnapshotInv(l, r, now, snap) && snap.rotationCount < s.maxRotations
    case Swapping(snap, _, cache) =>
      p !in l.deeds && SnapshotInv(l, r, now, snap) && snap.rotationCount < s.maxRotations && cache != ""
    case Revoking(snap) => p !in l.deeds && SnapshotInv(l, r, now, snap)
    case Replaying => p !in l.deeds && Superseded(l, db, r, now)
    case Committing => p !in l.deeds && Superseded(l, db, r, now)
    case Refreshed(_, handle) =>
      && p in l.deeds && l.deeds[p].RotatedHandle?
      && l.deeds[p].spent == Sha256(r.handle) && l.deeds[p].next == Sha256(handle)
      && OwnFamily(l, r, l.deeds[p].sessionId)
    case RefreshRefused(InvalidGrant) =>
      && Settled(l, db, r, now)
      && (p in l.deeds ==> l.deeds[p].RevokedSession? && OwnFamily(l, r, l.deeds[p].sessionId))
    case RefreshRefused(_) => p !in l.deeds
  }

  ghost predicate ProcInv(s: Settings, l: Ledger, db: Tables, p: nat, proc: Proc) {
    match proc
    case Authorizing(_, _, _) => AuthorizeInv(s, l, p, proc)
    case Completing(_, _, _) => CompleteInv(l, p, proc)
    case Exchanging(_, _) => ExchangeInv(s, l, p, proc)
    case Refreshing(_, _, _) => RefreshInv(s, l, db, p, proc)
  }

  // ----- the whole world -----

  predicate RegisteredTerms(clients: map<string, Client>, terms: Terms) {
    terms.client in clients && terms.redirect in clients[terms.client].redirects
  }

  /** Only registered clients and redirects take part, and only processes leave traces. */
  ghost predicate Registered(w: World) {
    && (forall h <- w.ledger.transactions :: RegisteredTerms(w.clients, w.ledger.transactions[h].terms))
    && (forall p <- w.procs :: w.procs[p].Authorizing? && !w.procs[p].authorize.AuthorizeRefused?
          ==> RegisteredTerms(w.clients, w.procs[p].terms))
    && (forall p <- w.ledger.deeds :: p in w.procs)
  }

  ghost predicate Inv(s: Settings, w: World) {
    && LedgerInv(s, w.ledger)
    && TablesInv(w.ledger, w.db)
    && (forall p {:trigger ProcInv(s, w.ledger, w.db, p, w.procs[p])} :: p in w.procs
          ==> ProcInv(s, w.ledger, w.db, p, w.procs[p]))
    && Registered(w)
  }

  // ----- growth -----

  /** What any step of process p may do to the ledger. */
  ghost predicate Grows(p: nat, l: Ledger, l': Ledger) {
    && (forall v <- l.issued :: v in l'.issued && l'.issued[v] == l.issued[v])
    && (forall h <- l.transactions :: h in l'.transactions && l'.transactions[h] == l.transactions[h])
    && (forall c <- l.codes :: c in l'.codes && l'.codes[c] == l.codes[c])
    && (forall id <- l.sessions :: id in l'.sessions && l'.sessions[id] == l.sessions[id])
    && (forall id <- l.chains :: id in l'.chains && l.chains[id] <= l'.chains[id])
    && (forall h <- l.completedBy :: h in l'.completedBy && l'.completedBy[h] == l.completedBy[h])
    && (forall c <- l.redeemedBy :: c in l'.redeemedBy && l'.redeemedBy[c] == l.redeemedBy[c])
    && (forall q <- l.deeds :: q in l'.deeds && l'.deeds[q] == l.deeds[q])
    && (forall q <- l'.deeds :: q in l.deeds || q == p)
  }

  /** No step brings a dead session back. */
  ghost predicate Fades(l: Ledger, db: Tables, db': Tables) {
    forall id <- l.sessions :: Dead(db, id) ==> Dead(db', id)
  }

  /** No step adds a handle to a dead family. */
  ghost predicate Freezes(l: Ledger, db: Tables, l': Ledger) {
    forall id <- l.sessions :: Dead(db, id) ==> Chain(l', id) == Chain(l, id)
  }

  /** A process keeps the request it started with. */
  predicate SameRequest(proc: Proc, proc': Proc) {
    match proc
    case Authorizing(terms, state, _) => proc'.Authorizing? && proc'.terms == terms && proc'.clientState == state
    case Completing(state, denied, _) => proc'.Completing? && proc'.state == state && proc'.denied == denied
    case Exchanging(r, _) => proc'.Exchanging? && proc'.exchangeRequest == r
    case Refreshing(r, now, _) => proc'.Refreshing? && proc'.refreshRequest == r && proc'.now == now
  }

  /** A secret that was not drawn in between keeps its place, or keeps having none. */
  lemma HomeIsStable(p: nat, l: Ledger, l': Ledger, hash: Digest)
    requires DrawersActed(l) && Grows(p, l, l')
    requires hash.preimage in l'.issued ==> hash.preimage in l.issued
    ensures Home(l', hash) == Home(l, hash)
  {}

  lemma PlaceIsReal(s: Settings, l: Ledger, hash: Digest)
    requires LedgerInv(s, l) && Home(l, hash).Some?
    ensures var Place(id, g) := Home(l, hash).value;
            id in l.sessions && id in l.chains && g < |l.chains[id]| && l.chains[id][g] == hash
  {
    assert DeedDone(l, l.issued[hash.preimage]);
  }

  lemma ProcIsStable(s: Settings, p: nat, q: nat, proc: Proc, l: Ledger, db: Tables, l': Ledger, db': Tables)
    requires LedgerInv(s, l) && Grows(p, l, l') && Fades(l, db, db')
    requires p != q && ProcInv(s, l, db, q, proc)
    requires match Presented(proc) case Some(v) => v in l'.issued ==> v in l.issued case None => true
    ensures ProcInv(s, l', db', q, proc)
  {
    if proc.Refreshing? {
      var hash := Sha256(proc.refreshRequest.handle);
      HomeIsStable(p, l, l', hash);
      if Home(l, hash).Some? {
        PlaceIsReal(s, l, hash);
      }
    }
  }
}
