/** Where codes, tokens and sessions come from: one authorize call each, with the terms of that call. */
module OAuthProvenance {
  import opened Basics
  import opened OAuthRecords
  import opened OAuthTables
  import opened OAuthProtocol
  import opened OAuthInvariant
  import opened OAuthRefreshSteps
  import Reclaim = OAuthReclaim

  /** The authorize request behind a code: it drew the identifier of the transaction that the code completed. */
  function Author(l: Ledger, code: Digest): nat
    requires code in l.codes && l.codes[code].tx.preimage in l.issued
  {
    l.issued[l.codes[code].tx.preimage]
  }

  lemma CodeHasAuthor(s: Settings, w: World, code: Digest)
    requires Inv(s, w) && code in w.ledger.codes
    ensures var l := w.ledger;
            && l.codes[code].tx in l.transactions && l.codes[code].tx.preimage in l.issued
            && var a := Author(l, code);
               && a in w.procs && w.procs[a].Authorizing? && w.procs[a].authorize.Started?
               && w.procs[a].terms == l.codes[code].row.terms
  {
    var l := w.ledger;
    assert CodeBorn(s, l, code);
    assert TransactionBorn(s, l, l.codes[code].tx);
    var a := l.issued[l.codes[code].tx.preimage];
    assert ProcInv(s, l, w.db, a, w.procs[a]);
  }

  /**
   Whatever the server goes on with is for a redirect that its client has registered: authorization requests that
   were not refused, transactions and codes.
   */
  lemma RedirectsAreRegistered(s: Settings, w: World)
    requires Inv(s, w)
    ensures forall p <- w.procs :: w.procs[p].Authorizing? && !w.procs[p].authorize.AuthorizeRefused? ==>
              var terms := w.procs[p].terms;
              terms.client in w.clients && terms.redirect in w.clients[terms.client].redirects
    ensures forall h <- w.ledger.transactions :: var terms := w.ledger.transactions[h].terms;
              terms.client in w.clients && terms.redirect in w.clients[terms.client].redirects
    ensures forall c <- w.ledger.codes :: var terms := w.ledger.codes[c].row.terms;
              terms.client in w.clients && terms.redirect in w.clients[terms.client].redirects
  {
    forall c <- w.ledger.codes ensures RegisteredTerms(w.clients, w.ledger.codes[c].row.terms) {
      assert CodeBorn(s, w.ledger, c);
    }
  }

  /**
   Every exchange that was granted spent its own code, which goes back to an
   authorize request with the same client and redirect, this server's scopes and
   resource, and a challenge that the presented verifier hashes to.
   */
  lemma GrantTracesToAuthorize(s: Settings, w: World, p: nat)
    requires Inv(s, w) && p in w.procs && w.procs[p].Exchanging? && w.procs[p].exchange.Granted?
    ensures var l, r := w.ledger, w.procs[p].exchangeRequest;
            var code := Sha256(r.code);
            && code in l.codes && l.codes[code].tx.preimage in l.issued
            && code in l.redeemedBy && l.redeemedBy[code] == p
            && var a := Author(l, code);
               && a in w.procs && w.procs[a].Authorizing? && w.procs[a].authorize.Started?
               && w.procs[a].terms == Terms(r.client, r.redirect, S256(r.verifier), s.requiredScopes, s.resource)
               && r.client in w.clients && r.redirect in w.clients[r.client].redirects
  {
    assert ProcInv(s, w.ledger, w.db, p, w.procs[p]);
    var code := Sha256(w.procs[p].exchangeRequest.code);
    CodeHasAuthor(s, w, code);
    assert CodeBorn(s, w.ledger, code);
    assert TransactionBorn(s, w.ledger, w.ledger.codes[code].tx);
  }

  /** Each authorize request leads to at most one code ... */
  lemma OneCodePerAuthorize(s: Settings, w: World, c: Digest, d: Digest)
    requires Inv(s, w) && c in w.ledger.codes && d in w.ledger.codes
    requires w.ledger.codes[c].tx.preimage in w.ledger.issued && w.ledger.codes[d].tx.preimage in w.ledger.issued
    requires Author(w.ledger, c) == Author(w.ledger, d)
    ensures c == d
  {
    var l := w.ledger;
    assert CodeBorn(s, l, c) && CodeBorn(s, l, d);
    assert TransactionBorn(s, l, l.codes[c].tx) && TransactionBorn(s, l, l.codes[d].tx);
  }

  /** ... hence to at most one granted exchange ... */
  lemma OneGrantPerAuthorize(s: Settings, w: World, p: nat, q: nat)
    requires Inv(s, w) && p in w.procs && q in w.procs
    requires w.procs[p].Exchanging? && w.procs[p].exchange.Granted?
    requires w.procs[q].Exchanging? && w.procs[q].exchange.Granted?
    requires var c, d := Sha256(w.procs[p].exchangeRequest.code), Sha256(w.procs[q].exchangeRequest.code);
             && c in w.ledger.codes && w.ledger.codes[c].tx.preimage in w.ledger.issued
             && d in w.ledger.codes && w.ledger.codes[d].tx.preimage in w.ledger.issued
             && Author(w.ledger, c) == Author(w.ledger, d)
    ensures p == q
  {
    GrantTracesToAuthorize(s, w, p);
    GrantTracesToAuthorize(s, w, q);
    OneCodePerAuthorize(s, w, Sha256(w.procs[p].exchangeRequest.code), Sha256(w.procs[q].exchangeRequest.code));
  }

  /** ... and each code to at most one session. */
  lemma OneSessionPerCode(s: Settings, w: World, i: string, j: string)
    requires Inv(s, w) && i in w.ledger.sessions && j in w.ledger.sessions
    requires w.ledger.sessions[i].code == w.ledger.sessions[j].code
    ensures i == j
  {
    assert SessionBorn(s, w.ledger, i) && SessionBorn(s, w.ledger, j);
  }

  /** However often a session was rotated, it still has the client, owner, scope and resource of its grant. */
  lemma SessionsKeepTheirGrant(s: Settings, w: World, id: string)
    requires Inv(s, w) && id in w.db.sessions
    ensures id in w.ledger.sessions && w.ledger.sessions[id].code in w.ledger.codes
    ensures var facts, code := w.db.sessions[id].facts, w.ledger.codes[w.ledger.sessions[id].code].row;
            && facts.client == code.terms.client && facts.owner == code.owner
            && facts.scope == code.terms.scope == s.requiredScopes
            && facts.resource == code.terms.resource == s.resource
            && facts.issuer == s.issuer
  {
    RowIsHome(s, w.ledger, w.db, id);
    assert SessionBorn(s, w.ledger, id);
  }

  /** A code is spent by exactly the right client, redirect, verifier and time; any other attempt changes nothing. */
  lemma WrongAttemptsSpareTheCode(s: Settings, w: World, r: ExchangeRequest, now: Time)
    requires Inv(s, w)
    ensures var c := Sha256(r.code);
            var a := ConsumeCode(w.db, s.issuer, c, r.client, r.redirect, S256(r.verifier), now);
            && (a.answer.Some? <==>
                  && c in w.db.codes && c !in w.ledger.redeemedBy && w.db.codes[c].usedAt.None?
                  && w.db.codes[c].terms.client == r.client && w.db.codes[c].terms.redirect == r.redirect
                  && w.db.codes[c].terms.challenge == S256(r.verifier) && w.db.codes[c].expiresAt > now)
            && (a.answer.None? ==> a.tables == w.db)
  {
    var c := Sha256(r.code);
    if c in w.db.codes {
      assert CodeRow(w.ledger, c, w.db.codes[c]);
      assert CodeBorn(s, w.ledger, c);
    }
  }

  // ----- fresh values do not collide -----

  lemma FreshTransactionInserts(s: Settings, w: World, f: Fate, tx: Transaction)
    requires Inv(s, w) && FateAllowed(w, f) && tx.idHash == Sha256(f.second) && tx.entraStateHash == Sha256(f.first)
    ensures CreateTransaction(w.db, tx).answer == Inserted
  {
    forall h | h in w.db.transactions
      ensures h.preimage in w.ledger.issued && w.db.transactions[h].entraStateHash.preimage in w.ledger.issued
    {
      assert TransactionRow(w.ledger, h, w.db.transactions[h]) && TransactionBorn(s, w.ledger, h);
    }
  }

  lemma FreshCodeInserts(s: Settings, w: World, f: Fate, code: AuthCode)
    requires Inv(s, w) && FateAllowed(w, f) && code.codeHash == Sha256(f.first)
    ensures CreateCode(w.db, code).answer == Inserted
  {
    forall c | c in w.db.codes ensures c.preimage in w.ledger.issued {
      assert CodeRow(w.ledger, c, w.db.codes[c]) && CodeBorn(s, w.ledger, c);
    }
  }

  /** The new session's identifiers are free in whatever tables still have these sessions. */
  lemma FreshSessionInserts(s: Settings, w: World, f: Fate, db: Tables, session: Session)
    requires Inv(s, w) && f.first !in w.ledger.issued && f.second !in w.ledger.issued && db.sessions == w.db.sessions
    requires session.id == f.second && session.tokenHash == Sha256(f.first)
    ensures CreateSession(db, session).answer == Inserted
  {
    forall id | id in db.sessions ensures id in w.ledger.issued && db.sessions[id].tokenHash != session.tokenHash {
      RowIsHome(s, w.ledger, w.db, id);
      assert SessionBorn(s, w.ledger, id);
    }
  }

  /** No insert or swap of this protocol ever violates a key or a unique column. */
  lemma FreshValuesNeverCollide(s: Settings, w: World, f: Fate, tx: Transaction, code: AuthCode, session: Session)
    requires Inv(s, w) && FateAllowed(w, f)
    requires tx.idHash == Sha256(f.second) && tx.entraStateHash == Sha256(f.first)
    requires code.codeHash == Sha256(f.first)
    requires session.id == f.second && session.tokenHash == Sha256(f.first)
    ensures CreateTransaction(w.db, tx).answer == Inserted
    ensures CreateCode(w.db, code).answer == Inserted
    ensures CreateSession(w.db, session).answer == Inserted
  {
    FreshTransactionInserts(s, w, f, tx);
    FreshCodeInserts(s, w, f, code);
    FreshSessionInserts(s, w, f, w.db, session);
  }

  lemma SwapNeverFails(s: Settings, w: World, p: nat, f: Fate)
    requires Inv(s, w) && FateAllowed(w, f)
    requires p in w.procs && w.procs[p].Refreshing? && w.procs[p].refresh.Swapping?
    ensures var proc := w.procs[p];
            SwapOf(s, w.db, proc.refreshRequest, proc.now, proc.refresh.snap, f.first, proc.refresh.cache).answer
            in {Rotated, Conflict}
  {
    var l, db, proc := w.ledger, w.db, w.procs[p];
    assert ProcInv(s, l, db, p, proc);
    SwapBelowLimit(s, p, l, db, proc, f.first);
    forall id | id in db.sessions ensures db.sessions[id].tokenHash.preimage in l.issued {
      RowIsHome(s, l, db, id);
    }
    var snap := proc.refresh.snap;
    var k := HistoryKey(s.issuer, snap.facts.client, Sha256(proc.refreshRequest.handle));
    if snap.id in db.sessions && db.sessions[snap.id].tokenHash == k.tokenHash {
      HashMatchMeansUnmoved(s, l, db, proc.refreshRequest, proc.now, snap);
      assert k in db.history ==> HistorySound(l, db, k);
    }
  }

  /** No current handle is in the history, so what is proved of reclamation applies in every reachable world. */
  lemma CurrentHandlesAreUnspent(s: Settings, w: World)
    requires Inv(s, w)
    ensures Schema(w.db) && Reclaim.NoReuse(w.db)
  {
    forall id | id in w.db.sessions
      ensures var row := w.db.sessions[id];
              HistoryKey(row.facts.issuer, row.facts.client, row.tokenHash) !in w.db.history
    {
      var row := w.db.sessions[id];
      var k := HistoryKey(row.facts.issuer, row.facts.client, row.tokenHash);
      RowIsHome(s, w.ledger, w.db, id);
      assert k in w.db.history ==> HistorySound(w.ledger, w.db, k);
    }
  }
}
