/** The steps of the authorize, complete and exchange requests keep every invariant. */
module OAuthGrantSteps {
  import opened Basics
  import opened OAuthRecords
  import opened OAuthTables
  import opened OAuthProtocol
  import opened OAuthInvariant
  import opened OAuthSteps

  /** The ledger and the tables after a step, without the process. */
  ghost predicate Stands(s: Settings, p: nat, l: Ledger, db: Tables, l': Ledger, db': Tables) {
    LedgerInv(s, l') && TablesInv(l', db') && Grows(p, l, l') && Fades(l, db, db') && Freezes(l, db, l')
  }

  /** The sweep only lets sessions fade, and a new row under a new id changes none. */
  lemma NewRowStands(s: Settings, p: nat, l: Ledger, db: Tables, l': Ledger, swept: Tables, db': Tables)
    requires LedgerInv(s, l') && TablesInv(l', db') && Grows(p, l, l') && Fades(l, db, swept)
    requires forall id <- l.sessions :: id in db'.sessions ==>
               id in swept.sessions && db'.sessions[id] == swept.sessions[id]
    requires forall id <- l.sessions :: Chain(l', id) == Chain(l, id)
    ensures Stands(s, p, l, db, l', db')
  {}

  // ----- authorize -----

  lemma NewTransactionStands(s: Settings, l: Ledger, db: Tables, p: nat, drawn: set<string>, tx: Transaction)
    requires LedgerInv(s, l) && TablesInv(l, db) && p !in l.deeds
    requires forall v <- drawn :: v !in l.issued
    requires tx.idHash.preimage in drawn && tx.entraStateHash.preimage in drawn
    requires tx.issuer == s.issuer && tx.completedAt.None?
    requires tx.terms.scope == s.requiredScopes && tx.terms.resource == s.resource
    requires exists flow :: tx.flow == Sealed(ContextOfTransaction(tx), Flow(flow))
    requires CreateTransaction(db, tx).answer == Inserted
    ensures Stands(s, p, l, db, RecordTransaction(l, p, drawn, tx), CreateTransaction(db, tx).tables)
  {
    TransactionRecorded(s, p, l, drawn, tx);
    ReclaimKeepsTables(l, db, tx.createdAt);
    var swept := Reclaim(db, tx.createdAt);
    TransactionInserted(p, l, swept, drawn, tx);
    NewRowStands(s, p, l, db, RecordTransaction(l, p, drawn, tx), swept, InsertTransaction(swept, tx).tables);
  }

  lemma TransactionStored(s: Settings, l: Ledger, db: Tables, p: nat, proc: Proc, state: string, id: string,
                          tx: Transaction, db': Tables)
    requires proc.Authorizing? && proc.authorize.Storing? && AuthorizeInv(s, l, p, proc)
    requires tx.terms == proc.terms && tx.entraStateHash == Sha256(state)
    requires Stands(s, p, l, db, RecordTransaction(l, p, {state, id}, tx), db')
    ensures EffectOk(s, l, db, p, proc,
                     Effect(db', RecordTransaction(l, p, {state, id}, tx), proc.(authorize := Started(state))),
                     {state, id})
  {
    StartedIsOk(s, l, db, p, proc, state, tx, db', RecordTransaction(l, p, {state, id}, tx), {state, id});
  }

  lemma StartedIsOk(s: Settings, l: Ledger, db: Tables, p: nat, proc: Proc, state: string, tx: Transaction, db': Tables,
                    l': Ledger, drawn: set<string>)
    requires proc.Authorizing? && proc.authorize.Storing?
    requires tx.terms == proc.terms && tx.entraStateHash == Sha256(state)
    requires Stands(s, p, l, db, l', db')
    requires l'.transactions == l.transactions[tx.idHash := tx]
    requires p in l'.deeds && l'.deeds[p] == BeganTransaction(tx.idHash)
    requires forall v <- l'.issued :: v in l.issued || v in drawn
    ensures EffectOk(s, l, db, p, proc, Effect(db', l', proc.(authorize := Started(state))), drawn)
  {}

  function Stored(s: Settings, proc: Proc, f: Fate): Transaction
    requires proc.Authorizing? && proc.authorize.Storing?
  {
    NewTransaction(s, proc.terms, proc.clientState, f.first, f.second, proc.authorize.flow, proc.authorize.now)
  }

  lemma AuthorizeStep(s: Settings, w: World, p: nat, proc: Proc, f: Fate)
    requires LedgerInv(s, w.ledger) && TablesInv(w.ledger, w.db)
    requires proc.Authorizing? && AuthorizeInv(s, w.ledger, p, proc)
    requires f.first !in w.ledger.issued && f.second !in w.ledger.issued
    ensures EffectOk(s, w.ledger, w.db, p, proc, AdvanceAuthorize(s, w, p, proc, f), {f.first, f.second})
  {
    if proc.authorize.Storing? && !f.storeFails && CreateTransaction(w.db, Stored(s, proc, f)).answer == Inserted {
      var tx := Stored(s, proc, f);
      NewTransactionStands(s, w.ledger, w.db, p, {f.first, f.second}, tx);
      TransactionStored(s, w.ledger, w.db, p, proc, f.first, f.second, tx, CreateTransaction(w.db, tx).tables);
    } else {
      NothingWritten(s, w.ledger, w.db, p, proc, AdvanceAuthorize(s, w, p, proc, f).proc, {f.first, f.second});
    }
  }

  // ----- complete -----

  /** What a consumed transaction does to the request that consumed it. */
  lemma ConsumerInv(s: Settings, l: Ledger, p: nat, proc: Proc, tx: Transaction)
    requires LedgerInv(s, l) && proc.Completing? && p !in l.deeds
    requires tx.idHash in l.transactions && tx == l.transactions[tx.idHash].(completedAt := tx.completedAt)
    requires tx.entraStateHash == Sha256(proc.state)
    ensures CompleteInv(l.(completedBy := l.completedBy[tx.idHash := p]), p,
                        proc.(complete := AfterConsuming(tx, proc.denied)))
  {
    assert TransactionBorn(s, l, tx.idHash);
  }

  lemma TransactionTaken(s: Settings, l: Ledger, db: Tables, p: nat, proc: Proc)
    requires LedgerInv(s, l) && TablesInv(l, db)
    requires proc.Completing? && proc.complete.Consuming? && CompleteInv(l, p, proc)
    requires ConsumeTransaction(db, s.issuer, Sha256(proc.state), proc.complete.now).answer.Some?
    ensures var a := ConsumeTransaction(db, s.issuer, Sha256(proc.state), proc.complete.now);
            var tx := a.answer.value;
            EffectOk(s, l, db, p, proc,
                     Effect(a.tables, l.(completedBy := l.completedBy[tx.idHash := p]),
                            proc.(complete := AfterConsuming(tx, proc.denied))), {})
  {
    var a := ConsumeTransaction(db, s.issuer, Sha256(proc.state), proc.complete.now);
    TransactionConsumed(p, l, db, s.issuer, Sha256(proc.state), proc.complete.now);
    CompletionRecorded(s, p, l, a.answer.value.idHash);
    ConsumerInv(s, l, p, proc, a.answer.value);
  }

  lemma NewCodeStands(s: Settings, l: Ledger, db: Tables, p: nat, drawn: set<string>, code: AuthCode, tx: Digest)
    requires LedgerInv(s, l) && TablesInv(l, db) && p !in l.deeds
    requires forall v <- drawn :: v !in l.issued
    requires code.codeHash.preimage in drawn && code.issuer == s.issuer && code.usedAt.None? && Bundled(code)
    requires tx in l.transactions && code.terms == l.transactions[tx].terms
    requires tx in l.completedBy && l.completedBy[tx] == p
    requires CreateCode(db, code).answer == Inserted
    ensures Stands(s, p, l, db, RecordCode(l, p, drawn, code, tx), CreateCode(db, code).tables)
  {
    CodeRecorded(s, p, l, drawn, code, tx);
    ReclaimKeepsTables(l, db, code.createdAt);
    var swept := Reclaim(db, code.createdAt);
    CodeInserted(p, l, swept, drawn, code, tx);
    NewRowStands(s, p, l, db, RecordCode(l, p, drawn, code, tx), swept, InsertCode(swept, code).tables);
  }

  lemma CodeStored(s: Settings, l: Ledger, db: Tables, p: nat, proc: Proc, secret: string, code: AuthCode, db': Tables,
                   redirect: string, state: string)
    requires proc.Completing? && proc.complete.Issuing? && CompleteInv(l, p, proc)
    requires code.codeHash == Sha256(secret)
    requires Stands(s, p, l, db, RecordCode(l, p, {secret}, code, proc.complete.tx.idHash), db')
    ensures EffectOk(s, l, db, p, proc,
                     Effect(db', RecordCode(l, p, {secret}, code, proc.complete.tx.idHash),
                            proc.(complete := Redirected(redirect, secret, state))), {secret})
  {}

  function Issued(s: Settings, proc: Proc, f: Fate): AuthCode
    requires proc.Completing? && proc.complete.Issuing?
  {
    NewCode(s, proc.complete.tx, proc.complete.owner, f.first, proc.complete.bundle, proc.complete.now)
  }

  lemma CodeOpened(s: Settings, l: Ledger, db: Tables, p: nat, proc: Proc, code: AuthCode, secret: string,
                   redirect: string, state: string)
    requires LedgerInv(s, l) && TablesInv(l, db)
    requires proc.Completing? && proc.complete.Issuing? && CompleteInv(l, p, proc) && secret !in l.issued
    requires code.codeHash == Sha256(secret) && code.issuer == s.issuer && code.usedAt.None? && Bundled(code)
    requires code.terms == proc.complete.tx.terms
    requires CreateCode(db, code).answer == Inserted
    ensures EffectOk(s, l, db, p, proc,
                     Effect(CreateCode(db, code).tables, RecordCode(l, p, {secret}, code, proc.complete.tx.idHash),
                            proc.(complete := Redirected(redirect, secret, state))), {secret})
  {
    NewCodeStands(s, l, db, p, {secret}, code, proc.complete.tx.idHash);
    CodeStored(s, l, db, p, proc, secret, code, CreateCode(db, code).tables, redirect, state);
  }

  ghost predicate Consumes(s: Settings, db: Tables, proc: Proc) {
    proc.Completing? && proc.complete.Consuming?
    && ConsumeTransaction(db, s.issuer, Sha256(proc.state), proc.complete.now).answer.Some?
  }

  ghost predicate Issues(s: Settings, db: Tables, proc: Proc, f: Fate) {
    proc.Completing? && proc.complete.Issuing? && CreateCode(db, Issued(s, proc, f)).answer == Inserted
  }

  lemma ConsumeStep(s: Settings, w: World, p: nat, proc: Proc, f: Fate)
    requires LedgerInv(s, w.ledger) && TablesInv(w.ledger, w.db)
    requires proc.Completing? && CompleteInv(w.ledger, p, proc) && Consumes(s, w.db, proc) && !f.storeFails
    ensures EffectOk(s, w.ledger, w.db, p, proc, AdvanceComplete(s, w, p, proc, f), {})
  {
    TransactionTaken(s, w.ledger, w.db, p, proc);
  }

  lemma IssueStep(s: Settings, w: World, p: nat, proc: Proc, f: Fate)
    requires LedgerInv(s, w.ledger) && TablesInv(w.ledger, w.db)
    requires proc.Completing? && CompleteInv(w.ledger, p, proc) && Issues(s, w.db, proc, f) && !f.storeFails
    requires f.first !in w.ledger.issued
    ensures EffectOk(s, w.ledger, w.db, p, proc, AdvanceComplete(s, w, p, proc, f), {f.first})
  {
    CodeOpened(s, w.ledger, w.db, p, proc, Issued(s, proc, f), f.first, proc.complete.tx.terms.redirect,
               proc.complete.tx.clientState);
  }

  /** Otherwise nothing is consumed or stored, and the next stage is in order. */
  lemma CompleteReads(s: Settings, w: World, p: nat, proc: Proc, f: Fate)
    requires LedgerInv(s, w.ledger) && TablesInv(w.ledger, w.db)
    requires proc.Completing? && CompleteInv(w.ledger, p, proc)
    requires f.reply.Identified? ==> f.reply.cache != "" && f.reply.accessToken != ""
    requires f.storeFails || !(Consumes(s, w.db, proc) || Issues(s, w.db, proc, f))
    ensures var x := AdvanceComplete(s, w, p, proc, f);
            x.db == w.db && x.ledger == w.ledger && SameRequest(proc, x.proc) && CompleteInv(w.ledger, p, x.proc)
  {}

  lemma CompleteStep(s: Settings, w: World, p: nat, proc: Proc, f: Fate)
    requires LedgerInv(s, w.ledger) && TablesInv(w.ledger, w.db)
    requires proc.Completing? && CompleteInv(w.ledger, p, proc)
    requires f.first !in w.ledger.issued
    requires f.reply.Identified? ==> f.reply.cache != "" && f.reply.accessToken != ""
    ensures EffectOk(s, w.ledger, w.db, p, proc, AdvanceComplete(s, w, p, proc, f), {f.first})
  {
    if Consumes(s, w.db, proc) && !f.storeFails {
      ConsumeStep(s, w, p, proc, f);
    } else if Issues(s, w.db, proc, f) && !f.storeFails {
      IssueStep(s, w, p, proc, f);
    } else {
      CompleteReads(s, w, p, proc, f);
      NothingWritten(s, w.ledger, w.db, p, proc, AdvanceComplete(s, w, p, proc, f).proc, {f.first});
    }
  }

  // ----- exchange -----

  lemma CodeTaken(s: Settings, l: Ledger, db: Tables, p: nat, proc: Proc)
    requires LedgerInv(s, l) && TablesInv(l, db)
    requires proc.Exchanging? && proc.exchange.Redeeming? && ExchangeInv(s, l, p, proc)
    requires var r := proc.exchangeRequest;
             ConsumeCode(db, s.issuer, Sha256(r.code), r.client, r.redirect, S256(r.verifier),
                         proc.exchange.now).answer.Some?
    ensures var r, now := proc.exchangeRequest, proc.exchange.now;
            var a := ConsumeCode(db, s.issuer, Sha256(r.code), r.client, r.redirect, S256(r.verifier), now);
            EffectOk(s, l, db, p, proc,
                     Effect(a.tables, l.(redeemedBy := l.redeemedBy[Sha256(r.code) := p]),
                            proc.(exchange := AfterRedeeming(s, a.answer.value, now))), {})
  {
    var r, now := proc.exchangeRequest, proc.exchange.now;
    CodeConsumed(p, l, db, s.issuer, Sha256(r.code), r.client, r.redirect, S256(r.verifier), now);
    RedemptionRecorded(s, p, l, Sha256(r.code));
  }

  lemma NewSessionStands(s: Settings, l: Ledger, db: Tables, p: nat, drawn: set<string>, session: Session, c: Digest)
    requires LedgerInv(s, l) && TablesInv(l, db) && p !in l.deeds
    requires forall v <- drawn :: v !in l.issued
    requires session.id in drawn && session.tokenHash.preimage in drawn && TokenShaped(session.tokenHash.preimage)
    requires BindingValid(s, session.facts) && session.rotationCount == 0 && SealedAsItself(session)
    requires c in l.codes && c in l.redeemedBy && l.redeemedBy[c] == p
    requires session.facts.client == l.codes[c].row.terms.client && session.facts.owner == l.codes[c].row.owner
    requires session.facts.scope == l.codes[c].row.terms.scope
    requires session.facts.resource == l.codes[c].row.terms.resource
    requires CreateSession(db, session).answer == Inserted
    ensures Stands(s, p, l, db, RecordSession(l, p, drawn, session, c), CreateSession(db, session).tables)
  {
    SessionRecorded(s, p, l, drawn, session, c);
    ReclaimKeepsTables(l, db, session.facts.createdAt);
    var swept := Reclaim(db, session.facts.createdAt);
    SessionInserted(p, l, swept, drawn, session, c);
    NewRowStands(s, p, l, db, RecordSession(l, p, drawn, session, c), swept, InsertSession(swept, session).tables);
  }

  lemma SessionStored(s: Settings, l: Ledger, db: Tables, p: nat, proc: Proc, handle: string, drawn: set<string>,
                      session: Session, db': Tables)
    requires proc.Exchanging? && proc.exchange.Opening? && ExchangeInv(s, l, p, proc)
    requires session.tokenHash == Sha256(handle)
    requires Stands(s, p, l, db, RecordSession(l, p, drawn, session, Sha256(proc.exchangeRequest.code)), db')
    ensures EffectOk(s, l, db, p, proc,
                     Effect(db', RecordSession(l, p, drawn, session, Sha256(proc.exchangeRequest.code)),
                            proc.(exchange := Granted(proc.exchange.tokens, Some(handle)))), drawn)
  {}

  function Opened(s: Settings, proc: Proc, f: Fate): Session
    requires proc.Exchanging? && proc.exchange.Opening?
  {
    NewSession(s, proc.exchange.code, f.second, f.first, f.third, proc.exchange.cache, proc.exchange.now)
  }

  lemma SessionOpened(s: Settings, l: Ledger, db: Tables, p: nat, proc: Proc, session: Session, drawn: set<string>)
    requires LedgerInv(s, l) && TablesInv(l, db)
    requires proc.Exchanging? && proc.exchange.Opening? && ExchangeInv(s, l, p, proc)
    requires forall v <- drawn :: v !in l.issued
    requires session.id in drawn && session.tokenHash.preimage in drawn && TokenShaped(session.tokenHash.preimage)
    requires session.rotationCount == 0 && SealedAsItself(session) && session.facts.issuer == s.issuer
    requires var code := proc.exchange.code;
             session.facts.client == code.terms.client && session.facts.owner == code.owner
             && session.facts.scope == code.terms.scope && session.facts.resource == code.terms.resource
    requires CreateSession(db, session).answer == Inserted
    ensures EffectOk(s, l, db, p, proc,
                     Effect(CreateSession(db, session).tables,
                            RecordSession(l, p, drawn, session, Sha256(proc.exchangeRequest.code)),
                            proc.(exchange := Granted(proc.exchange.tokens, Some(session.tokenHash.preimage)))),
                     drawn)
  {
    var c := Sha256(proc.exchangeRequest.code);
    assert CodeBorn(s, l, c);
    NewSessionStands(s, l, db, p, drawn, session, c);
    SessionStored(s, l, db, p, proc, session.tokenHash.preimage, drawn, session, CreateSession(db, session).tables);
  }

  ghost predicate Redeems(s: Settings, db: Tables, proc: Proc) {
    proc.Exchanging? && proc.exchange.Redeeming?
    && var r := proc.exchangeRequest;
       ConsumeCode(db, s.issuer, Sha256(r.code), r.client, r.redirect, S256(r.verifier), proc.exchange.now).answer.Some?
  }

  ghost predicate Opens(s: Settings, db: Tables, proc: Proc, f: Fate) {
    proc.Exchanging? && proc.exchange.Opening? && CreateSession(db, Opened(s, proc, f)).answer == Inserted
  }

  /** Otherwise nothing is consumed or stored, and the next stage is in order. */
  lemma ExchangeReads(s: Settings, w: World, p: nat, proc: Proc, f: Fate)
    requires LedgerInv(s, w.ledger) && TablesInv(w.ledger, w.db)
    requires proc.Exchanging? && ExchangeInv(s, w.ledger, p, proc)
    requires f.storeFails || !(Redeems(s, w.db, proc) || Opens(s, w.db, proc, f))
    ensures var x := AdvanceExchange(s, w, p, proc, f);
            x.db == w.db && x.ledger == w.ledger && SameRequest(proc, x.proc) && ExchangeInv(s, w.ledger, p, x.proc)
  {}

  lemma RedeemStep(s: Settings, w: World, p: nat, proc: Proc, f: Fate)
    requires LedgerInv(s, w.ledger) && TablesInv(w.ledger, w.db)
    requires proc.Exchanging? && ExchangeInv(s, w.ledger, p, proc) && Redeems(s, w.db, proc) && !f.storeFails
    ensures EffectOk(s, w.ledger, w.db, p, proc, AdvanceExchange(s, w, p, proc, f), {})
  {
    CodeTaken(s, w.ledger, w.db, p, proc);
  }

  lemma OpenStep(s: Settings, w: World, p: nat, proc: Proc, f: Fate)
    requires LedgerInv(s, w.ledger) && TablesInv(w.ledger, w.db)
    requires proc.Exchanging? && ExchangeInv(s, w.ledger, p, proc) && Opens(s, w.db, proc, f) && !f.storeFails
    requires f.first !in w.ledger.issued && f.second !in w.ledger.issued && f.third !in w.ledger.issued
    requires TokenShaped(f.first)
    ensures EffectOk(s, w.ledger, w.db, p, proc, AdvanceExchange(s, w, p, proc, f), {f.first, f.second, f.third})
  {
    assert CodeBorn(s, w.ledger, Sha256(proc.exchangeRequest.code));
    SessionOpened(s, w.ledger, w.db, p, proc, Opened(s, proc, f), {f.first, f.second, f.third});
  }

  lemma ExchangeStep(s: Settings, w: World, p: nat, proc: Proc, f: Fate)
    requires LedgerInv(s, w.ledger) && TablesInv(w.ledger, w.db)
    requires proc.Exchanging? && ExchangeInv(s, w.ledger, p, proc)
    requires f.first !in w.ledger.issued && f.second !in w.ledger.issued && f.third !in w.ledger.issued
    requires TokenShaped(f.first)
    ensures EffectOk(s, w.ledger, w.db, p, proc, AdvanceExchange(s, w, p, proc, f), {f.first, f.second, f.third})
  {
    if Redeems(s, w.db, proc) && !f.storeFails {
      RedeemStep(s, w, p, proc, f);
    } else if Opens(s, w.db, proc, f) && !f.storeFails {
      OpenStep(s, w, p, proc, f);
    } else {
      ExchangeReads(s, w, p, proc, f);
      NothingWritten(s, w.ledger, w.db, p, proc, AdvanceExchange(s, w, p, proc, f).proc, {f.first, f.second, f.third});
    }
  }
}
