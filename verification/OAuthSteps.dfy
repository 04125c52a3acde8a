/**
 Every write of the protocol keeps the invariants: first the effects on the
 ledger, then those on the tables, one store transaction at a time.
 */
module OAuthSteps {
  import opened Basics
  import opened OAuthRecords
  import opened OAuthTables
  import opened OAuthProtocol
  import opened OAuthInvariant

  // ----- the ledger -----

  ghost predicate Unexceeded(s: Settings, l: Ledger, l': Ledger, id: string) {
    id in l.chains && id in l'.chains
    && (l'.chains[id] == l.chains[id] || |l'.chains[id]| <= s.maxRotations + 1)
  }

  /** Growth keeps every old entry in order: grants, ... */
  lemma OldGrantsStand(s: Settings, p: nat, l: Ledger, l': Ledger)
    requires LedgerInv(s, l) && Grows(p, l, l')
    ensures forall h {:trigger TransactionBorn(s, l', h)} :: h in l.transactions ==> TransactionBorn(s, l', h)
    ensures forall c {:trigger CodeBorn(s, l', c)} :: c in l.codes ==> CodeBorn(s, l', c)
  {
    forall h <- l.transactions ensures TransactionBorn(s, l', h) {
      assert TransactionBorn(s, l, h);
    }
    forall c <- l.codes ensures CodeBorn(s, l', c) {
      assert CodeBorn(s, l, c);
    }
  }

  /** ... sessions and deeds, ... */
  lemma OldSessionsStand(s: Settings, p: nat, l: Ledger, l': Ledger)
    requires LedgerInv(s, l) && Grows(p, l, l')
    ensures forall id {:trigger SessionBorn(s, l', id)} :: id in l.sessions && Unexceeded(s, l, l', id)
              ==> SessionBorn(s, l', id)
    ensures forall q {:trigger DeedDone(l', q)} :: q in l.deeds ==> DeedDone(l', q)
  {
    forall id <- l.sessions ensures Unexceeded(s, l, l', id) ==> SessionBorn(s, l', id) {
      assert SessionBorn(s, l, id);
    }
    forall q <- l.deeds ensures DeedDone(l', q) {
      assert DeedDone(l, q);
    }
  }

  /** ... and places. */
  lemma OldPlacesStand(p: nat, l: Ledger, l': Ledger)
    requires ChainsInv(l) && DrawersActed(l) && Grows(p, l, l')
    ensures forall id, g {:trigger Placed(l', id, g)} :: id in l.chains && 0 <= g < |l.chains[id]| ==> Placed(l', id, g)
  {
    forall id, g | id in l.chains && 0 <= g < |l.chains[id]| ensures Placed(l', id, g) {
      assert Placed(l, id, g);
      HomeIsStable(p, l, l', l.chains[id][g]);
    }
  }

  /** So a grown ledger keeps the invariant if its new entries are in order. */
  lemma GrownLedgerStands(s: Settings, p: nat, l: Ledger, l': Ledger)
    requires LedgerInv(s, l) && Grows(p, l, l')
    requires forall h {:trigger TransactionBorn(s, l', h)} :: h in l'.transactions && h !in l.transactions
               ==> TransactionBorn(s, l', h)
    requires forall c {:trigger CodeBorn(s, l', c)} :: c in l'.codes && c !in l.codes ==> CodeBorn(s, l', c)
    requires forall id {:trigger SessionBorn(s, l', id)} :: id in l'.sessions
               ==> (id in l.sessions && Unexceeded(s, l, l', id)) || SessionBorn(s, l', id)
    requires p in l'.deeds && p !in l.deeds ==> DeedDone(l', p)
    requires l'.chains.Keys == l'.sessions.Keys
    requires forall id, g {:trigger Placed(l', id, g)} :: id in l'.chains && 0 <= g < |l'.chains[id]|
               ==> (id in l.chains && g < |l.chains[id]|) || Placed(l', id, g)
    requires DrawersActed(l')
    requires l'.completedBy.Keys <= l'.transactions.Keys && l'.redeemedBy.Keys <= l'.codes.Keys
    ensures LedgerInv(s, l')
  {
    OldGrantsStand(s, p, l, l');
    OldSessionsStand(s, p, l, l');
    OldPlacesStand(p, l, l');
  }

  lemma RecordTransactionGrows(p: nat, l: Ledger, drawn: set<string>, tx: Transaction)
    requires p !in l.deeds && (forall v <- drawn :: v !in l.issued) && tx.idHash !in l.transactions
    ensures Grows(p, l, RecordTransaction(l, p, drawn, tx))
  {}

  lemma RecordCodeGrows(p: nat, l: Ledger, drawn: set<string>, code: AuthCode, tx: Digest)
    requires p !in l.deeds && (forall v <- drawn :: v !in l.issued) && code.codeHash !in l.codes
    ensures Grows(p, l, RecordCode(l, p, drawn, code, tx))
  {}

  lemma RecordSessionGrows(p: nat, l: Ledger, drawn: set<string>, session: Session, c: Digest)
    requires p !in l.deeds && (forall v <- drawn :: v !in l.issued)
    requires session.id !in l.sessions && session.id !in l.chains
    ensures Grows(p, l, RecordSession(l, p, drawn, session, c))
  {}

  lemma TransactionRecorded(s: Settings, p: nat, l: Ledger, drawn: set<string>, tx: Transaction)
    requires LedgerInv(s, l) && p !in l.deeds
    requires forall v <- drawn :: v !in l.issued
    requires tx.idHash.preimage in drawn && tx.entraStateHash.preimage in drawn
    requires tx.issuer == s.issuer && tx.completedAt.None?
    requires tx.terms.scope == s.requiredScopes && tx.terms.resource == s.resource
    requires exists flow :: tx.flow == Sealed(ContextOfTransaction(tx), Flow(flow))
    ensures tx.idHash !in l.transactions
    ensures LedgerInv(s, RecordTransaction(l, p, drawn, tx)) && Grows(p, l, RecordTransaction(l, p, drawn, tx))
  {
    var l' := RecordTransaction(l, p, drawn, tx);
    assert tx.idHash in l.transactions ==> TransactionBorn(s, l, tx.idHash);
    RecordTransactionGrows(p, l, drawn, tx);
    assert TransactionBorn(s, l', tx.idHash);
    GrownLedgerStands(s, p, l, l');
  }

  lemma CompletionRecorded(s: Settings, p: nat, l: Ledger, h: Digest)
    requires LedgerInv(s, l) && h in l.transactions && h !in l.completedBy
    ensures LedgerInv(s, l.(completedBy := l.completedBy[h := p]))
            && Grows(p, l, l.(completedBy := l.completedBy[h := p]))
  {
    GrownLedgerStands(s, p, l, l.(completedBy := l.completedBy[h := p]));
  }

  lemma CodeRecorded(s: Settings, p: nat, l: Ledger, drawn: set<string>, code: AuthCode, tx: Digest)
    requires LedgerInv(s, l) && p !in l.deeds
    requires forall v <- drawn :: v !in l.issued
    requires code.codeHash.preimage in drawn && code.issuer == s.issuer && code.usedAt.None? && Bundled(code)
    requires tx in l.transactions && code.terms == l.transactions[tx].terms
    requires tx in l.completedBy && l.completedBy[tx] == p
    ensures code.codeHash !in l.codes
    ensures LedgerInv(s, RecordCode(l, p, drawn, code, tx)) && Grows(p, l, RecordCode(l, p, drawn, code, tx))
  {
    var l' := RecordCode(l, p, drawn, code, tx);
    assert code.codeHash in l.codes ==> CodeBorn(s, l, code.codeHash);
    RecordCodeGrows(p, l, drawn, code, tx);
    assert CodeBorn(s, l', code.codeHash);
    GrownLedgerStands(s, p, l, l');
  }

  lemma RedemptionRecorded(s: Settings, p: nat, l: Ledger, c: Digest)
    requires LedgerInv(s, l) && c in l.codes && c !in l.redeemedBy
    ensures LedgerInv(s, l.(redeemedBy := l.redeemedBy[c := p])) && Grows(p, l, l.(redeemedBy := l.redeemedBy[c := p]))
  {
    GrownLedgerStands(s, p, l, l.(redeemedBy := l.redeemedBy[c := p]));
  }

  lemma SessionRecorded(s: Settings, p: nat, l: Ledger, drawn: set<string>, session: Session, c: Digest)
    requires LedgerInv(s, l) && p !in l.deeds
    requires forall v <- drawn :: v !in l.issued
    requires session.id in drawn && session.tokenHash.preimage in drawn && TokenShaped(session.tokenHash.preimage)
    requires BindingValid(s, session.facts)
    requires c in l.codes && c in l.redeemedBy && l.redeemedBy[c] == p
    requires session.facts.client == l.codes[c].row.terms.client && session.facts.owner == l.codes[c].row.owner
    requires session.facts.scope == l.codes[c].row.terms.scope
    requires session.facts.resource == l.codes[c].row.terms.resource
    ensures session.id !in l.sessions
    ensures LedgerInv(s, RecordSession(l, p, drawn, session, c)) && Grows(p, l, RecordSession(l, p, drawn, session, c))
  {
    var l' := RecordSession(l, p, drawn, session, c);
    assert session.id in l.sessions ==> SessionBorn(s, l, session.id);
    RecordSessionGrows(p, l, drawn, session, c);
    assert SessionBorn(s, l', session.id);
    assert Placed(l', session.id, 0);
    GrownLedgerStands(s, p, l, l');
  }

  lemma RotationRecorded(s: Settings, p: nat, l: Ledger, snap: Session, next: string)
    requires LedgerInv(s, l) && p !in l.deeds && next !in l.issued && TokenShaped(next)
    requires snap.id in l.sessions && snap.id in l.chains && |l.chains[snap.id]| == snap.rotationCount + 1
    requires l.chains[snap.id][snap.rotationCount] == snap.tokenHash
    requires snap.rotationCount < s.maxRotations
    ensures LedgerInv(s, RecordRotation(l, p, snap, next)) && Grows(p, l, RecordRotation(l, p, snap, next))
  {
    var l' := RecordRotation(l, p, snap, next);
    assert Grows(p, l, l');
    assert Placed(l', snap.id, snap.rotationCount + 1);
    assert DeedDone(l', p);
    GrownLedgerStands(s, p, l, l');
  }

  lemma RevocationRecorded(s: Settings, p: nat, l: Ledger, id: string)
    requires LedgerInv(s, l) && p !in l.deeds && id in l.sessions
    ensures LedgerInv(s, RecordRevocation(l, p, id)) && Grows(p, l, RecordRevocation(l, p, id))
  {
    GrownLedgerStands(s, p, l, RecordRevocation(l, p, id));
  }

  // ----- the tables -----

  lemma ReclaimKeepsTables(l: Ledger, db: Tables, now: Time)
    requires TablesInv(l, db)
    ensures TablesInv(l, Reclaim(db, now)) && Fades(l, db, Reclaim(db, now))
  {
    var db' := Reclaim(db, now);
    ReclaimKeepsSchema(db, now);
    forall k | k in db'.history ensures HistorySound(l, db', k) {
      assert HistorySound(l, db, k);
    }
    forall id, g | id in db'.sessions && id in l.chains && 0 <= g < db'.sessions[id].rotationCount && g < |l.chains[id]|
      ensures HistoryComplete(l, db', id, g)
    {
      assert HistoryComplete(l, db, id, g);
    }
  }

  /** History only speaks of sessions, chains and places. */
  lemma HistoryStands(p: nat, l: Ledger, db: Tables, l': Ledger, db': Tables)
    requires DrawersActed(l) && Grows(p, l, l') && TablesInv(l, db)
    requires db'.history == db.history
    requires forall id <- db.sessions :: id in db'.sessions && db'.sessions[id].facts == db.sessions[id].facts
               && db'.sessions[id].rotationCount == db.sessions[id].rotationCount
    requires forall id <- db'.sessions :: id in db.sessions || db'.sessions[id].rotationCount == 0
    ensures HistoryInv(l', db')
  {
    forall k | k in db'.history ensures HistorySound(l', db', k) {
      assert HistorySound(l, db, k);
      HomeIsStable(p, l, l', k.tokenHash);
    }
    forall id, g | id in db'.sessions && id in l'.chains
                   && 0 <= g < db'.sessions[id].rotationCount && g < |l'.chains[id]|
      ensures HistoryComplete(l', db', id, g)
    {
      assert SessionRow(l, id, db.sessions[id]);
      assert HistoryComplete(l, db, id, g);
    }
  }

  /** Changed tables keep the invariant if the changed rows are in order. */
  lemma ChangedTablesStand(p: nat, l: Ledger, db: Tables, l': Ledger, db': Tables)
    requires TablesInv(l, db) && Grows(p, l, l') && Schema(db') && HistoryInv(l', db')
    requires forall h {:trigger TransactionRow(l', h, db'.transactions[h])} :: h in db'.transactions ==>
               || (h in db.transactions && db'.transactions[h] == db.transactions[h]
                   && (h in l'.completedBy ==> h in l.completedBy))
               || TransactionRow(l', h, db'.transactions[h])
    requires forall c {:trigger CodeRow(l', c, db'.codes[c])} :: c in db'.codes ==>
               || (c in db.codes && db'.codes[c] == db.codes[c] && (c in l'.redeemedBy ==> c in l.redeemedBy))
               || CodeRow(l', c, db'.codes[c])
    requires forall id {:trigger SessionRow(l', id, db'.sessions[id])} :: id in db'.sessions ==>
               || (id in db.sessions && db'.sessions[id] == db.sessions[id]
                   && (id in l.chains && id in l'.chains ==> l'.chains[id] == l.chains[id]))
               || SessionRow(l', id, db'.sessions[id])
    ensures TablesInv(l', db')
  {
    forall h | h in db'.transactions ensures TransactionRow(l', h, db'.transactions[h]) {
      assert h in db.transactions ==> TransactionRow(l, h, db.transactions[h]);
    }
    forall c | c in db'.codes ensures CodeRow(l', c, db'.codes[c]) {
      assert c in db.codes ==> CodeRow(l, c, db.codes[c]);
    }
    forall id | id in db'.sessions ensures SessionRow(l', id, db'.sessions[id]) {
      assert id in db.sessions ==> SessionRow(l, id, db.sessions[id]);
    }
  }

  /** One changed row among the sessions. */
  lemma ChangedSessionStands(p: nat, l: Ledger, db: Tables, l': Ledger, db': Tables, id: string)
    requires TablesInv(l, db) && Grows(p, l, l') && Schema(db') && HistoryInv(l', db')
    requires db'.transactions == db.transactions && db'.codes == db.codes
    requires l'.completedBy == l.completedBy && l'.redeemedBy == l.redeemedBy
    requires forall other <- db'.sessions :: other != id ==>
               other in db.sessions && db'.sessions[other] == db.sessions[other]
    requires forall other :: other != id && other in l.chains ==>
               other in l'.chains && l'.chains[other] == l.chains[other]
    requires id in db'.sessions ==> SessionRow(l', id, db'.sessions[id])
    ensures TablesInv(l', db')
  {
    ChangedTablesStand(p, l, db, l', db');
  }

  /** One changed row among the codes. */
  lemma ChangedCodeStands(p: nat, l: Ledger, db: Tables, l': Ledger, db': Tables, c: Digest)
    requires TablesInv(l, db) && Grows(p, l, l') && Schema(db') && HistoryInv(l', db')
    requires db'.transactions == db.transactions && db'.sessions == db.sessions
    requires l'.completedBy == l.completedBy && l'.chains == l.chains
    requires forall d <- db'.codes :: d != c ==> d in db.codes && db'.codes[d] == db.codes[d]
    requires forall d :: d != c && d in l'.redeemedBy ==> d in l.redeemedBy
    requires c in db'.codes ==> CodeRow(l', c, db'.codes[c])
    ensures TablesInv(l', db')
  {
    ChangedTablesStand(p, l, db, l', db');
  }

  lemma TransactionInserted(p: nat, l: Ledger, db: Tables, drawn: set<string>, tx: Transaction)
    requires DrawersActed(l) && TablesInv(l, db) && Grows(p, l, RecordTransaction(l, p, drawn, tx))
    requires tx.idHash !in l.completedBy && tx.completedAt.None?
    requires InsertTransaction(db, tx).answer == Inserted
    ensures TablesInv(RecordTransaction(l, p, drawn, tx), InsertTransaction(db, tx).tables)
  {
    InsertTransactionKeepsSchema(db, tx);
    HistoryStands(p, l, db, RecordTransaction(l, p, drawn, tx), InsertTransaction(db, tx).tables);
    ChangedTablesStand(p, l, db, RecordTransaction(l, p, drawn, tx), InsertTransaction(db, tx).tables);
  }

  lemma ConsumedRow(l: Ledger, db: Tables, issuer: string, stateHash: Digest, now: Time)
    requires TablesInv(l, db) && ConsumeTransaction(db, issuer, stateHash, now).answer.Some?
    ensures var a := ConsumeTransaction(db, issuer, stateHash, now);
            var h := a.answer.value.idHash;
            && h in l.transactions && h !in l.completedBy
            && a.answer.value == l.transactions[h].(completedAt := Some(now))
            && a.answer.value.entraStateHash == stateHash
            && a.tables == db.(transactions := db.transactions[h := a.answer.value])
  {
    assert TransactionRow(l, ConsumeTransaction(db, issuer, stateHash, now).answer.value.idHash,
                          db.transactions[ConsumeTransaction(db, issuer, stateHash, now).answer.value.idHash]);
  }

  lemma TransactionConsumed(p: nat, l: Ledger, db: Tables, issuer: string, stateHash: Digest, now: Time)
    requires DrawersActed(l) && TablesInv(l, db)
    requires ConsumeTransaction(db, issuer, stateHash, now).answer.Some?
    ensures var a := ConsumeTransaction(db, issuer, stateHash, now);
            var h := a.answer.value.idHash;
            var l' := l.(completedBy := l.completedBy[h := p]);
            && h in l.transactions && h !in l.completedBy
            && a.answer.value == l.transactions[h].(completedAt := Some(now))
            && a.answer.value.entraStateHash == stateHash
            && TablesInv(l', a.tables)
  {
    var a := ConsumeTransaction(db, issuer, stateHash, now);
    ConsumeTransactionKeepsSchema(db, issuer, stateHash, now);
    ConsumedRow(l, db, issuer, stateHash, now);
    var l' := l.(completedBy := l.completedBy[a.answer.value.idHash := p]);
    HistoryStands(p, l, db, l', a.tables);
    ChangedTablesStand(p, l, db, l', a.tables);
  }

  lemma CodeInserted(p: nat, l: Ledger, db: Tables, drawn: set<string>, code: AuthCode, tx: Digest)
    requires DrawersActed(l) && TablesInv(l, db) && Grows(p, l, RecordCode(l, p, drawn, code, tx))
    requires code.codeHash !in l.redeemedBy && code.usedAt.None?
    requires InsertCode(db, code).answer == Inserted
    ensures TablesInv(RecordCode(l, p, drawn, code, tx), InsertCode(db, code).tables)
  {
    var l', db' := RecordCode(l, p, drawn, code, tx), InsertCode(db, code).tables;
    InsertCodeKeepsSchema(db, code);
    HistoryStands(p, l, db, l', db');
    ChangedCodeStands(p, l, db, l', db', code.codeHash);
  }

  lemma CodeConsumed(p: nat, l: Ledger, db: Tables, issuer: string, c: Digest, client: string, redirect: string,
                     challenge: Challenge, now: Time)
    requires DrawersActed(l) && TablesInv(l, db)
    requires ConsumeCode(db, issuer, c, client, redirect, challenge, now).answer.Some?
    ensures var a := ConsumeCode(db, issuer, c, client, redirect, challenge, now);
            var l' := l.(redeemedBy := l.redeemedBy[c := p]);
            && c in l.codes && c !in l.redeemedBy
            && a.answer.value == l.codes[c].row.(usedAt := Some(now))
            && TablesInv(l', a.tables)
  {
    var a := ConsumeCode(db, issuer, c, client, redirect, challenge, now);
    assert CodeRow(l, c, db.codes[c]);
    var l' := l.(redeemedBy := l.redeemedBy[c := p]);
    ConsumeCodeKeepsSchema(db, issuer, c, client, redirect, challenge, now);
    HistoryStands(p, l, db, l', a.tables);
    ChangedCodeStands(p, l, db, l', a.tables, c);
  }

  lemma NewSessionHistoryStands(p: nat, l: Ledger, db: Tables, l': Ledger, session: Session)
    requires DrawersActed(l) && TablesInv(l, db) && Grows(p, l, l') && session.rotationCount == 0
    requires InsertSession(db, session).answer == Inserted
    ensures HistoryInv(l', InsertSession(db, session).tables)
  {
    HistoryStands(p, l, db, l', InsertSession(db, session).tables);
  }

  lemma SessionInserted(p: nat, l: Ledger, db: Tables, drawn: set<string>, session: Session, c: Digest)
    requires DrawersActed(l) && TablesInv(l, db) && Grows(p, l, RecordSession(l, p, drawn, session, c))
    requires session.rotationCount == 0 && SealedAsItself(session)
    requires InsertSession(db, session).answer == Inserted
    ensures TablesInv(RecordSession(l, p, drawn, session, c), InsertSession(db, session).tables)
  {
    var l', db' := RecordSession(l, p, drawn, session, c), InsertSession(db, session).tables;
    InsertSessionKeepsSchema(db, session);
    NewSessionHistoryStands(p, l, db, l', session);
    ChangedSessionStands(p, l, db, l', db', session.id);
  }

  lemma RetiredFades(l: Ledger, db: Tables, id: string, now: Time)
    requires id in db.sessions
    ensures var db' := db.(sessions := db.sessions[id := Retired(db.sessions[id], now)]);
            Fades(l, db, db') && Dead(db', id)
  {}

  /** The row under a session's id becomes revoked. */
  lemma SessionRetired(p: nat, l: Ledger, db: Tables, id: string, now: Time)
    requires DrawersActed(l) && TablesInv(l, db) && id in db.sessions && p !in l.deeds
    ensures var db' := db.(sessions := db.sessions[id := Retired(db.sessions[id], now)]);
            id in l.sessions && TablesInv(RecordRevocation(l, p, id), db') && Fades(l, db, db') && Dead(db', id)
  {
    var db' := db.(sessions := db.sessions[id := Retired(db.sessions[id], now)]);
    RetiredFades(l, db, id, now);
    RetireKeepsSchema(db, id, now);
    assert SessionRow(l, id, db.sessions[id]);
    HistoryStands(p, l, db, RecordRevocation(l, p, id), db');
    ChangedSessionStands(p, l, db, RecordRevocation(l, p, id), db', id);
  }

  // ----- one step of one process -----

  /** The effect of a step of process p keeps every invariant and shows others nothing but growth. */
  ghost predicate EffectOk(s: Settings, l: Ledger, db: Tables, p: nat, proc: Proc, x: Effect, drawn: set<string>) {
    && LedgerInv(s, x.ledger) && TablesInv(x.ledger, x.db)
    && ProcInv(s, x.ledger, x.db, p, x.proc)
    && Grows(p, l, x.ledger) && Fades(l, db, x.db) && Freezes(l, db, x.ledger)
    && SameRequest(proc, x.proc)
    && (forall v <- x.ledger.issued :: v in l.issued || v in drawn)
    && (forall h <- x.ledger.transactions ::
          h in l.transactions || Asks(proc, x.ledger.transactions[h].terms))
    && (forall terms :: Asks(x.proc, terms) ==> Asks(proc, terms))
  }

  /** An authorization request for these terms that passed its checks. */
  predicate Asks(proc: Proc, terms: Terms) {
    proc.Authorizing? && !proc.authorize.AuthorizeRefused? && proc.terms == terms
  }

  lemma NothingWritten(s: Settings, l: Ledger, db: Tables, p: nat, proc: Proc, proc': Proc, drawn: set<string>)
    requires LedgerInv(s, l) && TablesInv(l, db) && ProcInv(s, l, db, p, proc')
    requires SameRequest(proc, proc') && forall terms :: Asks(proc', terms) ==> Asks(proc, terms)
    ensures EffectOk(s, l, db, p, proc, Effect(db, l, proc'), drawn)
  {}
}
