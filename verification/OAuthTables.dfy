/**
 The four OAuth tables as values, and every store transaction as a function
 from tables to tables and an answer. These functions are the specification of
 the store class; the protocol runs on them directly, since a committed
 transaction is one atomic step.
 */
module OAuthTables {
  import opened Basics
  import opened OAuthRecords

  datatype HistoryKey = HistoryKey(issuer: string, client: string, tokenHash: Digest)

  datatype HistoryRow = HistoryRow(sessionId: string, family: string, usedAt: Time)

  datatype Tables = Tables(
    transactions: map<Digest, Transaction>,
    codes: map<Digest, AuthCode>,
    sessions: map<string, Session>,
    history: map<HistoryKey, HistoryRow>)

  /** The tables after a transaction, and what the transaction returned. */
  datatype After<+R> = After(tables: Tables, answer: R)

  datatype RotateAnswer = Rotated | Conflict | LimitReached | Failed

  datatype InsertAnswer = Inserted | Rejected

  const REVOKED_RETENTION: Time := 86_400

  ghost predicate DistinctStates(t: Tables, h: Digest, k: Digest) {
    h in t.transactions && k in t.transactions && h != k ==>
      t.transactions[h].entraStateHash != t.transactions[k].entraStateHash
  }

  ghost predicate DistinctHandles(t: Tables, i: string, j: string) {
    i in t.sessions && j in t.sessions && i != j ==> t.sessions[i].tokenHash != t.sessions[j].tokenHash
  }

  /** Primary keys, unique columns and the foreign key of the schema. */
  ghost predicate Schema(t: Tables) {
    && (forall h <- t.transactions :: t.transactions[h].idHash == h)
    && (forall h, k {:trigger DistinctStates(t, h, k)} :: DistinctStates(t, h, k))
    && (forall h <- t.codes :: t.codes[h].codeHash == h)
    && (forall id <- t.sessions :: t.sessions[id].id == id)
    && (forall i, j {:trigger DistinctHandles(t, i, j)} :: DistinctHandles(t, i, j))
    && (forall k <- t.history :: t.history[k].sessionId in t.sessions)
  }

  // ----- reclamation -----

  predicate TransactionOver(tx: Transaction, now: Time) {
    tx.expiresAt <= now || tx.completedAt.Some?
  }

  predicate CodeOver(code: AuthCode, now: Time) {
    code.expiresAt <= now || code.usedAt.Some?
  }

  predicate SessionOver(session: Session, now: Time) {
    session.facts.expiresAt <= now
    || (session.revokedAt.Some? && session.revokedAt.value <= now - REVOKED_RETENTION)
  }

  /** Deletes every terminal row; deleting a session cascades to its history. */
  ghost function Reclaim(t: Tables, now: Time): Tables {
    Tables(
      map h | h in t.transactions && !TransactionOver(t.transactions[h], now) :: t.transactions[h],
      map h | h in t.codes && !CodeOver(t.codes[h], now) :: t.codes[h],
      map id | id in t.sessions && !SessionOver(t.sessions[id], now) :: t.sessions[id],
      map k | k in t.history && !Orphaned(t, t.history[k], now) :: t.history[k])
  }

  ghost predicate Orphaned(t: Tables, row: HistoryRow, now: Time) {
    row.sessionId in t.sessions && SessionOver(t.sessions[row.sessionId], now)
  }

  /**
   A sweep leaves pending transactions and unspent codes until they expire, and sessions until they expire or have
   been revoked for a day, with the history of exactly those sessions; and it changes no row.
   */
  lemma SweepExactly(t: Tables, now: Time)
    requires Schema(t)
    ensures var u := Reclaim(t, now);
            && (forall h <- t.transactions ::
                  h in u.transactions <==> t.transactions[h].completedAt.None? && now < t.transactions[h].expiresAt)
            && (forall c <- t.codes :: c in u.codes <==> t.codes[c].usedAt.None? && now < t.codes[c].expiresAt)
            && (forall id <- t.sessions ::
                  id in u.sessions <==> && now < t.sessions[id].facts.expiresAt
                                        && (t.sessions[id].revokedAt.Some? ==>
                                              now < t.sessions[id].revokedAt.value + 86_400))
            && (forall k <- t.history :: k in u.history <==> t.history[k].sessionId in u.sessions)
            && (forall h <- u.transactions :: h in t.transactions && u.transactions[h] == t.transactions[h])
            && (forall c <- u.codes :: c in t.codes && u.codes[c] == t.codes[c])
            && (forall id <- u.sessions :: id in t.sessions && u.sessions[id] == t.sessions[id])
            && (forall k <- u.history :: k in t.history && u.history[k] == t.history[k])
  {}

  lemma ReclaimKeepsSchema(t: Tables, now: Time)
    requires Schema(t)
    ensures Schema(Reclaim(t, now))
  {
    forall h, k ensures DistinctStates(Reclaim(t, now), h, k) {
      assert DistinctStates(t, h, k);
    }
    forall i, j ensures DistinctHandles(Reclaim(t, now), i, j) {
      assert DistinctHandles(t, i, j);
    }
  }

  /** The two unique columns depend on their own table only. */
  lemma UniqueColumnsStand(t: Tables, u: Tables)
    requires Schema(t)
    ensures t.transactions == u.transactions ==>
              forall h, k {:trigger DistinctStates(u, h, k)} :: DistinctStates(u, h, k)
    ensures t.sessions == u.sessions ==> forall i, j {:trigger DistinctHandles(u, i, j)} :: DistinctHandles(u, i, j)
  {
    forall h, k ensures t.transactions == u.transactions ==> DistinctStates(u, h, k) {
      assert DistinctStates(t, h, k);
    }
    forall i, j ensures t.sessions == u.sessions ==> DistinctHandles(u, i, j) {
      assert DistinctHandles(t, i, j);
    }
  }

  // ----- authorization transactions -----

  predicate Pending(tx: Transaction, issuer: string, stateHash: Digest, now: Time) {
    tx.issuer == issuer && tx.entraStateHash == stateHash && tx.completedAt.None? && tx.expiresAt > now
  }

  ghost function InsertTransaction(t: Tables, tx: Transaction): After<InsertAnswer> {
    if tx.idHash in t.transactions
       || exists h :: h in t.transactions && t.transactions[h].entraStateHash == tx.entraStateHash
    then After(t, Rejected)
    else After(t.(transactions := t.transactions[tx.idHash := tx]), Inserted)
  }

  ghost function CreateTransaction(t: Tables, tx: Transaction): After<InsertAnswer> {
    var a := InsertTransaction(Reclaim(t, tx.createdAt), tx);
    if a.answer == Rejected then After(t, Rejected) else a
  }

  ghost function ConsumeTransaction(t: Tables, issuer: string, stateHash: Digest, now: Time)
    : After<Option<Transaction>>
  {
    if h :| h in t.transactions && Pending(t.transactions[h], issuer, stateHash, now) then
      var tx := t.transactions[h].(completedAt := Some(now));
      After(t.(transactions := t.transactions[h := tx]), Some(tx))
    else After(t, None)
  }

  // ----- authorization codes -----

  predicate Redeemable(code: AuthCode, issuer: string, client: string, redirect: string, challenge: Challenge,
                       now: Time)
  {
    && code.issuer == issuer
    && code.terms.client == client
    && code.terms.redirect == redirect
    && code.terms.challenge == challenge
    && code.usedAt.None?
    && code.expiresAt > now
  }

  ghost function InsertCode(t: Tables, code: AuthCode): After<InsertAnswer> {
    if code.codeHash in t.codes then After(t, Rejected)
    else After(t.(codes := t.codes[code.codeHash := code]), Inserted)
  }

  ghost function CreateCode(t: Tables, code: AuthCode): After<InsertAnswer> {
    var a := InsertCode(Reclaim(t, code.createdAt), code);
    if a.answer == Rejected then After(t, Rejected) else a
  }

  ghost function ConsumeCode(t: Tables, issuer: string, codeHash: Digest, client: string, redirect: string,
                             challenge: Challenge, now: Time): After<Option<AuthCode>>
  {
    if codeHash in t.codes && Redeemable(t.codes[codeHash], issuer, client, redirect, challenge, now) then
      var code := t.codes[codeHash].(usedAt := Some(now));
      After(t.(codes := t.codes[codeHash := code]), Some(code))
    else After(t, None)
  }

  // ----- refresh sessions -----

  ghost predicate HashTaken(t: Tables, id: string, hash: Digest) {
    exists other :: other in t.sessions && other != id && t.sessions[other].tokenHash == hash
  }

  ghost function InsertSession(t: Tables, session: Session): After<InsertAnswer> {
    if session.id in t.sessions || HashTaken(t, session.id, session.tokenHash) then After(t, Rejected)
    else After(t.(sessions := t.sessions[session.id := session]), Inserted)
  }

  ghost function CreateSession(t: Tables, session: Session): After<InsertAnswer> {
    var a := InsertSession(Reclaim(t, session.facts.createdAt), session);
    if a.answer == Rejected then After(t, Rejected) else a
  }

  /** The row that a live handle of this issuer and client selects. */
  predicate Current(row: Session, issuer: string, client: string, hash: Digest, now: Time) {
    && row.facts.issuer == issuer
    && row.facts.client == client
    && row.tokenHash == hash
    && row.revokedAt.None?
    && row.facts.expiresAt > now
  }

  ghost function FindCurrent(t: Tables, issuer: string, hash: Digest, client: string, now: Time): Option<Session> {
    if id :| id in t.sessions && Current(t.sessions[id], issuer, client, hash, now) then Some(t.sessions[id]) else None
  }

  function Retired(row: Session, now: Time): Session {
    row.(revokedAt := Some(now), updatedAt := now)
  }

  function Succeeded(row: Session, next: Digest, cache: Blob, now: Time): Session {
    row.(tokenHash := next, cache := cache, updatedAt := now, rotationCount := row.rotationCount + 1)
  }

  /** The compare-and-swap of a handle, without the sweep that follows a success. */
  ghost function Swap(t: Tables, issuer: string, id: string, client: string, current: Digest, next: Digest,
                      cache: Blob, max: nat, now: Time): After<RotateAnswer>
  {
    if id !in t.sessions || !Current(t.sessions[id], issuer, client, current, now) then After(t, Conflict)
    else
      var row := t.sessions[id];
      var key := HistoryKey(issuer, client, current);
      if row.rotationCount >= max then
        After(t.(sessions := t.sessions[id := Retired(row, now)]), LimitReached)
      else if HashTaken(t, id, next) || key in t.history then After(t, Failed)
      else
        After(t.(sessions := t.sessions[id := Succeeded(row, next, cache, now)],
                 history := t.history[key := HistoryRow(id, row.facts.family, now)]), Rotated)
  }

  ghost function Rotate(t: Tables, issuer: string, id: string, client: string, current: Digest, next: Digest,
                        cache: Blob, max: nat, now: Time): After<RotateAnswer>
  {
    var a := Swap(t, issuer, id, client, current, next, cache, max, now);
    if a.answer == Rotated then After(Reclaim(a.tables, now), Rotated) else a
  }

  /** Revocation by current handle; unlike every other statement it does not look at the expiry. */
  ghost function Revoke(t: Tables, issuer: string, id: string, client: string, current: Digest, now: Time): After<bool>
  {
    if id in t.sessions && t.sessions[id].facts.issuer == issuer && t.sessions[id].facts.client == client
       && t.sessions[id].tokenHash == current && t.sessions[id].revokedAt.None?
    then After(t.(sessions := t.sessions[id := Retired(t.sessions[id], now)]), true)
    else After(t, false)
  }

  /** The live session whose history holds this spent handle. */
  ghost function FindReplayed(t: Tables, issuer: string, hash: Digest, client: string, now: Time): Option<Session> {
    var key := HistoryKey(issuer, client, hash);
    if key in t.history && t.history[key].sessionId in t.sessions then
      var row := t.sessions[t.history[key].sessionId];
      if row.facts.issuer == issuer && row.facts.client == client && row.facts.family == t.history[key].family
         && row.revokedAt.None? && row.facts.expiresAt > now
      then Some(row) else None
    else None
  }

  /** Replay revocation as one atomic find-and-revoke. */
  ghost function RevokeReplayed(t: Tables, issuer: string, hash: Digest, client: string, now: Time)
    : After<Option<Session>>
  {
    match FindReplayed(t, issuer, hash, client, now)
    case None => After(t, None)
    case Some(row) =>
      After(t.(sessions := t.sessions[row.id := Retired(row, now)]), Some(row.(revokedAt := Some(now))))
  }

  // ----- what the answers mean -----

  /** Unique columns make the two selecting queries functions: any matching row is the answer. */
  lemma CurrentIsUnique(t: Tables, issuer: string, hash: Digest, client: string, now: Time, id: string)
    requires Schema(t)
    requires id in t.sessions && Current(t.sessions[id], issuer, client, hash, now)
    ensures FindCurrent(t, issuer, hash, client, now) == Some(t.sessions[id])
  {
    var row := FindCurrent(t, issuer, hash, client, now).value;
    assert DistinctHandles(t, id, row.id);
  }

  lemma PendingIsUnique(t: Tables, issuer: string, stateHash: Digest, now: Time, h: Digest)
    requires Schema(t)
    requires h in t.transactions && Pending(t.transactions[h], issuer, stateHash, now)
    ensures ConsumeTransaction(t, issuer, stateHash, now)
         == var tx := t.transactions[h].(completedAt := Some(now));
            After(t.(transactions := t.transactions[h := tx]), Some(tx))
  {
    var tx := ConsumeTransaction(t, issuer, stateHash, now).answer.value;
    assert DistinctStates(t, h, tx.idHash);
  }

  // ----- no transaction breaks the schema, whatever the arguments -----

  lemma InsertTransactionKeepsSchema(t: Tables, tx: Transaction)
    requires Schema(t)
    ensures Schema(InsertTransaction(t, tx).tables)
  {
    var u := InsertTransaction(t, tx).tables;
    UniqueColumnsStand(t, u);
    forall h, k ensures DistinctStates(u, h, k) {
      assert DistinctStates(t, h, k);
    }
  }

  lemma CreateTransactionKeepsSchema(t: Tables, tx: Transaction)
    requires Schema(t)
    ensures Schema(CreateTransaction(t, tx).tables)
  {
    ReclaimKeepsSchema(t, tx.createdAt);
    InsertTransactionKeepsSchema(Reclaim(t, tx.createdAt), tx);
  }

  lemma ConsumeTransactionKeepsSchema(t: Tables, issuer: string, stateHash: Digest, now: Time)
    requires Schema(t)
    ensures Schema(ConsumeTransaction(t, issuer, stateHash, now).tables)
  {
    var u := ConsumeTransaction(t, issuer, stateHash, now).tables;
    UniqueColumnsStand(t, u);
    forall h, k ensures DistinctStates(u, h, k) {
      assert DistinctStates(t, h, k);
    }
  }

  lemma InsertCodeKeepsSchema(t: Tables, code: AuthCode)
    requires Schema(t)
    ensures Schema(InsertCode(t, code).tables)
  {
    UniqueColumnsStand(t, InsertCode(t, code).tables);
  }

  lemma CreateCodeKeepsSchema(t: Tables, code: AuthCode)
    requires Schema(t)
    ensures Schema(CreateCode(t, code).tables)
  {
    ReclaimKeepsSchema(t, code.createdAt);
    InsertCodeKeepsSchema(Reclaim(t, code.createdAt), code);
  }

  lemma ConsumeCodeKeepsSchema(t: Tables, issuer: string, codeHash: Digest, client: string, redirect: string,
                               challenge: Challenge, now: Time)
    requires Schema(t)
    ensures Schema(ConsumeCode(t, issuer, codeHash, client, redirect, challenge, now).tables)
  {
    UniqueColumnsStand(t, ConsumeCode(t, issuer, codeHash, client, redirect, challenge, now).tables);
  }

  lemma InsertSessionKeepsSchema(t: Tables, session: Session)
    requires Schema(t)
    ensures Schema(InsertSession(t, session).tables)
  {
    var u := InsertSession(t, session).tables;
    UniqueColumnsStand(t, u);
    forall i, j ensures DistinctHandles(u, i, j) {
      assert DistinctHandles(t, i, j);
    }
  }

  lemma CreateSessionKeepsSchema(t: Tables, session: Session)
    requires Schema(t)
    ensures Schema(CreateSession(t, session).tables)
  {
    ReclaimKeepsSchema(t, session.facts.createdAt);
    InsertSessionKeepsSchema(Reclaim(t, session.facts.createdAt), session);
  }

  /** Changing a row in place, to a handle that no other row holds, with its history row added. */
  lemma RowUpdateKeepsSchema(t: Tables, id: string, row: Session, history: map<HistoryKey, HistoryRow>)
    requires Schema(t) && id in t.sessions && row.id == id && !HashTaken(t, id, row.tokenHash)
    requires forall k <- history :: history[k].sessionId in t.sessions
    ensures Schema(t.(sessions := t.sessions[id := row], history := history))
  {
    var u := t.(sessions := t.sessions[id := row], history := history);
    UniqueColumnsStand(t, u);
    forall i, j ensures DistinctHandles(u, i, j) {
      assert DistinctHandles(t, i, j);
    }
  }

  lemma RetireKeepsSchema(t: Tables, id: string, now: Time)
    requires Schema(t) && id in t.sessions
    ensures Schema(t.(sessions := t.sessions[id := Retired(t.sessions[id], now)]))
  {
    forall other | other in t.sessions && other != id ensures t.sessions[other].tokenHash != t.sessions[id].tokenHash {
      assert DistinctHandles(t, other, id);
    }
    RowUpdateKeepsSchema(t, id, Retired(t.sessions[id], now), t.history);
  }

  lemma SwapKeepsSchema(t: Tables, issuer: string, id: string, client: string, current: Digest, next: Digest,
                        cache: Blob, max: nat, now: Time)
    requires Schema(t)
    ensures Schema(Swap(t, issuer, id, client, current, next, cache, max, now).tables)
  {
    var a := Swap(t, issuer, id, client, current, next, cache, max, now);
    if a.answer == LimitReached {
      RetireKeepsSchema(t, id, now);
    } else if a.answer == Rotated {
      RowUpdateKeepsSchema(t, id, Succeeded(t.sessions[id], next, cache, now), a.tables.history);
    }
  }

  lemma RotateKeepsSchema(t: Tables, issuer: string, id: string, client: string, current: Digest, next: Digest,
                          cache: Blob, max: nat, now: Time)
    requires Schema(t)
    ensures Schema(Rotate(t, issuer, id, client, current, next, cache, max, now).tables)
  {
    SwapKeepsSchema(t, issuer, id, client, current, next, cache, max, now);
    ReclaimKeepsSchema(Swap(t, issuer, id, client, current, next, cache, max, now).tables, now);
  }

  lemma RevokeKeepsSchema(t: Tables, issuer: string, id: string, client: string, current: Digest, now: Time)
    requires Schema(t)
    ensures Schema(Revoke(t, issuer, id, client, current, now).tables)
  {
    if Revoke(t, issuer, id, client, current, now).answer {
      RetireKeepsSchema(t, id, now);
    }
  }

  lemma RevokeReplayedKeepsSchema(t: Tables, issuer: string, hash: Digest, client: string, now: Time)
    requires Schema(t)
    ensures Schema(RevokeReplayed(t, issuer, hash, client, now).tables)
  {
    match FindReplayed(t, issuer, hash, client, now)
    case None =>
    case Some(row) => RetireKeepsSchema(t, row.id, now);
  }
}
