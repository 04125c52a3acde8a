/**
 The SQLite store: a class over four tables whose methods run the statements of
 each transaction in order, and are proved to commit exactly what the table
 functions specify. In particular the WHERE clauses that an update repeats
 after the select always match, and a violated constraint rolls everything
 back, the sweep included.
 */
module OAuthStore {
  import opened Basics
  import opened OAuthRecords
  import opened OAuthTables

  /** Deleting sessions by id and cascading to their history is what reclamation leaves of both. */
  lemma CascadeIsReclaim(t: Tables, now: Time)
    requires Schema(t)
    ensures var deleted := set id | id in t.sessions && SessionOver(t.sessions[id], now);
            && t.sessions - deleted == Reclaim(t, now).sessions
            && (map k | k in t.history && t.history[k].sessionId !in deleted :: t.history[k]) == Reclaim(t, now).history
  {
    var deleted := set id | id in t.sessions && SessionOver(t.sessions[id], now);
    assert t.sessions - deleted == Reclaim(t, now).sessions;
    assert (map k | k in t.history && t.history[k].sessionId !in deleted :: t.history[k]) == Reclaim(t, now).history;
  }

  class SQLiteOAuthStore {
    var transactions: map<Digest, Transaction>
    var codes: map<Digest, AuthCode>
    var sessions: map<string, Session>
    var history: map<HistoryKey, HistoryRow>

    ghost function Contents(): Tables
      reads this
    {
      Tables(transactions, codes, sessions, history)
    }

    ghost predicate Valid()
      reads this
    {
      Schema(Contents())
    }

    constructor ()
      ensures Valid() && Contents() == Tables(map[], map[], map[], map[])
    {
      transactions, codes, sessions, history := map[], map[], map[], map[];
    }

    // ----- the sweep, one DELETE statement per table -----

    method DeleteTerminalRows(now: Time)
      requires Valid()
      modifies this
      ensures Valid() && Contents() == Reclaim(old(Contents()), now)
    {
      ghost var before := Contents();
      transactions := map h | h in transactions && !TransactionOver(transactions[h], now) :: transactions[h];
      var deleted := set id | id in sessions && SessionOver(sessions[id], now);
      sessions := sessions - deleted;
      history := map k | k in history && history[k].sessionId !in deleted :: history[k];
      codes := map h | h in codes && !CodeOver(codes[h], now) :: codes[h];
      ReclaimKeepsSchema(before, now);
      CascadeIsReclaim(before, now);
    }

    // ----- transactions and codes -----

    method CreateTransaction(tx: Transaction) returns (r: InsertAnswer)
      requires Valid()
      modifies this
      ensures Valid() && After(Contents(), r) == OAuthTables.CreateTransaction(old(Contents()), tx)
    {
      var saved := (transactions, codes, sessions, history);
      DeleteTerminalRows(tx.createdAt);
      if tx.idHash in transactions || exists h <- transactions :: transactions[h].entraStateHash == tx.entraStateHash {
        transactions, codes, sessions, history := saved.0, saved.1, saved.2, saved.3;
        return Rejected;
      }
      InsertTransactionKeepsSchema(Contents(), tx);
      transactions := transactions[tx.idHash := tx];
      r := Inserted;
    }

    /** UPDATE ... SET completed_at WHERE transaction_id_hash AND completed_at IS NULL; returns the row count. */
    method MarkCompleted(h: Digest, now: Time) returns (matched: nat)
      modifies this`transactions
      ensures h in old(transactions) && old(transactions)[h].completedAt.None? ==>
                matched == 1 && transactions == old(transactions)[h := old(transactions)[h].(completedAt := Some(now))]
      ensures !(h in old(transactions) && old(transactions)[h].completedAt.None?) ==>
                matched == 0 && transactions == old(transactions)
    {
      matched := 0;
      if h in transactions && transactions[h].completedAt.None? {
        transactions := transactions[h := transactions[h].(completedAt := Some(now))];
        matched := 1;
      }
    }

    method ConsumeTransaction(issuer: string, stateHash: Digest, now: Time) returns (r: Option<Transaction>)
      requires Valid()
      modifies this
      ensures Valid() && After(Contents(), r) == OAuthTables.ConsumeTransaction(old(Contents()), issuer, stateHash, now)
    {
      if h :| h in transactions && Pending(transactions[h], issuer, stateHash, now) {
        PendingIsUnique(Contents(), issuer, stateHash, now, h);
        ConsumeTransactionKeepsSchema(Contents(), issuer, stateHash, now);
        var row := transactions[h];
        var matched := MarkCompleted(row.idHash, now);
        if matched != 1 {
          return None;
        }
        return Some(row.(completedAt := Some(now)));
      } else {
        return None;
      }
    }

    method CreateCode(code: AuthCode) returns (r: InsertAnswer)
      requires Valid()
      modifies this
      ensures Valid() && After(Contents(), r) == OAuthTables.CreateCode(old(Contents()), code)
    {
      var saved := (transactions, codes, sessions, history);
      DeleteTerminalRows(code.createdAt);
      if code.codeHash in codes {
        transactions, codes, sessions, history := saved.0, saved.1, saved.2, saved.3;
        return Rejected;
      }
      InsertCodeKeepsSchema(Contents(), code);
      codes := codes[code.codeHash := code];
      r := Inserted;
    }

    /** UPDATE ... SET used_at WHERE code_hash AND used_at IS NULL; returns the row count. */
    method MarkUsed(h: Digest, now: Time) returns (matched: nat)
      modifies this`codes
      ensures h in old(codes) && old(codes)[h].usedAt.None? ==>
                matched == 1 && codes == old(codes)[h := old(codes)[h].(usedAt := Some(now))]
      ensures !(h in old(codes) && old(codes)[h].usedAt.None?) ==> matched == 0 && codes == old(codes)
    {
      matched := 0;
      if h in codes && codes[h].usedAt.None? {
        codes := codes[h := codes[h].(usedAt := Some(now))];
        matched := 1;
      }
    }

    method ConsumeCode(issuer: string, codeHash: Digest, client: string, redirect: string, challenge: Challenge,
                       now: Time)
      returns (r: Option<AuthCode>)
      requires Valid()
      modifies this
      ensures Valid()
      ensures After(Contents(), r)
           == OAuthTables.ConsumeCode(old(Contents()), issuer, codeHash, client, redirect, challenge, now)
    {
      ConsumeCodeKeepsSchema(Contents(), issuer, codeHash, client, redirect, challenge, now);
      if codeHash !in codes || !Redeemable(codes[codeHash], issuer, client, redirect, challenge, now) {
        return None;
      }
      var row := codes[codeHash];
      var matched := MarkUsed(codeHash, now);
      if matched != 1 {
        return None;
      }
      return Some(row.(usedAt := Some(now)));
    }

    // ----- refresh sessions -----

    method CreateSession(session: Session) returns (r: InsertAnswer)
      requires Valid()
      modifies this
      ensures Valid() && After(Contents(), r) == OAuthTables.CreateSession(old(Contents()), session)
    {
      var saved := (transactions, codes, sessions, history);
      DeleteTerminalRows(session.facts.createdAt);
      if session.id in sessions
         || exists other <- sessions :: other != session.id && sessions[other].tokenHash == session.tokenHash {
        transactions, codes, sessions, history := saved.0, saved.1, saved.2, saved.3;
        return Rejected;
      }
      InsertSessionKeepsSchema(Contents(), session);
      sessions := sessions[session.id := session];
      r := Inserted;
    }

    method GetRefreshSession(issuer: string, hash: Digest, client: string, now: Time) returns (r: Option<Session>)
      requires Valid()
      ensures r == FindCurrent(Contents(), issuer, hash, client, now)
    {
      if id :| id in sessions && Current(sessions[id], issuer, client, hash, now) {
        CurrentIsUnique(Contents(), issuer, hash, client, now, id);
        return Some(sessions[id]);
      } else {
        return None;
      }
    }

    /** UPDATE ... SET revoked_at, updated_at for one live row; returns the row count. */
    method RetireCurrent(issuer: string, id: string, client: string, hash: Digest, now: Time) returns (matched: nat)
      modifies this`sessions
      ensures id in old(sessions) && Current(old(sessions)[id], issuer, client, hash, now) ==>
                matched == 1 && sessions == old(sessions)[id := Retired(old(sessions)[id], now)]
      ensures !(id in old(sessions) && Current(old(sessions)[id], issuer, client, hash, now)) ==>
                matched == 0 && sessions == old(sessions)
    {
      matched := 0;
      if id in sessions && Current(sessions[id], issuer, client, hash, now) {
        sessions := sessions[id := Retired(sessions[id], now)];
        matched := 1;
      }
    }

    /** UPDATE ... SET refresh_token_hash, encrypted_msal_cache, updated_at, rotation_count for one live row. */
    method SucceedCurrent(issuer: string, id: string, client: string, current: Digest, next: Digest, cache: Blob,
                          now: Time)
      returns (matched: nat)
      modifies this`sessions
      ensures id in old(sessions) && Current(old(sessions)[id], issuer, client, current, now) ==>
                matched == 1 && sessions == old(sessions)[id := Succeeded(old(sessions)[id], next, cache, now)]
      ensures !(id in old(sessions) && Current(old(sessions)[id], issuer, client, current, now)) ==>
                matched == 0 && sessions == old(sessions)
    {
      matched := 0;
      if id in sessions && Current(sessions[id], issuer, client, current, now) {
        sessions := sessions[id := Succeeded(sessions[id], next, cache, now)];
        matched := 1;
      }
    }

    method RotateRefreshSession(issuer: string, id: string, client: string, current: Digest, next: Digest, cache: Blob,
                                max: nat, now: Time) returns (r: RotateAnswer)
      requires Valid()
      modifies this
      ensures Valid()
      ensures After(Contents(), r) == Rotate(old(Contents()), issuer, id, client, current, next, cache, max, now)
    {
      SwapKeepsSchema(Contents(), issuer, id, client, current, next, cache, max, now);
      if id !in sessions || !Current(sessions[id], issuer, client, current, now) {
        return Conflict;
      }
      var row := sessions[id];
      if row.rotationCount >= max {
        var revoked := RetireCurrent(issuer, id, client, current, now);
        if revoked != 1 {
          return Conflict;
        }
        return LimitReached;
      }
      var saved := sessions;
      if exists other <- sessions :: other != id && sessions[other].tokenHash == next {
        return Failed;
      }
      var updated := SucceedCurrent(issuer, id, client, current, next, cache, now);
      if updated != 1 {
        return Conflict;
      }
      var key := HistoryKey(issuer, client, current);
      if key in history {
        sessions := saved;
        return Failed;
      }
      history := history[key := HistoryRow(id, row.facts.family, now)];
      DeleteTerminalRows(now);
      return Rotated;
    }

    method RevokeRefreshSession(issuer: string, id: string, client: string, current: Digest, now: Time)
      returns (r: bool)
      requires Valid()
      modifies this
      ensures Valid() && After(Contents(), r) == Revoke(old(Contents()), issuer, id, client, current, now)
    {
      RevokeKeepsSchema(Contents(), issuer, id, client, current, now);
      r := false;
      if id in sessions && sessions[id].facts.issuer == issuer && sessions[id].facts.client == client
         && sessions[id].tokenHash == current && sessions[id].revokedAt.None? {
        sessions := sessions[id := Retired(sessions[id], now)];
        r := true;
      }
    }

    /** The join of the history with the sessions. */
    method FindReplayedSession(issuer: string, hash: Digest, client: string, now: Time) returns (r: Option<Session>)
      requires Valid()
      ensures r == FindReplayed(Contents(), issuer, hash, client, now)
    {
      var key := HistoryKey(issuer, client, hash);
      if key !in history || history[key].sessionId !in sessions {
        return None;
      }
      var row := sessions[history[key].sessionId];
      if row.facts.issuer == issuer && row.facts.client == client && row.facts.family == history[key].family
         && row.revokedAt.None? && row.facts.expiresAt > now {
        return Some(row);
      }
      return None;
    }

    /** The second transaction of a replay: finds the session again, under the write lock, and revokes it. */
    method RevokeReplayedUnderLock(issuer: string, hash: Digest, client: string, now: Time)
      returns (r: Option<Session>)
      requires Valid()
      modifies this
      ensures Valid() && After(Contents(), r) == RevokeReplayed(old(Contents()), issuer, hash, client, now)
    {
      RevokeReplayedKeepsSchema(Contents(), issuer, hash, client, now);
      var found := FindReplayedSession(issuer, hash, client, now);
      if found.None? {
        return None;
      }
      var row := found.value;
      var updated := 0;
      if row.id in sessions && sessions[row.id].facts.issuer == issuer && sessions[row.id].facts.client == client
         && sessions[row.id].facts.family == row.facts.family && sessions[row.id].revokedAt.None?
         && sessions[row.id].facts.expiresAt > now {
        sessions := sessions[row.id := Retired(sessions[row.id], now)];
        updated := 1;
      }
      if updated != 1 {
        return None;
      }
      return Some(row.(revokedAt := Some(now)));
    }

    /** Both transactions of a replay, with nothing in between. */
    method RevokeRefreshSessionByReplay(issuer: string, hash: Digest, client: string, now: Time)
      returns (r: Option<Session>)
      requires Valid()
      modifies this
      ensures Valid() && After(Contents(), r) == RevokeReplayed(old(Contents()), issuer, hash, client, now)
    {
      var seen := FindReplayedSession(issuer, hash, client, now);
      if seen.None? {
        return None;
      }
      r := RevokeReplayedUnderLock(issuer, hash, client, now);
    }
  }
}
