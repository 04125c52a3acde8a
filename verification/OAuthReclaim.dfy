/**
 What reclamation does to answers. The store runs beside a store that never deletes a row. Clocks may go back,
 since a request keeps the reading it took at its start. An operation is answered alike by both exactly when the
 row that it acts on expires after every sweep since that row was stored; for clocks that do not go back, only
 revocation by current handle, which does not look at the expiry, can act on any other row.
 */
module OAuthReclaim {
  import opened Basics
  import opened OAuthRecords
  import opened OAuthTables

  datatype Op =
    | StartOp(now: Time)
    | CreateTransactionOp(tx: Transaction)
    | ConsumeTransactionOp(issuer: string, stateHash: Digest, now: Time)
    | CreateCodeOp(code: AuthCode)
    | ConsumeCodeOp(issuer: string, codeHash: Digest, client: string, redirect: string, challenge: Challenge, now: Time)
    | CreateSessionOp(session: Session)
    | GetOp(issuer: string, hash: Digest, client: string, now: Time)
    | RotateOp(issuer: string, id: string, client: string, current: Digest, next: Digest, cache: Blob, max: nat,
               now: Time)
    | RevokeOp(issuer: string, id: string, client: string, current: Digest, now: Time)
    | ReplayOp(issuer: string, hash: Digest, client: string, now: Time)

  datatype Answer =
    | Ready
    | Insertion(insertion: InsertAnswer)
    | ATransaction(transaction: Option<Transaction>)
    | ACode(code: Option<AuthCode>)
    | ASession(session: Option<Session>)
    | Rotation(rotation: RotateAnswer)
    | Revocation(revoked: bool)

  function Clock(op: Op): Time {
    match op
    case CreateTransactionOp(tx) => tx.createdAt
    case CreateCodeOp(code) => code.createdAt
    case CreateSessionOp(session) => session.facts.createdAt
    case _ => op.now
  }

  ghost function Wrapped<R>(a: After<R>, wrap: R -> Answer): After<Answer> {
    After(a.tables, wrap(a.answer))
  }

  /** One operation of the store, with its sweep or without. */
  ghost function Perform(t: Tables, op: Op, sweeping: bool): After<Answer> {
    match op
    case StartOp(now) => After(if sweeping then Reclaim(t, now) else t, Ready)
    case CreateTransactionOp(tx) =>
      Wrapped(if sweeping then CreateTransaction(t, tx) else InsertTransaction(t, tx), x => Insertion(x))
    case ConsumeTransactionOp(issuer, h, now) => Wrapped(ConsumeTransaction(t, issuer, h, now), x => ATransaction(x))
    case CreateCodeOp(code) =>
      Wrapped(if sweeping then CreateCode(t, code) else InsertCode(t, code), x => Insertion(x))
    case ConsumeCodeOp(issuer, c, client, redirect, challenge, now) =>
      Wrapped(ConsumeCode(t, issuer, c, client, redirect, challenge, now), x => ACode(x))
    case CreateSessionOp(session) =>
      Wrapped(if sweeping then CreateSession(t, session) else InsertSession(t, session), x => Insertion(x))
    case GetOp(issuer, hash, client, now) => After(t, ASession(FindCurrent(t, issuer, hash, client, now)))
    case RotateOp(issuer, id, client, current, next, cache, max, now) =>
      Wrapped(if sweeping then Rotate(t, issuer, id, client, current, next, cache, max, now)
              else Swap(t, issuer, id, client, current, next, cache, max, now), x => Rotation(x))
    case RevokeOp(issuer, id, client, current, now) =>
      Wrapped(Revoke(t, issuer, id, client, current, now), x => Revocation(x))
    case ReplayOp(issuer, hash, client, now) => Wrapped(RevokeReplayed(t, issuer, hash, client, now), x => ASession(x))
  }

  ghost function Play(t: Tables, ops: seq<Op>, sweeping: bool): (answers: seq<Answer>)
    ensures |answers| == |ops|
    decreases ops
  {
    if ops == [] then []
    else
      var a := Perform(t, ops[0], sweeping);
      [a.answer] + Play(a.tables, ops[1..], sweeping)
  }

  // ----- the row an operation acts on -----

  datatype Target = NoRow | OnTransaction(h: Digest) | OnCode(c: Digest) | OnSession(id: string)

  /** The row that the operation finds when none was ever deleted. */
  ghost function Acted(t: Tables, op: Op): Target {
    match op
    case ConsumeTransactionOp(issuer, h, now) =>
      (match ConsumeTransaction(t, issuer, h, now).answer case Some(tx) => OnTransaction(tx.idHash) case None => NoRow)
    case ConsumeCodeOp(issuer, c, client, redirect, challenge, now) =>
      if ConsumeCode(t, issuer, c, client, redirect, challenge, now).answer.Some? then OnCode(c) else NoRow
    case GetOp(issuer, hash, client, now) =>
      (match FindCurrent(t, issuer, hash, client, now) case Some(row) => OnSession(row.id) case None => NoRow)
    case RotateOp(issuer, id, client, current, _, _, _, now) =>
      if id in t.sessions && Current(t.sessions[id], issuer, client, current, now) then OnSession(id) else NoRow
    case RevokeOp(issuer, id, client, current, now) =>
      if Revoke(t, issuer, id, client, current, now).answer then OnSession(id) else NoRow
    case ReplayOp(issuer, hash, client, now) =>
      (match FindReplayed(t, issuer, hash, client, now) case Some(row) => OnSession(row.id) case None => NoRow)
    case _ => NoRow
  }

  /** Whether the row expires after a given time; no row, and a row that is not there, always do. */
  predicate Outlives(t: Tables, target: Target, at: Time) {
    match target
    case OnTransaction(h) => h in t.transactions ==> t.transactions[h].expiresAt > at
    case OnCode(c) => c in t.codes ==> t.codes[c].expiresAt > at
    case OnSession(id) => id in t.sessions ==> t.sessions[id].facts.expiresAt > at
    case NoRow => true
  }

  // ----- both stores side by side -----

  /** For every row stored before the last sweep, the latest clock reading of a sweep since it was stored. */
  datatype Marks = Marks(transactions: map<Digest, Time>, codes: map<Digest, Time>, sessions: map<string, Time>)

  /** The tables without deletions, the swept ones, and the marks. */
  datatype Twin = Twin(full: Tables, kept: Tables, marks: Marks)

  const NOTHING := Tables(map[], map[], map[], map[])
  const EMPTY := Twin(NOTHING, NOTHING, Marks(map[], map[], map[]))

  function Marked<K>(m: map<K, Time>, rows: set<K>, at: Time): map<K, Time> {
    map k | k in rows :: if k in m && at < m[k] then m[k] else at
  }

  function AfterSweep(marks: Marks, full: Tables, at: Time): Marks {
    Marks(Marked(marks.transactions, full.transactions.Keys, at), Marked(marks.codes, full.codes.Keys, at),
          Marked(marks.sessions, full.sessions.Keys, at))
  }

  function LastSweep(marks: Marks, target: Target): Option<Time> {
    match target
    case OnTransaction(h) => if h in marks.transactions then Some(marks.transactions[h]) else None
    case OnCode(c) => if c in marks.codes then Some(marks.codes[c]) else None
    case OnSession(id) => if id in marks.sessions then Some(marks.sessions[id]) else None
    case NoRow => None
  }

  /** The row that the operation acts on expires after every sweep since it was stored. */
  ghost predicate Unswept(x: Twin, op: Op) {
    var target := Acted(x.full, op);
    LastSweep(x.marks, target).Some? ==> Outlives(x.full, target, LastSweep(x.marks, target).value)
  }

  predicate Sweeps(op: Op, answer: Answer) {
    op.StartOp? || answer == Insertion(Inserted) || answer == Rotation(Rotated)
  }

  ghost function Step(x: Twin, op: Op): Twin {
    var a, b := Perform(x.full, op, false), Perform(x.kept, op, true);
    Twin(a.tables, b.tables, if Sweeps(op, b.answer) then AfterSweep(x.marks, x.full, Clock(op)) else x.marks)
  }

  ghost function At(x: Twin, ops: seq<Op>, i: nat): Twin
    requires i <= |ops|
    decreases i
  {
    if i == 0 then x else At(Step(x, ops[0]), ops[1..], i - 1)
  }

  // ----- the relation between the two -----

  predicate Late<K>(m: map<K, Time>, k: K, expiresAt: Time) {
    k in m && expiresAt <= m[k]
  }

  ghost predicate TransactionsMatch(full: map<Digest, Transaction>, kept: map<Digest, Transaction>,
                                    m: map<Digest, Time>)
  {
    && m.Keys <= full.Keys
    && (forall k <- kept :: k in full && full[k] == kept[k])
    && (forall k <- full :: full[k].completedAt.None? ==> (k in kept <==> !Late(m, k, full[k].expiresAt)))
  }

  ghost predicate CodesMatch(full: map<Digest, AuthCode>, kept: map<Digest, AuthCode>, m: map<Digest, Time>) {
    && m.Keys <= full.Keys
    && (forall k <- kept :: k in full && full[k] == kept[k])
    && (forall k <- full :: full[k].usedAt.None? ==> (k in kept <==> !Late(m, k, full[k].expiresAt)))
  }

  ghost predicate SessionsMatch(full: map<string, Session>, kept: map<string, Session>, m: map<string, Time>) {
    && m.Keys <= full.Keys
    && (forall id <- kept :: id in full && full[id] == kept[id])
    && (forall id <- full :: full[id].revokedAt.None? ==> (id in kept <==> !Late(m, id, full[id].facts.expiresAt)))
  }

  ghost predicate HistoryMatches(full: map<HistoryKey, HistoryRow>, kept: map<HistoryKey, HistoryRow>,
                                 ids: set<string>)
  {
    && (forall k <- kept :: k in full && full[k] == kept[k])
    && (forall k <- full :: k in kept <==> full[k].sessionId in ids)
  }

  /** Of the rows that can still be acted on, exactly those are missing that a sweep since then found expired. */
  ghost predicate Match(x: Twin) {
    && TransactionsMatch(x.full.transactions, x.kept.transactions, x.marks.transactions)
    && CodesMatch(x.full.codes, x.kept.codes, x.marks.codes)
    && SessionsMatch(x.full.sessions, x.kept.sessions, x.marks.sessions)
    && HistoryMatches(x.full.history, x.kept.history, x.kept.sessions.Keys)
  }

  /** No current handle is in the history. */
  ghost predicate NoReuse(t: Tables) {
    forall id <- t.sessions ::
      HistoryKey(t.sessions[id].facts.issuer, t.sessions[id].facts.client, t.sessions[id].tokenHash) !in t.history
  }

  ghost predicate Sound(x: Twin) {
    Schema(x.full) && Schema(x.kept) && NoReuse(x.full) && Match(x)
  }

  ghost predicate NewHandle(t: Tables, hash: Digest) {
    (forall id <- t.sessions :: t.sessions[id].tokenHash != hash) && (forall k <- t.history :: k.tokenHash != hash)
  }

  /** The identifiers and handles that an operation brings along occur nowhere yet. */
  ghost predicate BringsFresh(t: Tables, op: Op) {
    match op
    case CreateTransactionOp(tx) =>
      && tx.idHash !in t.transactions
      && forall h <- t.transactions :: t.transactions[h].entraStateHash != tx.entraStateHash
    case CreateCodeOp(code) => code.codeHash !in t.codes
    case CreateSessionOp(session) => session.id !in t.sessions && NewHandle(t, session.tokenHash)
    case RotateOp(_, _, _, _, next, _, _, _) => NewHandle(t, next)
    case _ => true
  }

  lemma EmptyIsSound()
    ensures Sound(EMPTY)
  {}

  // ----- a sweep -----

  lemma SessionsSwept(full: Tables, kept: Tables, m: map<string, Time>, at: Time)
    requires SessionsMatch(full.sessions, kept.sessions, m)
    ensures SessionsMatch(full.sessions, Reclaim(kept, at).sessions, Marked(m, full.sessions.Keys, at))
  {}

  lemma TransactionsSwept(full: Tables, kept: Tables, m: map<Digest, Time>, at: Time)
    requires TransactionsMatch(full.transactions, kept.transactions, m)
    ensures TransactionsMatch(full.transactions, Reclaim(kept, at).transactions, Marked(m, full.transactions.Keys, at))
  {}

  lemma CodesSwept(full: Tables, kept: Tables, m: map<Digest, Time>, at: Time)
    requires CodesMatch(full.codes, kept.codes, m)
    ensures CodesMatch(full.codes, Reclaim(kept, at).codes, Marked(m, full.codes.Keys, at))
  {}

  lemma HistorySwept(full: Tables, kept: Tables, at: Time)
    requires Schema(kept) && HistoryMatches(full.history, kept.history, kept.sessions.Keys)
    ensures HistoryMatches(full.history, Reclaim(kept, at).history, Reclaim(kept, at).sessions.Keys)
  {}

  lemma SweepStaysSound(x: Twin, at: Time)
    requires Sound(x)
    ensures Sound(Twin(x.full, Reclaim(x.kept, at), AfterSweep(x.marks, x.full, at)))
  {
    ReclaimKeepsSchema(x.kept, at);
    SessionsSwept(x.full, x.kept, x.marks.sessions, at);
    TransactionsSwept(x.full, x.kept, x.marks.transactions, at);
    CodesSwept(x.full, x.kept, x.marks.codes, at);
    HistorySwept(x.full, x.kept, at);
  }

  // ----- one operation -----

  /** The sessions' half of the relation does not depend on the grants' half, ... */
  lemma GrantsChange(x: Twin, y: Twin)
    requires Sound(x) && Schema(y.full) && Schema(y.kept)
    requires x.full.sessions == y.full.sessions && x.kept.sessions == y.kept.sessions
    requires x.full.history == y.full.history && x.kept.history == y.kept.history
    requires x.marks.sessions == y.marks.sessions
    requires TransactionsMatch(y.full.transactions, y.kept.transactions, y.marks.transactions)
    requires CodesMatch(y.full.codes, y.kept.codes, y.marks.codes)
    ensures Sound(y)
  {}

  /** ... nor the other way round. */
  lemma SessionsChange(x: Twin, y: Twin)
    requires Sound(x) && Schema(y.full) && Schema(y.kept)
    requires x.full.transactions == y.full.transactions && x.kept.transactions == y.kept.transactions
    requires x.full.codes == y.full.codes && x.kept.codes == y.kept.codes
    requires x.marks.transactions == y.marks.transactions && x.marks.codes == y.marks.codes
    requires NoReuse(y.full) && SessionsMatch(y.full.sessions, y.kept.sessions, y.marks.sessions)
    requires HistoryMatches(y.full.history, y.kept.history, y.kept.sessions.Keys)
    ensures Sound(y)
  {}

  ghost predicate Agree(x: Twin, op: Op) {
    Perform(x.full, op, false).answer == Perform(x.kept, op, true).answer
  }

  /** The step keeps the relation, and the answers agree exactly when no sweep took the row acted on. */
  ghost predicate StepExact(x: Twin, op: Op) {
    && Sound(Step(x, op))
    && (Agree(x, op) <==> Unswept(x, op))
  }

  lemma StartExactly(x: Twin, now: Time)
    requires Sound(x)
    ensures StepExact(x, StartOp(now))
  {
    SweepStaysSound(x, now);
  }

  /** A new row on both sides, and the end of an old one wherever it still is. */
  lemma TransactionWritten(full: map<Digest, Transaction>, kept: map<Digest, Transaction>, m: map<Digest, Time>,
                           tx: Transaction)
    requires TransactionsMatch(full, kept, m) && (tx.idHash !in full || tx.completedAt.Some?)
    ensures TransactionsMatch(full[tx.idHash := tx],
                              if tx.idHash in full && tx.idHash !in kept then kept else kept[tx.idHash := tx], m)
  {}

  lemma CodeWritten(full: map<Digest, AuthCode>, kept: map<Digest, AuthCode>, m: map<Digest, Time>, code: AuthCode)
    requires CodesMatch(full, kept, m) && (code.codeHash !in full || code.usedAt.Some?)
    ensures CodesMatch(full[code.codeHash := code],
                       if code.codeHash in full && code.codeHash !in kept then kept else kept[code.codeHash := code], m)
  {}

  lemma CreateTransactionSteps(x: Twin, tx: Transaction)
    requires BringsFresh(x.full, CreateTransactionOp(tx)) && BringsFresh(x.kept, CreateTransactionOp(tx))
    ensures var op := CreateTransactionOp(tx);
            var swept := Reclaim(x.kept, tx.createdAt);
            && Agree(x, op) && Unswept(x, op)
            && Step(x, op) == Twin(x.full.(transactions := x.full.transactions[tx.idHash := tx]),
                                   swept.(transactions := swept.transactions[tx.idHash := tx]),
                                   AfterSweep(x.marks, x.full, tx.createdAt))
  {}

  lemma CreateTransactionExactly(x: Twin, tx: Transaction)
    requires Sound(x) && BringsFresh(x.full, CreateTransactionOp(tx))
    ensures StepExact(x, CreateTransactionOp(tx))
  {
    var swept := Twin(x.full, Reclaim(x.kept, tx.createdAt), AfterSweep(x.marks, x.full, tx.createdAt));
    CreateTransactionSteps(x, tx);
    SweepStaysSound(x, tx.createdAt);
    InsertTransactionKeepsSchema(x.full, tx);
    CreateTransactionKeepsSchema(x.kept, tx);
    TransactionWritten(x.full.transactions, swept.kept.transactions, swept.marks.transactions, tx);
    GrantsChange(swept, Step(x, CreateTransactionOp(tx)));
  }

  lemma CreateCodeSteps(x: Twin, code: AuthCode)
    requires code.codeHash !in x.full.codes && code.codeHash !in x.kept.codes
    ensures var op := CreateCodeOp(code);
            var swept := Reclaim(x.kept, code.createdAt);
            && Agree(x, op) && Unswept(x, op)
            && Step(x, op) == Twin(x.full.(codes := x.full.codes[code.codeHash := code]),
                                   swept.(codes := swept.codes[code.codeHash := code]),
                                   AfterSweep(x.marks, x.full, code.createdAt))
  {}

  lemma CreateCodeExactly(x: Twin, code: AuthCode)
    requires Sound(x) && BringsFresh(x.full, CreateCodeOp(code))
    ensures StepExact(x, CreateCodeOp(code))
  {
    var swept := Twin(x.full, Reclaim(x.kept, code.createdAt), AfterSweep(x.marks, x.full, code.createdAt));
    CreateCodeSteps(x, code);
    SweepStaysSound(x, code.createdAt);
    InsertCodeKeepsSchema(x.full, code);
    CreateCodeKeepsSchema(x.kept, code);
    CodeWritten(x.full.codes, swept.kept.codes, swept.marks.codes, code);
    GrantsChange(swept, Step(x, CreateCodeOp(code)));
  }

  lemma NewSessionMatches(full: Tables, kept: Tables, m: map<string, Time>, session: Session)
    requires SessionsMatch(full.sessions, kept.sessions, m) && session.id !in full.sessions
    ensures SessionsMatch(full.sessions[session.id := session], kept.sessions[session.id := session], m)
  {}

  lemma NewSessionHasNoHistory(full: Tables, kept: Tables, session: Session)
    requires Schema(full) && NoReuse(full) && HistoryMatches(full.history, kept.history, kept.sessions.Keys)
    requires session.id !in full.sessions && NewHandle(full, session.tokenHash)
    ensures HistoryMatches(full.history, kept.history, kept.sessions[session.id := session].Keys)
    ensures NoReuse(full.(sessions := full.sessions[session.id := session]))
  {
    assert kept.sessions[session.id := session].Keys == kept.sessions.Keys + {session.id};
  }

  lemma CreateSessionExactly(x: Twin, session: Session)
    requires Sound(x) && BringsFresh(x.full, CreateSessionOp(session))
    ensures StepExact(x, CreateSessionOp(session))
  {
    var now := session.facts.createdAt;
    var swept := Twin(x.full, Reclaim(x.kept, now), AfterSweep(x.marks, x.full, now));
    SweepStaysSound(x, now);
    InsertSessionKeepsSchema(x.full, session);
    CreateSessionKeepsSchema(x.kept, session);
    NewSessionMatches(swept.full, swept.kept, swept.marks.sessions, session);
    NewSessionHasNoHistory(swept.full, swept.kept, session);
    SessionsChange(swept, Step(x, CreateSessionOp(session)));
  }

  lemma TransactionAnswers(x: Twin, issuer: string, stateHash: Digest, now: Time)
    requires Sound(x)
    ensures var a, b := ConsumeTransaction(x.full, issuer, stateHash, now),
                        ConsumeTransaction(x.kept, issuer, stateHash, now);
            match a.answer
            case None => a.tables == x.full && b == After(x.kept, None)
            case Some(tx) =>
              && tx.idHash in x.full.transactions && x.full.transactions[tx.idHash].completedAt.None?
              && tx == x.full.transactions[tx.idHash].(completedAt := Some(now))
              && a.tables == x.full.(transactions := x.full.transactions[tx.idHash := tx])
              && b == if tx.idHash in x.kept.transactions
                      then After(x.kept.(transactions := x.kept.transactions[tx.idHash := tx]), Some(tx))
                      else After(x.kept, None)
  {
    if k :| k in x.full.transactions && Pending(x.full.transactions[k], issuer, stateHash, now) {
      PendingIsUnique(x.full, issuer, stateHash, now, k);
      if k in x.kept.transactions {
        PendingIsUnique(x.kept, issuer, stateHash, now, k);
      } else {
        NoOtherPending(x, issuer, stateHash, now, k);
      }
    }
  }

  lemma ConsumeTransactionAgrees(x: Twin, issuer: string, stateHash: Digest, now: Time)
    requires Sound(x)
    ensures var op := ConsumeTransactionOp(issuer, stateHash, now); Agree(x, op) <==> Unswept(x, op)
  {
    TransactionAnswers(x, issuer, stateHash, now);
  }

  lemma ConsumeTransactionExactly(x: Twin, issuer: string, stateHash: Digest, now: Time)
    requires Sound(x)
    ensures StepExact(x, ConsumeTransactionOp(issuer, stateHash, now))
  {
    ConsumeTransactionAgrees(x, issuer, stateHash, now);
    TransactionAnswers(x, issuer, stateHash, now);
    ConsumeTransactionKeepsSchema(x.full, issuer, stateHash, now);
    ConsumeTransactionKeepsSchema(x.kept, issuer, stateHash, now);
    match ConsumeTransaction(x.full, issuer, stateHash, now).answer
    case None =>
    case Some(tx) => TransactionWritten(x.full.transactions, x.kept.transactions, x.marks.transactions, tx);
    GrantsChange(x, Step(x, ConsumeTransactionOp(issuer, stateHash, now)));
  }

  lemma NoOtherPending(x: Twin, issuer: string, stateHash: Digest, now: Time, k: Digest)
    requires Sound(x) && k in x.full.transactions && Pending(x.full.transactions[k], issuer, stateHash, now)
    requires k !in x.kept.transactions
    ensures ConsumeTransaction(x.kept, issuer, stateHash, now) == After(x.kept, None)
  {
    forall h | h in x.kept.transactions ensures !Pending(x.kept.transactions[h], issuer, stateHash, now) {
      assert DistinctStates(x.full, h, k);
    }
  }

  lemma CodeAnswers(x: Twin, issuer: string, c: Digest, client: string, redirect: string, challenge: Challenge,
                    now: Time)
    requires Sound(x)
    ensures var a, b := ConsumeCode(x.full, issuer, c, client, redirect, challenge, now),
                        ConsumeCode(x.kept, issuer, c, client, redirect, challenge, now);
            match a.answer
            case None => a.tables == x.full && b == After(x.kept, None)
            case Some(code) =>
              && c in x.full.codes && x.full.codes[c].usedAt.None? && code == x.full.codes[c].(usedAt := Some(now))
              && code.codeHash == c
              && a.tables == x.full.(codes := x.full.codes[c := code])
              && b == if c in x.kept.codes then After(x.kept.(codes := x.kept.codes[c := code]), Some(code))
                      else After(x.kept, None)
  {}

  lemma ConsumeCodeAgrees(x: Twin, issuer: string, c: Digest, client: string, redirect: string, challenge: Challenge,
                          now: Time)
    requires Sound(x)
    ensures var op := ConsumeCodeOp(issuer, c, client, redirect, challenge, now); Agree(x, op) <==> Unswept(x, op)
  {
    CodeAnswers(x, issuer, c, client, redirect, challenge, now);
  }

  lemma ConsumeCodeExactly(x: Twin, issuer: string, c: Digest, client: string, redirect: string, challenge: Challenge,
                           now: Time)
    requires Sound(x)
    ensures StepExact(x, ConsumeCodeOp(issuer, c, client, redirect, challenge, now))
  {
    ConsumeCodeAgrees(x, issuer, c, client, redirect, challenge, now);
    CodeAnswers(x, issuer, c, client, redirect, challenge, now);
    ConsumeCodeKeepsSchema(x.full, issuer, c, client, redirect, challenge, now);
    ConsumeCodeKeepsSchema(x.kept, issuer, c, client, redirect, challenge, now);
    match ConsumeCode(x.full, issuer, c, client, redirect, challenge, now).answer
    case None =>
    case Some(code) => CodeWritten(x.full.codes, x.kept.codes, x.marks.codes, code);
    GrantsChange(x, Step(x, ConsumeCodeOp(issuer, c, client, redirect, challenge, now)));
  }

  /** What both stores find of a row that a handle selects. */
  lemma LookupsExactly(x: Twin, issuer: string, hash: Digest, client: string, now: Time)
    requires Sound(x)
    ensures match FindCurrent(x.full, issuer, hash, client, now)
            case Some(row) => row.id in x.full.sessions && x.full.sessions[row.id] == row && row.revokedAt.None?
              && FindCurrent(x.kept, issuer, hash, client, now) == if row.id in x.kept.sessions then Some(row) else None
            case None => FindCurrent(x.kept, issuer, hash, client, now) == None
    ensures match FindReplayed(x.full, issuer, hash, client, now)
            case Some(row) => row.id in x.full.sessions && x.full.sessions[row.id] == row && row.revokedAt.None?
              && FindReplayed(x.kept, issuer, hash, client, now)
                 == if row.id in x.kept.sessions then Some(row) else None
            case None => FindReplayed(x.kept, issuer, hash, client, now) == None
  {
    if id :| id in x.kept.sessions && Current(x.kept.sessions[id], issuer, client, hash, now) {
      CurrentIsUnique(x.kept, issuer, hash, client, now, id);
      CurrentIsUnique(x.full, issuer, hash, client, now, id);
    }
    if id :| id in x.full.sessions && Current(x.full.sessions[id], issuer, client, hash, now) {
      CurrentIsUnique(x.full, issuer, hash, client, now, id);
    }
  }

  /** A row that can still be acted on is kept exactly when no sweep found it expired. */
  lemma KeptExactly(x: Twin, id: string)
    requires SessionsMatch(x.full.sessions, x.kept.sessions, x.marks.sessions)
    requires id in x.full.sessions && x.full.sessions[id].revokedAt.None?
    ensures id in x.kept.sessions <==>
              (id in x.marks.sessions ==> Outlives(x.full, OnSession(id), x.marks.sessions[id]))
  {}

  lemma GetAgrees(x: Twin, issuer: string, hash: Digest, client: string, now: Time)
    requires Sound(x)
    ensures Agree(x, GetOp(issuer, hash, client, now)) <==> Unswept(x, GetOp(issuer, hash, client, now))
  {
    LookupsExactly(x, issuer, hash, client, now);
    match FindCurrent(x.full, issuer, hash, client, now)
    case None =>
    case Some(row) => KeptExactly(x, row.id);
  }

  lemma GetExactly(x: Twin, issuer: string, hash: Digest, client: string, now: Time)
    requires Sound(x)
    ensures StepExact(x, GetOp(issuer, hash, client, now))
  {
    GetAgrees(x, issuer, hash, client, now);
    assert Step(x, GetOp(issuer, hash, client, now)) == x;
  }

  /** The same new version of a row on both sides, wherever the row still is; a revoked row stays revoked. */
  lemma SessionRewritten(full: map<string, Session>, kept: map<string, Session>, m: map<string, Time>, id: string,
                         row: Session)
    requires SessionsMatch(full, kept, m) && id in full && row.facts == full[id].facts
    requires full[id].revokedAt.Some? ==> row.revokedAt.Some?
    ensures SessionsMatch(full[id := row], if id in kept then kept[id := row] else kept, m)
  {}

  ghost function WithRetired(t: Tables, id: string, now: Time): Tables {
    if id in t.sessions then t.(sessions := t.sessions[id := Retired(t.sessions[id], now)]) else t
  }

  lemma RetirementKeepsTables(t: Tables, id: string, now: Time)
    requires Schema(t)
    ensures var u := WithRetired(t, id, now);
            && Schema(u) && (NoReuse(t) ==> NoReuse(u)) && u.sessions.Keys == t.sessions.Keys
            && u.transactions == t.transactions && u.codes == t.codes && u.history == t.history
  {
    if id in t.sessions {
      RetireKeepsSchema(t, id, now);
    }
  }

  lemma RetirementKeepsSound(x: Twin, id: string, now: Time)
    requires Sound(x) && id in x.full.sessions
    ensures Sound(Twin(WithRetired(x.full, id, now), WithRetired(x.kept, id, now), x.marks))
  {
    RetirementKeepsTables(x.full, id, now);
    RetirementKeepsTables(x.kept, id, now);
    SessionRewritten(x.full.sessions, x.kept.sessions, x.marks.sessions, id, Retired(x.full.sessions[id], now));
    SessionsChange(x, Twin(WithRetired(x.full, id, now), WithRetired(x.kept, id, now), x.marks));
  }

  lemma RevokeSteps(x: Twin, issuer: string, id: string, client: string, current: Digest, now: Time)
    requires SessionsMatch(x.full.sessions, x.kept.sessions, x.marks.sessions)
    ensures var op := RevokeOp(issuer, id, client, current, now);
            && Step(x, op) == (if Acted(x.full, op).OnSession?
                               then Twin(WithRetired(x.full, id, now), WithRetired(x.kept, id, now), x.marks) else x)
            && (Agree(x, op) <==> Unswept(x, op))
            && (Acted(x.full, op).OnSession? ==> id in x.full.sessions)
  {}

  lemma RevokeExactly(x: Twin, issuer: string, id: string, client: string, current: Digest, now: Time)
    requires Sound(x)
    ensures StepExact(x, RevokeOp(issuer, id, client, current, now))
  {
    RevokeSteps(x, issuer, id, client, current, now);
    if Acted(x.full, RevokeOp(issuer, id, client, current, now)).OnSession? {
      RetirementKeepsSound(x, id, now);
    }
  }

  lemma ReplaySteps(x: Twin, issuer: string, hash: Digest, client: string, now: Time)
    requires Sound(x)
    ensures Step(x, ReplayOp(issuer, hash, client, now))
         == match FindReplayed(x.full, issuer, hash, client, now)
            case None => x
            case Some(row) => Twin(WithRetired(x.full, row.id, now), WithRetired(x.kept, row.id, now), x.marks)
  {
    LookupsExactly(x, issuer, hash, client, now);
  }

  lemma ReplayAnswersAsFind(t: Tables, issuer: string, hash: Digest, client: string, now: Time, sweeping: bool)
    ensures Perform(t, ReplayOp(issuer, hash, client, now), sweeping).answer
         == match FindReplayed(t, issuer, hash, client, now)
            case None => ASession(None)
            case Some(row) => ASession(Some(row.(revokedAt := Some(now))))
  {}

  lemma ReplayAgrees(x: Twin, issuer: string, hash: Digest, client: string, now: Time)
    requires Sound(x)
    ensures Agree(x, ReplayOp(issuer, hash, client, now)) <==> Unswept(x, ReplayOp(issuer, hash, client, now))
  {
    ReplayAnswersAsFind(x.full, issuer, hash, client, now, false);
    ReplayAnswersAsFind(x.kept, issuer, hash, client, now, true);
    LookupsExactly(x, issuer, hash, client, now);
    match FindReplayed(x.full, issuer, hash, client, now)
    case None =>
    case Some(row) => KeptExactly(x, row.id);
  }

  lemma ReplayExactly(x: Twin, issuer: string, hash: Digest, client: string, now: Time)
    requires Sound(x)
    ensures StepExact(x, ReplayOp(issuer, hash, client, now))
  {
    ReplaySteps(x, issuer, hash, client, now);
    ReplayAgrees(x, issuer, hash, client, now);
    LookupsExactly(x, issuer, hash, client, now);
    match FindReplayed(x.full, issuer, hash, client, now)
    case None =>
    case Some(row) => RetirementKeepsSound(x, row.id, now);
  }

  // ----- the swap -----

  lemma SwapKeepsNoReuse(t: Tables, issuer: string, id: string, client: string, current: Digest, next: Digest,
                         cache: Blob, max: nat, now: Time)
    requires Schema(t) && NoReuse(t) && NewHandle(t, next)
    ensures NoReuse(Swap(t, issuer, id, client, current, next, cache, max, now).tables)
  {
    var u := Swap(t, issuer, id, client, current, next, cache, max, now).tables;
    forall other | other in u.sessions
      ensures HistoryKey(u.sessions[other].facts.issuer, u.sessions[other].facts.client, u.sessions[other].tokenHash)
              !in u.history
    {
      assert DistinctHandles(t, other, id);
    }
  }

  /** What both stores do to a row that the swap finds. */
  lemma SwapAnswers(x: Twin, issuer: string, id: string, client: string, current: Digest, next: Digest, cache: Blob,
                    max: nat, now: Time)
    requires Sound(x) && NewHandle(x.full, next)
    ensures var a, b := Swap(x.full, issuer, id, client, current, next, cache, max, now),
                        Swap(x.kept, issuer, id, client, current, next, cache, max, now);
            if id !in x.full.sessions || !Current(x.full.sessions[id], issuer, client, current, now)
            then a == After(x.full, Conflict) && b == After(x.kept, Conflict)
            else
              && x.full.sessions[id].revokedAt.None?
              && a.answer == (if x.full.sessions[id].rotationCount >= max then LimitReached else Rotated)
              && b.answer == (if id in x.kept.sessions then a.answer else Conflict)
  {
    var key := HistoryKey(issuer, client, current);
    assert id in x.full.sessions && Current(x.full.sessions[id], issuer, client, current, now)
           ==> key !in x.full.history;
  }

  lemma HistoryWritten(full: map<HistoryKey, HistoryRow>, kept: map<HistoryKey, HistoryRow>, ids: set<string>,
                       key: HistoryKey, row: HistoryRow)
    requires HistoryMatches(full, kept, ids) && key !in full
    ensures HistoryMatches(full[key := row], if row.sessionId in ids then kept[key := row] else kept, ids)
  {}

  ghost function Swapped(x: Twin, issuer: string, id: string, client: string, current: Digest, next: Digest,
                         cache: Blob, max: nat, now: Time): Twin
  {
    Twin(Swap(x.full, issuer, id, client, current, next, cache, max, now).tables,
         Swap(x.kept, issuer, id, client, current, next, cache, max, now).tables, x.marks)
  }

  lemma SwapKeepsSessionsMatch(x: Twin, issuer: string, id: string, client: string, current: Digest, next: Digest,
                               cache: Blob, max: nat, now: Time)
    requires Sound(x) && NewHandle(x.full, next)
    ensures var y := Swapped(x, issuer, id, client, current, next, cache, max, now);
            SessionsMatch(y.full.sessions, y.kept.sessions, x.marks.sessions)
  {
    SwapAnswers(x, issuer, id, client, current, next, cache, max, now);
    if id in x.full.sessions && Current(x.full.sessions[id], issuer, client, current, now) {
      var row := x.full.sessions[id];
      var row' := if row.rotationCount >= max then Retired(row, now) else Succeeded(row, next, cache, now);
      SessionRewritten(x.full.sessions, x.kept.sessions, x.marks.sessions, id, row');
    }
  }

  lemma SwapKeepsHistoryMatch(x: Twin, issuer: string, id: string, client: string, current: Digest, next: Digest,
                              cache: Blob, max: nat, now: Time)
    requires Sound(x) && NewHandle(x.full, next)
    ensures var y := Swapped(x, issuer, id, client, current, next, cache, max, now);
            HistoryMatches(y.full.history, y.kept.history, y.kept.sessions.Keys)
  {
    SwapAnswers(x, issuer, id, client, current, next, cache, max, now);
    var y := Swapped(x, issuer, id, client, current, next, cache, max, now);
    assert y.kept.sessions.Keys == x.kept.sessions.Keys;
    var key := HistoryKey(issuer, client, current);
    if key !in x.full.history {
      HistoryWritten(x.full.history, x.kept.history, x.kept.sessions.Keys, key,
                     HistoryRow(id, if id in x.full.sessions then x.full.sessions[id].facts.family else "", now));
    }
  }

  lemma SwapLeavesGrants(t: Tables, issuer: string, id: string, client: string, current: Digest, next: Digest,
                         cache: Blob, max: nat, now: Time)
    ensures var u := Swap(t, issuer, id, client, current, next, cache, max, now).tables;
            u.transactions == t.transactions && u.codes == t.codes
  {}

  lemma SwapKeepsSound(x: Twin, issuer: string, id: string, client: string, current: Digest, next: Digest, cache: Blob,
                       max: nat, now: Time)
    requires Sound(x) && NewHandle(x.full, next)
    ensures Sound(Swapped(x, issuer, id, client, current, next, cache, max, now))
  {
    SwapKeepsSchema(x.full, issuer, id, client, current, next, cache, max, now);
    SwapKeepsSchema(x.kept, issuer, id, client, current, next, cache, max, now);
    SwapKeepsNoReuse(x.full, issuer, id, client, current, next, cache, max, now);
    SwapLeavesGrants(x.full, issuer, id, client, current, next, cache, max, now);
    SwapLeavesGrants(x.kept, issuer, id, client, current, next, cache, max, now);
    SwapKeepsSessionsMatch(x, issuer, id, client, current, next, cache, max, now);
    SwapKeepsHistoryMatch(x, issuer, id, client, current, next, cache, max, now);
    SessionsChange(x, Swapped(x, issuer, id, client, current, next, cache, max, now));
  }

  lemma SwapKeepsKeys(t: Tables, issuer: string, id: string, client: string, current: Digest, next: Digest, cache: Blob,
                      max: nat, now: Time, marks: Marks, at: Time)
    ensures var u := Swap(t, issuer, id, client, current, next, cache, max, now).tables;
            AfterSweep(marks, u, at) == AfterSweep(marks, t, at)
  {
    SwapLeavesGrants(t, issuer, id, client, current, next, cache, max, now);
    assert Swap(t, issuer, id, client, current, next, cache, max, now).tables.sessions.Keys == t.sessions.Keys;
  }

  lemma RotateSteps(x: Twin, issuer: string, id: string, client: string, current: Digest, next: Digest, cache: Blob,
                    max: nat, now: Time)
    ensures var op := RotateOp(issuer, id, client, current, next, cache, max, now);
            var y := Swapped(x, issuer, id, client, current, next, cache, max, now);
            || Step(x, op) == y
            || Step(x, op) == Twin(y.full, Reclaim(y.kept, now), AfterSweep(y.marks, y.full, now))
  {
    SwapKeepsKeys(x.full, issuer, id, client, current, next, cache, max, now, x.marks, now);
  }

  lemma RotateAnswersAsSwap(t: Tables, issuer: string, id: string, client: string, current: Digest, next: Digest,
                            cache: Blob, max: nat, now: Time, sweeping: bool)
    ensures Perform(t, RotateOp(issuer, id, client, current, next, cache, max, now), sweeping).answer
         == Rotation(Swap(t, issuer, id, client, current, next, cache, max, now).answer)
  {}

  lemma RotateAgrees(x: Twin, issuer: string, id: string, client: string, current: Digest, next: Digest, cache: Blob,
                     max: nat, now: Time)
    requires Sound(x) && NewHandle(x.full, next)
    ensures var op := RotateOp(issuer, id, client, current, next, cache, max, now); Agree(x, op) <==> Unswept(x, op)
  {
    RotateAnswersAsSwap(x.full, issuer, id, client, current, next, cache, max, now, false);
    RotateAnswersAsSwap(x.kept, issuer, id, client, current, next, cache, max, now, true);
    SwapAnswers(x, issuer, id, client, current, next, cache, max, now);
    if id in x.full.sessions && Current(x.full.sessions[id], issuer, client, current, now) {
      KeptExactly(x, id);
    }
  }

  lemma RotateExactly(x: Twin, issuer: string, id: string, client: string, current: Digest, next: Digest, cache: Blob,
                      max: nat, now: Time)
    requires Sound(x) && NewHandle(x.full, next)
    ensures StepExact(x, RotateOp(issuer, id, client, current, next, cache, max, now))
  {
    RotateSteps(x, issuer, id, client, current, next, cache, max, now);
    RotateAgrees(x, issuer, id, client, current, next, cache, max, now);
    SwapKeepsSound(x, issuer, id, client, current, next, cache, max, now);
    SweepStaysSound(Swapped(x, issuer, id, client, current, next, cache, max, now), now);
  }

  /** An operation is answered alike with and without reclamation exactly when no sweep took the row it acts on. */
  lemma OperationsExactly(x: Twin, op: Op)
    requires Sound(x) && BringsFresh(x.full, op)
    ensures StepExact(x, op)
  {
    match op
    case StartOp(now) => StartExactly(x, now);
    case CreateTransactionOp(tx) => CreateTransactionExactly(x, tx);
    case ConsumeTransactionOp(issuer, stateHash, now) => ConsumeTransactionExactly(x, issuer, stateHash, now);
    case CreateCodeOp(code) => CreateCodeExactly(x, code);
    case ConsumeCodeOp(issuer, c, client, redirect, challenge, now) =>
      ConsumeCodeExactly(x, issuer, c, client, redirect, challenge, now);
    case CreateSessionOp(session) => CreateSessionExactly(x, session);
    case GetOp(issuer, hash, client, now) => GetExactly(x, issuer, hash, client, now);
    case RotateOp(issuer, id, client, current, next, cache, max, now) =>
      RotateExactly(x, issuer, id, client, current, next, cache, max, now);
    case RevokeOp(issuer, id, client, current, now) => RevokeExactly(x, issuer, id, client, current, now);
    case ReplayOp(issuer, hash, client, now) => ReplayExactly(x, issuer, hash, client, now);
  }

  // ----- all runs -----

  /** Every operation brings fresh identifiers; clocks may be anything. */
  ghost predicate BringFresh(full: Tables, ops: seq<Op>)
    decreases ops
  {
    ops == [] || (BringsFresh(full, ops[0]) && BringFresh(Perform(full, ops[0], false).tables, ops[1..]))
  }

  /** The step an operation takes, seen from each store. */
  lemma PlayUnrolls(t: Tables, ops: seq<Op>, sweeping: bool, i: nat)
    requires i < |ops|
    ensures Play(t, ops, sweeping)[i]
         == if i == 0 then Perform(t, ops[0], sweeping).answer
            else Play(Perform(t, ops[0], sweeping).tables, ops[1..], sweeping)[i - 1]
  {}

  lemma FreshUnrolls(x: Twin, ops: seq<Op>)
    requires BringFresh(x.full, ops) && ops != []
    ensures BringsFresh(x.full, ops[0]) && BringFresh(Step(x, ops[0]).full, ops[1..])
    ensures Step(x, ops[0]).full == Perform(x.full, ops[0], false).tables
    ensures Step(x, ops[0]).kept == Perform(x.kept, ops[0], true).tables
  {}

  lemma {:induction false} SoundAt(x: Twin, ops: seq<Op>, i: nat)
    requires Sound(x) && BringFresh(x.full, ops) && i < |ops|
    ensures Sound(At(x, ops, i)) && BringsFresh(At(x, ops, i).full, ops[i])
    decreases i
  {
    FreshUnrolls(x, ops);
    if i > 0 {
      OperationsExactly(x, ops[0]);
      SoundAt(Step(x, ops[0]), ops[1..], i - 1);
    }
  }

  lemma {:induction false} PlayedAt(x: Twin, ops: seq<Op>, i: nat)
    requires BringFresh(x.full, ops) && i < |ops|
    ensures Play(x.full, ops, false)[i] == Perform(At(x, ops, i).full, ops[i], false).answer
    ensures Play(x.kept, ops, true)[i] == Perform(At(x, ops, i).kept, ops[i], true).answer
    decreases i
  {
    PlayUnrolls(x.full, ops, false, i);
    PlayUnrolls(x.kept, ops, true, i);
    FreshUnrolls(x, ops);
    if i > 0 {
      PlayedAt(Step(x, ops[0]), ops[1..], i - 1);
    }
  }

  /**
   In every sequence of operations, whatever their clocks, an operation is answered alike with and without
   reclamation if and only if the row that it acts on expires after every sweep since the row was stored.
   */
  lemma ReclamationExactly(x: Twin, ops: seq<Op>, i: nat)
    requires Sound(x) && BringFresh(x.full, ops) && i < |ops|
    ensures Play(x.full, ops, false)[i] == Play(x.kept, ops, true)[i] <==> Unswept(At(x, ops, i), ops[i])
  {
    PlayedAt(x, ops, i);
    SoundAt(x, ops, i);
    OperationsExactly(At(x, ops, i), ops[i]);
  }

  function SweptOnce(t: Tables, swept: Time): Marks {
    AfterSweep(Marks(map[], map[], map[]), t, swept)
  }

  lemma OneSweepIsSound(t: Tables, swept: Time)
    requires Schema(t) && NoReuse(t)
    ensures Sound(Twin(t, Reclaim(t, swept), SweptOnce(t, swept)))
  {
    var x := Twin(t, t, Marks(map[], map[], map[]));
    assert Sound(x);
    SweepStaysSound(x, swept);
  }

  lemma OneSweepMarks(t: Tables, kept: Tables, swept: Time, op: Op)
    ensures Unswept(Twin(t, kept, SweptOnce(t, swept)), op) <==> Outlives(t, Acted(t, op), swept)
  {}

  /** The same for one sweep: the answers agree if and only if the row acted on expires after it. */
  lemma OneSweepExactly(t: Tables, swept: Time, op: Op)
    requires Schema(t) && NoReuse(t) && BringsFresh(t, op)
    ensures Perform(t, op, false).answer == Perform(Reclaim(t, swept), op, true).answer
       <==> Outlives(t, Acted(t, op), swept)
  {
    OneSweepIsSound(t, swept);
    OneSweepMarks(t, Reclaim(t, swept), swept, op);
    OperationsExactly(Twin(t, Reclaim(t, swept), SweptOnce(t, swept)), op);
  }

  // ----- clocks that do not go back -----

  predicate Before<K>(m: map<K, Time>, h: Time) {
    forall k <- m :: m[k] <= h
  }

  predicate SweptBefore(x: Twin, h: Time) {
    Before(x.marks.transactions, h) && Before(x.marks.codes, h) && Before(x.marks.sessions, h)
  }

  predicate Onward(ops: seq<Op>, h: Time)
    decreases ops
  {
    ops == [] || (h <= Clock(ops[0]) && Onward(ops[1..], Clock(ops[0])))
  }

  lemma {:induction false} OnwardAt(x: Twin, ops: seq<Op>, h: Time, i: nat)
    requires SweptBefore(x, h) && Onward(ops, h) && i < |ops|
    ensures SweptBefore(At(x, ops, i), Clock(ops[i]))
    decreases i
  {
    if i > 0 {
      OnwardAt(Step(x, ops[0]), ops[1..], Clock(ops[0]), i - 1);
    }
  }

  /** What an operation acts on has not expired by its clock, unless it revokes by current handle. */
  lemma ActsOnUnexpired(t: Tables, op: Op)
    requires Schema(t) && !op.RevokeOp?
    ensures Outlives(t, Acted(t, op), Clock(op))
  {}

  /** With clocks that do not go back, the answers agree at every place but those of revocations by current handle. */
  lemma ReclamationIsInvisible(x: Twin, h: Time, ops: seq<Op>, i: nat)
    requires Sound(x) && SweptBefore(x, h) && BringFresh(x.full, ops) && Onward(ops, h)
    requires i < |ops| && !ops[i].RevokeOp?
    ensures Play(x.full, ops, false)[i] == Play(x.kept, ops, true)[i]
  {
    SoundAt(x, ops, i);
    OnwardAt(x, ops, h, i);
    ActsOnUnexpired(At(x, ops, i).full, ops[i]);
    ReclamationExactly(x, ops, i);
  }

  /** A revocation's answer differs if and only if it revokes a row that had expired by a sweep since it was stored. */
  lemma RevocationAnswersDiffer(x: Twin, issuer: string, id: string, client: string, current: Digest, now: Time)
    requires Sound(x)
    ensures Revoke(x.full, issuer, id, client, current, now).answer
            != Revoke(x.kept, issuer, id, client, current, now).answer
       <==> Revoke(x.full, issuer, id, client, current, now).answer
            && id in x.marks.sessions && x.full.sessions[id].facts.expiresAt <= x.marks.sessions[id]
  {
    RevokeSteps(x, issuer, id, client, current, now);
  }

  // ----- a refresh that waits upstream -----

  /** Stored, looked up, swept by another request with a later reading, then swapped with the lookup's reading. */
  function WaitingRefresh(session: Session, code: AuthCode, next: Digest, cache: Blob, max: nat, now: Time): seq<Op> {
    var issuer, client, hash := session.facts.issuer, session.facts.client, session.tokenHash;
    [CreateSessionOp(session), GetOp(issuer, hash, client, now), CreateCodeOp(code),
     RotateOp(issuer, session.id, client, hash, next, cache, max, now)]
  }

  function OneSession(session: Session): Tables {
    Tables(map[], map[], map[session.id := session], map[])
  }

  lemma OneSessionIsSound(session: Session)
    ensures Schema(OneSession(session)) && NoReuse(OneSession(session))
    ensures Perform(NOTHING, CreateSessionOp(session), false) == After(OneSession(session), Insertion(Inserted))
    ensures Perform(NOTHING, CreateSessionOp(session), true) == After(OneSession(session), Insertion(Inserted))
  {
    assert Reclaim(NOTHING, session.facts.createdAt) == NOTHING;
  }

  lemma SweptSession(session: Session, code: AuthCode)
    requires session.facts.expiresAt <= code.createdAt
    ensures Perform(OneSession(session), CreateCodeOp(code), true).answer == Insertion(Inserted)
    ensures Perform(OneSession(session), CreateCodeOp(code), true).tables.sessions == map[]
    ensures Perform(OneSession(session), CreateCodeOp(code), false)
         == After(OneSession(session).(codes := map[code.codeHash := code]), Insertion(Inserted))
  {
    assert Reclaim(OneSession(session), code.createdAt).sessions == map[];
  }

  /**
   The lookup agrees, and the swap does not: it is a rotation without reclamation and a conflict with it, for
   every session that expires between the reading of the refresh and the sweep of the other request.
   */
  lemma WaitingRefreshConflicts(session: Session, code: AuthCode, next: Digest, cache: Blob, max: nat, now: Time)
    requires session.revokedAt.None? && session.rotationCount < max && next != session.tokenHash
    requires now < session.facts.expiresAt <= code.createdAt
    ensures var ops := WaitingRefresh(session, code, next, cache, max, now);
            && BringFresh(NOTHING, ops)
            && Play(NOTHING, ops, false)
               == [Insertion(Inserted), ASession(Some(session)), Insertion(Inserted), Rotation(Rotated)]
            && Play(NOTHING, ops, true)
               == [Insertion(Inserted), ASession(Some(session)), Insertion(Inserted), Rotation(Conflict)]
  {
    var ops := WaitingRefresh(session, code, next, cache, max, now);
    OneSessionIsSound(session);
    SweptSession(session, code);
    CurrentIsUnique(OneSession(session), session.facts.issuer, session.tokenHash, session.facts.client, now,
                    session.id);
    FreshFour(NOTHING, ops[0], ops[1], ops[2], ops[3]);
    PlayFour(NOTHING, ops[0], ops[1], ops[2], ops[3], false);
    PlayFour(NOTHING, ops[0], ops[1], ops[2], ops[3], true);
    assert ops == [ops[0], ops[1], ops[2], ops[3]];
  }

  ghost function Then(t: Tables, op: Op, sweeping: bool): Tables {
    Perform(t, op, sweeping).tables
  }

  lemma PlayFour(t: Tables, a: Op, b: Op, c: Op, d: Op, sweeping: bool)
    ensures var u := Then(t, a, sweeping);
            var v := Then(u, b, sweeping);
            var w := Then(v, c, sweeping);
            Play(t, [a, b, c, d], sweeping)
            == [Perform(t, a, sweeping).answer, Perform(u, b, sweeping).answer, Perform(v, c, sweeping).answer,
                Perform(w, d, sweeping).answer]
  {
    var u := Then(t, a, sweeping);
    var v := Then(u, b, sweeping);
    var w := Then(v, c, sweeping);
    assert [a, b, c, d][1..] == [b, c, d] && [b, c, d][1..] == [c, d] && [c, d][1..] == [d];
    assert Play(w, [d], sweeping) == [Perform(w, d, sweeping).answer];
    assert Play(v, [c, d], sweeping) == [Perform(v, c, sweeping).answer] + Play(w, [d], sweeping);
    assert Play(u, [b, c, d], sweeping) == [Perform(u, b, sweeping).answer] + Play(v, [c, d], sweeping);
  }

  lemma FreshFour(t: Tables, a: Op, b: Op, c: Op, d: Op)
    requires BringsFresh(t, a) && BringsFresh(Then(t, a, false), b)
    requires BringsFresh(Then(Then(t, a, false), b, false), c)
    requires BringsFresh(Then(Then(Then(t, a, false), b, false), c, false), d)
    ensures BringFresh(t, [a, b, c, d])
  {
    var u := Then(t, a, false);
    var v := Then(u, b, false);
    assert [a, b, c, d][1..] == [b, c, d] && [b, c, d][1..] == [c, d] && [c, d][1..] == [d];
    assert BringFresh(Then(v, c, false), [d]);
    assert BringFresh(v, [c, d]);
    assert BringFresh(u, [b, c, d]);
  }
}
