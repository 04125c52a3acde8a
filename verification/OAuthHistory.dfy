/**
 Where everything that the services hand out comes from. In every run, each transaction, code, token and handle goes
 back to the requests, upstream replies and clock readings behind it; each lemma returns their places in the run.
 */
module OAuthHistory {
  import opened Basics
  import opened OAuthRecords
  import opened OAuthTables
  import opened OAuthProtocol
  import opened OAuthProvenance
  import opened OAuthDoors
  import opened OAuthInvariant
  import opened OAuthRefreshSteps
  import opened OAuthRuns
  import opened OAuthServices
  import opened OAuthTheorems

  // ----- transactions -----

  /** What is stored of a flow that upstream began at some time. */
  function TransactionRecord(s: Settings, terms: Terms, clientState: string, state: string, id: string, flow: string,
                             begun: Time): Transaction
  {
    var h, k, over := Sha256(id), Sha256(state), begun + s.transactionTtl;
    Transaction(h, s.issuer, terms, clientState, k,
                Sealed(TransactionContext(h, s.issuer, terms, clientState, k, begun, over), Flow(flow)),
                begun, over, None)
  }

  lemma AuthorizeEntry(s: Settings, w: World, p: nat, proc: Proc, f: Fate)
    requires proc.Authorizing?
    ensures var x := AdvanceAuthorize(s, w, p, proc, f).proc;
            && x.Authorizing? && x.terms == proc.terms && x.clientState == proc.clientState
            && (x != proc ==>
                  match x.authorize
                  case Beginning => false
                  case Storing(flow, now) => proc.authorize.Beginning? && f.reply == Began(flow) && now == w.clock
                  case Started(state) => proc.authorize.Storing? && state == f.first && !f.storeFails
                  case AuthorizeRefused(refusal) => refusal == Unavailable)
  {}

  lemma AuthorizeRecords(s: Settings, w: World, p: nat, proc: Proc, f: Fate)
    requires proc.Authorizing?
    ensures var x := AdvanceAuthorize(s, w, p, proc, f);
            && x.ledger.codes == w.ledger.codes
            && forall h | h in x.ledger.transactions && h !in w.ledger.transactions ::
                 && proc.authorize.Storing? && h == Sha256(f.second)
                 && x.ledger.transactions[h] == TransactionRecord(s, proc.terms, proc.clientState, f.first, f.second,
                                                                  proc.authorize.flow, proc.authorize.now)
                 && x.proc.authorize == Started(f.first)
  {}

  lemma ExchangeRecords(s: Settings, w: World, p: nat, proc: Proc, f: Fate)
    requires proc.Exchanging?
    ensures var l := AdvanceExchange(s, w, p, proc, f).ledger;
            l.transactions == w.ledger.transactions && l.codes == w.ledger.codes
  {}

  lemma RefreshRecords(s: Settings, w: World, p: nat, proc: Proc, f: Fate)
    requires proc.Refreshing?
    ensures var l := AdvanceRefresh(s, w, p, proc, f).ledger;
            l.transactions == w.ledger.transactions && l.codes == w.ledger.codes
  {
    if proc.refresh.Swapping? {
      SwapRecords(s, w, p, proc, f);
    } else if proc.refresh.Committing? {
      CommitRecords(s, w, p, proc, f);
    }
  }

  lemma SwapRecords(s: Settings, w: World, p: nat, proc: Proc, f: Fate)
    requires proc.Refreshing? && proc.refresh.Swapping?
    ensures var l := AdvanceRefresh(s, w, p, proc, f).ledger;
            l.transactions == w.ledger.transactions && l.codes == w.ledger.codes
  {
    var snap := proc.refresh.snap;
    match SwapOf(s, w.db, proc.refreshRequest, proc.now, snap, f.first, proc.refresh.cache).answer
    case Rotated => assert RecordRotation(w.ledger, p, snap, f.first).codes == w.ledger.codes;
    case LimitReached => assert RecordRevocation(w.ledger, p, snap.id).codes == w.ledger.codes;
    case _ =>
  }

  lemma CommitRecords(s: Settings, w: World, p: nat, proc: Proc, f: Fate)
    requires proc.Refreshing? && proc.refresh.Committing?
    ensures var l := AdvanceRefresh(s, w, p, proc, f).ledger;
            l.transactions == w.ledger.transactions && l.codes == w.ledger.codes
  {}

  /** Transactions are recorded by authorization requests, codes by callbacks. */
  lemma OnlyTheyRecord(s: Settings, w: World, p: nat, f: Fate)
    requires p in w.procs
    ensures Move(s, w, p, f).ledger.transactions != w.ledger.transactions ==> w.procs[p].Authorizing?
    ensures Move(s, w, p, f).ledger.codes != w.ledger.codes ==> w.procs[p].Completing? && w.procs[p].complete.Issuing?
  {
    match w.procs[p]
    case Authorizing(_, _, _) => AuthorizeRecords(s, w, p, w.procs[p], f);
    case Completing(_, _, _) => CompleteRecords(s, w, p, w.procs[p], f);
    case Exchanging(_, _) => ExchangeRecords(s, w, p, w.procs[p], f);
    case Refreshing(_, _, _) => RefreshRecords(s, w, p, w.procs[p], f);
  }

  lemma {:induction false} TransactionStep(s: Settings, run: seq<World>, events: seq<Event>, j: nat, h: Digest)
    returns (k: nat)
    requires Run(s, run, events) && j < |run| && h in run[j].ledger.transactions
    ensures k < j && h in run[k + 1].ledger.transactions && h !in run[k].ledger.transactions
    ensures run[k + 1].ledger.transactions[h] == run[j].ledger.transactions[h]
    ensures events[k].Advance? && events[k].p in run[k].procs && run[k].procs[events[k].p].Authorizing?
  {
    if h in run[j - 1].ledger.transactions {
      k := TransactionStep(s, run, events, j - 1, h);
      RunExtends(s, run, events, j - 1, j);
    } else {
      k := j - 1;
      assert Follows(s, run, events, k);
      if events[k].Advance? {
        OnlyTheyRecord(s, run[k], events[k].p, events[k].fate);
      }
    }
  }

  lemma ArrivalOfAuthorize(s: Settings, run: seq<World>, events: seq<Event>, j: nat, p: nat) returns (a: nat)
    requires Run(s, run, events) && j < |run| && p in run[j].procs
    requires run[j].procs[p].Authorizing? && run[j].procs[p].authorize.Beginning?
    ensures a < j && events[a].Authorize? && events[a].p == p && !events[a].down
    ensures var r := events[a].authorizeRequest;
            && run[j].procs[p].clientState == r.clientState
            && run[j].procs[p].terms == Terms(r.client, r.redirect, r.challenge, s.requiredScopes, s.resource)
  {
    a := LastChange(s, run, events, j, p);
    if p in run[a].procs {
      StepOfAuthorize(s, run, events, a, p);
    }
  }

  lemma StepOfAuthorize(s: Settings, run: seq<World>, events: seq<Event>, m: nat, p: nat)
    requires Run(s, run, events) && m < |events| && p in run[m].procs && Moves(events, p, m)
    requires p in run[m + 1].procs && run[m + 1].procs[p].Authorizing? && run[m + 1].procs[p] != run[m].procs[p]
    ensures run[m].procs[p].Authorizing?
    ensures var x, proc, f := run[m + 1].procs[p], run[m].procs[p], events[m].fate;
            && x.terms == proc.terms && x.clientState == proc.clientState && !x.authorize.Beginning?
            && (x.authorize.Storing? ==>
                  proc.authorize.Beginning? && f.reply == Began(x.authorize.flow) && x.authorize.now == run[m].clock)
  {
    OwnStep(s, run, events, m, p);
    SameKind(s, run[m], p, events[m].fate);
    AuthorizeEntry(s, run[m], p, run[m].procs[p], events[m].fate);
  }

  lemma SameKind(s: Settings, w: World, p: nat, f: Fate)
    requires p in w.procs
    ensures SameRequest(w.procs[p], Move(s, w, p, f).proc)
  {
    match w.procs[p]
    case Authorizing(_, _, _) => AuthorizeEntry(s, w, p, w.procs[p], f);
    case Completing(_, _, _) =>
    case Exchanging(_, _) =>
    case Refreshing(_, _, _) =>
  }

  /**
   Every transaction was stored by an authorization request, for its terms, with the sealed flow that upstream began
   for it, and lasts its lifetime from that moment.
   */
  lemma TransactionHistory(s: Settings, run: seq<World>, events: seq<Event>, j: nat, h: Digest)
    returns (a: nat, b: nat, c: nat)
    requires Run(s, run, events) && j < |run| && h in run[j].ledger.transactions
    ensures a < b < c < j && events[a].Authorize? && !events[a].down
    ensures Moves(events, events[a].p, b) && Moves(events, events[a].p, c)
    ensures var r, f := events[a].authorizeRequest, events[c].fate;
            && events[b].fate.reply.Began? && h == Sha256(f.second)
            && run[j].ledger.transactions[h]
               == TransactionRecord(s, Terms(r.client, r.redirect, r.challenge, s.requiredScopes, s.resource),
                                    r.clientState, f.first, f.second, events[b].fate.reply.flow, run[b].clock)
            && events[a].p in run[c + 1].procs && run[c + 1].procs[events[a].p].Authorizing?
            && run[c + 1].procs[events[a].p].authorize == Started(f.first)
  {
    c := TransactionStep(s, run, events, j, h);
    var p := events[c].p;
    AuthorizeRecords(s, run[c], p, run[c].procs[p], events[c].fate);
    OwnStep(s, run, events, c, p);
    b := LastChange(s, run, events, c, p);
    if p in run[b].procs {
      StepOfAuthorize(s, run, events, b, p);
    }
    a := ArrivalOfAuthorize(s, run, events, b, p);
  }

  // ----- codes -----

  /** What is stored of a code when upstream has identified its owner at some time. */
  function CodeRecord(s: Settings, terms: Terms, secret: string, reply: Reply, at: Time): AuthCode
    requires reply.Identified?
  {
    var h, over := Sha256(secret), at + s.codeTtl;
    AuthCode(h, s.issuer, terms, reply.owner,
             Sealed(CodeContext(h, s.issuer, terms, reply.owner, at, over),
                    Bundle(reply.accessToken, at + reply.expiresIn, reply.cache)), at, over, None)
  }

  /** A callback goes on from a pending transaction of its state, unless upstream denied the sign-in. */
  ghost predicate Took(s: Settings, db: Tables, state: string, now: Time, tx: Transaction) {
    && tx.idHash in db.transactions && tx == db.transactions[tx.idHash].(completedAt := Some(now))
    && db.transactions[tx.idHash].completedAt.None? && tx.expiresAt > now && tx.issuer == s.issuer
    && tx.entraStateHash == Sha256(state)
  }

  lemma CompleteEntry(s: Settings, w: World, p: nat, proc: Proc, f: Fate)
    requires Schema(w.db) && proc.Completing?
    ensures var x := AdvanceComplete(s, w, p, proc, f).proc;
            && x.Completing? && x.state == proc.state && x.denied == proc.denied
            && (x != proc ==>
                  match x.complete
                  case Consuming(_) => false
                  case Contacting(tx) =>
                    !proc.denied && proc.complete.Consuming? && Took(s, w.db, proc.state, proc.complete.now, tx)
                  case Issuing(tx, owner, bundle, now) =>
                    && proc.complete == Contacting(tx) && f.reply.Identified? && owner == f.reply.owner
                    && bundle == Bundle(f.reply.accessToken, w.clock + f.reply.expiresIn, f.reply.cache)
                    && now == w.clock
                  case _ => true)
  {}

  lemma CompleteRecords(s: Settings, w: World, p: nat, proc: Proc, f: Fate)
    requires proc.Completing?
    ensures AdvanceComplete(s, w, p, proc, f).ledger.transactions == w.ledger.transactions
    ensures proc.complete.Issuing? || AdvanceComplete(s, w, p, proc, f).ledger.codes == w.ledger.codes
  {
    match proc.complete
    case Consuming(now) => ConsumingRecords(s, w, p, proc, f);
    case Issuing(tx, owner, bundle, now) => IssuingRecords(s, w, p, proc, f);
    case _ =>
  }

  lemma ConsumingRecords(s: Settings, w: World, p: nat, proc: Proc, f: Fate)
    requires proc.Completing? && proc.complete.Consuming?
    ensures AdvanceComplete(s, w, p, proc, f).ledger.transactions == w.ledger.transactions
    ensures AdvanceComplete(s, w, p, proc, f).ledger.codes == w.ledger.codes
  {}

  lemma IssuingRecords(s: Settings, w: World, p: nat, proc: Proc, f: Fate)
    requires proc.Completing? && proc.complete.Issuing?
    ensures AdvanceComplete(s, w, p, proc, f).ledger.transactions == w.ledger.transactions
  {}

  lemma IssueRecords(s: Settings, w: World, p: nat, proc: Proc, f: Fate, c: Digest)
    requires proc.Completing? && proc.complete.Issuing?
    requires var l := AdvanceComplete(s, w, p, proc, f).ledger; c in l.codes && c !in w.ledger.codes
    ensures var x := AdvanceComplete(s, w, p, proc, f);
            var Issuing(tx, owner, bundle, now) := proc.complete;
            && c == Sha256(f.first) && x.ledger.codes[c].tx == tx.idHash
            && x.ledger.codes[c].row
               == AuthCode(c, s.issuer, tx.terms, owner,
                           Sealed(CodeContext(c, s.issuer, tx.terms, owner, now, now + s.codeTtl), bundle),
                           now, now + s.codeTtl, None)
            && f.first in x.ledger.issued && x.ledger.issued[f.first] == p
            && x.proc.complete == Redirected(tx.terms.redirect, f.first, tx.clientState)
  {}

  lemma {:induction false} CodeStep(s: Settings, run: seq<World>, events: seq<Event>, j: nat, c: Digest)
    returns (k: nat)
    requires Run(s, run, events) && j < |run| && c in run[j].ledger.codes
    ensures k < j && c in run[k + 1].ledger.codes && c !in run[k].ledger.codes
    ensures run[k + 1].ledger.codes[c] == run[j].ledger.codes[c]
    ensures events[k].Advance? && events[k].p in run[k].procs && run[k].procs[events[k].p].Completing?
    ensures run[k].procs[events[k].p].complete.Issuing?
  {
    if c in run[j - 1].ledger.codes {
      k := CodeStep(s, run, events, j - 1, c);
      RunExtends(s, run, events, j - 1, j);
    } else {
      k := j - 1;
      assert Follows(s, run, events, k);
      if events[k].Advance? {
        OnlyTheyRecord(s, run[k], events[k].p, events[k].fate);
      }
    }
  }

  lemma StepOfComplete(s: Settings, run: seq<World>, events: seq<Event>, m: nat, p: nat)
    requires Run(s, run, events) && m < |events| && p in run[m].procs && Moves(events, p, m)
    requires p in run[m + 1].procs && run[m + 1].procs[p].Completing? && run[m + 1].procs[p] != run[m].procs[p]
    ensures run[m].procs[p].Completing?
    ensures var x, proc, f := run[m + 1].procs[p], run[m].procs[p], events[m].fate;
            && x.state == proc.state && x.denied == proc.denied && !x.complete.Consuming?
            && (x.complete.Contacting? ==>
                  !proc.denied && proc.complete.Consuming?
                  && Took(s, run[m].db, proc.state, proc.complete.now, x.complete.tx))
            && (x.complete.Issuing? ==>
                  && proc.complete == Contacting(x.complete.tx) && f.reply.Identified?
                  && x.complete.owner == f.reply.owner && x.complete.now == run[m].clock
                  && x.complete.bundle == Bundle(f.reply.accessToken, run[m].clock + f.reply.expiresIn, f.reply.cache))
  {
    OwnStep(s, run, events, m, p);
    SameKind(s, run[m], p, events[m].fate);
    EveryRunIsSafe(s, run, events, m);
    CompleteEntry(s, run[m], p, run[m].procs[p], events[m].fate);
  }

  lemma ArrivalOfComplete(s: Settings, run: seq<World>, events: seq<Event>, j: nat, p: nat) returns (a: nat)
    requires Run(s, run, events) && j < |run| && p in run[j].procs
    requires run[j].procs[p].Completing? && run[j].procs[p].complete.Consuming?
    ensures a < j && run[j].procs[p].complete.now == run[a].clock
    ensures events[a] == Complete(p, run[j].procs[p].state, run[j].procs[p].denied)
  {
    a := LastChange(s, run, events, j, p);
    if p in run[a].procs {
      StepOfComplete(s, run, events, a, p);
    }
  }

  /** How a callback came to hold a transaction to contact upstream about. */
  lemma ContactHistory(s: Settings, run: seq<World>, events: seq<Event>, j: nat, p: nat) returns (a: nat, b: nat)
    requires Run(s, run, events) && j < |run| && p in run[j].procs
    requires run[j].procs[p].Completing? && run[j].procs[p].complete.Contacting?
    ensures a < b < j && Moves(events, p, b) && events[a] == Complete(p, run[j].procs[p].state, false)
    ensures Took(s, run[b].db, run[j].procs[p].state, run[a].clock, run[j].procs[p].complete.tx)
    ensures !run[j].procs[p].denied
  {
    b := LastChange(s, run, events, j, p);
    if p in run[b].procs {
      StepOfComplete(s, run, events, b, p);
    }
    a := ArrivalOfComplete(s, run, events, b, p);
  }

  /** What a callback that is about to issue a code has behind it. */
  lemma IssueHistory(s: Settings, run: seq<World>, events: seq<Event>, j: nat, p: nat)
    returns (a: nat, b: nat, m: nat)
    requires Run(s, run, events) && j < |run| && p in run[j].procs
    requires run[j].procs[p].Completing? && run[j].procs[p].complete.Issuing?
    ensures a < b < m < j && Moves(events, p, b) && Moves(events, p, m)
    ensures events[a] == Complete(p, run[j].procs[p].state, false) && !run[j].procs[p].denied
    ensures var Issuing(tx, owner, bundle, now) := run[j].procs[p].complete;
            var reply := events[m].fate.reply;
            && Took(s, run[b].db, run[j].procs[p].state, run[a].clock, tx)
            && reply.Identified? && owner == reply.owner && now == run[m].clock
            && bundle == Bundle(reply.accessToken, run[m].clock + reply.expiresIn, reply.cache)
  {
    m := LastChange(s, run, events, j, p);
    if p in run[m].procs {
      StepOfComplete(s, run, events, m, p);
    }
    a, b := ContactHistory(s, run, events, m, p);
  }

  lemma StepOfIssue(s: Settings, run: seq<World>, events: seq<Event>, k: nat, c: Digest)
    requires Run(s, run, events) && k < |events| && c !in run[k].ledger.codes && c in run[k + 1].ledger.codes
    requires events[k].Advance? && events[k].p in run[k].procs
    requires run[k].procs[events[k].p].Completing? && run[k].procs[events[k].p].complete.Issuing?
    ensures var p, proc, l := events[k].p, run[k].procs[events[k].p], run[k + 1].ledger;
            var Issuing(tx, owner, bundle, now) := proc.complete;
            && c == Sha256(events[k].fate.first) && l.codes[c].tx == tx.idHash
            && l.codes[c].row
               == AuthCode(c, s.issuer, tx.terms, owner,
                           Sealed(CodeContext(c, s.issuer, tx.terms, owner, now, now + s.codeTtl), bundle),
                           now, now + s.codeTtl, None)
            && c.preimage in l.issued && l.issued[c.preimage] == p && p in run[k + 1].procs
            && run[k + 1].procs[p]
               == Completing(proc.state, proc.denied, Redirected(tx.terms.redirect, c.preimage, tx.clientState))
  {
    var p := events[k].p;
    assert Moves(events, p, k);
    OwnStep(s, run, events, k, p);
    IssueRecords(s, run[k], p, run[k].procs[p], events[k].fate, c);
    SameKind(s, run[k], p, events[k].fate);
  }

  /**
   Every code was issued by a callback that was not denied: it took the pending, unexpired transaction of its state,
   upstream then identified an owner, and what the code seals for that owner is the access token, its expiry and the
   cache of that reply. The callback's redirect has this code, to where and with what the authorization asked for.
   */
  lemma CodeHistory(s: Settings, run: seq<World>, events: seq<Event>, j: nat, c: Digest)
    returns (a: nat, b: nat, m: nat, k: nat)
    requires Run(s, run, events) && j < |run| && c in run[j].ledger.codes
    ensures a < b < m < k < j && events[a].Complete? && !events[a].denied
    ensures Moves(events, events[a].p, b) && Moves(events, events[a].p, m) && Moves(events, events[a].p, k)
    ensures c.preimage in run[j].ledger.issued && run[j].ledger.issued[c.preimage] == events[a].p
    ensures var h := run[j].ledger.codes[c].tx;
            && h in run[b].db.transactions && events[m].fate.reply.Identified?
            && var tx := run[b].db.transactions[h];
               && tx.completedAt.None? && tx.expiresAt > run[a].clock && tx.entraStateHash == Sha256(events[a].state)
               && run[j].ledger.codes[c].row
                  == CodeRecord(s, tx.terms, c.preimage, events[m].fate.reply, run[m].clock)
               && events[a].p in run[k + 1].procs
               && run[k + 1].procs[events[a].p]
                  == Completing(events[a].state, false, Redirected(tx.terms.redirect, c.preimage, tx.clientState))
  {
    k := CodeStep(s, run, events, j, c);
    StepOfIssue(s, run, events, k, c);
    RunExtends(s, run, events, k + 1, j);
    a, b, m := IssueHistory(s, run, events, k, events[k].p);
  }

  // ----- sessions -----

  /** What is stored of a session that is opened for an owner at some time. */
  function SessionRecord(s: Settings, terms: Terms, owner: Identity, f: Fate, cache: string, now: Time): Session {
    var facts := SessionFacts(s.issuer, terms.client, owner, terms.scope, terms.resource, now, now + s.sessionTtl,
                              f.third);
    Session(f.second, facts, Sha256(f.first),
            Sealed(SessionContext(f.second, facts, Sha256(f.first), 0), Cache(cache)), now, None, 0)
  }

  /** An exchange goes on from an unspent, unexpired code that was made for what it presents. */
  ghost predicate Spent(s: Settings, db: Tables, r: ExchangeRequest, now: Time, code: AuthCode) {
    var c := Sha256(r.code);
    && c in db.codes && code == db.codes[c].(usedAt := Some(now))
    && db.codes[c].usedAt.None? && code.expiresAt > now && code.issuer == s.issuer
    && code.terms == Terms(r.client, r.redirect, S256(r.verifier), s.requiredScopes, s.resource)
  }

  /** A token that has not expired, as the code has it. */
  predicate Lasting(code: AuthCode, tokens: Tokens, now: Time) {
    && code.bundle.Sealed? && code.bundle.payload.Bundle? && tokens.expiresIn > 0
    && code.bundle.payload.accessToken == tokens.accessToken
    && code.bundle.payload.accessExpiresAt == now + tokens.expiresIn
  }

  lemma ExchangeEntry(s: Settings, w: World, p: nat, proc: Proc, f: Fate)
    requires proc.Exchanging?
    ensures var x, r := AdvanceExchange(s, w, p, proc, f), proc.exchangeRequest;
            && x.proc.Exchanging? && x.proc.exchangeRequest == r
            && (x.proc != proc ==>
                  match x.proc.exchange
                  case Redeeming(_) => false
                  case Granting(code, now) => proc.exchange == Redeeming(now) && Spent(s, w.db, r, now, code)
                  case Opening(code, tokens, cache, now) =>
                    && proc.exchange == Granting(code, now) && r.client in w.clients && w.clients[r.client].mayRefresh
                    && Lasting(code, tokens, now) && cache == code.bundle.payload.cache
                  case Granted(tokens, None) =>
                    && proc.exchange.Granting? && r.client in w.clients && !w.clients[r.client].mayRefresh
                    && Lasting(proc.exchange.code, tokens, proc.exchange.now)
                  case Granted(tokens, Some(handle)) =>
                    && proc.exchange.Opening? && tokens == proc.exchange.tokens && handle == f.first
                    && f.second in x.db.sessions
                    && x.db.sessions[f.second]
                       == SessionRecord(s, proc.exchange.code.terms, proc.exchange.code.owner, f, proc.exchange.cache,
                                        proc.exchange.now)
                  case ExchangeRefused(_) => true)
  {}

  lemma StepOfExchange(s: Settings, run: seq<World>, events: seq<Event>, m: nat, p: nat)
    requires Run(s, run, events) && m < |events| && p in run[m].procs && Moves(events, p, m)
    requires p in run[m + 1].procs && run[m + 1].procs[p].Exchanging? && run[m + 1].procs[p] != run[m].procs[p]
    ensures run[m].procs[p].Exchanging?
    ensures var x, proc, f, w := run[m + 1].procs[p], run[m].procs[p], events[m].fate, run[m];
            var r := proc.exchangeRequest;
            && x.exchangeRequest == r && !x.exchange.Redeeming?
            && (x.exchange.Granting? ==>
                  proc.exchange == Redeeming(x.exchange.now) && Spent(s, w.db, r, x.exchange.now, x.exchange.code))
            && (x.exchange.Opening? ==>
                  && proc.exchange == Granting(x.exchange.code, x.exchange.now)
                  && r.client in w.clients && w.clients[r.client].mayRefresh
                  && Lasting(x.exchange.code, x.exchange.tokens, x.exchange.now)
                  && x.exchange.cache == x.exchange.code.bundle.payload.cache)
            && (x.exchange.Granted? && x.exchange.handle.None? ==>
                  && proc.exchange.Granting? && r.client in w.clients && !w.clients[r.client].mayRefresh
                  && Lasting(proc.exchange.code, x.exchange.tokens, proc.exchange.now))
            && (x.exchange.Granted? && x.exchange.handle.Some? ==>
                  && proc.exchange.Opening? && x.exchange == Granted(proc.exchange.tokens, Some(f.first))
                  && f.second in run[m + 1].db.sessions
                  && run[m + 1].db.sessions[f.second]
                     == SessionRecord(s, proc.exchange.code.terms, proc.exchange.code.owner, f, proc.exchange.cache,
                                      proc.exchange.now))
  {
    OwnStep(s, run, events, m, p);
    SameKind(s, run[m], p, events[m].fate);
    ExchangeEntry(s, run[m], p, run[m].procs[p], events[m].fate);
  }

  lemma ArrivalOfExchange(s: Settings, run: seq<World>, events: seq<Event>, j: nat, p: nat) returns (a: nat)
    requires Run(s, run, events) && j < |run| && p in run[j].procs
    requires run[j].procs[p].Exchanging? && run[j].procs[p].exchange.Redeeming?
    ensures a < j && run[j].procs[p].exchange.now == run[a].clock
    ensures events[a] == Exchange(p, run[j].procs[p].exchangeRequest)
  {
    a := LastChange(s, run, events, j, p);
    if p in run[a].procs {
      StepOfExchange(s, run, events, a, p);
    }
  }

  /** How an exchange came to hold a code, and what upstream had said when that code was issued. */
  lemma RedemptionHistory(s: Settings, run: seq<World>, events: seq<Event>, j: nat, p: nat)
    returns (m: nat, a: nat, b: nat)
    requires Run(s, run, events) && j < |run| && p in run[j].procs
    requires run[j].procs[p].Exchanging? && run[j].procs[p].exchange.Granting?
    ensures a < b < j && m < b && events[a] == Exchange(p, run[j].procs[p].exchangeRequest) && Moves(events, p, b)
    ensures var r, code := events[a].exchangeRequest, run[j].procs[p].exchange.code;
            && run[j].procs[p].exchange.now == run[a].clock
            && Spent(s, run[b].db, r, run[a].clock, code) && r.code in run[b].ledger.issued
            && Moves(events, run[b].ledger.issued[r.code], m) && events[m].fate.reply.Identified?
            && code == CodeRecord(s, code.terms, r.code, events[m].fate.reply, run[m].clock)
                       .(usedAt := Some(run[a].clock))
  {
    b := LastChange(s, run, events, j, p);
    if p in run[b].procs {
      StepOfExchange(s, run, events, b, p);
    }
    a := ArrivalOfExchange(s, run, events, b, p);
    var c := Sha256(run[j].procs[p].exchangeRequest.code);
    EveryRunIsSafe(s, run, events, b);
    assert CodeRow(run[b].ledger, c, run[b].db.codes[c]);
    var a', b', k;
    a', b', m, k := CodeHistory(s, run, events, b, c);
  }

  /**
   Every exchange that was granted was given the access token that upstream had issued to the callback of its code,
   for what is left of it after the time that passed until the exchange, and more than nothing is left. It was given
   a handle if and only if its client may refresh, of a session for the owner whom upstream identified, which lasts
   its lifetime from the exchange and seals the cache of that same reply.
   */
  lemma GrantHistory(s: Settings, run: seq<World>, events: seq<Event>, j: nat, p: nat)
    returns (m: nat, a: nat, b: nat, g: nat, d: nat)
    requires Run(s, run, events) && j < |run| && p in run[j].procs
    requires run[j].procs[p].Exchanging? && run[j].procs[p].exchange.Granted?
    ensures a < b < g <= d < j && m < b && events[a] == Exchange(p, run[j].procs[p].exchangeRequest)
    ensures Moves(events, p, b) && Moves(events, p, g) && Moves(events, p, d)
    ensures var r, tokens, handle := events[a].exchangeRequest, run[j].procs[p].exchange.tokens,
                                     run[j].procs[p].exchange.handle;
            && r.code in run[b].ledger.issued && Moves(events, run[b].ledger.issued[r.code], m)
            && var reply := events[m].fate.reply;
            && reply.Identified?
            && tokens == Tokens(reply.accessToken, run[m].clock + reply.expiresIn - run[a].clock)
            && tokens.expiresIn > 0
            && r.client in run[g].clients && (handle.Some? <==> run[g].clients[r.client].mayRefresh)
            && (handle.Some? ==>
                  var f := events[d].fate;
                  && handle.value == f.first && f.second in run[d + 1].db.sessions
                  && run[d + 1].db.sessions[f.second]
                     == SessionRecord(s, Terms(r.client, r.redirect, S256(r.verifier), s.requiredScopes, s.resource),
                                      reply.owner, f, reply.cache, run[a].clock))
  {
    d := LastChange(s, run, events, j, p);
    if p in run[d].procs {
      StepOfExchange(s, run, events, d, p);
    }
    g := d;
    if run[j].procs[p].exchange.handle.Some? {
      g := LastChange(s, run, events, d, p);
      if p in run[g].procs {
        StepOfExchange(s, run, events, g, p);
      }
    }
    m, a, b := RedemptionHistory(s, run, events, g, p);
  }

  // ----- what a request that has got this far comes to -----

  lemma GrantingStep(s: Settings, w: World, p: nat, f: Fate)
    requires Inv(s, w) && p in w.procs && w.procs[p].Exchanging? && w.procs[p].exchange.Granting? && !f.storeFails
    ensures var r, Granting(code, now) := w.procs[p].exchangeRequest, w.procs[p].exchange;
            && r.client in w.clients && code.bundle.Sealed? && code.bundle.payload.Bundle?
            && var Bundle(token, until, cache) := code.bundle.payload;
               Move(s, w, p, f).proc
               == Exchanging(r, if until <= now then ExchangeRefused(InvalidGrant)
                                else if w.clients[r.client].mayRefresh
                                     then Opening(code, Tokens(token, until - now), cache, now)
                                     else Granted(Tokens(token, until - now), None))
  {
    assert ProcInv(s, w.ledger, w.db, p, w.procs[p]);
    assert CodeBorn(s, w.ledger, Sha256(w.procs[p].exchangeRequest.code));
    RedirectsAreRegistered(s, w);
  }

  /**
   An exchange that has spent its code and can read the store is refused if and only if the access token has expired.
   Otherwise it is granted that token, with a handle to come if its client may refresh. Either answer is final.
   */
  lemma GrantingExactly(s: Settings, run: seq<World>, events: seq<Event>, g: nat, j: nat, p: nat)
    requires Run(s, run, events) && g < j < |run| && p in run[g].procs && Moves(events, p, g)
    requires run[g].procs[p].Exchanging? && run[g].procs[p].exchange.Granting? && !events[g].fate.storeFails
    ensures var r, Granting(code, now) := run[g].procs[p].exchangeRequest, run[g].procs[p].exchange;
            && r.client in run[g].clients && code.bundle.Sealed? && code.bundle.payload.Bundle?
            && p in run[g + 1].procs && p in run[j].procs
            && var Bundle(token, until, cache) := code.bundle.payload;
               if until <= now then run[j].procs[p] == Exchanging(r, ExchangeRefused(InvalidGrant))
               else if run[g].clients[r.client].mayRefresh
                    then run[g + 1].procs[p] == Exchanging(r, Opening(code, Tokens(token, until - now), cache, now))
                    else run[j].procs[p] == Exchanging(r, Granted(Tokens(token, until - now), None))
  {
    EveryRunIsSafe(s, run, events, g);
    GrantingStep(s, run[g], p, events[g].fate);
    OwnStep(s, run, events, g, p);
    StaysInRun(s, run, events, g, j, p);
    if Over(run[g + 1].procs[p]) {
      OverStays(s, run, events, g + 1, j, p);
    }
  }

  lemma {:induction false} StaysInRun(s: Settings, run: seq<World>, events: seq<Event>, i: nat, j: nat, p: nat)
    requires Run(s, run, events) && i <= j < |run| && p in run[i].procs
    ensures p in run[j].procs
  {
    if i < j {
      StaysInRun(s, run, events, i, j - 1, p);
      assert Follows(s, run, events, j - 1);
    }
  }

  lemma TakingStep(s: Settings, w: World, p: nat, f: Fate, h: Digest)
    requires Inv(s, w) && p in w.procs && w.procs[p].Completing? && w.procs[p].complete.Consuming? && !f.storeFails
    requires h in w.db.transactions && Pending(w.db.transactions[h], s.issuer, Sha256(w.procs[p].state),
                                               w.procs[p].complete.now)
    ensures var tx := w.db.transactions[h].(completedAt := Some(w.procs[p].complete.now));
            && Move(s, w, p, f).proc
               == w.procs[p].(complete := if w.procs[p].denied then CompleteRefused(AccessDenied) else Contacting(tx))
            && Move(s, w, p, f).db == w.db.(transactions := w.db.transactions[h := tx])
  {
    PendingIsUnique(w.db, s.issuer, Sha256(w.procs[p].state), w.procs[p].complete.now, h);
    assert TransactionRow(w.ledger, h, w.db.transactions[h]);
    assert TransactionBorn(s, w.ledger, h);
  }

  /**
   A callback whose state has a pending, unexpired transaction completes it. If upstream denied the sign-in, it is
   refused for that, for good, and no code ever comes of it; if not, it goes on to upstream.
   */
  lemma DeniedExactly(s: Settings, run: seq<World>, events: seq<Event>, m: nat, j: nat, p: nat, h: Digest)
    requires Run(s, run, events) && m < j < |run| && p in run[m].procs && Moves(events, p, m)
    requires run[m].procs[p].Completing? && run[m].procs[p].complete.Consuming? && !events[m].fate.storeFails
    requires h in run[m].db.transactions
    requires Pending(run[m].db.transactions[h], s.issuer, Sha256(run[m].procs[p].state), run[m].procs[p].complete.now)
    ensures var proc, tx := run[m].procs[p], run[m].db.transactions[h];
            && h in run[m + 1].db.transactions && p in run[m + 1].procs && p in run[j].procs
            && run[m + 1].db.transactions[h] == tx.(completedAt := Some(proc.complete.now))
            && if proc.denied
               then run[j].procs[p] == proc.(complete := CompleteRefused(AccessDenied)) && p !in run[j].ledger.deeds
               else run[m + 1].procs[p] == proc.(complete := Contacting(run[m + 1].db.transactions[h]))
  {
    EveryRunIsSafe(s, run, events, m);
    TakingStep(s, run[m], p, events[m].fate, h);
    OwnStep(s, run, events, m, p);
    StaysInRun(s, run, events, m, j, p);
    if Over(run[m + 1].procs[p]) {
      OverStays(s, run, events, m + 1, j, p);
      EveryRunIsSafe(s, run, events, j);
      assert ProcInv(s, run[j].ledger, run[j].db, p, run[j].procs[p]);
    }
  }

  /** If upstream identifies nobody, the callback fails for good, and no code ever comes of it. */
  lemma UnidentifiedGetsNoCode(s: Settings, run: seq<World>, events: seq<Event>, m: nat, j: nat, p: nat)
    requires Run(s, run, events) && m < j < |run| && p in run[m].procs && Moves(events, p, m)
    requires run[m].procs[p].Completing? && run[m].procs[p].complete.Contacting? && !events[m].fate.reply.Identified?
    ensures p in run[j].procs && run[j].procs[p] == run[m].procs[p].(complete := CompleteRefused(ServerError))
    ensures p !in run[j].ledger.deeds
  {
    OwnStep(s, run, events, m, p);
    OverStays(s, run, events, m + 1, j, p);
    EveryRunIsSafe(s, run, events, j);
    assert ProcInv(s, run[j].ledger, run[j].db, p, run[j].procs[p]);
  }
}
