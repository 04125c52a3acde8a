/**
 No request is refused without a cause. In every run, behind each refusal is a fault of the request at its arrival, a
 failure of the store, something upstream said, or what the tables held when the request looked; and behind each
 revocation is a replayed handle, a family at its limit, or upstream's own refusal.
 */
module OAuthRefusals {
  import opened Basics
  import opened OAuthRecords
  import opened OAuthTables
  import opened OAuthProtocol
  import opened OAuthDoors
  import opened OAuthHistory
  import opened OAuthIdentity
  import opened OAuthInvariant
  import opened OAuthProvenance
  import opened OAuthRefreshSteps
  import opened OAuthReplay
  import opened OAuthRuns
  import opened OAuthServices
  import opened OAuthTheorems

  // ----- refresh -----

  /** A refused refresh request arrived with that fault, or met that cause in one of its steps. */
  lemma RefreshRefusalHasCause(s: Settings, run: seq<World>, events: seq<Event>, j: nat, p: nat) returns (m: nat)
    requires Run(s, run, events) && j < |run| && p in run[j].procs
    requires run[j].procs[p].Refreshing? && run[j].procs[p].refresh.RefreshRefused?
    ensures m < j
    ensures var r, now, x := run[j].procs[p].refreshRequest, run[j].procs[p].now, run[j].procs[p].refresh.refusal;
            || (events[m].Refresh? && events[m].p == p && events[m].refreshRequest == r
                && RefreshFault(s, run[m].clients, events[m].down, r, x))
            || (Moves(events, p, m) && p in run[m].procs && run[m].procs[p].Refreshing?
                && RefusedFor(s, run[m].db, r, now, run[m].procs[p].refresh, events[m].fate, x))
  {
    m := LastChange(s, run, events, j, p);
    if p in run[m].procs {
      StepOfRefresh(s, run, events, m, p);
    } else {
      RefreshStartsExactly(s, run, events, m, m + 1);
    }
  }

  /** The handle has a successor. */
  ghost predicate Replayed(l: Ledger, handle: string) {
    var home := Home(l, Sha256(handle));
    home.Some? && home.value.id in l.chains && home.value.generation + 1 < |l.chains[home.value.id]|
  }

  lemma FoundIsReplayed(s: Settings, w: World, r: RefreshRequest, now: Time)
    requires Inv(s, w) && FindReplayed(w.db, s.issuer, Sha256(r.handle), r.client, now).Some?
    ensures Replayed(w.ledger, r.handle)
  {
    var k := HistoryKey(s.issuer, r.client, Sha256(r.handle));
    assert HistorySound(w.ledger, w.db, k);
    RowIsHome(s, w.ledger, w.db, w.db.history[k].sessionId);
  }

  /** Why a session was revoked. */
  ghost predicate RevokedFor(s: Settings, w: World, proc: Proc, f: Fate)
    requires proc.Refreshing?
  {
    match proc.refresh
    case LookingUp =>
      exists row :: Selects(s, w.db, proc.refreshRequest, proc.now, row) && row.rotationCount >= s.maxRotations
    case AtUpstream(row, _) => SaysNo(f.reply, row)
    case Committing => Replayed(w.ledger, proc.refreshRequest.handle)
    case _ => false
  }

  lemma RefusalWithoutDeed(s: Settings, run: seq<World>, events: seq<Event>, k: nat, j: nat, p: nat)
    requires Run(s, run, events) && k < j < |run| && Moves(events, p, k)
    requires p in run[k].procs && run[k].procs[p].Refreshing? && p !in run[k].ledger.deeds
    requires run[k].procs[p].refresh.Replaying? || run[k].procs[p].refresh.Committing?
    requires FindReplayed(run[k].db, s.issuer, Sha256(run[k].procs[p].refreshRequest.handle),
                          run[k].procs[p].refreshRequest.client, run[k].procs[p].now).None?
    ensures p !in run[j].ledger.deeds
  {
    OwnStep(s, run, events, k, p);
    NoNewDeed(s, run, events, k + 1, j, p);
  }

  lemma RevokingHasCause(s: Settings, run: seq<World>, events: seq<Event>, k: nat, p: nat) returns (m: nat)
    requires Run(s, run, events) && k < |run| && p in run[k].procs
    requires run[k].procs[p].Refreshing? && run[k].procs[p].refresh.Revoking?
    ensures m < k && Moves(events, p, m) && p in run[m].procs && run[m].procs[p].Refreshing?
    ensures run[m].procs[p].refreshRequest == run[k].procs[p].refreshRequest
    ensures RevokedFor(s, run[m], run[m].procs[p], events[m].fate)
  {
    m := LastChange(s, run, events, k, p);
    if p in run[m].procs {
      StepOfRefresh(s, run, events, m, p);
    }
  }

  /** A refresh request that revoked a session had cause to. */
  lemma RevocationHasCause(s: Settings, run: seq<World>, events: seq<Event>, j: nat, p: nat) returns (m: nat)
    requires Run(s, run, events) && j < |run| && p in run[j].procs && run[j].procs[p].Refreshing?
    requires p in run[j].ledger.deeds && run[j].ledger.deeds[p].RevokedSession?
    ensures m < j && Moves(events, p, m) && p in run[m].procs && run[m].procs[p].Refreshing?
    ensures run[m].procs[p].refreshRequest == run[j].procs[p].refreshRequest
    ensures RevokedFor(s, run[m], run[m].procs[p], events[m].fate)
  {
    DeedOfRefused(s, run, events, j, p);
    var k := LastChange(s, run, events, j, p);
    if p !in run[k].procs {
      RefreshStartsExactly(s, run, events, k, j);
    } else {
      StepOfRefresh(s, run, events, k, p);
      var r, now := run[k].procs[p].refreshRequest, run[k].procs[p].now;
      if run[k].procs[p].refresh.Revoking? {
        m := RevokingHasCause(s, run, events, k, p);
      } else if FindReplayed(run[k].db, s.issuer, Sha256(r.handle), r.client, now).None? {
        NoDeedYet(s, run, events, k, p);
        RefusalWithoutDeed(s, run, events, k, j, p);
      } else {
        EveryRunIsSafe(s, run, events, k);
        FoundIsReplayed(s, run[k], r, now);
        m := k;
      }
    }
  }

  lemma DeedOfRefused(s: Settings, run: seq<World>, events: seq<Event>, j: nat, p: nat)
    requires Run(s, run, events) && j < |run| && p in run[j].procs && run[j].procs[p].Refreshing?
    requires p in run[j].ledger.deeds && run[j].ledger.deeds[p].RevokedSession?
    ensures run[j].procs[p].refresh == RefreshRefused(InvalidGrant)
  {
    EveryRunIsSafe(s, run, events, j);
    assert ProcInv(s, run[j].ledger, run[j].db, p, run[j].procs[p]);
  }

  // ----- authorize -----

  predicate AuthorizeMet(stage: AuthorizeStage, f: Fate, x: Refusal) {
    x == Unavailable && if stage.Beginning? then !f.reply.Began? else f.storeFails
  }

  lemma AuthorizeMeets(s: Settings, w: World, p: nat, f: Fate)
    requires Inv(s, w) && FateAllowed(w, f) && p in w.procs && w.procs[p].Authorizing?
    ensures var proc, x := w.procs[p], Move(s, w, p, f).proc;
            && SameRequest(proc, x)
            && (x != proc && x.authorize.AuthorizeRefused? ==> AuthorizeMet(proc.authorize, f, x.authorize.refusal))
  {
    var proc := w.procs[p];
    if proc.authorize.Storing? {
      FreshTransactionInserts(s, w, f, NewTransaction(s, proc.terms, proc.clientState, f.first, f.second,
                                                      proc.authorize.flow, proc.authorize.now));
    }
  }

  /** A refused authorization request arrived with that fault, or upstream or the store failed it. */
  lemma AuthorizeRefusalHasCause(s: Settings, run: seq<World>, events: seq<Event>, j: nat, p: nat) returns (m: nat)
    requires Run(s, run, events) && j < |run| && p in run[j].procs
    requires run[j].procs[p].Authorizing? && run[j].procs[p].authorize.AuthorizeRefused?
    ensures m < j
    ensures var x := run[j].procs[p].authorize.refusal;
            || (events[m].Authorize? && events[m].p == p
                && AuthorizeFault(s, run[m].clients, events[m].down, events[m].authorizeRequest, x))
            || (Moves(events, p, m) && p in run[m].procs && run[m].procs[p].Authorizing?
                && AuthorizeMet(run[m].procs[p].authorize, events[m].fate, x))
  {
    m := LastChange(s, run, events, j, p);
    if p in run[m].procs {
      StepAllowed(s, run, events, m, p);
      AuthorizeMeets(s, run[m], p, events[m].fate);
    } else {
      AuthorizeStartsExactly(s, run, events, m, m + 1);
    }
  }

  lemma StepAllowed(s: Settings, run: seq<World>, events: seq<Event>, m: nat, p: nat)
    requires Run(s, run, events) && m < |events| && p in run[m].procs && Moves(events, p, m)
    ensures Inv(s, run[m]) && FateAllowed(run[m], events[m].fate)
    ensures p in run[m + 1].procs && run[m + 1].procs[p] == Move(s, run[m], p, events[m].fate).proc
    ensures SameRequest(run[m].procs[p], run[m + 1].procs[p])
  {
    EveryRunIsSafe(s, run, events, m);
    assert Follows(s, run, events, m);
    OwnStep(s, run, events, m, p);
    SameKind(s, run[m], p, events[m].fate);
  }

  // ----- callback -----

  ghost predicate CompleteMet(s: Settings, db: Tables, proc: Proc, f: Fate, x: Refusal)
    requires proc.Completing?
  {
    match x
    case Unavailable => f.storeFails
    case InvalidRequest =>
      && proc.complete.Consuming?
      && forall h :: h in db.transactions ==>
           !Pending(db.transactions[h], s.issuer, Sha256(proc.state), proc.complete.now)
    case AccessDenied => proc.complete.Consuming? && proc.denied
    case ServerError => proc.complete.Contacting? && !f.reply.Identified?
    case _ => false
  }

  lemma CompleteMeets(s: Settings, w: World, p: nat, f: Fate)
    requires Inv(s, w) && FateAllowed(w, f) && p in w.procs && w.procs[p].Completing?
    ensures var proc, x := w.procs[p], Move(s, w, p, f).proc;
            && SameRequest(proc, x)
            && (x != proc && x.complete.CompleteRefused? ==> CompleteMet(s, w.db, proc, f, x.complete.refusal))
  {
    var proc := w.procs[p];
    if proc.complete.Issuing? {
      FreshCodeInserts(s, w, f, NewCode(s, proc.complete.tx, proc.complete.owner, f.first, proc.complete.bundle,
                                        proc.complete.now));
    } else if proc.complete.Consuming? && !f.storeFails {
      if h :| h in w.db.transactions && Pending(w.db.transactions[h], s.issuer, Sha256(proc.state), proc.complete.now) {
        TakingStep(s, w, p, f, h);
      }
    }
  }

  /** A refused callback had no state, or no pending transaction, or was denied, or upstream or the store failed it. */
  lemma CompleteRefusalHasCause(s: Settings, run: seq<World>, events: seq<Event>, j: nat, p: nat) returns (m: nat)
    requires Run(s, run, events) && j < |run| && p in run[j].procs
    requires run[j].procs[p].Completing? && run[j].procs[p].complete.CompleteRefused?
    ensures m < j
    ensures var x := run[j].procs[p].complete.refusal;
            || (events[m].Complete? && events[m].p == p && events[m].state == "" && x == InvalidRequest)
            || (Moves(events, p, m) && p in run[m].procs && run[m].procs[p].Completing?
                && CompleteMet(s, run[m].db, run[m].procs[p], events[m].fate, x))
  {
    m := LastChange(s, run, events, j, p);
    if p in run[m].procs {
      StepAllowed(s, run, events, m, p);
      CompleteMeets(s, run[m], p, events[m].fate);
    }
  }

  // ----- exchange -----

  /** No code that this exchange could spend at that time. */
  predicate Unspendable(db: Tables, r: ExchangeRequest, now: Time) {
    var c := Sha256(r.code);
    c in db.codes ==>
      || db.codes[c].usedAt.Some? || db.codes[c].expiresAt <= now || db.codes[c].terms.client != r.client
      || db.codes[c].terms.redirect != r.redirect || db.codes[c].terms.challenge != S256(r.verifier)
  }

  predicate ExchangeMet(db: Tables, r: ExchangeRequest, stage: ExchangeStage, f: Fate, x: Refusal) {
    match x
    case Unavailable => f.storeFails
    case InvalidGrant =>
      || (stage.Redeeming? && Unspendable(db, r, stage.now))
      || (stage.Granting? && stage.code.bundle.Sealed? && stage.code.bundle.payload.Bundle?
          && stage.code.bundle.payload.accessExpiresAt <= stage.now)
    case _ => false
  }

  lemma RedeemingMeets(s: Settings, w: World, p: nat, f: Fate)
    requires Inv(s, w) && p in w.procs && w.procs[p].Exchanging? && w.procs[p].exchange.Redeeming? && !f.storeFails
    ensures var proc, x := w.procs[p], Move(s, w, p, f).proc;
            && SameRequest(proc, x)
            && (x.exchange.ExchangeRefused? ==>
                  x.exchange.refusal == InvalidGrant && Unspendable(w.db, proc.exchangeRequest, proc.exchange.now))
  {
    var c := Sha256(w.procs[p].exchangeRequest.code);
    if c in w.db.codes {
      assert CodeRow(w.ledger, c, w.db.codes[c]);
      assert CodeBorn(s, w.ledger, c);
      assert TransactionBorn(s, w.ledger, w.ledger.codes[c].tx);
    }
  }

  lemma ExchangeMeets(s: Settings, w: World, p: nat, f: Fate)
    requires Inv(s, w) && FateAllowed(w, f) && p in w.procs && w.procs[p].Exchanging?
    ensures var proc, x := w.procs[p], Move(s, w, p, f).proc;
            && SameRequest(proc, x)
            && (x != proc && x.exchange.ExchangeRefused? ==>
                  ExchangeMet(w.db, proc.exchangeRequest, proc.exchange, f, x.exchange.refusal))
  {
    var proc := w.procs[p];
    if !f.storeFails {
      match proc.exchange
      case Redeeming(_) => RedeemingMeets(s, w, p, f);
      case Granting(_, _) => GrantingStep(s, w, p, f);
      case Opening(code, _, cache, now) =>
        FreshSessionInserts(s, w, f, w.db, NewSession(s, code, f.second, f.first, f.third, cache, now));
      case _ =>
    }
  }

  /** A refused exchange arrived with a fault, or there was no code for it to spend, or nothing left of the token. */
  lemma ExchangeRefusalHasCause(s: Settings, run: seq<World>, events: seq<Event>, j: nat, p: nat) returns (m: nat)
    requires Run(s, run, events) && j < |run| && p in run[j].procs
    requires run[j].procs[p].Exchanging? && run[j].procs[p].exchange.ExchangeRefused?
    ensures m < j
    ensures var r, x := run[j].procs[p].exchangeRequest, run[j].procs[p].exchange.refusal;
            || (events[m] == Exchange(p, r) && ForeignResource(s, r.resource) && x == InvalidTarget)
            || (events[m] == Exchange(p, r) && !VerifierInOrder(r.verifier) && x == InvalidGrant)
            || (Moves(events, p, m) && p in run[m].procs && run[m].procs[p].Exchanging?
                && ExchangeMet(run[m].db, r, run[m].procs[p].exchange, events[m].fate, x))
  {
    m := LastChange(s, run, events, j, p);
    if p in run[m].procs {
      StepAllowed(s, run, events, m, p);
      ExchangeMeets(s, run[m], p, events[m].fate);
    } else {
      ExchangeStartsExactly(s, run, events, m, m + 1);
    }
  }
}
