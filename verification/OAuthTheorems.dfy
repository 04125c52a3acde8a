/** What the OAuth services guarantee in every run, under every interleaving. */
module OAuthTheorems {
  import opened Basics
  import opened OAuthRecords
  import opened OAuthTables
  import opened OAuthProtocol
  import opened OAuthInvariant
  import opened OAuthSteps
  import opened OAuthRefreshSteps
  import opened OAuthGrantSteps

  // ----- the invariant holds throughout -----

  lemma MoveKeepsOrder(s: Settings, w: World, p: nat, f: Fate)
    requires Inv(s, w) && p in w.procs && FateAllowed(w, f)
    ensures EffectOk(s, w.ledger, w.db, p, w.procs[p], Move(s, w, p, f), {f.first, f.second, f.third})
  {
    var proc := w.procs[p];
    assert ProcInv(s, w.ledger, w.db, p, proc);
    match proc
    case Authorizing(_, _, _) => AuthorizeStep(s, w, p, proc, f);
    case Completing(_, _, _) => CompleteStep(s, w, p, proc, f);
    case Exchanging(_, _) => ExchangeStep(s, w, p, proc, f);
    case Refreshing(_, _, _) => RefreshStep(s, w, p, proc, f);
  }

  ghost predicate Unpresented(w: World, drawn: set<string>) {
    forall q <- w.procs :: Presented(w.procs[q]).Some? ==> Presented(w.procs[q]).value !in drawn
  }

  lemma OthersStand(s: Settings, w: World, p: nat, x: Effect, drawn: set<string>, q: nat)
    requires p in w.procs && q in w.procs && q != p && LedgerInv(s, w.ledger) && Unpresented(w, drawn)
    requires EffectOk(s, w.ledger, w.db, p, w.procs[p], x, drawn) && ProcInv(s, w.ledger, w.db, q, w.procs[q])
    ensures ProcInv(s, x.ledger, x.db, q, w.procs[q])
  {
    ProcIsStable(s, p, q, w.procs[q], w.ledger, w.db, x.ledger, x.db);
  }

  lemma EffectKeepsInv(s: Settings, w: World, p: nat, x: Effect, drawn: set<string>)
    requires Inv(s, w) && p in w.procs && Unpresented(w, drawn)
    requires EffectOk(s, w.ledger, w.db, p, w.procs[p], x, drawn)
    ensures Inv(s, w.(db := x.db, ledger := x.ledger, procs := w.procs[p := x.proc]))
  {
    var w' := w.(db := x.db, ledger := x.ledger, procs := w.procs[p := x.proc]);
    forall q | q in w'.procs ensures ProcInv(s, w'.ledger, w'.db, q, w'.procs[q]) {
      if q != p {
        assert ProcInv(s, w.ledger, w.db, q, w.procs[q]);
        OthersStand(s, w, p, x, drawn, q);
      }
    }
    RegisteredStays(s, w, p, x, drawn);
  }

  lemma RegisteredStays(s: Settings, w: World, p: nat, x: Effect, drawn: set<string>)
    requires Registered(w) && p in w.procs && EffectOk(s, w.ledger, w.db, p, w.procs[p], x, drawn)
    ensures Registered(w.(db := x.db, ledger := x.ledger, procs := w.procs[p := x.proc]))
  {
    assert forall terms :: Asks(w.procs[p], terms) ==> RegisteredTerms(w.clients, terms);
    assert x.proc.Authorizing? && !x.proc.authorize.AuthorizeRefused? ==> Asks(x.proc, x.proc.terms);
  }

  lemma AdvanceKeepsInv(s: Settings, w: World, p: nat, f: Fate)
    requires Inv(s, w) && p in w.procs && FateAllowed(w, f)
    ensures Inv(s, Apply(s, w, Advance(p, f)))
  {
    MoveKeepsOrder(s, w, p, f);
    EffectKeepsInv(s, w, p, Move(s, w, p, f), {f.first, f.second, f.third});
  }

  lemma ReinitializeKeepsInv(s: Settings, w: World)
    requires Inv(s, w)
    ensures Inv(s, Apply(s, w, Reinitialize))
  {
    ReclaimKeepsTables(w.ledger, w.db, w.clock);
    forall q | q in w.procs ensures ProcInv(s, w.ledger, Reclaim(w.db, w.clock), q, w.procs[q]) {
      assert ProcInv(s, w.ledger, w.db, q, w.procs[q]);
      ProcIsStable(s, q + 1, q, w.procs[q], w.ledger, w.db, w.ledger, Reclaim(w.db, w.clock));
    }
  }

  /** A family's client has been registered, since its session goes back to a transaction of that client. */
  lemma FamilyClientIsRegistered(s: Settings, w: World, id: string)
    requires LedgerInv(s, w.ledger) && Registered(w) && id in w.ledger.sessions
    ensures w.ledger.sessions[id].facts.client in w.clients
  {
    assert SessionBorn(s, w.ledger, id);
    assert CodeBorn(s, w.ledger, w.ledger.sessions[id].code);
  }

  /** A handle that is refused at the door, unread, is no live handle of that client. */
  lemma RefusedAtDoorIsSettled(s: Settings, w: World, r: RefreshRequest, down: bool)
    requires LedgerInv(s, w.ledger) && Registered(w)
    requires CheckRefresh(s, w.clients, down, r) == Some(InvalidGrant)
    ensures Settled(w.ledger, w.db, r, w.clock)
  {
    var hash := Sha256(r.handle);
    if Home(w.ledger, hash).Some? {
      PlaceIsReal(s, w.ledger, hash);
      var place := Home(w.ledger, hash).value;
      assert Placed(w.ledger, place.id, place.generation);
      FamilyClientIsRegistered(s, w, place.id);
    }
  }

  lemma ArrivalKeepsInv(s: Settings, w: World, e: Event)
    requires Inv(s, w) && Enabled(w, e) && (e.Authorize? || e.Complete? || e.Exchange? || e.Refresh?)
    ensures Inv(s, Apply(s, w, e))
  {
    var proc := Arrival(s, w.clients, w.clock, e);
    var w' := w.(procs := w.procs[e.p := proc]);
    if e.Refresh? && proc.refresh == RefreshRefused(InvalidGrant) {
      RefusedAtDoorIsSettled(s, w, e.refreshRequest, e.down);
    }
    forall q | q in w'.procs ensures ProcInv(s, w'.ledger, w'.db, q, w'.procs[q]) {
      assert q != e.p ==> ProcInv(s, w.ledger, w.db, q, w.procs[q]);
    }
  }

  lemma StepKeepsInv(s: Settings, w: World, e: Event)
    requires Inv(s, w) && Enabled(w, e)
    ensures Inv(s, Apply(s, w, e))
  {
    match e
    case Advance(p, f) => AdvanceKeepsInv(s, w, p, f);
    case Reinitialize => ReinitializeKeepsInv(s, w);
    case Tick(n) => OthersUnmoved(s, w, w.(clock := w.clock + n));
    case Register(client, record) => OthersUnmoved(s, w, w.(clients := w.clients[client := record]));
    case _ => ArrivalKeepsInv(s, w, e);
  }

  lemma OthersUnmoved(s: Settings, w: World, w': World)
    requires Inv(s, w) && w'.db == w.db && w'.ledger == w.ledger && w'.procs == w.procs
    requires forall client <- w.clients :: client in w'.clients && w'.clients[client] == w.clients[client]
    ensures Inv(s, w')
  {
    forall q | q in w'.procs ensures ProcInv(s, w'.ledger, w'.db, q, w'.procs[q]) {
      assert ProcInv(s, w.ledger, w.db, q, w.procs[q]);
    }
  }

  lemma InitialIsSafe(s: Settings, w: World)
    requires Initial(w)
    ensures Inv(s, w)
  {}

  lemma FollowingIsSafe(s: Settings, w: World, e: Event, w': World)
    requires Inv(s, w) && Enabled(w, e) && w' == Apply(s, w, e)
    ensures Inv(s, w')
  {
    StepKeepsInv(s, w, e);
  }

  /** Every world of every run satisfies the invariant. */
  lemma {:induction false} EveryRunIsSafe(s: Settings, run: seq<World>, events: seq<Event>, i: nat)
    requires Run(s, run, events) && i < |run|
    ensures Inv(s, run[i])
  {
    if i == 0 {
      InitialIsSafe(s, run[0]);
    } else {
      EveryRunIsSafe(s, run, events, i - 1);
      assert Follows(s, run, events, i - 1);
      FollowingIsSafe(s, run[i - 1], events[i - 1], run[i]);
    }
  }
}
