/**
 Which requests get past the checks of their arrival, exactly, and what each refusal at the door says about the
 request. A refusal is final: the request stays refused for the rest of every run and never makes a deed.
 */
module OAuthDoors {
  import opened Basics
  import opened OAuthProtocol
  import opened OAuthInvariant
  import opened OAuthRecords
  import opened OAuthRuns
  import opened OAuthServices
  import opened OAuthTheorems

  /** What is over stays as it ended. */
  lemma {:induction false} OverStays(s: Settings, run: seq<World>, events: seq<Event>, i: nat, j: nat, p: nat)
    requires Run(s, run, events) && i <= j < |run| && p in run[i].procs && Over(run[i].procs[p])
    ensures p in run[j].procs && run[j].procs[p] == run[i].procs[p]
  {
    if i < j {
      OverStays(s, run, events, i, j - 1, p);
      if Moves(events, p, j - 1) {
        OwnStep(s, run, events, j - 1, p);
        MovedIsNext(s, run[j - 1], p, events[j - 1].fate);
      } else {
        OthersLeaveProc(s, run, events, j - 1, p);
      }
    }
  }

  // ----- authorize -----

  /** It asks for a code, with PKCE, for the scope and resource that are served, and for a registered redirect. */
  predicate AuthorizeInOrder(s: Settings, clients: map<string, Client>, r: AuthorizeRequest) {
    && r.responseType == "code" && r.challengeMethod == "S256"
    && (r.challenge.NoImage? ==> TokenShaped(r.challenge.text))
    && r.scope == s.requiredScopes && (r.resource == "" || r.resource == s.resource)
    && r.client in clients && r.redirect in clients[r.client].redirects
  }

  predicate AuthorizeFault(s: Settings, clients: map<string, Client>, down: bool, r: AuthorizeRequest, x: Refusal) {
    match x
    case UnsupportedResponseType => r.responseType != "code"
    case InvalidRequest =>
      || r.challengeMethod != "S256" || (r.challenge.NoImage? && !TokenShaped(r.challenge.text))
      || (r.client in clients && r.redirect !in clients[r.client].redirects)
    case InvalidScope => r.scope != s.requiredScopes
    case InvalidTarget => r.resource != "" && r.resource != s.resource
    case Unavailable => down
    case InvalidClient => r.client !in clients
    case _ => false
  }

  /**
   An authorization request starts if and only if it is in order and the registry can be read. Otherwise it is refused
   for a fault that it has, for good, and never makes a transaction.
   */
  lemma AuthorizeStartsExactly(s: Settings, run: seq<World>, events: seq<Event>, a: nat, j: nat)
    requires Run(s, run, events) && a < j < |run| && events[a].Authorize?
    ensures var Authorize(p, r, down), clients := events[a], run[a].clients;
            && p in run[a + 1].procs && run[a + 1].procs[p].Authorizing?
            && (run[a + 1].procs[p].authorize.Beginning? <==> !down && AuthorizeInOrder(s, clients, r))
            && (down || !AuthorizeInOrder(s, clients, r) ==>
                  && p in run[j].procs && run[j].procs[p].Authorizing? && run[j].procs[p].authorize.AuthorizeRefused?
                  && AuthorizeFault(s, clients, down, r, run[j].procs[p].authorize.refusal)
                  && p !in run[j].ledger.deeds)
  {
    var p := events[a].p;
    assert Follows(s, run, events, a);
    if Over(run[a + 1].procs[p]) {
      OverStays(s, run, events, a + 1, j, p);
      EveryRunIsSafe(s, run, events, j);
      assert ProcInv(s, run[j].ledger, run[j].db, p, run[j].procs[p]);
    }
  }

  // ----- exchange -----

  predicate VerifierInOrder(text: string) {
    43 <= |text| <= 128 && forall c <- text :: UrlSafe(c) || c == '.' || c == '~'
  }

  predicate ForeignResource(s: Settings, resource: Option<string>) {
    resource.Some? && resource.value != s.resource
  }

  /** An exchange goes on to spend a code if and only if it is for this resource and its verifier is well-formed. */
  lemma ExchangeStartsExactly(s: Settings, run: seq<World>, events: seq<Event>, a: nat, j: nat)
    requires Run(s, run, events) && a < j < |run| && events[a].Exchange?
    ensures var Exchange(p, r) := events[a];
            && p in run[a + 1].procs && run[a + 1].procs[p].Exchanging?
            && (run[a + 1].procs[p].exchange.Redeeming? <==>
                  !ForeignResource(s, r.resource) && VerifierInOrder(r.verifier))
            && (ForeignResource(s, r.resource) || !VerifierInOrder(r.verifier) ==>
                  && p in run[j].procs && p !in run[j].ledger.deeds
                  && (|| (run[j].procs[p] == Exchanging(r, ExchangeRefused(InvalidTarget))
                          && ForeignResource(s, r.resource))
                      || (run[j].procs[p] == Exchanging(r, ExchangeRefused(InvalidGrant))
                          && !VerifierInOrder(r.verifier))))
  {
    var p := events[a].p;
    assert Follows(s, run, events, a);
    if Over(run[a + 1].procs[p]) {
      OverStays(s, run, events, a + 1, j, p);
      EveryRunIsSafe(s, run, events, j);
      assert ProcInv(s, run[j].ledger, run[j].db, p, run[j].procs[p]);
    }
  }

  // ----- refresh -----

  predicate RefreshInOrder(s: Settings, clients: map<string, Client>, r: RefreshRequest) {
    && !ForeignResource(s, r.resource) && r.client in clients && clients[r.client].mayRefresh && TokenShaped(r.handle)
  }

  predicate RefreshFault(s: Settings, clients: map<string, Client>, down: bool, r: RefreshRequest, x: Refusal) {
    match x
    case InvalidTarget => ForeignResource(s, r.resource)
    case Unavailable => down
    case UnauthorizedClient => r.client in clients && !clients[r.client].mayRefresh
    case InvalidGrant => r.client !in clients || !TokenShaped(r.handle)
    case _ => false
  }

  /**
   A refresh request is looked up if and only if it is for this resource, by a registered client that may refresh, and
   brings a well-formed handle. Otherwise it is refused for a fault that it has, for good, and writes nothing.
   */
  lemma RefreshStartsExactly(s: Settings, run: seq<World>, events: seq<Event>, a: nat, j: nat)
    requires Run(s, run, events) && a < j < |run| && events[a].Refresh?
    ensures var Refresh(p, r, down), clients := events[a], run[a].clients;
            && p in run[a + 1].procs && run[a + 1].procs[p].Refreshing?
            && (run[a + 1].procs[p].refresh.LookingUp? <==> !down && RefreshInOrder(s, clients, r))
            && (down || !RefreshInOrder(s, clients, r) ==>
                  && p in run[j].procs && run[j].procs[p].Refreshing? && run[j].procs[p].refresh.RefreshRefused?
                  && RefreshFault(s, clients, down, r, run[j].procs[p].refresh.refusal)
                  && p !in run[j].ledger.deeds)
  {
    var p := events[a].p;
    assert Follows(s, run, events, a);
    if Over(run[a + 1].procs[p]) {
      OverStays(s, run, events, a + 1, j, p);
      assert p !in run[a + 1].ledger.deeds by {
        EveryRunIsSafe(s, run, events, a);
      }
      NoNewDeed(s, run, events, a + 1, j, p);
    }
  }

  /** And what is over makes no more deeds. */
  lemma {:induction false} NoNewDeed(s: Settings, run: seq<World>, events: seq<Event>, i: nat, j: nat, p: nat)
    requires Run(s, run, events) && i <= j < |run| && p in run[i].procs && Over(run[i].procs[p])
    requires p !in run[i].ledger.deeds
    ensures p !in run[j].ledger.deeds
  {
    if i < j {
      NoNewDeed(s, run, events, i, j - 1, p);
      OverStays(s, run, events, i, j - 1, p);
      NoDeedOf(s, run, events, j - 1, p);
    }
  }

  lemma NoDeedOf(s: Settings, run: seq<World>, events: seq<Event>, m: nat, p: nat)
    requires Run(s, run, events) && m < |events| && p in run[m].procs && Over(run[m].procs[p])
    requires p !in run[m].ledger.deeds
    ensures p !in run[m + 1].ledger.deeds
  {
    assert Follows(s, run, events, m);
    if Moves(events, p, m) {
      OwnStep(s, run, events, m, p);
      OverWritesNothing(s, run[m], p, events[m].fate);
    } else if events[m].Advance? {
      EveryRunIsSafe(s, run, events, m);
      MoveKeepsOrder(s, run[m], events[m].p, events[m].fate);
    }
  }

  lemma OverWritesNothing(s: Settings, w: World, p: nat, f: Fate)
    requires p in w.procs && Over(w.procs[p])
    ensures Move(s, w, p, f).ledger == w.ledger
  {
    match w.procs[p]
    case Authorizing(_, _, _) => AuthorizeSeesTables(s, w, p, w.procs[p], f);
    case Completing(_, _, _) => CompleteSeesTables(s, w, p, w.procs[p], f);
    case Exchanging(_, _) => ExchangeSeesTables(s, w, p, w.procs[p], f);
    case Refreshing(_, _, _) => RefreshSeesTables(s, w, p, w.procs[p], f);
  }
}
