/** How to reason along a run: the step that last changed a process, and what no later step undoes. */
module OAuthRuns {
  import opened OAuthProtocol
  import opened OAuthInvariant
  import opened OAuthTheorems

  predicate Moves(events: seq<Event>, p: nat, m: nat)
    requires m < |events|
  {
    events[m].Advance? && events[m].p == p
  }

  lemma OthersLeaveProc(s: Settings, run: seq<World>, events: seq<Event>, m: nat, p: nat)
    requires Run(s, run, events) && m < |events| && p in run[m].procs && !Moves(events, p, m)
    ensures p in run[m + 1].procs && run[m + 1].procs[p] == run[m].procs[p]
  {
    assert Follows(s, run, events, m);
  }

  lemma OwnStep(s: Settings, run: seq<World>, events: seq<Event>, m: nat, p: nat)
    requires Run(s, run, events) && m < |events| && p in run[m].procs && Moves(events, p, m)
    ensures var x := Move(s, run[m], p, events[m].fate);
            && p in run[m + 1].procs && run[m + 1].procs[p] == x.proc
            && run[m + 1].db == x.db && run[m + 1].ledger == x.ledger
  {
    assert Follows(s, run, events, m);
  }

  predicate Arrives(events: seq<Event>, p: nat, m: nat)
    requires m < |events|
  {
    var e := events[m];
    (e.Authorize? || e.Complete? || e.Exchange? || e.Refresh?) && e.p == p
  }

  /** A process is what its last change made of it: its own step, or its arrival. */
  lemma {:induction false} LastChange(s: Settings, run: seq<World>, events: seq<Event>, j: nat, p: nat)
    returns (m: nat)
    requires Run(s, run, events) && j < |run| && p in run[j].procs
    ensures m < j && p in run[m + 1].procs && run[m + 1].procs[p] == run[j].procs[p]
    ensures if p in run[m].procs
            then Moves(events, p, m) && run[m].procs[p] != run[j].procs[p]
            else Arrives(events, p, m) && run[j].procs[p] == Arrival(s, run[m].clients, run[m].clock, events[m])
  {
    assert j > 0;
    if p in run[j - 1].procs && run[j - 1].procs[p] == run[j].procs[p] {
      m := LastChange(s, run, events, j - 1, p);
    } else {
      m := j - 1;
      assert Follows(s, run, events, m);
    }
  }

  /** The ledger forgets nothing. */
  ghost predicate Extends(l: Ledger, l': Ledger) {
    && (forall v <- l.issued :: v in l'.issued && l'.issued[v] == l.issued[v])
    && (forall h <- l.transactions :: h in l'.transactions && l'.transactions[h] == l.transactions[h])
    && (forall c <- l.codes :: c in l'.codes && l'.codes[c] == l.codes[c])
    && (forall id <- l.sessions :: id in l'.sessions && l'.sessions[id] == l.sessions[id])
    && (forall q <- l.deeds :: q in l'.deeds && l'.deeds[q] == l.deeds[q])
  }

  lemma StepExtends(s: Settings, w: World, e: Event)
    requires Inv(s, w) && Enabled(w, e)
    ensures Extends(w.ledger, Apply(s, w, e).ledger)
  {
    if e.Advance? {
      MoveKeepsOrder(s, w, e.p, e.fate);
    }
  }

  lemma {:induction false} RunExtends(s: Settings, run: seq<World>, events: seq<Event>, i: nat, j: nat)
    requires Run(s, run, events) && i <= j < |run|
    ensures Extends(run[i].ledger, run[j].ledger)
  {
    if i < j {
      RunExtends(s, run, events, i, j - 1);
      EveryRunIsSafe(s, run, events, j - 1);
      assert Follows(s, run, events, j - 1);
      StepExtends(s, run[j - 1], events[j - 1]);
    }
  }
}
