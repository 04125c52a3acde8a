/**
 Replay revocation looks twice, in two transactions, and any steps of other requests may come in between. In every
 run it nevertheless acts as one atomic find-and-revoke at some moment between its start and its answer.
 */
module OAuthReplay {
  import opened Basics
  import opened OAuthRecords
  import opened OAuthTables
  import opened OAuthProtocol
  import opened OAuthInvariant
  import opened OAuthRefreshSteps
  import opened OAuthRuns
  import opened OAuthTheorems
  import opened OAuthGuarantees

  predicate Resting(stage: RefreshStage) {
    stage.Refreshed? || stage.RefreshRefused?
  }

  /** The refresh request p, at a stage. */
  predicate At(w: World, p: nat, r: RefreshRequest, now: Time, stage: RefreshStage) {
    p in w.procs && w.procs[p] == Refreshing(r, now, stage)
  }

  ghost function ReplayOf(s: Settings, w: World, r: RefreshRequest, now: Time): After<Option<Session>> {
    RevokeReplayed(w.db, s.issuer, Sha256(r.handle), r.client, now)
  }

  /** Step k is p's, and does what one atomic find-and-revoke does to the tables of that moment, deed included. */
  ghost predicate ActsAt(s: Settings, run: seq<World>, events: seq<Event>, p: nat, r: RefreshRequest, now: Time, k: nat)
    requires |run| == |events| + 1 && k < |events|
  {
    var a := ReplayOf(s, run[k], r, now);
    && Moves(events, p, k)
    && run[k + 1].db == a.tables
    && p !in run[k].ledger.deeds
    && match a.answer
       case None => p !in run[k + 1].ledger.deeds
       case Some(row) => p in run[k + 1].ledger.deeds && run[k + 1].ledger.deeds[p] == RevokedSession(row.id)
  }

  /** No other step of p from i up to j touches the tables. */
  ghost predicate QuietBut(run: seq<World>, events: seq<Event>, p: nat, i: nat, j: nat, k: nat)
    requires |run| == |events| + 1 && j <= |events|
  {
    forall m {:trigger Moves(events, p, m)} ::
      i <= m < j && m != k && Moves(events, p, m) ==> run[m + 1].db == run[m].db
  }

  // ----- single steps -----

  /** A finished request stays as it is, and its steps do nothing. */
  lemma {:induction false} RestsOn(s: Settings, run: seq<World>, events: seq<Event>, i: nat, j: nat, p: nat,
                                   r: RefreshRequest, now: Time, stage: RefreshStage)
    requires Run(s, run, events) && i <= j < |run| && Resting(stage) && At(run[i], p, r, now, stage)
    ensures At(run[j], p, r, now, stage) && QuietBut(run, events, p, i, j, j)
    decreases j - i
  {
    if i < j {
      StepsResting(s, run, events, i, p, r, now, stage);
      RestsOn(s, run, events, i + 1, j, p, r, now, stage);
    }
  }

  lemma StepsResting(s: Settings, run: seq<World>, events: seq<Event>, m: nat, p: nat, r: RefreshRequest, now: Time,
                     stage: RefreshStage)
    requires Run(s, run, events) && m < |events| && Resting(stage) && At(run[m], p, r, now, stage)
    ensures At(run[m + 1], p, r, now, stage) && (Moves(events, p, m) ==> run[m + 1].db == run[m].db)
  {
    if Moves(events, p, m) {
      OwnStep(s, run, events, m, p);
    } else {
      OthersLeaveProc(s, run, events, m, p);
    }
  }

  lemma NoDeedYet(s: Settings, run: seq<World>, events: seq<Event>, m: nat, p: nat)
    requires Run(s, run, events) && m < |run| && p in run[m].procs && run[m].procs[p].Refreshing?
    requires run[m].procs[p].refresh.Replaying? || run[m].procs[p].refresh.Committing?
    ensures p !in run[m].ledger.deeds
  {
    EveryRunIsSafe(s, run, events, m);
    assert ProcInv(s, run[m].ledger, run[m].db, p, run[m].procs[p]);
  }

  /** The second look, under the write lock. */
  lemma CommitStepActs(s: Settings, run: seq<World>, events: seq<Event>, m: nat, p: nat, r: RefreshRequest, now: Time)
    requires Run(s, run, events) && m < |events| && At(run[m], p, r, now, Committing) && Moves(events, p, m)
    ensures if events[m].fate.storeFails then At(run[m + 1], p, r, now, RefreshRefused(Unavailable))
            else At(run[m + 1], p, r, now, RefreshRefused(InvalidGrant)) && ActsAt(s, run, events, p, r, now, m)
  {
    OwnStep(s, run, events, m, p);
    NoDeedYet(s, run, events, m, p);
  }

  /** The first look, which acts only by finding nothing. */
  lemma ReplayStepActs(s: Settings, run: seq<World>, events: seq<Event>, m: nat, p: nat, r: RefreshRequest, now: Time)
    requires Run(s, run, events) && m < |events| && At(run[m], p, r, now, Replaying) && Moves(events, p, m)
    ensures run[m + 1].db == run[m].db
    ensures if events[m].fate.storeFails then At(run[m + 1], p, r, now, RefreshRefused(Unavailable))
            else if ReplayOf(s, run[m], r, now).answer.Some? then At(run[m + 1], p, r, now, Committing)
            else At(run[m + 1], p, r, now, RefreshRefused(InvalidGrant)) && ActsAt(s, run, events, p, r, now, m)
  {
    OwnStep(s, run, events, m, p);
    NoDeedYet(s, run, events, m, p);
  }

  // ----- the whole of it -----

  lemma {:induction false} CommitIsAtomic(s: Settings, run: seq<World>, events: seq<Event>, i: nat, j: nat, p: nat,
                                          r: RefreshRequest, now: Time) returns (k: nat)
    requires Run(s, run, events) && i <= j < |run| && At(run[i], p, r, now, Committing)
    requires At(run[j], p, r, now, RefreshRefused(InvalidGrant))
    ensures i <= k < j && ActsAt(s, run, events, p, r, now, k) && QuietBut(run, events, p, i, j, k)
    decreases j - i
  {
    if !Moves(events, p, i) {
      OthersLeaveProc(s, run, events, i, p);
      k := CommitIsAtomic(s, run, events, i + 1, j, p, r, now);
    } else {
      CommitStepActs(s, run, events, i, p, r, now);
      RestsOn(s, run, events, i + 1, j, p, r, now, run[i + 1].procs[p].refresh);
      k := i;
    }
  }

  /**
   From the start of a replay revocation to its answer, if no store error ends it, exactly one of its steps acts
   on the tables, and does what one find-and-revoke does at that moment: at the first look if that finds nothing,
   else at the second.
   */
  lemma {:induction false} ReplayIsAtomic(s: Settings, run: seq<World>, events: seq<Event>, i: nat, j: nat, p: nat,
                                          r: RefreshRequest, now: Time) returns (k: nat)
    requires Run(s, run, events) && i <= j < |run| && At(run[i], p, r, now, Replaying)
    requires At(run[j], p, r, now, RefreshRefused(InvalidGrant))
    ensures i <= k < j && ActsAt(s, run, events, p, r, now, k) && QuietBut(run, events, p, i, j, k)
    decreases j - i
  {
    if !Moves(events, p, i) {
      OthersLeaveProc(s, run, events, i, p);
      k := ReplayIsAtomic(s, run, events, i + 1, j, p, r, now);
    } else {
      ReplayStepActs(s, run, events, i, p, r, now);
      if run[i + 1].procs[p].refresh == Committing {
        k := CommitIsAtomic(s, run, events, i + 1, j, p, r, now);
      } else {
        RestsOn(s, run, events, i + 1, j, p, r, now, run[i + 1].procs[p].refresh);
        k := i;
      }
    }
  }

  lemma FoundIsAtHome(s: Settings, run: seq<World>, events: seq<Event>, m: nat, r: RefreshRequest, now: Time)
    requires Run(s, run, events) && m < |run|
    requires FindReplayed(run[m].db, s.issuer, Sha256(r.handle), r.client, now).Some?
    ensures var row := FindReplayed(run[m].db, s.issuer, Sha256(r.handle), r.client, now).value;
            var l := run[m].ledger;
            && Home(l, Sha256(r.handle)).Some? && Home(l, Sha256(r.handle)).value.id == row.id
            && row.id in l.sessions && l.sessions[row.id].facts == row.facts
  {
    EveryRunIsSafe(s, run, events, m);
    FoundIsHome(s, run[m].ledger, run[m].db, r, now);
    RowIsHome(s, run[m].ledger, run[m].db,
              FindReplayed(run[m].db, s.issuer, Sha256(r.handle), r.client, now).value.id);
  }

  /** Whatever comes in between, all looks of a request that find a session find the same one, with the same facts. */
  lemma LooksFindOneSession(s: Settings, run: seq<World>, events: seq<Event>, a: nat, b: nat, p: nat,
                            r: RefreshRequest, now: Time, stage: RefreshStage)
    requires Run(s, run, events) && a <= b < |run| && At(run[a], p, r, now, stage)
    requires FindReplayed(run[a].db, s.issuer, Sha256(r.handle), r.client, now).Some?
    requires FindReplayed(run[b].db, s.issuer, Sha256(r.handle), r.client, now).Some?
    ensures var row, row' := FindReplayed(run[a].db, s.issuer, Sha256(r.handle), r.client, now).value,
                             FindReplayed(run[b].db, s.issuer, Sha256(r.handle), r.client, now).value;
            row.id == row'.id && row.facts == row'.facts
  {
    FoundIsAtHome(s, run, events, a, r, now);
    FoundIsAtHome(s, run, events, b, r, now);
    RunIsLater(s, run, events, a, b, p);
  }
}
