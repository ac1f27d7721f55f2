/** Safety over whole runs: what must have happened before a session counts as satisfied. */
module MfaTraces {
  import opened MfaModel
  import opened MfaProofs

  /** The state before event `k`. */
  function At(db: Db, events: seq<Event>, k: nat): Db
    requires k <= |events|
  {
    After(db, events[..k])
  }

  lemma AtStart(db: Db, events: seq<Event>)
    ensures At(db, events, 0) == db
  {
  }

  lemma AtNext(db: Db, events: seq<Event>, k: nat)
    requires k < |events|
    ensures At(db, events, k + 1) == Step(At(db, events, k), events[k])
  {
    hide Step;
    assert events[..k + 1][..k] == events[..k];
  }

  /** An idle server: consistent tables, no request under way. */
  ghost predicate Idle(db: Db) {
    Inv(db) && db.flights == map[]
  }

  // ------------------------------------------------------------------- promotion

  /**
    The event completes, for this user and session, a recorded use of a live
    passkey of the user or the redemption of a live recovery code of the user.
   */
  ghost predicate Proves(db: Db, e: Event, request: Id, user: Id, session: Id) {
    && request in db.flights && !db.flights[request].LoggingIn?
    && db.flights[request].user == user && db.flights[request].session == session
    && ((&& e.Record? && e.request == request && e.reply.Clean? && db.flights[request].Verified?
         && MayRecord(db.passkeys, db.flights[request].passkey, db.flights[request].counter)
         && LivePasskey(db.passkeys[db.flights[request].passkey], user))
        || (&& e.Consume? && e.request == request && e.reply.Clean? && db.flights[request].Redeeming?
            && Consumable(db.codes, user, e.hash)))
  }

  lemma BecomesCleared(db: Db, e: Event, r: Id)
    requires FlightsOk(db) && r in Step(db, e).flights && Step(db, e).flights[r].Cleared?
    ensures var f := Step(db, e).flights[r];
            (r in db.flights && db.flights[r] == f) || Proves(db, e, r, f.user, f.session)
  {
    if InFlight(e) {
      CallClears(db, e, r);
    } else {
      NewRequest(db, e, r);
      hide Step;
    }
  }

  lemma CallClears(db: Db, e: Event, r: Id)
    requires InFlight(e) && FlightsOk(db) && r in Step(db, e).flights && Step(db, e).flights[r].Cleared?
    ensures var f := Step(db, e).flights[r];
            (r in db.flights && db.flights[r] == f) || Proves(db, e, r, f.user, f.session)
  {
    hide StepIssue, StepFind, StepVerify, StepRecord, StepConsume, StepPromote, Proves, FlightsOk;
    if e.Record? { RecordClears(db, e, r); }
    if e.Consume? { ConsumeClears(db, e, r); }
  }

  lemma RecordClears(db: Db, e: Event, r: Id)
    requires e.Record? && FlightsOk(db)
    requires var d := StepRecord(db, e.request, e.reply); r in d.flights && d.flights[r].Cleared?
    ensures var f := StepRecord(db, e.request, e.reply).flights[r];
            (r in db.flights && db.flights[r] == f) || Proves(db, e, r, f.user, f.session)
  {
    if r in db.flights { assert FlightOk(db, db.flights[r]); }
  }

  lemma ConsumeClears(db: Db, e: Event, r: Id)
    requires e.Consume?
    requires var d := StepConsume(db, e.request, e.hash, e.reply); r in d.flights && d.flights[r].Cleared?
    ensures var f := StepConsume(db, e.request, e.hash, e.reply).flights[r];
            (r in db.flights && db.flights[r] == f) || Proves(db, e, r, f.user, f.session)
  {
    hide Consumable, MarkUsed;
  }

  lemma {:induction false} ClearedHasProof(db: Db, events: seq<Event>, r: Id) returns (a: nat)
    requires Idle(db) && r in After(db, events).flights && After(db, events).flights[r].Cleared?
    ensures a < |events|
    ensures var f := After(db, events).flights[r]; Proves(At(db, events, a), events[a], r, f.user, f.session)
    decreases |events|
  {
    hide Step, Proves, Inv;
    var rest := events[..|events| - 1];
    InvAfter(db, rest);
    OnlyFlights(After(db, rest));
    BecomesCleared(After(db, rest), events[|events| - 1], r);
    if r in After(db, rest).flights && After(db, rest).flights[r] == After(db, events).flights[r] {
      a := ClearedHasProof(db, rest, r);
      assert rest[..a] == events[..a];
    } else {
      a := |events| - 1;
    }
  }

  lemma OnlyFlights(db: Db)
    requires Inv(db)
    ensures FlightsOk(db)
  {
  }

  /** Only a cleared request of that very session promotes it. */
  lemma PromotionStep(db: Db, e: Event, s: Id)
    requires s in db.sessions && !db.sessions[s].satisfied
    requires s in Step(db, e).sessions && Step(db, e).sessions[s].satisfied
    ensures e.Promote? && e.request in db.flights
    ensures db.flights[e.request].Cleared? && db.flights[e.request].session == s
  {
    if !e.Issue? && !e.Promote? && !e.Logout? {
      StepFrame(db, e);
      hide Step;
    }
  }

  /**
    A session that was not satisfied at step `i` and is at the end was promoted
    by a request that had, for the session's own user, recorded a use of a live
    passkey or redeemed a live recovery code.
   */
  lemma {:induction false} PromotionNeedsProof(db: Db, events: seq<Event>, i: nat, s: Id) returns (a: nat, b: nat)
    requires Idle(db) && i <= |events|
    requires s in At(db, events, i).sessions && !At(db, events, i).sessions[s].satisfied
    requires s in After(db, events).sessions && After(db, events).sessions[s].satisfied
    ensures a < b < |events| && i <= b && events[b].Promote?
    ensures s in At(db, events, b).sessions && !At(db, events, b).sessions[s].satisfied
    ensures Proves(At(db, events, a), events[a], events[b].request, At(db, events, i).sessions[s].user, s)
    decreases |events|
  {
    hide Step, Proves, Inv, Idle;
    var n := |events| - 1;
    assert events[..|events|] == events;
    var rest := events[..n];
    assert rest[..i] == events[..i];
    OwnerStays(db, rest, i, s);
    if After(db, rest).sessions[s].satisfied {
      a, b := PromotionNeedsProof(db, rest, i, s);
      assert rest[..a] == events[..a] && rest[..b] == events[..b];
    } else {
      b := n;
      PromotionStep(After(db, rest), events[n], s);
      var r := events[n].request;
      IdleOpens(db);
      a := ClearedHasProof(db, rest, r);
      assert rest[..a] == events[..a];
      InvAfter(db, rest);
      OnlyFlights(After(db, rest));
      assert FlightOk(After(db, rest), After(db, rest).flights[r]);
    }
  }

  lemma IdleOpens(db: Db)
    requires Idle(db)
    ensures Inv(db) && db.flights == map[]
  {
  }

  /** Sessions are never re-owned; a revoked one never changes again. */
  lemma {:induction false} OwnerStays(db: Db, events: seq<Event>, i: nat, s: Id)
    requires i <= |events| && s in At(db, events, i).sessions
    ensures s in After(db, events).sessions && After(db, events).sessions[s].user == At(db, events, i).sessions[s].user
    ensures At(db, events, i).sessions[s].revoked ==> After(db, events).sessions[s] == At(db, events, i).sessions[s]
    decreases |events|
  {
    hide Step;
    if i == |events| {
      assert events[..i] == events;
    } else {
      var rest := events[..|events| - 1];
      assert rest[..i] == events[..i];
      OwnerStays(db, rest, i, s);
      SessionsStep(After(db, rest), events[|events| - 1]);
    }
  }

  // --------------------------------------------------------------- recovery codes

  /** The event uses up this code of this user. */
  predicate Spends(db: Db, e: Event, user: Id, hash: Hash) {
    && e.Consume? && e.hash == hash && !e.reply.Refused?
    && e.request in db.flights && db.flights[e.request].Redeeming? && db.flights[e.request].user == user
    && Consumable(db.codes, user, hash)
  }

  /** The event replaces the user's batch. */
  predicate Rotates(db: Db, e: Event, user: Id) {
    && e.Rotate? && e.user == user && !e.reply.Refused? && ActsFor(db, user, e.session)
    && (user in db.users || e.hashes == []) && NewCodes(db.codes, user, e.hashes).Some?
  }

  lemma LiveStep(db: Db, e: Event, user: Id)
    requires HashesUnique(db.codes)
    ensures LiveHashes(Step(db, e).codes, user) ==
      if Rotates(db, e, user) then (set h | h in e.hashes)
      else if e.Consume? && Spends(db, e, user, e.hash) then LiveHashes(db.codes, user) - {e.hash}
      else LiveHashes(db.codes, user)
  {
    if e.Rotate? {
      hide NewCodes, LiveHashes, HashesUnique;
      RotationIs(db.codes, e.user, e.hashes);
    } else if e.Consume? {
      hide MarkUsed, LiveHashes, HashesUnique;
      if e.request in db.flights { MarkUsedIs(db.codes, db.flights[e.request].user, e.hash); }
    } else {
      StepFrame(db, e);
      hide Step;
    }
  }

  /** Codes of the user spent by the events from `a` up to `b`. */
  function Spent(db: Db, events: seq<Event>, a: nat, b: nat, user: Id): set<Hash>
    requires a <= b <= |events|
  {
    if a == b then {}
    else
      var e := events[b - 1];
      Spent(db, events, a, b - 1, user)
        + if e.Consume? && Spends(At(db, events, b - 1), e, user, e.hash) then {e.hash} else {}
  }

  /**
    From one rotation to the next, the redeemable codes of a user are exactly
    the batch without the codes spent since.
   */
  lemma {:induction false} BatchLife(db: Db, events: seq<Event>, a: nat, b: nat, user: Id)
    requires Inv(db) && a < b <= |events| && Rotates(At(db, events, a), events[a], user)
    requires forall c :: a < c < b ==> !Rotates(At(db, events, c), events[c], user)
    ensures LiveHashes(At(db, events, b).codes, user) == (set h | h in events[a].hashes) - Spent(db, events, a + 1, b, user)
    decreases b
  {
    hide Step, After, Inv, LiveHashes, Rotates, Spends;
    InvAfter(db, events[..b - 1]);
    OnlyHashes(At(db, events, b - 1));
    AtNext(db, events, b - 1);
    LiveStep(At(db, events, b - 1), events[b - 1], user);
    if a < b - 1 {
      BatchLife(db, events, a, b - 1, user);
    }
  }

  lemma OnlyHashes(db: Db)
    requires Inv(db)
    ensures HashesUnique(db.codes)
  {
  }

  /** So a code redeems exactly when it is of the current batch and was not spent since. */
  lemma CodeWorksIff(db: Db, events: seq<Event>, a: nat, b: nat, user: Id, hash: Hash)
    requires Inv(db) && a < b <= |events| && Rotates(At(db, events, a), events[a], user)
    requires forall c :: a < c < b ==> !Rotates(At(db, events, c), events[c], user)
    ensures Consumable(At(db, events, b).codes, user, hash) <==>
              hash in events[a].hashes && hash !in Spent(db, events, a + 1, b, user)
  {
    hide After, Inv, Consumable, LiveHashes, Rotates, Spends, Spent;
    BatchLife(db, events, a, b, user);
    ConsumableIs(At(db, events, b).codes, user, hash);
  }

  lemma {:induction false} SpentStays(db: Db, events: seq<Event>, a: nat, b: nat, user: Id, hash: Hash)
    requires Inv(db) && a < b <= |events| && Spends(At(db, events, a), events[a], user, hash)
    requires forall c :: a < c < b ==> !Rotates(At(db, events, c), events[c], user)
    ensures hash !in LiveHashes(At(db, events, b).codes, user)
    decreases b
  {
    hide Step, After, Inv, LiveHashes, Rotates;
    InvAfter(db, events[..b - 1]);
    OnlyHashes(At(db, events, b - 1));
    AtNext(db, events, b - 1);
    LiveStep(At(db, events, b - 1), events[b - 1], user);
    if a < b - 1 {
      SpentStays(db, events, a, b - 1, user, hash);
    } else {
      SpendIsNoRotation(At(db, events, a), events[a], user, hash);
    }
  }

  lemma SpendIsNoRotation(db: Db, e: Event, user: Id, hash: Hash)
    requires Spends(db, e, user, hash)
    ensures e.Consume? && e.hash == hash && !Rotates(db, e, user)
  {
  }

  /** The same code is spent twice only with a rotation of that user's batch in between. */
  lemma CodeSpendsOncePerBatch(db: Db, events: seq<Event>, a: nat, b: nat, user: Id, hash: Hash)
    requires Inv(db) && a < b < |events|
    requires Spends(At(db, events, a), events[a], user, hash) && Spends(At(db, events, b), events[b], user, hash)
    ensures exists c :: a < c < b && Rotates(At(db, events, c), events[c], user)
  {
    hide After, Inv, LiveHashes, Rotates, Consumable;
    if forall c :: a < c < b ==> !Rotates(At(db, events, c), events[c], user) {
      SpentStays(db, events, a, b, user, hash);
      ConsumableIs(At(db, events, b).codes, user, hash);
    }
  }

  // -------------------------------------------------------------------- passkeys

  /** Whatever happens between two moments, no passkey counts down, changes hands or comes back. */
  lemma {:induction false} PasskeysNeverGoBack(db: Db, events: seq<Event>, a: nat, b: nat)
    requires a <= b <= |events|
    ensures PasskeysOnward(At(db, events, a).passkeys, At(db, events, b).passkeys)
    decreases b
  {
    hide Step, After;
    if a < b {
      PasskeysNeverGoBack(db, events, a, b - 1);
      AtNext(db, events, b - 1);
      PasskeysStep(At(db, events, b - 1), events[b - 1]);
    }
  }

  /** The event records a use of this passkey. */
  predicate Uses(db: Db, e: Event, passkey: Id) {
    && e.Record? && !e.reply.Refused? && e.request in db.flights && db.flights[e.request].Verified?
    && db.flights[e.request].passkey == passkey && MayRecord(db.passkeys, passkey, db.flights[e.request].counter)
  }

  lemma UseCounts(db: Db, e: Event, passkey: Id)
    requires Uses(db, e, passkey)
    ensures passkey in db.passkeys && passkey in Step(db, e).passkeys && !db.passkeys[passkey].revoked
    ensures Step(db, e).passkeys[passkey].counter == db.flights[e.request].counter
    ensures db.passkeys[passkey].counter != 0 ==> Step(db, e).passkeys[passkey].counter > db.passkeys[passkey].counter
  {
  }

  /** Once a use left a non-zero counter, every later use leaves a larger one. */
  lemma LaterUsesCountUp(db: Db, events: seq<Event>, a: nat, b: nat, passkey: Id)
    requires a < b < |events|
    requires Uses(At(db, events, a), events[a], passkey) && Uses(At(db, events, b), events[b], passkey)
    requires At(db, events, a).flights[events[a].request].counter != 0
    ensures At(db, events, b).flights[events[b].request].counter > At(db, events, a).flights[events[a].request].counter
  {
    hide Step, After;
    UseCounts(At(db, events, a), events[a], passkey);
    AtNext(db, events, a);
    PasskeysNeverGoBack(db, events, a + 1, b);
    UseCounts(At(db, events, b), events[b], passkey);
  }
}
