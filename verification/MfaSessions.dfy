/**
  The life of a session, read off the events alone: when it exists, what a
  logout ends, and how long it resolves.
 */
module MfaSessions {
  import opened MfaModel
  import opened MfaProofs
  import opened MfaTraces

  // ------------------------------------------------------------------ one step

  /** A login that was decided is answered with this session. */
  predicate Issues(db: Db, e: Event, s: Id) {
    && e.Issue? && e.session == s && !e.reply.Refused? && s != 0 && s !in db.sessions
    && e.request in db.flights && db.flights[e.request].LoggingIn? && db.flights[e.request].user in db.users
  }

  /** A logout of this session that reached the database. */
  predicate LogsOut(e: Event, s: Id) { e.Logout? && e.session == s && !e.reply.Refused? }

  /** A request that proved a second factor promotes this session. */
  predicate Promotes(db: Db, e: Event, s: Id) {
    && e.Promote? && !e.reply.Refused? && s != 0 && s in db.sessions && !db.sessions[s].revoked
    && e.request in db.flights && db.flights[e.request].Cleared? && db.flights[e.request].session == s
  }

  /** What one event does to one session. */
  lemma SessionStep(db: Db, e: Event, s: Id)
    ensures var d := Step(db, e);
            && (s in d.sessions <==> s in db.sessions || Issues(db, e, s))
            && (Issues(db, e, s) ==>
                  d.sessions[s] == Session(db.flights[e.request].user, !db.flights[e.request].partial, false, db.now + 2_592_000))
            && (s in db.sessions ==>
                  var now := db.sessions[s];
                  d.sessions[s] == now.(revoked := now.revoked || LogsOut(e, s),
                                        satisfied := now.satisfied || Promotes(db, e, s)))
  {
    if !e.Issue? && !e.Promote? && !e.Logout? {
      StepFrame(db, e);
      hide Step;
    }
  }

  // --------------------------------------------------------------------- logout

  /** Once issued, a session is revoked exactly when it was already, or a logout reached it since. */
  lemma {:induction false} RevokedIff(db: Db, events: seq<Event>, a: nat, b: nat, s: Id)
    requires a <= b <= |events| && s in At(db, events, a).sessions
    ensures s in At(db, events, b).sessions
    ensures At(db, events, b).sessions[s].revoked <==>
              At(db, events, a).sessions[s].revoked || exists c :: a <= c < b && LogsOut(events[c], s)
    decreases b
  {
    hide Step, After;
    if a < b {
      RevokedIff(db, events, a, b - 1, s);
      AtNext(db, events, b - 1);
      SessionStep(At(db, events, b - 1), events[b - 1], s);
    }
  }

  /** No event of this session starts a request. */
  ghost predicate Dead(db: Db, s: Id) {
    && !Resolvable(db, s)
    && (forall user :: MfaStateOf(db, user, s) != Enrolled)
    && (forall r :: Step(db, BeginAssert(r, s)) == db && Step(db, BeginRedeem(r, s)) == db)
  }

  lemma RevokedIsDead(db: Db, s: Id)
    requires s in db.sessions && db.sessions[s].revoked
    ensures Dead(db, s)
  {
  }

  /**
    A logout that reached the database ends the session for good: it resolves at
    no later step, never counts as enrolled, and starts no request.
   */
  lemma LogoutEnds(db: Db, events: seq<Event>, a: nat, b: nat, s: Id)
    requires a < b <= |events| && LogsOut(events[a], s) && s in At(db, events, a).sessions
    ensures Dead(At(db, events, b), s)
  {
    hide After, Dead;
    RevokedIff(db, events, a, b, s);
    RevokedIsDead(At(db, events, b), s);
  }

  // -------------------------------------------------------------------- lifetime

  /** The seconds that pass from step `a` to step `b`. */
  function Elapsed(events: seq<Event>, a: nat, b: nat): nat
    requires a <= b <= |events|
  {
    if a == b then 0 else Elapsed(events, a, b - 1) + if events[b - 1].Elapse? then events[b - 1].seconds else 0
  }

  lemma ClockStep(db: Db, e: Event)
    ensures Step(db, e).now == db.now + if e.Elapse? then e.seconds else 0
  {
    hide LivePasskeys, CredentialTaken, NewCodes, SyncRequiresMfa, FindByCredential, MayRecord, Consumable, Resolvable;
  }

  lemma {:induction false} ClockIs(db: Db, events: seq<Event>, a: nat, b: nat)
    requires a <= b <= |events|
    ensures At(db, events, b).now == At(db, events, a).now + Elapsed(events, a, b)
    decreases b
  {
    hide Step, After;
    if a < b {
      ClockIs(db, events, a, b - 1);
      AtNext(db, events, b - 1);
      ClockStep(At(db, events, b - 1), events[b - 1]);
    }
  }

  /** Owner and expiry of a session that was there at step `a`. */
  lemma {:induction false} SessionKeeps(db: Db, events: seq<Event>, a: nat, b: nat, s: Id)
    requires a <= b <= |events| && s in At(db, events, a).sessions
    ensures s in At(db, events, b).sessions
    ensures At(db, events, b).sessions[s].user == At(db, events, a).sessions[s].user
    ensures At(db, events, b).sessions[s].expiresAt == At(db, events, a).sessions[s].expiresAt
    decreases b
  {
    hide Step, After;
    if a < b {
      SessionKeeps(db, events, a, b - 1, s);
      AtNext(db, events, b - 1);
      SessionStep(At(db, events, b - 1), events[b - 1], s);
    }
  }

  lemma {:induction false} IssuedOnce(db: Db, events: seq<Event>, b: nat, s: Id) returns (a: nat)
    requires db.sessions == map[] && b <= |events| && s in At(db, events, b).sessions
    ensures a < b && Issues(At(db, events, a), events[a], s)
    decreases b
  {
    hide Step, After, Issues;
    AtStart(db, events);
    AtNext(db, events, b - 1);
    SessionStep(At(db, events, b - 1), events[b - 1], s);
    if s in At(db, events, b - 1).sessions {
      a := IssuedOnce(db, events, b - 1, s);
    } else {
      a := b - 1;
    }
  }

  /** Step `a` issued the session, no logout reached it before step `b`, and less than 30 days passed. */
  ghost predicate Current(db: Db, events: seq<Event>, a: nat, b: nat, s: Id)
    requires b <= |events|
  {
    && a < b && Issues(At(db, events, a), events[a], s)
    && (forall c :: a < c < b ==> !LogsOut(events[c], s))
    && Elapsed(events, a + 1, b) < 30 * 24 * 60 * 60
  }

  lemma CurrentIff(db: Db, events: seq<Event>, a: nat, b: nat, s: Id)
    requires a < b <= |events| && Issues(At(db, events, a), events[a], s)
    ensures Resolvable(At(db, events, b), s) <==> Current(db, events, a, b, s)
    ensures s in At(db, events, b).sessions
    ensures At(db, events, b).sessions[s].user == At(db, events, a).flights[events[a].request].user
  {
    hide Step, After;
    AtNext(db, events, a);
    SessionStep(At(db, events, a), events[a], s);
    ClockStep(At(db, events, a), events[a]);
    RevokedIff(db, events, a + 1, b, s);
    SessionKeeps(db, events, a + 1, b, s);
    ClockIs(db, events, a + 1, b);
  }

  /**
    From an empty table a session resolves if and only if it was issued, was not
    logged out since, and is younger than 30 days.
   */
  lemma ResolvableIff(db: Db, events: seq<Event>, b: nat, s: Id)
    requires db.sessions == map[] && b <= |events|
    ensures Resolvable(At(db, events, b), s) <==> exists a :: Current(db, events, a, b, s)
  {
    hide After, Resolvable;
    if Resolvable(At(db, events, b), s) {
      ResolvableExists(At(db, events, b), s);
      var a := IssuedOnce(db, events, b, s);
      CurrentIff(db, events, a, b, s);
    }
    if a :| Current(db, events, a, b, s) {
      CurrentIff(db, events, a, b, s);
    }
  }

  lemma ResolvableExists(db: Db, s: Id)
    requires Resolvable(db, s)
    ensures s in db.sessions
  {
  }

  // ----------------------------------------------------------------- satisfaction

  /**
    A session is satisfied if and only if it already was, or a request that
    proved a second factor for it promoted it before any logout.
   */
  lemma {:induction false} SatisfiedIff(db: Db, events: seq<Event>, a: nat, b: nat, s: Id)
    requires a <= b <= |events| && s in At(db, events, a).sessions
    ensures s in At(db, events, b).sessions
    ensures At(db, events, b).sessions[s].satisfied <==>
              || At(db, events, a).sessions[s].satisfied
              || exists c :: a <= c < b && Promotes(At(db, events, c), events[c], s)
    decreases b
  {
    hide Step, After, Promotes;
    if a < b {
      SatisfiedIff(db, events, a, b - 1, s);
      AtNext(db, events, b - 1);
      SessionStep(At(db, events, b - 1), events[b - 1], s);
    }
  }
}
