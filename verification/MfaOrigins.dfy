/**
  Where the factor behind a promotion came from. Registering a passkey and
  rotating recovery codes ask for a session, not for a satisfied one.
 */
module MfaOrigins {
  import opened Environment
  import opened MfaModel
  import opened MfaProofs
  import opened MfaTraces

  datatype Factor = Key(passkey: Id) | Recovery(hash: Hash)

  /** What a proving event rests on. */
  function FactorOf(db: Db, e: Event): Factor
    requires e.Record? || e.Consume?
    requires e.Record? ==> e.request in db.flights && db.flights[e.request].Verified?
  {
    if e.Record? then Key(db.flights[e.request].passkey) else Recovery(e.hash)
  }

  /** The user could use it now. */
  ghost predicate Available(db: Db, user: Id, f: Factor) {
    match f
    case Key(passkey) => passkey in db.passkeys && LivePasskey(db.passkeys[passkey], user)
    case Recovery(hash) => hash in LiveHashes(db.codes, user)
  }

  /** The event brings the factor in. */
  ghost predicate Introduces(db: Db, e: Event, user: Id, f: Factor) {
    match f
    case Key(passkey) => e.Enrol? && e.user == user && e.passkey == passkey && passkey !in db.passkeys
                         && passkey in Step(db, e).passkeys
    case Recovery(hash) => Rotates(db, e, user) && hash in e.hashes
  }

  predicate Satisfied(db: Db, session: Id) { session in db.sessions && db.sessions[session].satisfied }

  lemma KeyBefore(db: Db, e: Event, user: Id, passkey: Id)
    requires Available(Step(db, e), user, Key(passkey))
    ensures Available(db, user, Key(passkey)) || Introduces(db, e, user, Key(passkey))
  {
    PasskeysStep(db, e);
    if passkey !in db.passkeys {
      if e.Enrol? {
        hide CredentialTaken;
      } else {
        NoNewKey(db, e, passkey);
      }
    } else {
      hide Step;
    }
  }

  lemma NoNewKey(db: Db, e: Event, passkey: Id)
    requires !e.Enrol? && passkey !in db.passkeys
    ensures passkey !in Step(db, e).passkeys
  {
    if e.Unenrol? {
      hide LivePasskeys;
    } else if e.Record? {
      RecordFrame(db, e);
      hide Step;
    } else {
      StepFrame(db, e);
      hide Step;
    }
  }

  /** A factor that can be used after an event could be used before it, or the event brought it in. */
  lemma AvailableBefore(db: Db, e: Event, user: Id, f: Factor)
    requires HashesUnique(db.codes) && Available(Step(db, e), user, f)
    ensures Available(db, user, f) || Introduces(db, e, user, f)
  {
    match f
    case Key(passkey) => KeyBefore(db, e, user, passkey);
    case Recovery(hash) =>
      LiveStep(db, e, user);
      hide Step, LiveHashes, Rotates;
  }

  /** The last event from `i` up to `a` that brought the factor in. */
  ghost predicate LastIntroduced(db: Db, events: seq<Event>, i: nat, a: nat, c: nat, user: Id, f: Factor)
    requires i <= a <= |events|
  {
    && i <= c < a && Introduces(At(db, events, c), events[c], user, f)
    && forall k :: c < k < a ==> !Introduces(At(db, events, k), events[k], user, f)
  }

  ghost predicate NotIntroduced(db: Db, events: seq<Event>, i: nat, a: nat, user: Id, f: Factor)
    requires i <= a <= |events|
  {
    forall k :: i <= k < a ==> !Introduces(At(db, events, k), events[k], user, f)
  }

  /** Either it was there at step `i` and nothing brought it in since, or there is a last event that did. */
  lemma {:induction false} FactorOrigin(db: Db, events: seq<Event>, i: nat, a: nat, user: Id, f: Factor) returns (c: Option<nat>)
    requires Inv(db) && i <= a <= |events| && Available(At(db, events, a), user, f)
    ensures c.None? ==> Available(At(db, events, i), user, f) && NotIntroduced(db, events, i, a, user, f)
    ensures c.Some? ==> LastIntroduced(db, events, i, a, c.value, user, f)
    decreases a
  {
    hide Step, After, Inv, Available, Introduces;
    if i == a {
      c := None;
    } else {
      AtNext(db, events, a - 1);
      InvAfter(db, events[..a - 1]);
      OnlyHashes(At(db, events, a - 1));
      AvailableBefore(At(db, events, a - 1), events[a - 1], user, f);
      if Introduces(At(db, events, a - 1), events[a - 1], user, f) {
        c := Some(a - 1);
      } else {
        c := FactorOrigin(db, events, i, a - 1, user, f);
      }
    }
  }

  /** The factor was there at step `i`, or a satisfied session of the user brought it in after. */
  ghost predicate Backed(db: Db, events: seq<Event>, i: nat, a: nat, user: Id, f: Factor)
    requires i <= a <= |events|
  {
    || (Available(At(db, events, i), user, f) && NotIntroduced(db, events, i, a, user, f))
    || exists c: nat :: LastIntroduced(db, events, i, a, c, user, f) && Satisfied(At(db, events, c), events[c].session)
  }

  /** The factor in use was brought in after step `i` without a satisfied session. */
  ghost predicate SelfMade(db: Db, events: seq<Event>, i: nat, a: nat, user: Id, f: Factor)
    requires i <= a <= |events|
  {
    exists c: nat :: LastIntroduced(db, events, i, a, c, user, f) && !Satisfied(At(db, events, c), events[c].session)
  }

  lemma IntroducedOnce(db: Db, events: seq<Event>, i: nat, a: nat, c: nat, d: nat, user: Id, f: Factor)
    requires i <= a <= |events|
    requires LastIntroduced(db, events, i, a, c, user, f) && LastIntroduced(db, events, i, a, d, user, f)
    ensures c == d
  {
    hide Introduces, At;
  }

  lemma BackedUnlessSelfMade(db: Db, events: seq<Event>, i: nat, a: nat, user: Id, f: Factor)
    requires Inv(db) && i <= a <= |events| && Available(At(db, events, a), user, f)
    ensures Backed(db, events, i, a, user, f) <==> !SelfMade(db, events, i, a, user, f)
  {
    hide Introduces, At, Available, Satisfied, Inv;
    var c := FactorOrigin(db, events, i, a, user, f);
    if c.Some? {
      forall d: nat | LastIntroduced(db, events, i, a, d, user, f) ensures d == c.value {
        IntroducedOnce(db, events, i, a, c.value, d, user, f);
      }
    }
  }

  /** A proving event rests on a factor its user can use at that moment. */
  lemma ProofIsAvailable(db: Db, e: Event, request: Id, user: Id, session: Id)
    requires Proves(db, e, request, user, session)
    ensures e.Record? || e.Consume?
    ensures e.Record? ==> e.request in db.flights && db.flights[e.request].Verified?
    ensures Available(db, user, FactorOf(db, e))
  {
    if e.Consume? { ConsumableIs(db.codes, user, e.hash); }
  }

  /** A request cannot work for a session that does not exist yet. */
  lemma ProofComesAfterIssue(db: Db, events: seq<Event>, i: nat, a: nat, request: Id, user: Id, s: Id)
    requires Inv(db) && 0 < i <= |events| && a < |events| && s !in At(db, events, i - 1).sessions
    requires Proves(At(db, events, a), events[a], request, user, s) && s != NIL
    ensures i <= a
  {
    hide Step, After, Inv;
    InvAfter(db, events[..a]);
    OnlyFlights(At(db, events, a));
    assert FlightOk(At(db, events, a), At(db, events, a).flights[request]);
    if a < i {
      assert events[..i - 1][..a] == events[..a];
      OwnerStays(db, events[..i - 1], a, s);
    }
  }

  /**
    Every promotion of a session that was not satisfied at step `i` rests on a
    factor that was there at step `i` or that a satisfied session brought in, if
    and only if that factor was not brought in since without a satisfied session.
   */
  lemma PromotionIsBackedIff(db: Db, events: seq<Event>, i: nat, s: Id) returns (a: nat, b: nat)
    requires Idle(db) && i <= |events|
    requires s in At(db, events, i).sessions && !At(db, events, i).sessions[s].satisfied
    requires s in After(db, events).sessions && After(db, events).sessions[s].satisfied
    ensures a < b < |events| && i <= b && events[b].Promote?
    ensures Proves(At(db, events, a), events[a], events[b].request, At(db, events, i).sessions[s].user, s)
    ensures events[a].Record? || events[a].Consume?
    ensures i > 0 && s !in At(db, events, i - 1).sessions ==> i <= a
    ensures i <= a ==>
      var user, f := At(db, events, i).sessions[s].user, FactorOf(At(db, events, a), events[a]);
      Backed(db, events, i, a, user, f) <==> !SelfMade(db, events, i, a, user, f)
  {
    hide After, Inv, Backed, SelfMade, Available;
    a, b := PromotionNeedsProof(db, events, i, s);
    InvAfterIdle(db, events[..i]);
    var user := At(db, events, i).sessions[s].user;
    ProofIsAvailable(At(db, events, a), events[a], events[b].request, user, s);
    IdleOpens(db);
    if i > 0 && s !in At(db, events, i - 1).sessions { ProofComesAfterIssue(db, events, i, a, events[b].request, user, s); }
    if i <= a { BackedUnlessSelfMade(db, events, i, a, user, FactorOf(At(db, events, a), events[a])); }
  }

  // ------------------------------------------------------------------ rooted chains

  /** No registration or rotation for the user took effect from `i` up to `n` without a satisfied session. */
  ghost predicate Supervised(db: Db, events: seq<Event>, i: nat, n: nat, user: Id)
    requires n <= |events|
  {
    forall c, f :: i <= c < n && Introduces(At(db, events, c), events[c], user, f) ==> Satisfied(At(db, events, c), events[c].session)
  }

  predicate IssuedSatisfied(db: Db, e: Event, s: Id) {
    s !in db.sessions && Satisfied(Step(db, e), s)
  }

  /** The request of event `b` promotes the session on the proof of event `a`. */
  ghost predicate PromotedBy(db: Db, events: seq<Event>, a: nat, b: nat, user: Id, s: Id)
    requires a < b < |events|
  {
    events[b].Promote? && Proves(At(db, events, a), events[a], events[b].request, user, s)
  }

  /** The factor was there at step `i`, or a trusted session brought it in. */
  ghost predicate Rooted(db: Db, events: seq<Event>, i: nat, a: nat, user: Id, f: Factor)
    requires i <= a <= |events|
    decreases a
  {
    || (Available(At(db, events, i), user, f) && NotIntroduced(db, events, i, a, user, f))
    || exists c: nat :: LastIntroduced(db, events, i, a, c, user, f) && Trusted(db, events, i, c, user, events[c].session)
  }

  /** The session was satisfied at step `i`, or issued satisfied since, or promoted on a rooted factor. */
  ghost predicate Trusted(db: Db, events: seq<Event>, i: nat, c: nat, user: Id, s: Id)
    requires i <= c <= |events|
    decreases c
  {
    || Satisfied(At(db, events, i), s)
    || (exists k: nat :: i <= k < c && IssuedSatisfied(At(db, events, k), events[k], s))
    || (exists a: nat, b: nat :: a < b < c && PromotedBy(db, events, a, b, user, s)
          && (a < i || Rooted(db, events, i, a, user, FactorOf(At(db, events, a), events[a]))))
  }

  lemma IntroducerActs(db: Db, e: Event, user: Id, f: Factor)
    requires Introduces(db, e, user, f)
    ensures (e.Enrol? || e.Rotate?) && ActsFor(db, user, e.session)
  {
    hide CredentialTaken, NewCodes;
  }

  lemma AtPrefix(db: Db, events: seq<Event>, c: nat, j: nat)
    requires j <= c <= |events|
    ensures At(db, events[..c], j) == At(db, events, j)
  {
    hide After;
    assert events[..c][..j] == events[..j];
  }

  /** The step at which a session appears. */
  lemma {:induction false} FirstSeen(db: Db, events: seq<Event>, i: nat, c: nat, s: Id) returns (k: nat)
    requires i <= c <= |events| && s !in At(db, events, i).sessions && s in At(db, events, c).sessions
    ensures i <= k < c && s !in At(db, events, k).sessions && s in At(db, events, k + 1).sessions
    decreases c
  {
    hide After;
    if s in At(db, events, c - 1).sessions { k := FirstSeen(db, events, i, c - 1, s); } else { k := c - 1; }
  }

  lemma SupervisedEarlier(db: Db, events: seq<Event>, i: nat, m: nat, n: nat, user: Id)
    requires m <= n <= |events| && Supervised(db, events, i, n, user)
    ensures Supervised(db, events, i, m, user)
  {
    hide At, Introduces;
  }

  lemma {:induction false} RootedFactor(db: Db, events: seq<Event>, i: nat, a: nat, user: Id, f: Factor)
    requires Idle(db) && i <= a <= |events| && Available(At(db, events, a), user, f) && Supervised(db, events, i, a, user)
    ensures Rooted(db, events, i, a, user, f)
    decreases a, 2
  {
    hide After, Inv, Available, Introduces, Trusted;
    IdleOpens(db);
    var o := FactorOrigin(db, events, i, a, user, f);
    if o.Some? {
      var c := o.value;
      IntroducerActs(At(db, events, c), events[c], user, f);
      var x := events[c].session;
      InvAfterIdle(db, events[..c]);
      SupervisedEarlier(db, events, i, c, a, user);
      TrustedSession(db, events, i, c, user, x);
    }
  }

  lemma {:induction false} TrustedSession(db: Db, events: seq<Event>, i: nat, c: nat, user: Id, x: Id)
    requires Idle(db) && i <= c <= |events| && Supervised(db, events, i, c, user)
    requires Satisfied(At(db, events, c), x) && At(db, events, c).sessions[x].user == user
    ensures Trusted(db, events, i, c, user, x)
    decreases c, 1
  {
    hide At, Idle, Supervised, Trusted, Step;
    if Satisfied(At(db, events, i), x) {
      TrustedFromTheStart(db, events, i, c, user, x);
    } else if x in At(db, events, i).sessions {
      PromotedSession(db, events, i, i, c, user, x);
    } else {
      var k := FirstSeen(db, events, i, c, x);
      AtNext(db, events, k);
      if Satisfied(At(db, events, k + 1), x) {
        TrustedAsIssued(db, events, i, k, c, user, x);
      } else {
        PromotedSession(db, events, i, k + 1, c, user, x);
      }
    }
  }

  lemma TrustedFromTheStart(db: Db, events: seq<Event>, i: nat, c: nat, user: Id, x: Id)
    requires i <= c <= |events| && Satisfied(At(db, events, i), x)
    ensures Trusted(db, events, i, c, user, x)
  {
    hide At, PromotedBy, Rooted, IssuedSatisfied;
  }

  lemma TrustedAsIssued(db: Db, events: seq<Event>, i: nat, k: nat, c: nat, user: Id, x: Id)
    requires i <= k < c <= |events| && IssuedSatisfied(At(db, events, k), events[k], x)
    ensures Trusted(db, events, i, c, user, x)
  {
    hide At, PromotedBy, Rooted, IssuedSatisfied;
  }

  /** A session not satisfied at `j` and satisfied at `c` was promoted in between, on a rooted factor. */
  lemma {:induction false} PromotedSession(db: Db, events: seq<Event>, i: nat, j: nat, c: nat, user: Id, x: Id)
    requires Idle(db) && i <= j <= c <= |events| && Supervised(db, events, i, c, user)
    requires x in At(db, events, j).sessions && !At(db, events, j).sessions[x].satisfied
    requires Satisfied(At(db, events, c), x) && At(db, events, c).sessions[x].user == user
    ensures Trusted(db, events, i, c, user, x)
    decreases c, 0
  {
    hide After, Inv, Supervised, Proves, Available, Rooted;
    AtPrefix(db, events, c, j);
    OwnerStays(db, events[..c], j, x);
    var a, b := PromotionNeedsProof(db, events[..c], j, x);
    AtPrefix(db, events, c, a);
    assert events[..c][a] == events[a] && events[..c][b] == events[b];
    assert PromotedBy(db, events, a, b, user, x);
    ProofIsAvailable(At(db, events, a), events[a], events[b].request, user, x);
    if i <= a {
      SupervisedEarlier(db, events, i, a, c, user);
      RootedFactor(db, events, i, a, user, FactorOf(At(db, events, a), events[a]));
    }
  }

  /**
    If from step `i` on every registration and rotation for the user came from a
    satisfied session, then every later promotion rests on a proof from before
    `i` or on a chain of factors and sessions that ends in a factor available at
    `i` or a session that was satisfied at `i` or issued satisfied.
   */
  lemma PromotionIsRooted(db: Db, events: seq<Event>, i: nat, s: Id) returns (a: nat, b: nat)
    requires Idle(db) && i <= |events|
    requires s in At(db, events, i).sessions && !At(db, events, i).sessions[s].satisfied
    requires s in After(db, events).sessions && After(db, events).sessions[s].satisfied
    requires Supervised(db, events, i, |events|, At(db, events, i).sessions[s].user)
    ensures a < b < |events| && i <= b && PromotedBy(db, events, a, b, At(db, events, i).sessions[s].user, s)
    ensures i <= a ==>
      Rooted(db, events, i, a, At(db, events, i).sessions[s].user, FactorOf(At(db, events, a), events[a]))
  {
    hide After, Inv, Proves, Available, Rooted, Supervised;
    a, b := PromotionNeedsProof(db, events, i, s);
    var user := At(db, events, i).sessions[s].user;
    ProofIsAvailable(At(db, events, a), events[a], events[b].request, user, s);
    if i <= a {
      SupervisedEarlier(db, events, i, a, |events|, user);
      RootedFactor(db, events, i, a, user, FactorOf(At(db, events, a), events[a]));
    }
  }

  lemma InvAfterIdle(db: Db, events: seq<Event>)
    requires Idle(db)
    ensures NIL !in After(db, events).sessions
  {
    hide After;
    InvAfter(db, events);
    OnlyFlights(After(db, events));
  }

  // ----------------------------------------------------------- a factor of one's own

  /** Rotate, redeem, promote: any live session of a known user, satisfied or not, can do so. */
  function OwnFactor(user: Id, s: Id, r: Id, hash: Hash): seq<Event> {
    [Rotate(user, s, [hash], Clean), BeginRedeem(r, s), Consume(r, hash, Clean), Promote(r, Clean)]
  }

  lemma RotateOne(db: Db, user: Id, s: Id, hash: Hash)
    requires HashesUnique(db.codes) && user in db.users && ActsFor(db, user, s)
    requires forall c :: c in db.codes && c.user != user && !c.used ==> c.hash != hash
    ensures var d := Step(db, Rotate(user, s, [hash], Clean));
            d == db.(codes := d.codes) && Consumable(d.codes, user, hash) && Rotates(db, Rotate(user, s, [hash], Clean), user)
  {
    hide NewCodes, LiveHashes, Consumable, HashesUnique;
    RotationIs(db.codes, user, [hash]);
    var d := Step(db, Rotate(user, s, [hash], Clean));
    assert hash in [hash];
    ConsumableIs(d.codes, user, hash);
  }

  lemma RedeemOwn(db: Db, user: Id, s: Id, r: Id, hash: Hash)
    requires Resolvable(db, s) && s != NIL && db.sessions[s].user == user && r !in db.flights && Consumable(db.codes, user, hash)
    ensures var d := Step(Step(Step(db, BeginRedeem(r, s)), Consume(r, hash, Clean)), Promote(r, Clean));
            s in d.sessions && d.sessions[s].satisfied
  {
    hide Consumable, MarkUsed;
    var d1 := Step(db, BeginRedeem(r, s));
    assert d1 == db.(flights := db.flights[r := Redeeming(user, s)]);
    var d2 := Step(d1, Consume(r, hash, Clean));
    assert r in d2.flights && d2.flights[r] == Cleared(user, s) && d2.sessions == db.sessions;
  }

  /**
    From every consistent state a partial session can become satisfied on a code
    it made itself, as long as nobody else holds that code.
   */
  lemma PartialSessionCanPromoteItself(db: Db, s: Id, r: Id, hash: Hash)
    requires Inv(db) && Resolvable(db, s) && !db.sessions[s].satisfied && db.sessions[s].user in db.users && r !in db.flights
    requires forall c :: c in db.codes && c.user != db.sessions[s].user && !c.used ==> c.hash != hash
    ensures var events := OwnFactor(db.sessions[s].user, s, r, hash);
            && s in After(db, events).sessions && After(db, events).sessions[s].satisfied
            && SelfMade(db, events, 0, 2, db.sessions[s].user, Recovery(hash))
  {
    var user := db.sessions[s].user;
    var events := OwnFactor(user, s, r, hash);
    OnlyHashes(db);
    OnlyFlights(db);
    hide Inv, Step, Resolvable, Consumable;
    FourSteps(db, events);
    RotateOne(db, user, s, hash);
    var d := Step(db, events[0]);
    StillResolvable(db, d, s);
    RedeemOwn(d, user, s, r, hash);
    OwnCodeIsSelfMade(db, user, s, r, hash);
  }

  lemma StillResolvable(db: Db, d: Db, s: Id)
    requires Resolvable(db, s) && d == db.(codes := d.codes)
    ensures Resolvable(d, s)
  {
  }

  lemma FourSteps(db: Db, events: seq<Event>)
    requires |events| == 4
    ensures At(db, events, 0) == db && At(db, events, 1) == Step(db, events[0])
    ensures After(db, events) == Step(Step(Step(Step(db, events[0]), events[1]), events[2]), events[3])
  {
    hide Step, After;
    AtNext(db, events, 0);
    AtNext(db, events, 1);
    AtNext(db, events, 2);
    AtNext(db, events, 3);
    assert events[..0] == [] && events[..4] == events;
    NoEvents(db);
  }

  lemma NoEvents(db: Db)
    ensures After(db, []) == db
  {
  }

  lemma OwnCodeIsSelfMade(db: Db, user: Id, s: Id, r: Id, hash: Hash)
    requires s in db.sessions && !db.sessions[s].satisfied && Rotates(db, Rotate(user, s, [hash], Clean), user)
    ensures SelfMade(db, OwnFactor(user, s, r, hash), 0, 2, user, Recovery(hash))
  {
    var events := OwnFactor(user, s, r, hash);
    FourSteps(db, events);
    hide Step, After, NewCodes;
    assert hash in [hash];
    assert Introduces(At(db, events, 0), events[0], user, Recovery(hash));
    assert !Introduces(At(db, events, 1), events[1], user, Recovery(hash));
    assert LastIntroduced(db, events, 0, 2, 0, user, Recovery(hash));
  }
}
