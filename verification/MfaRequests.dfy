/** Where every request in flight stands: what each event starts, moves on or ends. */
module MfaRequests {
  import opened Environment
  import opened MfaModel
  import opened MfaProofs

  /** The request the event belongs to, if it belongs to one. */
  function RequestOf(e: Event): Option<Id> {
    match e
    case Decide(r, _) => Some(r)
    case Issue(r, _, _) => Some(r)
    case BeginAssert(r, _) => Some(r)
    case BeginRedeem(r, _) => Some(r)
    case HeaderActor(r, _, _) => Some(r)
    case Find(r, _) => Some(r)
    case Verify(r, _) => Some(r)
    case Record(r, _) => Some(r)
    case Consume(r, _, _) => Some(r)
    case Promote(r, _) => Some(r)
    case Drop(r) => Some(r)
    case _ => None
  }

  function FlightOf(db: Db, r: Id): Option<Flight> { if r in db.flights then Some(db.flights[r]) else None }

  /** How a request starts; a session that does not resolve starts none. */
  function Started(db: Db, e: Event): Option<Flight> {
    match e
    case Decide(_, user) => Some(LoggingIn(user, user in db.users && db.users[user].requiresMfa && db.users[user].mfaEnrolled))
    case BeginAssert(_, s) => if Resolvable(db, s) then Some(Asserting(db.sessions[s].user, s)) else None
    case BeginRedeem(_, s) => if Resolvable(db, s) then Some(Redeeming(db.sessions[s].user, s)) else None
    case HeaderActor(_, user, redeem) => Some(if redeem then Redeeming(user, 0) else Asserting(user, 0))
    case _ => None
  }

  /** The event is the next call of a request at this stage. */
  predicate Fits(e: Event, f: Flight) {
    match e
    case Issue(_, _, _) => f.LoggingIn?
    case Find(_, _) => f.Asserting?
    case Verify(_, _) => f.Matched?
    case Record(_, _) => f.Verified?
    case Consume(_, _, _) => f.Redeeming?
    case Promote(_, _) => f.Cleared?
    case _ => false
  }

  /** A live passkey of the user with this credential. */
  predicate Owns(db: Db, user: Id, credential: string, k: Id) {
    k in db.passkeys && !db.passkeys[k].revoked && db.passkeys[k].user == user && db.passkeys[k].credential == credential
  }

  lemma TablesKeepFlights(db: Db, e: Event)
    requires RequestOf(e).None?
    ensures Step(db, e).flights == db.flights
  {
    hide LivePasskeys, CredentialTaken, NewCodes, SyncRequiresMfa, Seen, ActsFor;
  }

  lemma ReadingCallsKeepOthers(db: Db, e: Event, r: Id)
    requires (e.Issue? || e.Find? || e.Verify?) && RequestOf(e) != Some(r)
    ensures FlightOf(Step(db, e), r) == FlightOf(db, r)
  {
    hide FindByCredential, StepRecord, StepConsume, StepPromote;
  }

  lemma WritingCallsKeepOthers(db: Db, e: Event, r: Id)
    requires (e.Record? || e.Consume? || e.Promote?) && RequestOf(e) != Some(r)
    ensures FlightOf(Step(db, e), r) == FlightOf(db, r)
  {
    hide RecordUse, TryConsume, MarkMfaSatisfied;
    if e.request in db.flights {
      var f := db.flights[e.request];
      if e.Record? && f.Verified? { UseKeepsFlights(db, f.passkey, f.counter, e.reply); }
      if e.Consume? && f.Redeeming? { ConsumeKeepsFlights(db, f.user, e.hash, e.reply); }
      if e.Promote? && f.Cleared? { PromoteKeepsFlights(db, f.session, e.reply); }
    }
  }

  lemma UseKeepsFlights(db: Db, k: Id, counter: nat, reply: Reply)
    ensures RecordUse(db, k, counter, reply).db.flights == db.flights
  {
  }

  lemma ConsumeKeepsFlights(db: Db, user: Id, hash: Hash, reply: Reply)
    ensures TryConsume(db, user, hash, reply).db.flights == db.flights
  {
  }

  lemma PromoteKeepsFlights(db: Db, session: Id, reply: Reply)
    ensures MarkMfaSatisfied(db, session, reply).db.flights == db.flights
  {
  }

  /** Requests the event does not belong to stay where they are. */
  lemma OthersStay(db: Db, e: Event, r: Id)
    requires RequestOf(e) != Some(r)
    ensures FlightOf(Step(db, e), r) == FlightOf(db, r)
  {
    if RequestOf(e).None? {
      TablesKeepFlights(db, e);
      hide Step;
    } else if InFlight(e) {
      if e.Issue? || e.Find? || e.Verify? { ReadingCallsKeepOthers(db, e, r); } else { WritingCallsKeepOthers(db, e, r); }
      hide Step;
    } else {
      hide Resolvable, RequiresPartialSession;
    }
  }

  /** A request starts when its id is free, and an event that does not fit its stage does not move it. */
  lemma StartsOrStays(db: Db, e: Event, r: Id)
    requires RequestOf(e) == Some(r) && !e.Drop? && (r in db.flights ==> !Fits(e, db.flights[r]))
    ensures FlightOf(Step(db, e), r) == if r in db.flights then Some(db.flights[r]) else Started(db, e)
  {
    hide FindByCredential, MayRecord, Consumable, Resolvable;
  }

  /** A request ends when it is dropped, when a login was answered, and when a promotion was tried. */
  lemma Ends(db: Db, e: Event, r: Id)
    requires RequestOf(e) == Some(r) && (e.Drop? || ((e.Issue? || e.Promote?) && r in db.flights && Fits(e, db.flights[r])))
    ensures FlightOf(Step(db, e), r) == None
  {
    hide FindByCredential, MayRecord, Consumable, Resolvable;
  }

  /**
    An assertion goes on with the passkey that carries the credential, if it is a
    live one of its own user, and the ceremony adds the reported counter.
   */
  lemma AssertionMoves(db: Db, e: Event, r: Id)
    requires CredentialsUnique(db.passkeys) && (e.Find? || e.Verify?) && e.request == r && r in db.flights && Fits(e, db.flights[r])
    ensures var f, next := db.flights[r], FlightOf(Step(db, e), r);
            && (e.Verify? ==> next == Some(Verified(f.user, f.session, f.passkey, e.counter)))
            && (e.Find? ==>
                  && (next.Some? <==> exists k :: Owns(db, f.user, e.credential, k))
                  && forall k :: Owns(db, f.user, e.credential, k) ==> next == Some(Matched(f.user, f.session, k)))
  {
    hide FindByCredential;
    if e.Find? {
      var hit := FindByCredential(db.passkeys, e.credential);
      forall k: Id | Owns(db, db.flights[r].user, e.credential, k) ensures hit == Some(k) {
        assert CredentialTaken(db.passkeys, e.credential);
      }
      if hit.Some? && db.passkeys[hit.value].user == db.flights[r].user {
        assert Owns(db, db.flights[r].user, e.credential, hit.value);
      }
    }
  }

  /** A redemption is cleared exactly when its user has that code unused and the reply is clean. */
  lemma RedemptionMoves(db: Db, e: Event, r: Id)
    requires e.Consume? && e.request == r && r in db.flights && db.flights[r].Redeeming?
    ensures var f := db.flights[r];
            FlightOf(Step(db, e), r) ==
              if e.reply == Clean && Code(f.user, e.hash, false) in db.codes then Some(Cleared(f.user, f.session)) else None
  {
  }
}
