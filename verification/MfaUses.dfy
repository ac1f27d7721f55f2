/**
  The life of a passkey, read off the events: when a reported use is recorded
  and clears its request, and when a second factor satisfies a session at all.
 */
module MfaUses {
  import opened Environment
  import opened MfaModel
  import opened MfaProofs
  import opened MfaTraces
  import opened MfaStore

  // ------------------------------------------------------------------- one step

  /** The event enrols this passkey: a known user, a new id, a credential no live passkey has. */
  predicate Enrols(db: Db, e: Event, k: Id) {
    && e.Enrol? && e.passkey == k && !e.reply.Refused? && ActsFor(db, e.user, e.session)
    && e.user in db.users && k !in db.passkeys
    && forall i :: i in db.passkeys && !db.passkeys[i].revoked ==> db.passkeys[i].credential != e.credential
  }

  /** The event revokes this passkey of its own user. */
  predicate Unenrols(db: Db, e: Event, k: Id) {
    && e.Unenrol? && e.passkey == k && !e.reply.Refused? && ActsFor(db, e.user, e.session)
    && k in db.passkeys && db.passkeys[k].user == e.user
  }

  /** A verified request reports a use of this passkey to the database. */
  predicate Reports(db: Db, e: Event, k: Id) {
    && e.Record? && !e.reply.Refused? && e.request in db.flights && db.flights[e.request].Verified?
    && db.flights[e.request].passkey == k
  }

  function Reported(db: Db, e: Event): nat {
    if e.Record? && e.request in db.flights && db.flights[e.request].Verified? then db.flights[e.request].counter else 0
  }

  /** What a passkey's counter is after a report, from what it was. */
  function Counted(before: nat, reported: nat): nat {
    if before == 0 || reported > before then reported else before
  }

  /** What one event does to one passkey. */
  lemma PasskeyStep(db: Db, e: Event, k: Id)
    ensures var d := Step(db, e);
            && (k in d.passkeys <==> k in db.passkeys || Enrols(db, e, k))
            && (Enrols(db, e, k) ==> d.passkeys[k] == Passkey(e.user, e.credential, 0, false))
            && (k in db.passkeys ==>
                  var now := db.passkeys[k];
                  d.passkeys[k] == now.(revoked := now.revoked || Unenrols(db, e, k),
                                        counter := if Reports(db, e, k) && !now.revoked then Counted(now.counter, Reported(db, e))
                                                   else now.counter))
  {
    if e.Enrol? {
      EnrolStep(db, e, k);
    } else if e.Unenrol? {
      UnenrolStep(db, e, k);
    } else if e.Record? {
      ReportStep(db, e, k);
    } else {
      StepFrame(db, e);
    }
    hide Step;
  }

  lemma EnrolStep(db: Db, e: Event, k: Id)
    requires e.Enrol?
    ensures var d := Step(db, e);
            && (k in d.passkeys <==> k in db.passkeys || Enrols(db, e, k))
            && (Enrols(db, e, k) ==> d.passkeys[k] == Passkey(e.user, e.credential, 0, false))
            && (k in db.passkeys ==> d.passkeys[k] == db.passkeys[k])
  {
    hide ActsFor;
  }

  lemma UnenrolStep(db: Db, e: Event, k: Id)
    requires e.Unenrol?
    ensures var d := Step(db, e);
            && d.passkeys.Keys == db.passkeys.Keys
            && (k in db.passkeys ==>
                  d.passkeys[k] == db.passkeys[k].(revoked := db.passkeys[k].revoked || Unenrols(db, e, k)))
  {
    hide ActsFor, LivePasskeys;
  }

  lemma ReportStep(db: Db, e: Event, k: Id)
    requires e.Record?
    ensures var d := Step(db, e);
            && d.passkeys.Keys == db.passkeys.Keys
            && (k in db.passkeys ==>
                  d.passkeys[k] == if Reports(db, e, k) && !db.passkeys[k].revoked
                                   then db.passkeys[k].(counter := Counted(db.passkeys[k].counter, Reported(db, e)))
                                   else db.passkeys[k])
  {
  }

  // --------------------------------------------------------------- counters over runs

  ghost predicate Usable(db: Db, k: Id) { k in db.passkeys && !db.passkeys[k].revoked }

  /** The counter that the reports up to step `b` left the passkey. */
  ghost function Left(db: Db, events: seq<Event>, b: nat, k: Id): nat
    requires b <= |events|
  {
    if b == 0 then (if k in db.passkeys then db.passkeys[k].counter else 0)
    else
      var before, e, prev := At(db, events, b - 1), events[b - 1], Left(db, events, b - 1, k);
      if Reports(before, e, k) && Usable(before, k) then Counted(prev, Reported(before, e)) else prev
  }

  lemma {:induction false} LeftIsStored(db: Db, events: seq<Event>, b: nat, k: Id)
    requires b <= |events|
    ensures Left(db, events, b, k) == if k in At(db, events, b).passkeys then At(db, events, b).passkeys[k].counter else 0
    decreases b
  {
    if b == 0 {
      assert events[..0] == [];
    } else {
      hide Step, After, Reports, Enrols, Unenrols;
      LeftIsStored(db, events, b - 1, k);
      AtNext(db, events, b - 1);
      PasskeyStep(At(db, events, b - 1), events[b - 1], k);
    }
  }

  lemma {:induction false} LeftOnlyGrows(db: Db, events: seq<Event>, a: nat, b: nat, k: Id)
    requires a <= b <= |events|
    ensures Left(db, events, a, k) <= Left(db, events, b, k)
    decreases b
  {
    hide At, Reports;
    if a < b { LeftOnlyGrows(db, events, a, b - 1, k); }
  }

  /** A counter other than the first one was reported by some earlier event. */
  lemma {:induction false} LeftWasReported(db: Db, events: seq<Event>, a: nat, b: nat, k: Id)
    requires a <= b <= |events| && Left(db, events, b, k) != Left(db, events, a, k)
    ensures exists c :: a <= c < b && Reports(At(db, events, c), events[c], k)
                        && Reported(At(db, events, c), events[c]) == Left(db, events, b, k)
    decreases b
  {
    hide At, Reports;
    if a < b && Left(db, events, b, k) == Left(db, events, b - 1, k) {
      LeftWasReported(db, events, a, b - 1, k);
    }
  }

  /** No step up to `b` left this passkey a counter above 0. */
  ghost predicate NeverCounted(db: Db, events: seq<Event>, b: nat, k: Id)
    requires b <= |events|
  {
    forall c :: 0 <= c <= b ==> Left(db, events, c, k) == 0
  }

  /** The request stands verified for this passkey, with this counter. */
  predicate Waits(db: Db, r: Id, user: Id, session: Id, k: Id, n: nat) {
    r in db.flights && db.flights[r] == Verified(user, session, k, n)
  }

  /**
    Over every run: a verified request is cleared by a clean record if and only if
    its passkey is not revoked at that step and either no earlier step left it a
    counter, or the reported counter is greater than the last one left. Then the
    reported counter is stored; otherwise the request ends and nothing is stored.
   */
  lemma UseClearsIff(db: Db, events: seq<Event>, b: nat, r: Id, user: Id, session: Id, k: Id, n: nat)
    requires b < |events| && events[b] == Record(r, Clean) && Waits(At(db, events, b), r, user, session, k, n)
    ensures var before, after := At(db, events, b), At(db, events, b + 1);
            if Usable(before, k) && (NeverCounted(db, events, b, k) || n > Left(db, events, b, k)) then
              && after.flights == before.flights[r := Cleared(user, session)]
              && Left(db, events, b + 1, k) == n && after.passkeys == before.passkeys[k := before.passkeys[k].(counter := n)]
            else
              after.flights == before.flights - {r} && after.passkeys == before.passkeys
  {
    hide Step, After;
    LeftIsStored(db, events, b, k);
    LeftIsStored(db, events, b + 1, k);
    forall c | 0 <= c <= b ensures Left(db, events, c, k) <= Left(db, events, b, k) { LeftOnlyGrows(db, events, c, b, k); }
    assert NeverCounted(db, events, b, k) <==> Left(db, events, b, k) == 0;
    AtNext(db, events, b);
    RecordIs(At(db, events, b), r, user, session, k, n);
  }

  lemma RecordIs(db: Db, r: Id, user: Id, session: Id, k: Id, n: nat)
    requires Waits(db, r, user, session, k, n)
    ensures var d := Step(db, Record(r, Clean));
            if Usable(db, k) && (db.passkeys[k].counter == 0 || n > db.passkeys[k].counter) then
              d.flights == db.flights[r := Cleared(user, session)] && d.passkeys == db.passkeys[k := db.passkeys[k].(counter := n)]
            else
              d.flights == db.flights - {r} && d.passkeys == db.passkeys
  {
  }

  /** An authenticator that only ever reports 0 clears every assertion until its passkey is revoked. */
  lemma ZeroCounterAlwaysClears(db: Db, events: seq<Event>, a: nat, b: nat, r: Id, user: Id, session: Id, k: Id)
    requires a <= b < |events| && Left(db, events, a, k) == 0
    requires forall c :: a <= c < b && Reports(At(db, events, c), events[c], k) ==> Reported(At(db, events, c), events[c]) == 0
    requires events[b] == Record(r, Clean) && Waits(At(db, events, b), r, user, session, k, 0)
    ensures Usable(At(db, events, b), k) <==>
              r in At(db, events, b + 1).flights && At(db, events, b + 1).flights[r] == Cleared(user, session)
  {
    hide Step, After, Reports;
    if Left(db, events, b, k) != 0 { LeftWasReported(db, events, a, b, k); }
    forall c | 0 <= c <= b ensures Left(db, events, c, k) == 0 { LeftOnlyGrows(db, events, c, b, k); }
    UseClearsIff(db, events, b, r, user, session, k, 0);
  }

  lemma NewPasskeyStartsAtZero(db: Db, events: seq<Event>, a: nat, k: Id)
    requires a < |events| && Enrols(At(db, events, a), events[a], k)
    ensures Left(db, events, a + 1, k) == 0 && Usable(At(db, events, a + 1), k)
  {
    hide Step, After;
    AtNext(db, events, a);
    PasskeyStep(At(db, events, a), events[a], k);
    LeftIsStored(db, events, a + 1, k);
  }

  /** An enrolled passkey is usable exactly until its user revokes it. */
  lemma {:induction false} UsableIff(db: Db, events: seq<Event>, a: nat, b: nat, k: Id)
    requires a <= b <= |events| && Usable(At(db, events, a), k)
    ensures Usable(At(db, events, b), k) <==> forall c :: a <= c < b ==> !Unenrols(At(db, events, c), events[c], k)
    ensures k in At(db, events, b).passkeys
    decreases b
  {
    hide Step, After, Unenrols, Enrols, Reports;
    if a < b {
      UsableIff(db, events, a, b - 1, k);
      AtNext(db, events, b - 1);
      PasskeyStep(At(db, events, b - 1), events[b - 1], k);
    }
  }

  // ------------------------------------------------------------- whole requests

  /** A live passkey of this user with this credential, to which this counter is new. */
  predicate Accepts(db: Db, k: Id, user: Id, credential: string, counter: nat) {
    && k in db.passkeys && !db.passkeys[k].revoked && db.passkeys[k].user == user && db.passkeys[k].credential == credential
    && (db.passkeys[k].counter == 0 || counter > db.passkeys[k].counter)
  }

  predicate Alive(db: Db, s: Id) {
    s in db.sessions && !db.sessions[s].revoked && db.sessions[s].expiresAt > db.now
  }

  function Promoted(db: Db, s: Id): map<Id, Session>
    requires s in db.sessions
  {
    db.sessions[s := db.sessions[s].(satisfied := true)]
  }

  /** `FindByCredential` finds the only live passkey with that credential. */
  lemma FoundIs(passkeys: map<Id, Passkey>, credential: string, k: Id)
    requires CredentialsUnique(passkeys) && k in passkeys && !passkeys[k].revoked && passkeys[k].credential == credential
    ensures FindByCredential(passkeys, credential) == Some(k)
  {
    assert CredentialTaken(passkeys, credential);
  }

  /**
    An assertion that nothing interrupts succeeds if and only if the session is
    alive and its user has a live passkey with that credential to which the
    reported counter is new or which never counted. It then satisfies that session
    and stores that counter; otherwise it changes nothing.
   */
  lemma AssertionSucceedsIff(db: Db, s: Id, credential: string, counter: nat)
    requires Inv(db)
    ensures var out := AssertTables(db, s, credential, Some(counter), Clean, Clean);
            && (out.ok <==> Alive(db, s) && exists k :: Accepts(db, k, db.sessions[s].user, credential, counter))
            && (!out.ok ==> out.db == db)
            && (forall k :: Alive(db, s) && Accepts(db, k, db.sessions[s].user, credential, counter) ==>
                  out.db == db.(sessions := Promoted(db, s), passkeys := db.passkeys[k := db.passkeys[k].(counter := counter)]))
  {
    if Alive(db, s) {
      var user := db.sessions[s].user;
      hide FindByCredential, EnrolmentInStep, PolicyInStep, HashesUnique;
      forall k: Id | Accepts(db, k, user, credential, counter) ensures FindByCredential(db.passkeys, credential) == Some(k) {
        FoundIs(db.passkeys, credential, k);
      }
      var hit := FindByCredential(db.passkeys, credential);
      if hit.Some? {
        assert RecordUse(db, hit.value, counter, Clean).ok && db.passkeys[hit.value].user == user ==>
            Accepts(db, hit.value, user, credential, counter);
      }
    }
  }

  /**
    A redemption that nothing interrupts succeeds if and only if the session is
    alive and its user has that code unused. It then satisfies that session and
    uses up exactly that code.
   */
  lemma RedemptionSucceedsIff(db: Db, s: Id, hash: Hash)
    requires Inv(db)
    ensures var out := RedeemTables(db, s, hash, Clean, Clean);
            && (out.ok <==> Alive(db, s) && Code(db.sessions[s].user, hash, false) in db.codes)
            && (!out.ok ==> out.db == db)
            && (out.ok ==> out.db == db.(sessions := Promoted(db, s), codes := out.db.codes)
                           && |out.db.codes| == |db.codes|
                           && forall i :: 0 <= i < |db.codes| ==>
                                out.db.codes[i] == if db.codes[i] == Code(db.sessions[s].user, hash, false)
                                                   then Code(db.sessions[s].user, hash, true) else db.codes[i])
  {
    hide EnrolmentInStep, PolicyInStep, HashesUnique, CredentialsUnique;
  }

  /** A login of a known user under a new session id: who owns the session, whether it is satisfied, and until when. */
  lemma LoginIssues(db: Db, r: Id, user: Id, s: Id)
    requires r !in db.flights
    ensures var d := Step(Step(db, Decide(r, user)), Issue(r, s, Clean));
            d == if user in db.users && s != 0 && s !in db.sessions
                 then db.(sessions := db.sessions[s := Session(user, !(db.users[user].requiresMfa && db.users[user].mfaEnrolled),
                                                               false, db.now + 2_592_000)])
                 else db
  {
    LaunchLand(db.flights, r, LoggingIn(user, RequiresPartialSession(db, user)));
  }
}
