/**
  The repositories and the two promotion handlers as they execute, on tables
  that are updated in place. Each method is proved to take the step, or the
  uninterrupted sequence of steps, that `MfaModel` describes.
 */
module MfaStore {
  import opened Environment
  import opened MfaModel

  class MfaDatabase {
    var users: map<Id, User>
    var memberships: map<Id, Membership>
    var passkeys: map<Id, Passkey>
    var codes: seq<Code>
    var sessions: map<Id, Session>
    var now: int

    constructor (db: Db)
      ensures State(db.flights) == db
    {
      users, memberships, passkeys := db.users, db.memberships, db.passkeys;
      codes, sessions, now := db.codes, db.sessions, db.now;
    }

    /** The tables, with the other requests in flight. */
    function State(flights: map<Id, Flight>): Db
      reads this
    {
      Db(users, memberships, passkeys, codes, sessions, flights, now)
    }

    method Insert(user: Id, id: Id, credential: string, reply: Reply) returns (ok: bool)
      modifies this
      ensures forall fl :: Out(ok, State(fl)) == InsertPasskey(old(State(fl)), user, id, credential, reply)
    {
      if user !in users || id in passkeys || CredentialTaken(passkeys, credential) { return false; }
      if !reply.Refused? {
        passkeys := passkeys[id := Passkey(user, credential, 0, false)];
        users := users[user := users[user].(mfaEnrolled := true)];
      }
      ok := reply.Clean?;
    }

    method Record(id: Id, counter: nat, reply: Reply) returns (ok: bool)
      modifies this
      ensures forall fl :: Out(ok, State(fl)) == RecordUse(old(State(fl)), id, counter, reply)
    {
      if id !in passkeys || passkeys[id].revoked { return false; }
      if !(counter > passkeys[id].counter || passkeys[id].counter == 0) { return false; }
      if !reply.Refused? { passkeys := passkeys[id := passkeys[id].(counter := counter)]; }
      ok := reply.Clean?;
    }

    method Revoke(user: Id, id: Id, reply: Reply) returns (ok: bool)
      modifies this
      ensures forall fl :: Out(ok, State(fl)) == RevokePasskey(old(State(fl)), user, id, reply)
    {
      if id !in passkeys || passkeys[id].user != user || passkeys[id].revoked { return false; }
      var tx := passkeys[id := passkeys[id].(revoked := true)];
      var liveRemaining := |LivePasskeys(tx, user)|;
      if !reply.Refused? {
        passkeys := tx;
        if liveRemaining == 0 && user in users {
          users := users[user := users[user].(mfaEnrolled := false)];
        }
      }
      ok := reply.Clean?;
    }

    method Rotate(user: Id, hashes: seq<Hash>, reply: Reply) returns (ok: bool)
      modifies this
      ensures forall fl :: Out(ok, State(fl)) == RotateBatch(old(State(fl)), user, hashes, reply)
    {
      if user !in users && hashes != [] { return false; }
      var tx := WithoutUser(codes, user);
      for i := 0 to |hashes|
        invariant NewCodes(old(codes), user, hashes) == InsertCodes(tx, user, hashes[i..])
        invariant State(map[]) == old(State(map[]))
      {
        assert hashes[i..][1..] == hashes[i + 1..];
        if HashTaken(tx, hashes[i]) { return false; }
        tx := tx + [Code(user, hashes[i], false)];
      }
      if !reply.Refused? { codes := tx; }
      ok := reply.Clean?;
    }

    method Consume(user: Id, hash: Hash, reply: Reply) returns (ok: bool)
      modifies this
      ensures forall fl :: Out(ok, State(fl)) == TryConsume(old(State(fl)), user, hash, reply)
    {
      if !Consumable(codes, user, hash) { return false; }
      if !reply.Refused? { codes := MarkUsed(codes, user, hash); }
      ok := reply.Clean?;
    }

    method MarkSatisfied(session: Id, reply: Reply) returns (ok: bool)
      modifies this
      ensures forall fl :: Out(ok, State(fl)) == MarkMfaSatisfied(old(State(fl)), session, reply)
    {
      if !reply.Refused? && session in sessions && !sessions[session].revoked {
        sessions := sessions[session := sessions[session].(satisfied := true)];
      }
      ok := reply.Clean?;
    }

    /** `assert_finish`: resolve, find, verify, record, promote; `verdict` is the ceremony's counter if it accepts. */
    method AssertFinish(session: Id, credential: string, verdict: Option<nat>, record: Reply, promote: Reply)
      returns (ok: bool)
      modifies this
      ensures forall fl ::
        Out(ok, State(fl)) == AssertTables(old(State(fl)), session, credential, verdict, record, promote)
    {
      hide FindByCredential, RecordUse, MarkMfaSatisfied;
      if session == NIL || session !in sessions || sessions[session].revoked || sessions[session].expiresAt <= now {
        return false;
      }
      var user := sessions[session].user;
      var hit := FindByCredential(passkeys, credential);
      if hit.None? || passkeys[hit.value].user != user || verdict.None? { return false; }
      ok := Record(hit.value, verdict.value, record);
      if !ok { return; }
      ok := MarkSatisfied(session, promote);
    }

    /** `recovery_redeem`: resolve, consume, promote. */
    method Redeem(session: Id, hash: Hash, consume: Reply, promote: Reply) returns (ok: bool)
      modifies this
      ensures forall fl :: Out(ok, State(fl)) == RedeemTables(old(State(fl)), session, hash, consume, promote)
    {
      hide TryConsume, MarkMfaSatisfied;
      if session == NIL || session !in sessions || sessions[session].revoked || sessions[session].expiresAt <= now {
        return false;
      }
      ok := Consume(sessions[session].user, hash, consume);
      if !ok { return; }
      ok := MarkSatisfied(session, promote);
    }
  }

  /** What an `assert_finish` that nothing interrupts does to the tables. */
  function AssertTables(db: Db, session: Id, credential: string, verdict: Option<nat>, record: Reply, promote: Reply): Out {
    if session == NIL || !Resolvable(db, session) then Out(false, db)
    else
      var hit := FindByCredential(db.passkeys, credential);
      if hit.None? || db.passkeys[hit.value].user != db.sessions[session].user || verdict.None? then Out(false, db)
      else
        var recorded := RecordUse(db, hit.value, verdict.value, record);
        if !recorded.ok then recorded else MarkMfaSatisfied(recorded.db, session, promote)
  }

  function RedeemTables(db: Db, session: Id, hash: Hash, consume: Reply, promote: Reply): Out {
    if session == NIL || !Resolvable(db, session) then Out(false, db)
    else
      var consumed := TryConsume(db, db.sessions[session].user, hash, consume);
      if !consumed.ok then consumed else MarkMfaSatisfied(consumed.db, session, promote)
  }

  lemma LaunchLand(flights: map<Id, Flight>, r: Id, f: Flight)
    requires r !in flights
    ensures flights[r := f] - {r} == flights && flights - {r} == flights
  {
  }

  /** The handler is its five steps in a row. */
  lemma AssertIsItsSteps(db: Db, r: Id, session: Id, credential: string, counter: nat, record: Reply, promote: Reply)
    requires r !in db.flights && session != NIL
    ensures AssertTables(db, session, credential, Some(counter), record, promote).db ==
      StepPromote(StepRecord(StepVerify(StepFind(Step(db, BeginAssert(r, session)), r, credential), r, counter), r, record), r, promote)
  {
    hide StepFind, StepVerify, StepRecord, StepPromote, RecordUse, MarkMfaSatisfied, FindByCredential;
    if !Resolvable(db, session) {
      NoSuchAssertion(db, r, credential, counter, record, promote);
    } else {
      var user := db.sessions[session].user;
      assert Step(db, BeginAssert(r, session)) == db.(flights := db.flights[r := Asserting(user, session)]);
      FindThenVerify(db, r, user, session, credential, counter, record, promote);
      var hit := FindByCredential(db.passkeys, credential);
      if hit.Some? && db.passkeys[hit.value].user == user {
        RecordThenPromote(db, r, user, session, hit.value, counter, record, promote);
      }
    }
  }

  lemma NoSuchAssertion(db: Db, r: Id, credential: string, counter: nat, record: Reply, promote: Reply)
    requires r !in db.flights
    ensures StepPromote(StepRecord(StepVerify(StepFind(db, r, credential), r, counter), r, record), r, promote) == db
  {
  }

  lemma FindThenVerify(db: Db, r: Id, user: Id, session: Id, credential: string, counter: nat, record: Reply, promote: Reply)
    requires r !in db.flights
    ensures var hit := FindByCredential(db.passkeys, credential);
            var begun := db.(flights := db.flights[r := Asserting(user, session)]);
            var d := StepVerify(StepFind(begun, r, credential), r, counter);
            if hit.Some? && db.passkeys[hit.value].user == user
            then d == db.(flights := db.flights[r := Verified(user, session, hit.value, counter)])
            else StepPromote(StepRecord(d, r, record), r, promote) == db
  {
    hide FindByCredential, RecordUse, MarkMfaSatisfied;
    var fl, hit := db.flights, FindByCredential(db.passkeys, credential);
    LaunchLand(fl, r, Asserting(user, session));
    var begun: map<Id, Flight> := fl[r := Asserting(user, session)];
    if hit.Some? && db.passkeys[hit.value].user == user {
      var matched: map<Id, Flight> := begun[r := Matched(user, session, hit.value)];
      assert matched[r := Verified(user, session, hit.value, counter)] == fl[r := Verified(user, session, hit.value, counter)];
    } else {
      NoSuchAssertion(db, r, credential, counter, record, promote);
    }
  }

  /** A cleared request promotes and leaves; a request that is gone does nothing. */
  lemma PromoteAndLeave(db: Db, fl: map<Id, Flight>, r: Id, user: Id, session: Id, promote: Reply)
    requires r !in fl && session != NIL
    ensures StepPromote(db.(flights := fl[r := Cleared(user, session)]), r, promote) ==
              MarkMfaSatisfied(db.(flights := fl), session, promote).db
    ensures StepPromote(db.(flights := fl), r, promote) == db.(flights := fl)
  {
    LaunchLand(fl, r, Cleared(user, session));
  }

  lemma RecordThenPromote(db: Db, r: Id, user: Id, session: Id, passkey: Id, counter: nat, record: Reply, promote: Reply)
    requires r !in db.flights && session != NIL
    ensures var d := db.(flights := db.flights[r := Verified(user, session, passkey, counter)]);
            var recorded := RecordUse(db, passkey, counter, record);
            StepPromote(StepRecord(d, r, record), r, promote) ==
              if recorded.ok then MarkMfaSatisfied(recorded.db, session, promote).db else recorded.db
  {
    hide MayRecord, StepPromote, MarkMfaSatisfied;
    var fl := db.flights;
    var recorded := RecordUse(db, passkey, counter, record);
    LaunchLand(fl, r, Verified(user, session, passkey, counter));
    var verified: map<Id, Flight> := fl[r := Verified(user, session, passkey, counter)];
    assert verified[r := Cleared(user, session)] == fl[r := Cleared(user, session)];
    assert recorded.db.(flights := fl) == recorded.db;
    PromoteAndLeave(recorded.db, fl, r, user, session, promote);
  }

  /** And redeeming is its three. */
  lemma RedeemIsItsSteps(db: Db, r: Id, session: Id, hash: Hash, consume: Reply, promote: Reply)
    requires r !in db.flights && session != NIL
    ensures RedeemTables(db, session, hash, consume, promote).db ==
      StepPromote(StepConsume(Step(db, BeginRedeem(r, session)), r, hash, consume), r, promote)
  {
    hide TryConsume, MarkMfaSatisfied, StepConsume, StepPromote;
    if !Resolvable(db, session) {
      NoSuchRequest(db, r, hash, consume, promote);
    } else {
      var user, fl := db.sessions[session].user, db.flights;
      assert Step(db, BeginRedeem(r, session)) == db.(flights := fl[r := Redeeming(user, session)]);
      ConsumeThenPromote(db, r, user, session, hash, consume, promote);
    }
  }

  lemma NoSuchRequest(db: Db, r: Id, hash: Hash, consume: Reply, promote: Reply)
    requires r !in db.flights
    ensures StepPromote(StepConsume(db, r, hash, consume), r, promote) == db
  {
  }

  lemma ConsumeThenPromote(db: Db, r: Id, user: Id, session: Id, hash: Hash, consume: Reply, promote: Reply)
    requires r !in db.flights && session != NIL
    ensures var d := db.(flights := db.flights[r := Redeeming(user, session)]);
            var consumed := TryConsume(db, user, hash, consume);
            StepPromote(StepConsume(d, r, hash, consume), r, promote) ==
              if consumed.ok then MarkMfaSatisfied(consumed.db, session, promote).db else consumed.db
  {
    hide Consumable, MarkUsed, StepPromote, MarkMfaSatisfied;
    var fl := db.flights;
    var consumed := TryConsume(db, user, hash, consume);
    LaunchLand(fl, r, Redeeming(user, session));
    var begun: map<Id, Flight> := fl[r := Redeeming(user, session)];
    assert begun[r := Cleared(user, session)] == fl[r := Cleared(user, session)];
    assert consumed.db.(flights := fl) == consumed.db;
    PromoteAndLeave(consumed.db, fl, r, user, session, promote);
  }
}
