/** What every interleaving of requests keeps. */
module MfaProofs {
  import opened Environment
  import opened MfaModel

  // -------------------------------------------------------------------- lockstep

  /** The state bit: enrolled means a live passkey exists. */
  ghost predicate EnrolmentInStep(users: map<Id, User>, passkeys: map<Id, Passkey>) {
    && (forall id :: id in passkeys ==> passkeys[id].user in users)
    && (forall u :: u in users ==> (users[u].mfaEnrolled <==> LivePasskeys(passkeys, u) != {}))
  }

  /** The policy bit is never set without a live Owner or Admin membership; when it is set, `MfaSignIn` says. */
  ghost predicate PolicyInStep(users: map<Id, User>, memberships: map<Id, Membership>) {
    && (forall id :: id in memberships ==> memberships[id].user in users)
    && (forall u :: u in users && users[u].requiresMfa ==> HoldsPrivilege(memberships, u))
  }

  ghost predicate CredentialsUnique(passkeys: map<Id, Passkey>) {
    forall i, j ::
      (&& i in passkeys && j in passkeys && !passkeys[i].revoked && !passkeys[j].revoked
       && passkeys[i].credential == passkeys[j].credential)
      ==> i == j
  }

  ghost predicate HashesUnique(codes: seq<Code>) {
    forall i, j :: 0 <= i < j < |codes| && !codes[i].used && !codes[j].used ==> codes[i].hash != codes[j].hash
  }

  /** A request works for the user its session belongs to, on a passkey of that user. */
  predicate FlightOk(db: Db, f: Flight) {
    || f.LoggingIn?
    || (&& (f.session == NIL || (f.session in db.sessions && db.sessions[f.session].user == f.user))
        && (f.Matched? || f.Verified? ==> f.passkey in db.passkeys && db.passkeys[f.passkey].user == f.user))
  }

  ghost predicate FlightsOk(db: Db) {
    && NIL !in db.sessions
    && forall r :: r in db.flights ==> FlightOk(db, db.flights[r])
  }

  ghost predicate Inv(db: Db) {
    && EnrolmentInStep(db.users, db.passkeys)
    && PolicyInStep(db.users, db.memberships)
    && CredentialsUnique(db.passkeys)
    && HashesUnique(db.codes)
    && FlightsOk(db)
  }

  // ------------------------------------------------------------- tables, one by one

  predicate TouchesUsers(e: Event) { e.CreateUser? || e.Write? || e.Remove? || e.Enrol? || e.Unenrol? }

  /** What a step leaves alone. */
  predicate Frame(db: Db, e: Event, d: Db) {
    && (!TouchesUsers(e) ==> d.users == db.users)
    && (!e.Write? && !e.Remove? ==> d.memberships == db.memberships)
    && (!e.Rotate? && !e.Consume? ==> d.codes == db.codes)
    && (!e.Enrol? && !e.Unenrol? && !e.Record? ==> d.passkeys == db.passkeys)
    && (!e.Issue? && !e.Promote? && !e.Logout? ==> d.sessions == db.sessions)
  }

  predicate InFlight(e: Event) { e.Issue? || e.Find? || e.Verify? || e.Record? || e.Consume? || e.Promote? }

  lemma FlightFrame(db: Db, e: Event)
    requires InFlight(e)
    ensures Frame(db, e, Step(db, e))
  {
    hide StepIssue, StepFind, StepVerify, StepRecord, StepConsume, StepPromote;
  }

  lemma WriteFrame(db: Db, e: Event)
    requires TouchesUsers(e)
    ensures Frame(db, e, Step(db, e))
  {
    hide SyncRequiresMfa, LivePasskeys, CredentialTaken;
  }

  lemma OtherFrame(db: Db, e: Event)
    requires !InFlight(e) && !TouchesUsers(e)
    ensures Frame(db, e, Step(db, e))
  {
    hide NewCodes, Resolvable, RequiresPartialSession;
  }

  lemma StepFrame(db: Db, e: Event)
    ensures Frame(db, e, Step(db, e))
  {
    hide Step, Frame;
    if InFlight(e) { FlightFrame(db, e); } else if TouchesUsers(e) { WriteFrame(db, e); } else { OtherFrame(db, e); }
  }

  /** The only change a request in flight makes to passkeys is one counter. */
  lemma RecordFrame(db: Db, e: Event)
    requires e.Record?
    ensures var d := Step(db, e);
            || d.passkeys == db.passkeys
            || (&& e.request in db.flights && db.flights[e.request].Verified?
                && var f := db.flights[e.request];
                   && MayRecord(db.passkeys, f.passkey, f.counter)
                   && d.passkeys == db.passkeys[f.passkey := db.passkeys[f.passkey].(counter := f.counter)])
  {
  }

  lemma EnrolmentStep(db: Db, e: Event)
    requires EnrolmentInStep(db.users, db.passkeys)
    ensures EnrolmentInStep(Step(db, e).users, Step(db, e).passkeys)
  {
    hide Step, EnrolmentInStep;
    if e.Enrol? {
      EnrolKeepsStep(db, e);
    } else if e.Unenrol? {
      UnenrolKeepsStep(db, e);
    } else if e.Record? {
      RecordKeepsStep(db, e);
    } else if TouchesUsers(e) {
      WriteKeepsStep(db, e);
    } else {
      StepFrame(db, e);
    }
  }

  lemma RecordKeepsStep(db: Db, e: Event)
    requires e.Record? && EnrolmentInStep(db.users, db.passkeys)
    ensures EnrolmentInStep(Step(db, e).users, Step(db, e).passkeys)
  {
    StepFrame(db, e);
    RecordFrame(db, e);
    hide Step;
    forall u ensures LivePasskeys(Step(db, e).passkeys, u) == LivePasskeys(db.passkeys, u) {}
  }

  lemma WriteKeepsStep(db: Db, e: Event)
    requires (e.CreateUser? || e.Write? || e.Remove?) && EnrolmentInStep(db.users, db.passkeys)
    ensures EnrolmentInStep(Step(db, e).users, Step(db, e).passkeys)
  {
    hide LivePasskeys, HoldsPrivilege;
    if e.CreateUser? && e.user !in db.users { NoKeysYet(db, e.user); }
  }

  lemma NoKeysYet(db: Db, user: Id)
    requires EnrolmentInStep(db.users, db.passkeys) && user !in db.users
    ensures LivePasskeys(db.passkeys, user) == {}
  {
  }

  lemma EnrolKeepsStep(db: Db, e: Event)
    requires e.Enrol? && EnrolmentInStep(db.users, db.passkeys)
    ensures EnrolmentInStep(Step(db, e).users, Step(db, e).passkeys)
  {
    var d := Step(db, e);
    if d != db {
      assert d.passkeys == db.passkeys[e.passkey := Passkey(e.user, e.credential, 0, false)];
      assert e.passkey in LivePasskeys(d.passkeys, e.user);
      forall u | u != e.user ensures LivePasskeys(d.passkeys, u) == LivePasskeys(db.passkeys, u) {}
    }
  }

  lemma UnenrolKeepsStep(db: Db, e: Event)
    requires e.Unenrol? && EnrolmentInStep(db.users, db.passkeys)
    ensures EnrolmentInStep(Step(db, e).users, Step(db, e).passkeys)
  {
    var d := Step(db, e);
    if d != db {
      assert d.passkeys == db.passkeys[e.passkey := db.passkeys[e.passkey].(revoked := true)];
      forall u | u != e.user ensures LivePasskeys(d.passkeys, u) == LivePasskeys(db.passkeys, u) {}
      assert e.passkey in LivePasskeys(db.passkeys, e.user);
    }
  }

  lemma PolicyStep(db: Db, e: Event)
    requires PolicyInStep(db.users, db.memberships)
    ensures PolicyInStep(Step(db, e).users, Step(db, e).memberships)
  {
    var d := Step(db, e);
    if e.Write? {
      WriteKeepsPolicy(db, e);
    } else if e.Remove? {
      RemoveKeepsPolicy(db, e);
    } else if e.CreateUser? {
    } else if e.Enrol? || e.Unenrol? {
      hide LivePasskeys, HoldsPrivilege, CredentialTaken;
    } else {
      StepFrame(db, e);
      hide Step, HoldsPrivilege;
    }
  }

  lemma OthersKeepPrivilege(a: map<Id, Membership>, b: map<Id, Membership>, id: Id, u: Id)
    requires forall i :: i != id ==> (i in a <==> i in b) && (i in a ==> a[i] == b[i])
    requires id in a ==> !Privileged(a[id], u)
    requires id in b ==> !Privileged(b[id], u)
    ensures HoldsPrivilege(a, u) <==> HoldsPrivilege(b, u)
  {
  }

  /** What a narrower query sees is there. */
  lemma SeenIsThere(memberships: map<Id, Membership>, scope: Scope, user: Id)
    requires HoldsPrivilege(Seen(memberships, scope), user)
    ensures HoldsPrivilege(memberships, user)
  {
    var id :| id in Seen(memberships, scope) && Privileged(Seen(memberships, scope)[id], user);
    assert id in memberships && memberships[id] == Seen(memberships, scope)[id];
  }

  lemma WriteKeepsPolicy(db: Db, e: Event)
    requires e.Write? && PolicyInStep(db.users, db.memberships)
    ensures PolicyInStep(Step(db, e).users, Step(db, e).memberships)
  {
    hide HoldsPrivilege, Seen;
    var d := Step(db, e);
    var rows := db.memberships[e.member := e.row];
    forall u | HoldsPrivilege(Seen(rows, e.scope), u) ensures HoldsPrivilege(rows, u) { SeenIsThere(rows, e.scope, u); }
    forall u | u in db.users && u != e.row.user && (e.member in db.memberships ==> u != db.memberships[e.member].user)
      ensures HoldsPrivilege(rows, u) <==> HoldsPrivilege(db.memberships, u)
    {
      OthersKeepPrivilege(db.memberships, rows, e.member, u);
    }
  }

  lemma RemoveKeepsPolicy(db: Db, e: Event)
    requires e.Remove? && PolicyInStep(db.users, db.memberships)
    ensures PolicyInStep(Step(db, e).users, Step(db, e).memberships)
  {
    hide HoldsPrivilege, Seen;
    if e.member in db.memberships {
      var rows := db.memberships - {e.member};
      forall u | HoldsPrivilege(Seen(rows, e.scope), u) ensures HoldsPrivilege(rows, u) { SeenIsThere(rows, e.scope, u); }
      forall u | u in db.users && u != db.memberships[e.member].user
        ensures HoldsPrivilege(rows, u) <==> HoldsPrivilege(db.memberships, u)
      {
        OthersKeepPrivilege(db.memberships, rows, e.member, u);
      }
    }
  }

  lemma CredentialStep(db: Db, e: Event)
    requires CredentialsUnique(db.passkeys)
    ensures CredentialsUnique(Step(db, e).passkeys)
  {
    if e.Enrol? || e.Unenrol? {
      hide LivePasskeys;
    } else if e.Record? {
      RecordFrame(db, e);
      hide Step;
    } else {
      StepFrame(db, e);
      hide Step;
    }
  }

  // ---------------------------------------------------------------- recovery codes

  lemma {:induction false} WithoutUserIs(codes: seq<Code>, user: Id)
    ensures forall c :: c in WithoutUser(codes, user) <==> c in codes && c.user != user
    decreases |codes|
  {
    if codes != [] {
      var rest := codes[..|codes| - 1];
      WithoutUserIs(rest, user);
      assert codes == rest + [codes[|codes| - 1]];
    }
  }

  lemma {:induction false} WithoutUserUnique(codes: seq<Code>, user: Id)
    requires HashesUnique(codes)
    ensures HashesUnique(WithoutUser(codes, user))
    decreases |codes|
  {
    if codes != [] {
      var rest, last := codes[..|codes| - 1], codes[|codes| - 1];
      var kept := WithoutUser(rest, user);
      WithoutUserUnique(rest, user);
      WithoutUserIs(rest, user);
      forall i | 0 <= i < |kept| && !kept[i].used && !last.used ensures kept[i].hash != last.hash {
        assert kept[i] in rest;
        var j :| 0 <= j < |rest| && rest[j] == kept[i];
        assert codes[j] == kept[i];
      }
    }
  }

  predicate Distinct(hashes: seq<Hash>) {
    forall i, j :: 0 <= i < j < |hashes| ==> hashes[i] != hashes[j]
  }

  function Batch(user: Id, hashes: seq<Hash>): (codes: seq<Code>)
    ensures |codes| == |hashes|
    ensures forall i :: 0 <= i < |hashes| ==> codes[i] == Code(user, hashes[i], false)
  {
    seq(|hashes|, i requires 0 <= i < |hashes| => Code(user, hashes[i], false))
  }

  /** No hash repeats and none is live already. */
  predicate Insertable(codes: seq<Code>, hashes: seq<Hash>) {
    Distinct(hashes) && forall i :: 0 <= i < |hashes| ==> !HashTaken(codes, hashes[i])
  }

  lemma InsertableStep(codes: seq<Code>, user: Id, hashes: seq<Hash>)
    requires hashes != []
    ensures Insertable(codes, hashes) <==>
              !HashTaken(codes, hashes[0]) && Insertable(codes + [Code(user, hashes[0], false)], hashes[1..])
  {
    hide HashTaken;
    var more, rest := codes + [Code(user, hashes[0], false)], hashes[1..];
    forall h ensures HashTaken(more, h) <==> HashTaken(codes, h) || h == hashes[0] {
      TakenAfterAppend(codes, Code(user, hashes[0], false), h);
    }
    if Insertable(codes, hashes) {
      forall i | 0 <= i < |rest| ensures !HashTaken(more, rest[i]) { assert rest[i] == hashes[i + 1]; }
    }
    if !HashTaken(codes, hashes[0]) && Insertable(more, rest) {
      forall i | 1 <= i < |hashes| ensures !HashTaken(codes, hashes[i]) && hashes[i] != hashes[0] {
        assert hashes[i] == rest[i - 1];
      }
      forall i, j | 0 <= i < j < |hashes| ensures hashes[i] != hashes[j] {
        if i > 0 { assert hashes[i] == rest[i - 1] && hashes[j] == rest[j - 1]; }
      }
    }
  }

  /** The insert loop succeeds exactly when the batch is insertable, and then appends it. */
  lemma {:induction false} InsertCodesIs(codes: seq<Code>, user: Id, hashes: seq<Hash>)
    ensures InsertCodes(codes, user, hashes).Some? <==> Insertable(codes, hashes)
    ensures InsertCodes(codes, user, hashes).Some? ==> InsertCodes(codes, user, hashes).value == codes + Batch(user, hashes)
    decreases |hashes|
  {
    if hashes == [] {
      assert codes + Batch(user, hashes) == codes;
    } else {
      hide HashTaken, Insertable;
      InsertableStep(codes, user, hashes);
      var more, rest := codes + [Code(user, hashes[0], false)], hashes[1..];
      InsertCodesIs(more, user, rest);
      assert more + Batch(user, rest) == codes + Batch(user, hashes);
    }
  }

  lemma TakenAfterAppend(codes: seq<Code>, c: Code, h: Hash)
    ensures HashTaken(codes + [c], h) <==> HashTaken(codes, h) || (c.hash == h && !c.used)
  {
    var more := codes + [c];
    if HashTaken(codes, h) {
      var i :| 0 <= i < |codes| && codes[i].hash == h && !codes[i].used;
      assert more[i] == codes[i];
    }
    assert more[|codes|] == c;
  }

  /** Hashes of the codes a user could redeem now. */
  ghost function LiveHashes(codes: seq<Code>, user: Id): set<Hash> {
    set i | 0 <= i < |codes| && codes[i].user == user && !codes[i].used :: codes[i].hash
  }

  lemma ConsumableIs(codes: seq<Code>, user: Id, hash: Hash)
    ensures Consumable(codes, user, hash) <==> hash in LiveHashes(codes, user)
  {
  }

  /** After a rotation exactly the new batch is redeemable, and nobody else's codes changed. */
  lemma RotationIs(codes: seq<Code>, user: Id, hashes: seq<Hash>)
    requires HashesUnique(codes)
    ensures var r := NewCodes(codes, user, hashes);
            && (r.Some? <==>
                 (&& Distinct(hashes)
                  && forall i, c :: 0 <= i < |hashes| && c in codes && c.user != user && !c.used ==> c.hash != hashes[i]))
            && (r.Some? ==>
                  && HashesUnique(r.value)
                  && LiveHashes(r.value, user) == (set h | h in hashes)
                  && forall v :: v != user ==> LiveHashes(r.value, v) == LiveHashes(codes, v))
  {
    var others := WithoutUser(codes, user);
    WithoutUserIs(codes, user);
    WithoutUserUnique(codes, user);
    InsertCodesIs(others, user, hashes);
    forall h ensures HashTaken(others, h) <==> exists c :: c in codes && c.user != user && !c.used && c.hash == h {
      TakenByOthers(codes, others, user, h);
    }
    hide WithoutUser, InsertCodes, HashTaken;
    if NewCodes(codes, user, hashes).Some? {
      JoinUnique(others, user, hashes);
      LiveAfterJoin(codes, others, user, hashes);
    }
  }

  lemma TakenByOthers(codes: seq<Code>, others: seq<Code>, user: Id, h: Hash)
    requires forall c :: c in others <==> c in codes && c.user != user
    ensures HashTaken(others, h) <==> exists c :: c in codes && c.user != user && !c.used && c.hash == h
  {
    if HashTaken(others, h) {
      var i :| 0 <= i < |others| && others[i].hash == h && !others[i].used;
      assert others[i] in others;
    }
    if c :| c in codes && c.user != user && !c.used && c.hash == h {
      assert c in others;
    }
  }

  lemma JoinUnique(others: seq<Code>, user: Id, hashes: seq<Hash>)
    requires HashesUnique(others) && Distinct(hashes) && forall i :: 0 <= i < |hashes| ==> !HashTaken(others, hashes[i])
    ensures HashesUnique(others + Batch(user, hashes))
  {
    var all := others + Batch(user, hashes);
    forall i, j | 0 <= i < j < |all| && !all[i].used && !all[j].used ensures all[i].hash != all[j].hash {
      if i < |others| <= j {
        assert !HashTaken(others, hashes[j - |others|]);
        assert all[i] == others[i];
      }
    }
  }

  lemma LiveAfterJoin(codes: seq<Code>, others: seq<Code>, user: Id, hashes: seq<Hash>)
    requires forall c :: c in others <==> c in codes && c.user != user
    ensures var all := others + Batch(user, hashes);
            && LiveHashes(all, user) == (set h | h in hashes)
            && forall v :: v != user ==> LiveHashes(all, v) == LiveHashes(codes, v)
  {
    var all := others + Batch(user, hashes);
    forall j | 0 <= j < |others| ensures all[j].user != user { assert others[j] in others; }
    forall h ensures h in LiveHashes(all, user) <==> h in hashes {
      if h in hashes {
        var i :| 0 <= i < |hashes| && hashes[i] == h;
        assert all[|others| + i] == Code(user, h, false);
      }
      if h in LiveHashes(all, user) {
        var i :| 0 <= i < |all| && all[i].user == user && !all[i].used && all[i].hash == h;
        assert i >= |others|;
        assert hashes[i - |others|] == h;
      }
    }
    forall v | v != user ensures LiveHashes(all, v) == LiveHashes(codes, v) {
      forall h ensures h in LiveHashes(all, v) <==> h in LiveHashes(codes, v) {
        LiveElsewhere(codes, others, user, hashes, v, h);
      }
    }
  }

  lemma LiveElsewhere(codes: seq<Code>, others: seq<Code>, user: Id, hashes: seq<Hash>, v: Id, h: Hash)
    requires v != user && forall c :: c in others <==> c in codes && c.user != user
    ensures h in LiveHashes(others + Batch(user, hashes), v) <==> h in LiveHashes(codes, v)
  {
    var all := others + Batch(user, hashes);
    if h in LiveHashes(all, v) {
      var i :| 0 <= i < |all| && all[i].user == v && !all[i].used && all[i].hash == h;
      assert all[i] == others[i] && others[i] in others;
    }
    if h in LiveHashes(codes, v) {
      var i :| 0 <= i < |codes| && codes[i].user == v && !codes[i].used && codes[i].hash == h;
      assert codes[i] in others;
      var j :| 0 <= j < |others| && others[j] == codes[i];
      assert all[j] == codes[i];
    }
  }

  /** Redeeming takes exactly one hash from exactly one user. */
  lemma MarkUsedIs(codes: seq<Code>, user: Id, hash: Hash)
    ensures LiveHashes(MarkUsed(codes, user, hash), user) == LiveHashes(codes, user) - {hash}
    ensures forall v :: v != user ==> LiveHashes(MarkUsed(codes, user, hash), v) == LiveHashes(codes, v)
    ensures HashesUnique(codes) ==> HashesUnique(MarkUsed(codes, user, hash))
  {
    var after := MarkUsed(codes, user, hash);
    forall v, h ensures h in LiveHashes(after, v) <==> h in LiveHashes(codes, v) && !(v == user && h == hash) {
      if h in LiveHashes(codes, v) && !(v == user && h == hash) {
        var i :| 0 <= i < |codes| && codes[i].user == v && !codes[i].used && codes[i].hash == h;
        assert after[i] == codes[i];
      }
    }
  }

  lemma CodesStep(db: Db, e: Event)
    requires HashesUnique(db.codes)
    ensures HashesUnique(Step(db, e).codes)
  {
    if e.Rotate? {
      hide NewCodes;
      RotationIs(db.codes, e.user, e.hashes);
    } else if e.Consume? {
      ConsumeKeepsUnique(db, e);
    } else {
      StepFrame(db, e);
      hide Step;
    }
  }

  lemma ConsumeKeepsUnique(db: Db, e: Event)
    requires e.Consume? && HashesUnique(db.codes)
    ensures HashesUnique(Step(db, e).codes)
  {
    hide HashesUnique, MarkUsed;
    if e.request in db.flights { MarkUsedIs(db.codes, db.flights[e.request].user, e.hash); }
  }

  // ---------------------------------------------------------- what never changes back

  /** Passkeys keep their owner, never lose their revocation, and never count down. */
  ghost predicate PasskeysOnward(a: map<Id, Passkey>, b: map<Id, Passkey>) {
    forall id :: id in a ==>
      && id in b && b[id].user == a[id].user && b[id].credential == a[id].credential
      && (a[id].revoked ==> b[id] == a[id]) && a[id].counter <= b[id].counter
  }

  /** Sessions keep their owner; a revoked one is frozen, a satisfied one stays satisfied. */
  ghost predicate SessionsOnward(a: map<Id, Session>, b: map<Id, Session>) {
    forall id :: id in a ==>
      && id in b && b[id].user == a[id].user && b[id].expiresAt == a[id].expiresAt
      && (a[id].satisfied ==> b[id].satisfied) && (a[id].revoked ==> b[id] == a[id])
  }

  lemma PasskeysStep(db: Db, e: Event)
    ensures PasskeysOnward(db.passkeys, Step(db, e).passkeys)
  {
    if e.Enrol? || e.Unenrol? {
      hide LivePasskeys, CredentialTaken;
    } else if e.Record? {
      RecordFrame(db, e);
      hide Step;
    } else {
      StepFrame(db, e);
      hide Step;
    }
  }

  lemma SessionsStep(db: Db, e: Event)
    ensures SessionsOnward(db.sessions, Step(db, e).sessions)
    ensures NIL !in db.sessions ==> NIL !in Step(db, e).sessions
  {
    if e.Issue? {
      IssueOnward(db, e.request, e.session, e.reply);
      hide StepIssue, SessionsOnward;
    } else if e.Promote? {
      PromoteOnward(db, e.request, e.reply);
      hide StepPromote, SessionsOnward;
    } else if e.Logout? {
    } else {
      StepFrame(db, e);
      hide Step;
    }
  }

  lemma IssueOnward(db: Db, request: Id, session: Id, reply: Reply)
    ensures SessionsOnward(db.sessions, StepIssue(db, request, session, reply).sessions)
    ensures NIL !in db.sessions ==> NIL !in StepIssue(db, request, session, reply).sessions
  {
  }

  lemma PromoteOnward(db: Db, request: Id, reply: Reply)
    ensures SessionsOnward(db.sessions, StepPromote(db, request, reply).sessions)
    ensures NIL !in db.sessions ==> NIL !in StepPromote(db, request, reply).sessions
  {
  }

  /** Requests enter by signing in, with a live session, or as the dev-header actor. */
  lemma NewRequest(db: Db, e: Event, r: Id)
    requires !InFlight(e) && r in Step(db, e).flights
    ensures var f := Step(db, e).flights[r];
            || (r in db.flights && f == db.flights[r])
            || (e == Decide(r, f.user) && f == LoggingIn(f.user, RequiresPartialSession(db, f.user)))
            || ((f.Asserting? || f.Redeeming?) && f.session == NIL)
            || ((f.Asserting? || f.Redeeming?) && f.session in db.sessions && db.sessions[f.session].user == f.user)
  {
    hide SyncRequiresMfa, LivePasskeys, CredentialTaken, NewCodes, RequiresPartialSession;
  }

  /** A request's new stage fits the tables it was read from. */
  lemma NewFlight(db: Db, e: Event, r: Id)
    requires FlightsOk(db) && r in Step(db, e).flights
    ensures (r in db.flights && Step(db, e).flights[r] == db.flights[r]) || FlightOk(db, Step(db, e).flights[r])
  {
    hide Step;
    if InFlight(e) { NewFlightAfterCall(db, e, r); } else { NewRequest(db, e, r); }
  }

  ghost predicate FlightsFit(db: Db, d: Db) {
    forall r :: r in d.flights ==> (r in db.flights && d.flights[r] == db.flights[r]) || FlightOk(db, d.flights[r])
  }

  lemma FindFits(db: Db, request: Id, credential: string)
    requires FlightsOk(db)
    ensures FlightsFit(db, StepFind(db, request, credential))
  {
    if request in db.flights { assert FlightOk(db, db.flights[request]); }
  }

  lemma VerifyFits(db: Db, request: Id, counter: nat)
    requires FlightsOk(db)
    ensures FlightsFit(db, StepVerify(db, request, counter))
  {
    if request in db.flights { assert FlightOk(db, db.flights[request]); }
  }

  lemma RecordFits(db: Db, request: Id, reply: Reply)
    requires FlightsOk(db)
    ensures FlightsFit(db, StepRecord(db, request, reply))
  {
    hide MayRecord;
    if request in db.flights { assert FlightOk(db, db.flights[request]); }
  }

  lemma ConsumeFits(db: Db, request: Id, hash: Hash, reply: Reply)
    requires FlightsOk(db)
    ensures FlightsFit(db, StepConsume(db, request, hash, reply))
  {
    hide Consumable, MarkUsed;
    if request in db.flights { assert FlightOk(db, db.flights[request]); }
  }

  lemma NewFlightAfterCall(db: Db, e: Event, r: Id)
    requires InFlight(e) && FlightsOk(db) && r in Step(db, e).flights
    ensures (r in db.flights && Step(db, e).flights[r] == db.flights[r]) || FlightOk(db, Step(db, e).flights[r])
  {
    hide StepIssue, StepFind, StepVerify, StepRecord, StepConsume, StepPromote, FlightOk, FlightsOk;
    match e
    case Find(request, credential) => FindFits(db, request, credential);
    case Verify(request, counter) => VerifyFits(db, request, counter);
    case Record(request, reply) => RecordFits(db, request, reply);
    case Consume(request, hash, reply) => ConsumeFits(db, request, hash, reply);
    case _ =>
  }

  lemma FlightsStep(db: Db, e: Event)
    requires FlightsOk(db)
    ensures FlightsOk(Step(db, e))
  {
    hide Step;
    PasskeysStep(db, e);
    SessionsStep(db, e);
    forall r | r in Step(db, e).flights ensures FlightOk(Step(db, e), Step(db, e).flights[r]) {
      NewFlight(db, e, r);
    }
  }

  lemma InvStep(db: Db, e: Event)
    requires Inv(db)
    ensures Inv(Step(db, e))
  {
    hide Step, EnrolmentInStep, PolicyInStep, CredentialsUnique, HashesUnique, FlightsOk;
    EnrolmentStep(db, e);
    PolicyStep(db, e);
    CredentialStep(db, e);
    CodesStep(db, e);
    FlightsStep(db, e);
  }

  /** Every state of every run is consistent. */
  lemma {:induction false} InvAfter(db: Db, events: seq<Event>)
    requires Inv(db)
    ensures Inv(After(db, events))
    decreases |events|
  {
    hide Inv, Step;
    if events != [] {
      InvAfter(db, events[..|events| - 1]);
      InvStep(After(db, events[..|events| - 1]), events[|events| - 1]);
    }
  }

  function Empty(now: int): Db { Db(map[], map[], map[], [], map[], map[], now) }

  lemma InvInitially(now: int)
    ensures Inv(Empty(now))
  {
  }

  /** Every state that any events reach from the empty database is consistent. */
  lemma EveryReachableStateIsConsistent(now: int, events: seq<Event>)
    ensures Inv(After(Empty(now), events))
  {
    hide Inv, After, Empty;
    InvInitially(now);
    InvAfter(Empty(now), events);
  }
}
