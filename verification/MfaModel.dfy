/**
  Passkeys, recovery codes and sessions. Every repository call is one atomic
  transaction; a request is a sequence of such calls, and any number of requests
  interleave. Between two calls a request waits as a `Flight`.
 */
module MfaModel {
  import opened Environment
  import opened Ordering

  type Id = nat
  type Hash = nat

  const NIL: Id := 0
  const SESSION_TTL: int := 30 * 86400

  datatype Role = Owner | Admin | Developer | Viewer

  datatype User = User(requiresMfa: bool, mfaEnrolled: bool)

  datatype Membership = Membership(org: Id, user: Id, role: Role, deleted: bool)

  datatype Passkey = Passkey(user: Id, credential: string, counter: nat, revoked: bool)

  datatype Code = Code(user: Id, hash: Hash, used: bool)

  datatype Session = Session(user: Id, satisfied: bool, revoked: bool, expiresAt: int)

  /** Where a request stands between two of its calls. */
  datatype Flight =
    | LoggingIn(user: Id, partial: bool)
    | Asserting(user: Id, session: Id)
    | Matched(user: Id, session: Id, passkey: Id)
    | Verified(user: Id, session: Id, passkey: Id, counter: nat)
    | Redeeming(user: Id, session: Id)
    | Cleared(user: Id, session: Id)

  datatype Db = Db(users: map<Id, User>, memberships: map<Id, Membership>, passkeys: map<Id, Passkey>,
                   codes: seq<Code>, sessions: map<Id, Session>, flights: map<Id, Flight>, now: int)

  datatype Out = Out(ok: bool, db: Db)

  function Settle(reply: Reply, before: Db, after: Db): Out {
    Out(reply.Clean?, if reply.Refused? then before else after)
  }

  // --------------------------------------------------------------------- passkeys

  predicate LivePasskey(k: Passkey, user: Id) { k.user == user && !k.revoked }

  function LivePasskeys(passkeys: map<Id, Passkey>, user: Id): set<Id> {
    set id | id in passkeys && LivePasskey(passkeys[id], user)
  }

  predicate CredentialTaken(passkeys: map<Id, Passkey>, credential: string) {
    exists id :: id in passkeys && !passkeys[id].revoked && passkeys[id].credential == credential
  }

  /** Foreign key, primary key and the unique index over live credentials, then both writes. */
  function InsertPasskey(db: Db, user: Id, id: Id, credential: string, reply: Reply): Out {
    if user !in db.users || id in db.passkeys || CredentialTaken(db.passkeys, credential) then Out(false, db)
    else Settle(reply, db, db.(passkeys := db.passkeys[id := Passkey(user, credential, 0, false)],
                               users := db.users[user := db.users[user].(mfaEnrolled := true)]))
  }

  predicate MayRecord(passkeys: map<Id, Passkey>, id: Id, counter: nat) {
    id in passkeys && !passkeys[id].revoked && (counter > passkeys[id].counter || passkeys[id].counter == 0)
  }

  function RecordUse(db: Db, id: Id, counter: nat, reply: Reply): Out {
    if !MayRecord(db.passkeys, id, counter) then Out(false, db)
    else Settle(reply, db, db.(passkeys := db.passkeys[id := db.passkeys[id].(counter := counter)]))
  }

  /** Revoke one passkey, and clear the flag when the count of live ones drops to zero. */
  function RevokePasskey(db: Db, user: Id, id: Id, reply: Reply): Out {
    if id !in db.passkeys || !LivePasskey(db.passkeys[id], user) then Out(false, db)
    else
      var keys := db.passkeys[id := db.passkeys[id].(revoked := true)];
      var users := if |LivePasskeys(keys, user)| == 0 && user in db.users
                   then db.users[user := db.users[user].(mfaEnrolled := false)] else db.users;
      Settle(reply, db, db.(passkeys := keys, users := users))
  }

  // --------------------------------------------------------------- recovery codes

  predicate LiveCode(c: Code, user: Id, hash: Hash) { c.user == user && c.hash == hash && !c.used }

  predicate HashTaken(codes: seq<Code>, hash: Hash) {
    exists i :: 0 <= i < |codes| && codes[i].hash == hash && !codes[i].used
  }

  function WithoutUser(codes: seq<Code>, user: Id): seq<Code> {
    if codes == [] then []
    else
      var rest := WithoutUser(codes[..|codes| - 1], user);
      if codes[|codes| - 1].user == user then rest else rest + [codes[|codes| - 1]]
  }

  /** One INSERT per hash; the first hash that is live already fails the whole transaction. */
  function InsertCodes(codes: seq<Code>, user: Id, hashes: seq<Hash>): Option<seq<Code>>
    decreases |hashes|
  {
    if hashes == [] then Some(codes)
    else if HashTaken(codes, hashes[0]) then None
    else InsertCodes(codes + [Code(user, hashes[0], false)], user, hashes[1..])
  }

  function NewCodes(codes: seq<Code>, user: Id, hashes: seq<Hash>): Option<seq<Code>> {
    InsertCodes(WithoutUser(codes, user), user, hashes)
  }

  function RotateBatch(db: Db, user: Id, hashes: seq<Hash>, reply: Reply): Out {
    if user !in db.users && hashes != [] then Out(false, db)
    else
      var codes := NewCodes(db.codes, user, hashes);
      if codes.None? then Out(false, db) else Settle(reply, db, db.(codes := codes.value))
  }

  predicate Consumable(codes: seq<Code>, user: Id, hash: Hash) {
    exists i :: 0 <= i < |codes| && LiveCode(codes[i], user, hash)
  }

  function MarkUsed(codes: seq<Code>, user: Id, hash: Hash): (r: seq<Code>)
    ensures |r| == |codes|
    ensures forall i :: 0 <= i < |codes| ==>
              r[i] == if LiveCode(codes[i], user, hash) then codes[i].(used := true) else codes[i]
  {
    seq(|codes|, i requires 0 <= i < |codes| =>
      if LiveCode(codes[i], user, hash) then codes[i].(used := true) else codes[i])
  }

  function TryConsume(db: Db, user: Id, hash: Hash, reply: Reply): Out {
    if !Consumable(db.codes, user, hash) then Out(false, db)
    else Settle(reply, db, db.(codes := MarkUsed(db.codes, user, hash)))
  }

  // --------------------------------------------------------------------- sessions

  predicate Resolvable(db: Db, session: Id) {
    session in db.sessions && !db.sessions[session].revoked && db.sessions[session].expiresAt > db.now
  }

  function IssueSession(db: Db, user: Id, session: Id, partial: bool, reply: Reply): Out {
    if user !in db.users || session in db.sessions || session == NIL then Out(false, db)
    else Settle(reply, db, db.(sessions := db.sessions[session := Session(user, !partial, false, db.now + SESSION_TTL)]))
  }

  function MarkMfaSatisfied(db: Db, session: Id, reply: Reply): Out {
    Settle(reply, db,
      if session in db.sessions && !db.sessions[session].revoked
      then db.(sessions := db.sessions[session := db.sessions[session].(satisfied := true)]) else db)
  }

  function RevokeSession(db: Db, session: Id, reply: Reply): Out {
    Settle(reply, db,
      if session in db.sessions
      then db.(sessions := db.sessions[session := db.sessions[session].(revoked := true)]) else db)
  }

  predicate RequiresPartialSession(db: Db, user: Id) {
    user in db.users && db.users[user].requiresMfa && db.users[user].mfaEnrolled
  }

  datatype MfaState = NotRequired | MustEnrol | MustAssert | Enrolled

  function MfaStateOf(db: Db, user: Id, session: Id): MfaState {
    var u := if user in db.users then db.users[user] else User(false, false);
    if !u.requiresMfa then NotRequired
    else if !u.mfaEnrolled then MustEnrol
    else if session == NIL then MustAssert
    else if Resolvable(db, session) && db.sessions[session].satisfied then Enrolled
    else MustAssert
  }

  // ------------------------------------------------------------------ memberships

  predicate Privileged(m: Membership, user: Id) { m.user == user && !m.deleted && (m.role.Owner? || m.role.Admin?) }

  predicate HoldsPrivilege(memberships: map<Id, Membership>, user: Id) {
    exists id :: id in memberships && Privileged(memberships[id], user)
  }

  /** What the trigger's query may read: all rows, or under row-level security those of one organization. */
  datatype Scope = EveryTenant | Tenant(org: Id)

  function Seen(memberships: map<Id, Membership>, scope: Scope): map<Id, Membership> {
    match scope
    case EveryTenant => memberships
    case Tenant(org) => map id | id in memberships && memberships[id].org == org :: memberships[id]
  }

  /** `sync_user_requires_mfa` over the rows it can see. */
  function SyncRequiresMfa(users: map<Id, User>, memberships: map<Id, Membership>, user: Id): map<Id, User> {
    if user in users then users[user := users[user].(requiresMfa := HoldsPrivilege(memberships, user))] else users
  }

  /** Insert or update a row; the trigger re-syncs the old user when the row changes hands, then the new one. */
  function WriteMembership(db: Db, id: Id, m: Membership, scope: Scope, reply: Reply): Out {
    if m.user !in db.users then Out(false, db)
    else
      var rows := db.memberships[id := m];
      var users := if id in db.memberships && db.memberships[id].user != m.user
                   then SyncRequiresMfa(db.users, Seen(rows, scope), db.memberships[id].user) else db.users;
      Settle(reply, db, db.(memberships := rows, users := SyncRequiresMfa(users, Seen(rows, scope), m.user)))
  }

  function DeleteMembership(db: Db, id: Id, scope: Scope, reply: Reply): Out {
    if id !in db.memberships then Out(reply.Clean?, db)
    else
      var rows := db.memberships - {id};
      Settle(reply, db, db.(memberships := rows,
                            users := SyncRequiresMfa(db.users, Seen(rows, scope), db.memberships[id].user)))
  }

  // --------------------------------------------------------------- interleaved steps

  datatype Event =
    | CreateUser(user: Id)
    | Write(member: Id, row: Membership, scope: Scope, reply: Reply)
    | Remove(member: Id, scope: Scope, reply: Reply)
    | Decide(request: Id, user: Id)
    | Issue(request: Id, session: Id, reply: Reply)
    | Enrol(user: Id, session: Id, passkey: Id, credential: string, reply: Reply)
    | Unenrol(user: Id, session: Id, passkey: Id, reply: Reply)
    | Rotate(user: Id, session: Id, hashes: seq<Hash>, reply: Reply)
    | BeginAssert(request: Id, session: Id)
    | BeginRedeem(request: Id, session: Id)
    | HeaderActor(request: Id, user: Id, redeem: bool)
    | Find(request: Id, credential: string)
    | Verify(request: Id, counter: nat)
    | Record(request: Id, reply: Reply)
    | Consume(request: Id, hash: Hash, reply: Reply)
    | Promote(request: Id, reply: Reply)
    | Logout(session: Id, reply: Reply)
    | Elapse(seconds: nat)
    | Drop(request: Id)

  /**
    The session resolved to the user at some earlier moment, satisfied or not:
    sessions never change hands. An API key or the dev-header actor has no session.
   */
  predicate ActsFor(db: Db, user: Id, session: Id) {
    session == NIL || (session in db.sessions && db.sessions[session].user == user)
  }

  function Launch(db: Db, request: Id, f: Flight): Db {
    if request in db.flights then db else db.(flights := db.flights[request := f])
  }

  function Land(db: Db, request: Id): Db { db.(flights := db.flights - {request}) }

  /** A call of a request in flight: on success it goes on as `next`, else it ends. */
  function Continue(out: Out, request: Id, next: Flight): Db {
    if out.ok then out.db.(flights := out.db.flights[request := next]) else Land(out.db, request)
  }

  lemma HitExists(passkeys: map<Id, Passkey>, credential: string, hits: set<Id>)
    requires CredentialTaken(passkeys, credential)
    requires hits == set id | id in passkeys && !passkeys[id].revoked && passkeys[id].credential == credential
    ensures hits != {}
  {
    var id :| id in passkeys && !passkeys[id].revoked && passkeys[id].credential == credential;
    assert id in hits;
  }

  /** The live passkey with this credential id. */
  function FindByCredential(passkeys: map<Id, Passkey>, credential: string): (hit: Option<Id>)
    ensures hit.Some? <==> CredentialTaken(passkeys, credential)
    ensures hit.Some? ==> hit.value in passkeys && !passkeys[hit.value].revoked && passkeys[hit.value].credential == credential
  {
    var hits := set id | id in passkeys && !passkeys[id].revoked && passkeys[id].credential == credential;
    if !CredentialTaken(passkeys, credential) then None
    else
      HitExists(passkeys, credential, hits);
      Some(Least(hits))
  }

  function Step(db: Db, e: Event): Db {
    match e
    case CreateUser(user) => if user in db.users then db else db.(users := db.users[user := User(false, false)])
    case Write(member, row, scope, reply) => WriteMembership(db, member, row, scope, reply).db
    case Remove(member, scope, reply) => DeleteMembership(db, member, scope, reply).db
    case Enrol(user, session, passkey, credential, reply) =>
      if ActsFor(db, user, session) then InsertPasskey(db, user, passkey, credential, reply).db else db
    case Unenrol(user, session, passkey, reply) =>
      if ActsFor(db, user, session) then RevokePasskey(db, user, passkey, reply).db else db
    case Rotate(user, session, hashes, reply) =>
      if ActsFor(db, user, session) then RotateBatch(db, user, hashes, reply).db else db
    case Logout(session, reply) => RevokeSession(db, session, reply).db
    case Elapse(seconds) => db.(now := db.now + seconds)
    case Drop(request) => Land(db, request)
    case Decide(request, user) => Launch(db, request, LoggingIn(user, RequiresPartialSession(db, user)))
    case BeginAssert(request, session) =>
      if Resolvable(db, session) then Launch(db, request, Asserting(db.sessions[session].user, session)) else db
    case BeginRedeem(request, session) =>
      if Resolvable(db, session) then Launch(db, request, Redeeming(db.sessions[session].user, session)) else db
    case HeaderActor(request, user, redeem) =>
      Launch(db, request, if redeem then Redeeming(user, NIL) else Asserting(user, NIL))
    case Issue(request, session, reply) => StepIssue(db, request, session, reply)
    case Find(request, credential) => StepFind(db, request, credential)
    case Verify(request, counter) => StepVerify(db, request, counter)
    case Record(request, reply) => StepRecord(db, request, reply)
    case Consume(request, hash, reply) => StepConsume(db, request, hash, reply)
    case Promote(request, reply) => StepPromote(db, request, reply)
  }

  // The next call of a request in flight. A call that does not fit its stage does nothing.

  function StepIssue(db: Db, request: Id, session: Id, reply: Reply): (d: Db)
    ensures d == db.(sessions := d.sessions, flights := d.flights)
    ensures forall r :: r in d.flights ==> (r in db.flights && d.flights[r] == db.flights[r])
  {
    if request !in db.flights || !db.flights[request].LoggingIn? then db
    else
      var f := db.flights[request];
      Land(IssueSession(db, f.user, session, f.partial, reply).db, request)
  }

  function StepFind(db: Db, request: Id, credential: string): (d: Db)
    ensures d == db.(flights := d.flights)
    ensures forall r :: r in d.flights ==> (r in db.flights && d.flights[r] == db.flights[r]) || d.flights[r].Matched?
  {
    if request !in db.flights || !db.flights[request].Asserting? then db
    else
      var f := db.flights[request];
      var hit := FindByCredential(db.passkeys, credential);
      if hit.None? || db.passkeys[hit.value].user != f.user then Land(db, request)
      else Continue(Out(true, db), request, Matched(f.user, f.session, hit.value))
  }

  /** The WebAuthn ceremony accepted the assertion and reports the authenticator's counter. */
  function StepVerify(db: Db, request: Id, counter: nat): (d: Db)
    ensures d == db.(flights := d.flights)
    ensures forall r :: r in d.flights ==> (r in db.flights && d.flights[r] == db.flights[r]) || d.flights[r].Verified?
  {
    if request !in db.flights || !db.flights[request].Matched? then db
    else
      var f := db.flights[request];
      Continue(Out(true, db), request, Verified(f.user, f.session, f.passkey, counter))
  }

  function StepRecord(db: Db, request: Id, reply: Reply): (d: Db)
    ensures d == db.(passkeys := d.passkeys, flights := d.flights)
    ensures forall r :: r in d.flights ==> (r in db.flights && d.flights[r] == db.flights[r]) || d.flights[r].Cleared?
  {
    if request !in db.flights || !db.flights[request].Verified? then db
    else
      var f := db.flights[request];
      Continue(RecordUse(db, f.passkey, f.counter, reply), request, Cleared(f.user, f.session))
  }

  function StepConsume(db: Db, request: Id, hash: Hash, reply: Reply): (d: Db)
    ensures d == db.(codes := d.codes, flights := d.flights)
    ensures forall r :: r in d.flights ==> (r in db.flights && d.flights[r] == db.flights[r]) || d.flights[r].Cleared?
  {
    if request !in db.flights || !db.flights[request].Redeeming? then db
    else
      var f := db.flights[request];
      Continue(TryConsume(db, f.user, hash, reply), request, Cleared(f.user, f.session))
  }

  /** The dev-header actor has no session to promote. */
  function StepPromote(db: Db, request: Id, reply: Reply): (d: Db)
    ensures d == db.(sessions := d.sessions, flights := d.flights)
    ensures forall r :: r in d.flights ==> (r in db.flights && d.flights[r] == db.flights[r])
  {
    if request !in db.flights || !db.flights[request].Cleared? then db
    else
      var f := db.flights[request];
      if f.session == NIL then Land(db, request) else Land(MarkMfaSatisfied(db, f.session, reply).db, request)
  }

  /** Any run: events one after another. */
  function After(db: Db, events: seq<Event>): Db
    decreases |events|
  {
    if events == [] then db else Step(After(db, events[..|events| - 1]), events[|events| - 1])
  }
}
