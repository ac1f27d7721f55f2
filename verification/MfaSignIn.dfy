/**
  Signing in: what the two flags a sign-in reads stand for, in every run. The
  trigger that keeps `requires_mfa` may see all organizations' memberships or,
  under row-level security, only those of the organization being written.
 */
module MfaSignIn {
  import opened Environment
  import opened MfaModel
  import opened MfaProofs
  import opened MfaTraces

  // --------------------------------------------------------------------- one write

  /** The event takes effect on a membership that was or becomes the user's. */
  predicate Touches(db: Db, e: Event, user: Id) {
    || (&& e.Write? && !e.reply.Refused? && e.row.user in db.users
        && (e.row.user == user || (e.member in db.memberships && db.memberships[e.member].user == user)))
    || (e.Remove? && !e.reply.Refused? && e.member in db.memberships && db.memberships[e.member].user == user)
  }

  lemma TouchedFlag(db: Db, e: Event, user: Id)
    requires PolicyInStep(db.users, db.memberships) && Touches(db, e, user)
    ensures var d := Step(db, e);
            user in d.users && d.users[user].requiresMfa == HoldsPrivilege(Seen(d.memberships, e.scope), user)
  {
    hide HoldsPrivilege, Seen;
  }

  lemma UntouchedFlag(db: Db, e: Event, user: Id)
    requires PolicyInStep(db.users, db.memberships) && !Touches(db, e, user)
    ensures var d := Step(db, e);
            && (user in d.users ==> d.users[user].requiresMfa == (user in db.users && db.users[user].requiresMfa))
            && (HoldsPrivilege(d.memberships, user) <==> HoldsPrivilege(db.memberships, user))
  {
    if e.Write? {
      UntouchedWrite(db, e, user);
    } else if e.Remove? {
      UntouchedRemove(db, e, user);
    } else if e.CreateUser? {
    } else if e.Enrol? || e.Unenrol? {
      hide LivePasskeys, HoldsPrivilege, CredentialTaken;
    } else {
      StepFrame(db, e);
      hide Step, HoldsPrivilege;
    }
  }

  lemma UntouchedWrite(db: Db, e: Event, user: Id)
    requires e.Write? && PolicyInStep(db.users, db.memberships) && !Touches(db, e, user)
    ensures var d := Step(db, e);
            && (user in d.users ==> d.users[user].requiresMfa == (user in db.users && db.users[user].requiresMfa))
            && (HoldsPrivilege(d.memberships, user) <==> HoldsPrivilege(db.memberships, user))
  {
    hide HoldsPrivilege, Seen;
    if e.row.user in db.users && !e.reply.Refused? {
      OthersKeepPrivilege(db.memberships, db.memberships[e.member := e.row], e.member, user);
    }
  }

  lemma UntouchedRemove(db: Db, e: Event, user: Id)
    requires e.Remove? && PolicyInStep(db.users, db.memberships) && !Touches(db, e, user)
    ensures var d := Step(db, e);
            && (user in d.users ==> d.users[user].requiresMfa == (user in db.users && db.users[user].requiresMfa))
            && (HoldsPrivilege(d.memberships, user) <==> HoldsPrivilege(db.memberships, user))
  {
    hide HoldsPrivilege, Seen;
    if e.member in db.memberships && !e.reply.Refused? {
      OthersKeepPrivilege(db.memberships, db.memberships - {e.member}, e.member, user);
    }
  }

  // ------------------------------------------------------------------------- runs

  /** The last event that took effect on a membership of the user. */
  function LastTouch(db: Db, events: seq<Event>, user: Id): (a: Option<nat>)
    ensures a.Some? ==> a.value < |events| && (events[a.value].Write? || events[a.value].Remove?)
    decreases |events|
  {
    if events == [] then None
    else
      var n := |events| - 1;
      if Touches(At(db, events, n), events[n], user) then Some(n) else LastTouch(db, events[..n], user)
  }

  /** At that event the trigger saw a privileged membership of the user, if there was one. */
  ghost predicate TriggerSaw(db: Db, events: seq<Event>, user: Id) {
    var a := LastTouch(db, events, user);
    a.Some? ==>
      var rows := At(db, events, a.value + 1).memberships;
      HoldsPrivilege(rows, user) ==> HoldsPrivilege(Seen(rows, events[a.value].scope), user)
  }

  ghost predicate FlagRight(db: Db, user: Id) {
    user in db.users ==> (db.users[user].requiresMfa <==> HoldsPrivilege(db.memberships, user))
  }

  /** Since the last touch neither the flag nor the user's privilege has changed. */
  ghost predicate FlagSince(db: Db, events: seq<Event>, user: Id) {
    var a, d := LastTouch(db, events, user), After(db, events);
    if a.None? then FlagRight(d, user)
    else
      var rows := At(db, events, a.value + 1).memberships;
      && user in d.users && d.users[user].requiresMfa == HoldsPrivilege(Seen(rows, events[a.value].scope), user)
      && (HoldsPrivilege(d.memberships, user) <==> HoldsPrivilege(rows, user))
  }

  lemma {:induction false} FlagFollows(db: Db, events: seq<Event>, user: Id)
    requires Inv(db) && FlagRight(db, user)
    ensures FlagSince(db, events, user)
    decreases |events|
  {
    hide Step, Touches, HoldsPrivilege, Seen, Inv;
    if events != [] {
      var n := |events| - 1;
      var rest, d := events[..n], At(db, events, n);
      FlagFollows(db, rest, user);
      InvAfter(db, rest);
      OnlyPolicy(d);
      AtNext(db, events, n);
      assert events[..n + 1] == events;
      if Touches(d, events[n], user) {
        TouchedFlag(d, events[n], user);
      } else {
        UntouchedFlag(d, events[n], user);
        if user in d.users { StepKeepsUsers(d, events[n], user); }
        var a := LastTouch(db, rest, user);
        if a.Some? { assert rest[..a.value + 1] == events[..a.value + 1]; }
        if a.None? { NewcomersHoldNothing(d, user); }
      }
    }
  }

  lemma OnlyPolicy(db: Db)
    requires Inv(db)
    ensures PolicyInStep(db.users, db.memberships)
  {
  }

  lemma NewcomersHoldNothing(db: Db, user: Id)
    requires PolicyInStep(db.users, db.memberships)
    ensures user !in db.users ==> !HoldsPrivilege(db.memberships, user)
  {
  }

  lemma StepKeepsUsers(db: Db, e: Event, user: Id)
    requires user in db.users
    ensures user in Step(db, e).users
  {
    if TouchesUsers(e) {
      hide LivePasskeys, HoldsPrivilege, CredentialTaken, Seen;
    } else {
      StepFrame(db, e);
      hide Step;
    }
  }

  /**
    After any run the policy flag of a user is set exactly when the user holds a
    live Owner or Admin membership and the trigger saw one at the last write to
    the user's memberships. So it is right if and only if the trigger saw.
   */
  lemma FlagMeans(db: Db, events: seq<Event>, user: Id)
    requires Inv(db) && FlagRight(db, user)
    ensures var d := After(db, events);
            && (user in d.users ==>
                 (d.users[user].requiresMfa <==> HoldsPrivilege(d.memberships, user) && TriggerSaw(db, events, user)))
            && (FlagRight(d, user) <==> TriggerSaw(db, events, user))
  {
    hide After, HoldsPrivilege, Seen, LastTouch, Inv;
    FlagFollows(db, events, user);
    var a := LastTouch(db, events, user);
    if a.Some? {
      var rows := At(db, events, a.value + 1).memberships;
      if HoldsPrivilege(Seen(rows, events[a.value].scope), user) { SeenIsThere(rows, events[a.value].scope, user); }
    }
  }

  /** A trigger that reads every organization always sees. */
  lemma UnscopedTriggerSees(db: Db, events: seq<Event>, user: Id)
    requires forall i :: 0 <= i < |events| && (events[i].Write? || events[i].Remove?) ==> events[i].scope == EveryTenant
    ensures TriggerSaw(db, events, user)
  {
    hide At;
  }

  /** One that reads the written organization alone need not: a second membership hides the first. */
  lemma SecondOrganizationHidesTheFirst(now: int, user: Id, a: Id, b: Id)
    requires a != b
    ensures var events := TwoOrganizations(user, a, b);
            var d := After(Empty(now), events);
            && user in d.users && !d.users[user].requiresMfa && HoldsPrivilege(d.memberships, user)
            && !TriggerSaw(Empty(now), events, user)
  {
    var events := TwoOrganizations(user, a, b);
    var owner, viewer := Membership(a, user, Owner, false), Membership(b, user, Viewer, false);
    var d := After(Empty(now), events);
    ThreeSteps(Empty(now), events);
    var d1 := Step(Empty(now), events[0]);
    assert d1 == Empty(now).(users := map[user := User(false, false)]);
    hide After;
    var d2 := Step(d1, events[1]);
    assert d2.memberships == map[1 := owner];
    assert d.memberships == map[1 := owner, 2 := viewer];
    assert Privileged(d.memberships[1], user);
    assert !d.users[user].requiresMfa by { SeenAlone(d.memberships, user, b); }
    InvInitially(now);
    FlagMeans(Empty(now), events, user);
  }

  function TwoOrganizations(user: Id, a: Id, b: Id): seq<Event> {
    [CreateUser(user), Write(1, Membership(a, user, Owner, false), Tenant(a), Clean),
     Write(2, Membership(b, user, Viewer, false), Tenant(b), Clean)]
  }

  lemma SeenAlone(memberships: map<Id, Membership>, user: Id, b: Id)
    requires forall id :: id in memberships && memberships[id].org == b ==> !Privileged(memberships[id], user)
    ensures !HoldsPrivilege(Seen(memberships, Tenant(b)), user)
  {
  }

  lemma ThreeSteps(db: Db, events: seq<Event>)
    requires |events| == 3
    ensures After(db, events) == Step(Step(Step(db, events[0]), events[1]), events[2])
  {
    hide Step;
    AtNext(db, events, 0);
    AtNext(db, events, 1);
    AtNext(db, events, 2);
    assert events[..0] == [] && events[..3] == events;
  }

  // ---------------------------------------------------------------------- sign-in

  /** The two bits a sign-in reads, and the decision it takes, in terms of the facts. */
  lemma FlagsAreFacts(db: Db, events: seq<Event>, user: Id)
    requires Inv(db) && FlagRight(db, user)
    ensures var d := After(db, events);
            && (user in d.users ==> (d.users[user].mfaEnrolled <==> LivePasskeys(d.passkeys, user) != {}))
            && (RequiresPartialSession(d, user) <==>
                 (&& HoldsPrivilege(d.memberships, user) && TriggerSaw(db, events, user)
                  && LivePasskeys(d.passkeys, user) != {}))
  {
    hide After, LivePasskeys, HoldsPrivilege, TriggerSaw;
    InvAfter(db, events);
    FlagMeans(db, events, user);
    var d := After(db, events);
    if user !in d.users {
      Strangers(d, user);
    }
  }

  lemma Strangers(db: Db, user: Id)
    requires Inv(db) && user !in db.users
    ensures LivePasskeys(db.passkeys, user) == {} && !HoldsPrivilege(db.memberships, user)
  {
  }

  /** A request in flight for a sign-in remembers a decision taken at some earlier step. */
  lemma {:induction false} DecisionWasMade(db: Db, events: seq<Event>, r: Id) returns (a: nat)
    requires Idle(db) && r in After(db, events).flights && After(db, events).flights[r].LoggingIn?
    ensures a < |events| && events[a] == Decide(r, After(db, events).flights[r].user)
    ensures After(db, events).flights[r].partial <==> RequiresPartialSession(At(db, events, a), After(db, events).flights[r].user)
    decreases |events|
  {
    hide Step, RequiresPartialSession, Inv;
    var n := |events| - 1;
    var rest := events[..n];
    NewLogin(After(db, rest), events[n], r);
    if r in After(db, rest).flights && After(db, rest).flights[r] == After(db, events).flights[r] {
      a := DecisionWasMade(db, rest, r);
      assert rest[..a] == events[..a];
    } else {
      a := n;
    }
  }

  lemma NewLogin(db: Db, e: Event, r: Id)
    requires r in Step(db, e).flights && Step(db, e).flights[r].LoggingIn?
    ensures (r in db.flights && db.flights[r] == Step(db, e).flights[r])
         || (e == Decide(r, Step(db, e).flights[r].user)
             && Step(db, e).flights[r].partial == RequiresPartialSession(db, e.user))
  {
    hide RequiresPartialSession;
    if InFlight(e) {
      hide StepIssue, StepFind, StepVerify, StepRecord, StepConsume, StepPromote;
    } else {
      NewRequest(db, e, r);
      hide Step;
    }
  }

  /** A quiet server whose flags are right. */
  ghost predicate Settled(db: Db) { Idle(db) && forall user :: FlagRight(db, user) }

  /**
    A session starts partial exactly when, at the moment the sign-in decided,
    its user held an Owner or Admin role that the trigger saw, and had a live
    passkey.
   */
  lemma SessionStartsPartialIff(db: Db, events: seq<Event>, s: Id) returns (a: nat)
    requires Settled(db) && events != []
    requires s !in At(db, events, |events| - 1).sessions && s in After(db, events).sessions
    ensures a < |events| - 1 && events[a].Decide? && events[a].user == After(db, events).sessions[s].user
    ensures !After(db, events).sessions[s].satisfied <==>
              (&& HoldsPrivilege(At(db, events, a).memberships, events[a].user)
               && TriggerSaw(db, events[..a], events[a].user)
               && LivePasskeys(At(db, events, a).passkeys, events[a].user) != {})
  {
    hide RequiresPartialSession, LivePasskeys, HoldsPrivilege, Inv, After, TriggerSaw, FlagRight;
    var n := |events| - 1;
    AtNext(db, events, n);
    assert events[..n + 1] == events;
    NewSession(At(db, events, n), events[n], s);
    a := DecisionWasMade(db, events[..n], events[n].request);
    assert events[..n][..a] == events[..a];
    FlagsAreFacts(db, events[..a], events[a].user);
  }

  lemma NewSession(db: Db, e: Event, s: Id)
    requires s !in db.sessions && s in Step(db, e).sessions
    ensures e.Issue? && e.request in db.flights && db.flights[e.request].LoggingIn?
    ensures Step(db, e).sessions[s].user == db.flights[e.request].user
    ensures Step(db, e).sessions[s].satisfied == !db.flights[e.request].partial
  {
    if !e.Issue? && !e.Promote? && !e.Logout? {
      StepFrame(db, e);
      hide Step;
    }
  }

  /** What the dashboard is told, in terms of the facts rather than the flags. */
  lemma MfaStateIsTruthful(db: Db, events: seq<Event>, user: Id, session: Id)
    requires Inv(db) && FlagRight(db, user)
    ensures var d := After(db, events);
            var required := HoldsPrivilege(d.memberships, user) && TriggerSaw(db, events, user);
            var enrolled := LivePasskeys(d.passkeys, user) != {};
            var satisfied := Resolvable(d, session) && d.sessions[session].satisfied;
            && (MfaStateOf(d, user, session).NotRequired? <==> !required)
            && (MfaStateOf(d, user, session).MustEnrol? <==> required && !enrolled)
            && (MfaStateOf(d, user, session).MustAssert? <==> required && enrolled && !satisfied)
            && (MfaStateOf(d, user, session).Enrolled? <==> required && enrolled && satisfied)
  {
    hide After, LivePasskeys, HoldsPrivilege, TriggerSaw;
    FlagsAreFacts(db, events, user);
    FlagMeans(db, events, user);
    InvAfter(db, events);
    if user !in After(db, events).users { Strangers(After(db, events), user); }
    OnlyFlights(After(db, events));
  }
}
