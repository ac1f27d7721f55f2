/** Who has to use a second factor, read off the membership events alone. */
module MfaMembers {
  import opened MfaModel
  import opened MfaProofs
  import opened MfaTraces
  import opened MfaSignIn

  /** A write of this membership row that reached the database. */
  predicate Writes(db: Db, e: Event, id: Id) { e.Write? && e.member == id && !e.reply.Refused? && e.row.user in db.users }

  /** A removal of this membership row that reached the database. */
  predicate Removes(e: Event, id: Id) { e.Remove? && e.member == id && !e.reply.Refused? }

  /** What one event does to one membership row. */
  lemma MemberStep(db: Db, e: Event, id: Id)
    ensures var d := Step(db, e);
            && (id in d.memberships <==> Writes(db, e, id) || (id in db.memberships && !Removes(e, id)))
            && (id in d.memberships ==> d.memberships[id] == if Writes(db, e, id) then e.row else db.memberships[id])
  {
    if e.Write? || e.Remove? {
      hide SyncRequiresMfa, Seen;
    } else {
      StepFrame(db, e);
      hide Step;
    }
  }

  /** Step `a` wrote this row, and nothing wrote or removed it between `a` and `b`. */
  ghost predicate LastWrite(db: Db, events: seq<Event>, a: nat, b: nat, id: Id)
    requires b <= |events|
  {
    && a < b && Writes(At(db, events, a), events[a], id)
    && forall c :: a < c < b ==> !Writes(At(db, events, c), events[c], id) && !Removes(events[c], id)
  }

  lemma {:induction false} WrittenRowStays(db: Db, events: seq<Event>, a: nat, b: nat, id: Id)
    requires b <= |events| && LastWrite(db, events, a, b, id)
    ensures id in At(db, events, b).memberships && At(db, events, b).memberships[id] == events[a].row
    decreases b
  {
    hide Step, After, Writes, Removes;
    AtNext(db, events, b - 1);
    MemberStep(At(db, events, b - 1), events[b - 1], id);
    if a < b - 1 {
      WrittenRowStays(db, events, a, b - 1, id);
    } else {
      WriteIsWrite(At(db, events, a), events[a], id);
    }
  }

  lemma WriteIsWrite(db: Db, e: Event, id: Id)
    requires Writes(db, e, id)
    ensures e.Write?
  {
  }

  lemma LastWriteExtends(db: Db, events: seq<Event>, a: nat, b: nat, id: Id)
    requires b < |events| && LastWrite(db, events, a, b, id)
    requires !Writes(At(db, events, b), events[b], id) && !Removes(events[b], id)
    ensures LastWrite(db, events, a, b + 1, id)
  {
    hide At, Writes, Removes;
  }

  lemma {:induction false} RowWasWritten(db: Db, events: seq<Event>, b: nat, id: Id) returns (a: nat)
    requires db.memberships == map[] && b <= |events| && id in At(db, events, b).memberships
    ensures LastWrite(db, events, a, b, id)
    decreases b
  {
    AtStart(db, events);
    hide Step, At, Writes, Removes;
    AtNext(db, events, b - 1);
    MemberStep(At(db, events, b - 1), events[b - 1], id);
    if Writes(At(db, events, b - 1), events[b - 1], id) {
      a := b - 1;
    } else {
      a := RowWasWritten(db, events, b - 1, id);
      LastWriteExtends(db, events, a, b - 1, id);
    }
  }

  /** The last effective event on some membership row made this user a live Owner or Admin. */
  ghost predicate Governs(db: Db, events: seq<Event>, a: nat, user: Id) {
    && a < |events| && events[a].Write? && LastWrite(db, events, a, |events|, events[a].member)
    && events[a].row.user == user && !events[a].row.deleted && (events[a].row.role == Owner || events[a].row.role == Admin)
  }

  lemma HoldsIff(db: Db, events: seq<Event>, user: Id)
    requires db.memberships == map[]
    ensures HoldsPrivilege(After(db, events).memberships, user) <==> exists a :: Governs(db, events, a, user)
  {
    hide After, LastWrite;
    var n := |events|;
    assert events[..n] == events;
    var rows := At(db, events, n).memberships;
    if HoldsPrivilege(rows, user) {
      var id :| id in rows && Privileged(rows[id], user);
      var a := RowWasWritten(db, events, n, id);
      WrittenRowStays(db, events, a, n, id);
      LastWriteIsWrite(db, events, a, id);
      assert Governs(db, events, a, user);
    }
    if a: nat :| Governs(db, events, a, user) {
      WrittenRowStays(db, events, a, n, events[a].member);
      assert Privileged(rows[events[a].member], user);
    }
  }

  lemma LastWriteIsWrite(db: Db, events: seq<Event>, a: nat, id: Id)
    requires LastWrite(db, events, a, |events|, id)
    ensures a < |events| && events[a].Write? && events[a].member == id
  {
    hide At;
  }

  /**
    With a trigger that reads every organization, from the empty database: a user
    is required to use a second factor if and only if the last event that took
    effect on some membership row made the user a live Owner or Admin.
   */
  lemma RequiredIff(now: int, events: seq<Event>, user: Id)
    requires forall i :: 0 <= i < |events| && (events[i].Write? || events[i].Remove?) ==> events[i].scope == EveryTenant
    requires user in After(Empty(now), events).users
    ensures After(Empty(now), events).users[user].requiresMfa <==> exists a :: Governs(Empty(now), events, a, user)
  {
    hide After, HoldsPrivilege, TriggerSaw, Governs;
    InvInitially(now);
    UnscopedTriggerSees(Empty(now), events, user);
    FlagMeans(Empty(now), events, user);
    HoldsIff(Empty(now), events, user);
  }
}
