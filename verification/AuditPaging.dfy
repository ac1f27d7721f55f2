/**
  Keyset paging through the audit log: newest first, `id < before`, and the
  caller follows the last id it saw until a page comes back short. The log only
  grows, and it may grow between two requests.
 */
module AuditPaging {
  import opened Environment
  import opened Ordering

  type Id = nat

  /** Entry ids and the organization each belongs to. */
  type Log = map<Id, nat>

  /** A missing limit is 50; anything else is clamped to 1..200. */
  function PageSize(asked: Option<nat>): (n: nat)
    ensures 1 <= n <= 200
  {
    var n := if asked.None? then 50 else asked.value;
    if n < 1 then 1 else if n > 200 then 200 else n
  }

  function Entries(log: Log, org: nat): set<Id> { set id | id in log && log[id] == org }

  predicate Before(id: Id, cursor: Option<Id>) { cursor.None? || id < cursor.value }

  function Below(ids: set<Id>, cursor: Option<Id>): set<Id> { set id | id in ids && Before(id, cursor) }

  /** `WHERE organization_id = $1 AND id < $2 ORDER BY id DESC LIMIT $3`. */
  function Page(log: Log, org: nat, cursor: Option<Id>, asked: Option<nat>): seq<Id> {
    var all := Descending(Below(Entries(log, org), cursor));
    if |all| <= PageSize(asked) then all else all[..PageSize(asked)]
  }

  /** The log as request `k` finds it; later requests find the last state. */
  function LogAt(logs: seq<Log>, k: nat): Log
    requires logs != []
  {
    if k < |logs| then logs[k] else logs[|logs| - 1]
  }

  /** Entries are only ever added. */
  ghost predicate Growing(logs: seq<Log>) {
    forall i, j :: 0 <= i < j < |logs| ==> Extends(logs[i], logs[j])
  }

  ghost predicate Extends(log: Log, later: Log) {
    forall id :: id in log ==> id in later && later[id] == log[id]
  }

  /** How many entries the reader may still meet. */
  function Ahead(logs: seq<Log>, org: nat, cursor: Option<Id>): nat
    requires logs != []
  {
    |Below(Entries(logs[|logs| - 1], org), cursor)|
  }

  /** All pages from request `k` on, put together. */
  function Follow(logs: seq<Log>, org: nat, k: nat, cursor: Option<Id>, asked: Option<nat>): seq<Id>
    requires logs != [] && Growing(logs)
    decreases Ahead(logs, org, cursor)
  {
    var page := Page(LogAt(logs, k), org, cursor, asked);
    if |page| < PageSize(asked) then page
    else
      PageShrinks(logs, org, k, cursor, asked);
      page + Follow(logs, org, k + 1, Some(page[|page| - 1]), asked)
  }

  // ---------------------------------------------------------------------- one page

  lemma StrictlySmaller(a: set<Id>, b: set<Id>, x: Id)
    requires a <= b && x in b && x !in a
    ensures |a| < |b|
  {
    SubsetIsSmaller(a, b - {x});
  }

  lemma Grows(logs: seq<Log>, org: nat, i: nat, j: nat)
    requires logs != [] && Growing(logs) && i <= j
    ensures Entries(LogAt(logs, i), org) <= Entries(LogAt(logs, j), org)
    ensures Entries(LogAt(logs, i), org) <= Entries(logs[|logs| - 1], org)
  {
  }

  lemma PageShrinks(logs: seq<Log>, org: nat, k: nat, cursor: Option<Id>, asked: Option<nat>)
    requires logs != [] && Growing(logs) && |Page(LogAt(logs, k), org, cursor, asked)| >= PageSize(asked)
    ensures var page := Page(LogAt(logs, k), org, cursor, asked);
            page != [] && Ahead(logs, org, Some(page[|page| - 1])) < Ahead(logs, org, cursor)
  {
    var page := Page(LogAt(logs, k), org, cursor, asked);
    var last := Entries(logs[|logs| - 1], org);
    var c := page[|page| - 1];
    PageIs(LogAt(logs, k), org, cursor, asked);
    hide Page;
    assert c in page;
    Grows(logs, org, k, k);
    StrictlySmaller(Below(last, Some(c)), Below(last, cursor), c);
  }

  /**
    A page is in descending order, holds only the organization's entries before
    the cursor, leaves out none above its own last entry, and when it is short
    leaves out none at all.
   */
  lemma PageIs(log: Log, org: nat, cursor: Option<Id>, asked: Option<nat>)
    ensures var page := Page(log, org, cursor, asked);
            && IsDescending(page) && |page| <= PageSize(asked)
            && (forall x :: x in page ==> x in Entries(log, org) && Before(x, cursor))
            && (|page| < PageSize(asked) ==> forall x :: x in Below(Entries(log, org), cursor) ==> x in page)
            && (page != [] ==> forall x :: x in Below(Entries(log, org), cursor) && x >= page[|page| - 1] ==> x in page)
  {
    var all := Descending(Below(Entries(log, org), cursor));
    var page := Page(log, org, cursor, asked);
    hide Descending;
    forall x | x in page ensures x in all {}
    if |all| > PageSize(asked) {
      forall x | x in all && x >= page[|page| - 1] ensures x in page {
        var i :| 0 <= i < |all| && all[i] == x;
        DescendingOrder(all, |page| - 1, i);
        assert page[i] == x;
      }
    }
  }

  lemma DescendingOrder(a: seq<nat>, i: nat, j: nat)
    requires IsDescending(a) && i < |a| && j < |a|
    ensures a[i] > a[j] <==> i < j
  {
  }

  /** Entries remain after a page exactly when there are more than 50, or than the limit asked for if it is 1 to 200. */
  lemma MoreRemainIff(log: Log, org: nat, cursor: Option<Id>, asked: Option<nat>)
    ensures var below := set id | id in log && log[id] == org && (cursor.None? || id < cursor.value);
            var page := Page(log, org, cursor, asked);
            var limit := match asked case None => 50 case Some(n) => (if n == 0 then 1 else if n <= 200 then n else 200);
            && ((exists x :: x in below && x !in page) <==> |below| > limit)
            && |page| == if |below| > limit then limit else |below|
  {
    assert (set id | id in log && log[id] == org && (cursor.None? || id < cursor.value)) == Below(Entries(log, org), cursor);
    var below := Below(Entries(log, org), cursor);
    var all := Descending(below);
    hide Descending, Below;
    if |below| > PageSize(asked) {
      var x := all[PageSize(asked)];
      assert x in all && x in below;
      forall i | 0 <= i < PageSize(asked) ensures all[i] != x { assert all[i] > all[PageSize(asked)]; }
    }
  }

  // --------------------------------------------------------------------- all pages

  lemma JoinDescending(a: seq<nat>, b: seq<nat>)
    requires IsDescending(a) && IsDescending(b) && a != [] && forall x :: x in b ==> x < a[|a| - 1]
    ensures IsDescending(a + b)
  {
    forall i, j | 0 <= i < j < |a + b| ensures (a + b)[i] > (a + b)[j] {
      if i < |a| <= j {
        assert b[j - |a|] in b;
        if i < |a| - 1 { assert a[i] > a[|a| - 1]; }
      }
    }
  }

  /** Whatever is added meanwhile: in order, each once, only real entries, and none of the old ones missing. */
  lemma {:induction false} FollowIs(logs: seq<Log>, org: nat, k: nat, cursor: Option<Id>, asked: Option<nat>)
    requires logs != [] && Growing(logs)
    ensures var all := Follow(logs, org, k, cursor, asked);
            && IsDescending(all)
            && (forall x :: x in all ==> x in Entries(logs[|logs| - 1], org) && Before(x, cursor))
            && (forall x :: x in Below(Entries(LogAt(logs, k), org), cursor) ==> x in all)
    decreases Ahead(logs, org, cursor)
  {
    hide Page, Entries, PageSize, Growing, LogAt, IsDescending, Ahead;
    var page := Page(LogAt(logs, k), org, cursor, asked);
    PageIs(LogAt(logs, k), org, cursor, asked);
    Grows(logs, org, k, k + 1);
    if |page| >= PageSize(asked) {
      PageShrinks(logs, org, k, cursor, asked);
      var c := page[|page| - 1];
      assert c in page;
      var rest := Follow(logs, org, k + 1, Some(c), asked);
      FollowIs(logs, org, k + 1, Some(c), asked);
      JoinDescending(page, rest);
      forall x | x in Below(Entries(LogAt(logs, k), org), cursor) ensures x in page + rest {
        if x < c { assert x in Below(Entries(LogAt(logs, k + 1), org), Some(c)); }
      }
      assert Follow(logs, org, k, cursor, asked) == page + rest;
    }
  }

  ghost predicate HasIntruder(log: Log, first: Log, org: nat, cursor: Option<Id>) {
    exists x :: x in Below(Entries(log, org), cursor) && x !in Entries(first, org)
  }

  /** The cursors of all requests from request `k` on. */
  function Cursors(logs: seq<Log>, org: nat, k: nat, cursor: Option<Id>, asked: Option<nat>): seq<Option<Id>>
    requires logs != [] && Growing(logs)
    decreases Ahead(logs, org, cursor)
  {
    var page := Page(LogAt(logs, k), org, cursor, asked);
    if |page| < PageSize(asked) then [cursor]
    else
      PageShrinks(logs, org, k, cursor, asked);
      [cursor] + Cursors(logs, org, k + 1, Some(page[|page| - 1]), asked)
  }

  /** Some request finds, below its cursor, an entry that was not there at the first request. */
  ghost predicate Intrudes(logs: seq<Log>, org: nat, k: nat, cursor: Option<Id>, asked: Option<nat>)
    requires logs != [] && Growing(logs)
  {
    var cursors := Cursors(logs, org, k, cursor, asked);
    exists i :: 0 <= i < |cursors| && HasIntruder(LogAt(logs, k + i), logs[0], org, cursors[i])
  }

  lemma IntrudesUnfold(logs: seq<Log>, org: nat, k: nat, cursor: Option<Id>, asked: Option<nat>)
    requires logs != [] && Growing(logs)
    ensures var page := Page(LogAt(logs, k), org, cursor, asked);
            Intrudes(logs, org, k, cursor, asked) <==>
              (|| HasIntruder(LogAt(logs, k), logs[0], org, cursor)
               || (|page| >= PageSize(asked) && Intrudes(logs, org, k + 1, Some(page[|page| - 1]), asked)))
  {
    hide Page, HasIntruder, Growing, LogAt, Ahead, PageSize;
    var page := Page(LogAt(logs, k), org, cursor, asked);
    var cursors := Cursors(logs, org, k, cursor, asked);
    assert cursors[0] == cursor;
    if |page| >= PageSize(asked) {
      PageShrinks(logs, org, k, cursor, asked);
      var rest := Cursors(logs, org, k + 1, Some(page[|page| - 1]), asked);
      assert cursors == [cursor] + rest;
      FirstOrRest(logs, org, k, cursors, rest);
    }
  }

  lemma FirstOrRest(logs: seq<Log>, org: nat, k: nat, cursors: seq<Option<Id>>, rest: seq<Option<Id>>)
    requires logs != [] && cursors != [] && rest == cursors[1..]
    ensures (exists i :: 0 <= i < |cursors| && HasIntruder(LogAt(logs, k + i), logs[0], org, cursors[i])) <==>
              (|| HasIntruder(LogAt(logs, k), logs[0], org, cursors[0])
               || exists i :: 0 <= i < |rest| && HasIntruder(LogAt(logs, k + 1 + i), logs[0], org, rest[i]))
  {
    hide HasIntruder, LogAt;
    if i :| 0 <= i < |cursors| && HasIntruder(LogAt(logs, k + i), logs[0], org, cursors[i]) {
      if i > 0 { assert rest[i - 1] == cursors[i] && k + 1 + (i - 1) == k + i; }
    }
    if i :| 0 <= i < |rest| && HasIntruder(LogAt(logs, k + 1 + i), logs[0], org, rest[i]) {
      assert cursors[i + 1] == rest[i] && k + 1 + i == k + (i + 1);
    }
  }

  /** The pages hold a later entry exactly when, at some request, one was below the cursor. */
  lemma {:induction false} IntrudersAreSeen(logs: seq<Log>, org: nat, k: nat, cursor: Option<Id>, asked: Option<nat>)
    requires logs != [] && Growing(logs)
    ensures Intrudes(logs, org, k, cursor, asked) <==>
              exists x :: x in Follow(logs, org, k, cursor, asked) && x !in Entries(logs[0], org)
    decreases Ahead(logs, org, cursor)
  {
    hide Page, Entries, PageSize, Growing, LogAt, Intrudes;
    var page := Page(LogAt(logs, k), org, cursor, asked);
    PageIs(LogAt(logs, k), org, cursor, asked);
    IntrudesUnfold(logs, org, k, cursor, asked);
    FollowIs(logs, org, k, cursor, asked);
    if |page| >= PageSize(asked) {
      PageShrinks(logs, org, k, cursor, asked);
      IntrudersAreSeen(logs, org, k + 1, Some(page[|page| - 1]), asked);
    }
  }

  /**
    The pages are exactly the entries present at the first request, newest id
    first, each once, if and only if no request finds a later entry below its
    cursor.
   */
  lemma PagesAreTheFirstSnapshotIff(logs: seq<Log>, org: nat, asked: Option<nat>)
    requires logs != [] && Growing(logs)
    ensures Follow(logs, org, 0, None, asked) == Descending(Entries(logs[0], org)) <==> !Intrudes(logs, org, 0, None, asked)
  {
    hide Follow, Intrudes, Entries, Growing, Descending, Below, IsDescending;
    var all, first := Follow(logs, org, 0, None, asked), Entries(logs[0], org);
    FollowIs(logs, org, 0, None, asked);
    EverythingIsBelow(first);
    IntrudersAreSeen(logs, org, 0, None, asked);
    if !Intrudes(logs, org, 0, None, asked) {
      DescendingIsUnique(all, Descending(first));
    }
  }

  lemma EverythingIsBelow(ids: set<Id>)
    ensures Below(ids, None) == ids
  {
  }

  /** Entries added later have larger ids than all entries of the first request. */
  ghost predicate AppendsAbove(logs: seq<Log>, org: nat)
    requires logs != []
  {
    forall x, y :: x in Entries(logs[|logs| - 1], org) && x !in Entries(logs[0], org) && y in Entries(logs[0], org) ==> x > y
  }

  lemma {:induction false} NoIntruderBelow(logs: seq<Log>, org: nat, k: nat, cursor: Option<Id>, asked: Option<nat>)
    requires logs != [] && Growing(logs) && AppendsAbove(logs, org)
    requires if cursor.None? then k == 0 else cursor.value in Entries(logs[0], org)
    ensures !Intrudes(logs, org, k, cursor, asked)
    decreases Ahead(logs, org, cursor)
  {
    hide Page, Entries, PageSize, Growing, Intrudes;
    var page := Page(LogAt(logs, k), org, cursor, asked);
    PageIs(LogAt(logs, k), org, cursor, asked);
    IntrudesUnfold(logs, org, k, cursor, asked);
    Grows(logs, org, k, k);
    forall x | x in Below(Entries(LogAt(logs, k), org), cursor) ensures x in Entries(logs[0], org) {
      assert cursor.Some? ==> x < cursor.value;
    }
    if |page| >= PageSize(asked) {
      PageShrinks(logs, org, k, cursor, asked);
      assert page[|page| - 1] in page;
      NoIntruderBelow(logs, org, k + 1, Some(page[|page| - 1]), asked);
    }
  }

  /** With growing ids the reader gets a stable snapshot, for every limit. */
  lemma PagingIsStable(logs: seq<Log>, org: nat, asked: Option<nat>)
    requires logs != [] && Growing(logs) && AppendsAbove(logs, org)
    ensures Follow(logs, org, 0, None, asked) == Descending(Entries(logs[0], org))
  {
    hide Follow, Intrudes, Entries, Growing, Descending;
    NoIntruderBelow(logs, org, 0, None, asked);
    PagesAreTheFirstSnapshotIff(logs, org, asked);
  }

  /**
    The ids are random, so the order of ids is not the order of time: any entry
    that is added after a full first page with an id below its last one ends up
    in a later page.
   */
  lemma LaterEntryCanIntrude(logs: seq<Log>, org: nat, asked: Option<nat>, x: Id)
    requires |logs| >= 2 && Growing(logs) && x in Entries(logs[1], org) && x !in Entries(logs[0], org)
    requires var page := Page(logs[0], org, None, asked);
             |page| == PageSize(asked) && x < page[|page| - 1]
    ensures Follow(logs, org, 0, None, asked) != Descending(Entries(logs[0], org))
  {
    hide Page, Follow, Descending, Entries, Growing, Intrudes;
    var page := Page(logs[0], org, None, asked);
    PageShrinks(logs, org, 0, None, asked);
    assert x in Below(Entries(logs[1], org), Some(page[|page| - 1]));
    assert HasIntruder(LogAt(logs, 1), logs[0], org, Some(page[|page| - 1]));
    IntrudesUnfold(logs, org, 0, None, asked);
    IntrudesUnfold(logs, org, 1, Some(page[|page| - 1]), asked);
    PagesAreTheFirstSnapshotIff(logs, org, asked);
  }
}
