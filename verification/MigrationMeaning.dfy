/**
  The migration never changes what a secret is, and running it again finishes
  the job even when some rows cannot be opened at all.
 */
module MigrationMeaning {
  import opened Environment
  import opened Ordering
  import opened Uuids
  import opened SecretModel
  import opened SecretRefinement
  import opened MigrationModel
  import opened MigrationProofs

  // -------------------------------------------------------------------- meaning

  /** The same secrets with the same plaintexts; a row may have moved to the transit engine. */
  ghost predicate SameSecrets(before: Book, after: Book) {
    && before.Keys == after.Keys
    && forall id :: id in before ==>
         after[id] == before[id] || MovedTo(before[id], after[id])
  }

  predicate MovedTo(before: Entry, after: Entry) {
    before.backend.PgpSym? && before.text.Some? && after == before.(backend := VaultTransit)
  }

  /** The state after visiting is sound, means the same, and used few transit counters. */
  ghost predicate Faithful(d: Disk, s: State, cfg: Config) {
    && Sound(s.disk, cfg)
    && SameSecrets(BookOf(d, cfg), BookOf(s.disk, cfg))
    && s.disk.vault.counter <= d.vault.counter + |s.log.visited|
  }

  lemma VisitIsFaithful(d: Disk, s: State, job: Job, id: Uuid)
    requires Faithful(d, s, job.cfg) && d.vault.counter + |s.log.visited| + 1 < U64
    ensures Faithful(d, Visit(s, job, id), job.cfg)
  {
    hide BookOf, Sound, MigrateRow;
    var h := HourAt(job.sky, s.log.clock);
    var op := Op.Migrate(id, h.read, h.env);
    if job.apply {
      MigrateRefines(s.disk, job.cfg, op);
    } else {
      DryRowChangesNothing(s.disk, job.cfg, id, h);
    }
  }

  lemma DryRowChangesNothing(d: Disk, cfg: Config, id: Uuid, h: Hour)
    ensures MigrateRow(d, cfg, Handle(id, OrgOf(d, id)), false, h.read, h.env).disk == d
  {
  }

  /** After any rows in any order, which covers a run that stops in the middle of a page. */
  lemma {:induction false} VisitAllIsFaithful(d: Disk, s: State, job: Job, ids: seq<Uuid>)
    requires Faithful(d, s, job.cfg) && d.vault.counter + |s.log.visited| + |ids| < U64
    ensures Faithful(d, VisitAll(s, job, ids), job.cfg)
    decreases |ids|
  {
    hide Faithful, MigrateRow;
    if ids != [] {
      VisitIsFaithful(d, s, job, ids[0]);
      VisitAllIsFaithful(d, Visit(s, job, ids[0]), job, ids[1..]);
    }
  }

  lemma TickIsFaithful(d: Disk, s: State, cfg: Config)
    requires Faithful(d, s, cfg)
    ensures Faithful(d, Tick(s), cfg)
  {
  }

  lemma {:induction false} PagesAreFaithful(d: Disk, s: State, job: Job, offset: nat, total: nat)
    requires Faithful(d, s, job.cfg) && |s.log.visited| == offset
    requires offset <= total && |Candidates(s.disk)| <= total && d.vault.counter + total < U64
    ensures Faithful(d, Pages(s, job, offset).state, job.cfg)
    decreases if offset < |Candidates(s.disk)| then |Candidates(s.disk)| - offset else 0
  {
    hide Candidates, VisitAll, Faithful, Page;
    TickIsFaithful(d, s, job.cfg);
    if HourAt(job.sky, s.log.clock).fetched && job.batchSize >= 0 {
      var page := Page(Candidates(s.disk), job.batchSize, offset);
      PageIsSlice(Candidates(s.disk), job.batchSize, offset);
      if page != [] {
        VisitAllShrinks(Tick(s), job, page);
        VisitAllLogs(Tick(s), job, page);
        VisitAllIsFaithful(d, Tick(s), job, page);
        PagesAreFaithful(d, VisitAll(Tick(s), job, page), job, offset + |page|, total);
      }
    }
  }

  /**
    Whatever fails and wherever the run stops, every secret keeps its tenant and
    its plaintext, and a row that left pgcrypto reads back through the Vault
    backend under the tenant's own key.
   */
  lemma MigrationPreservesMeaning(d: Disk, job: Job, calm: Weather)
    requires Sound(d, job.cfg) && d.vault.counter + |Candidates(d)| < U64
    requires calm.db.Clean? && calm.transit.Clean?
    ensures var e := MigrationRun(d, job).state.disk;
            && Sound(e, job.cfg) && e.rows.Keys == d.rows.Keys
            && forall id :: id in d.rows ==> ReadsAsBefore(d, e, job.cfg, id, calm)
  {
    hide Candidates, Pages, Sound, BookOf, ReadsAsBefore;
    var s := State(d, Log(0, 0, 0, [], 0));
    assert Faithful(d, s, job.cfg);
    TickIsFaithful(d, s, job.cfg);
    PagesAreFaithful(d, Tick(s), job, 0, |Candidates(d)|);
    assert Faithful(d, MigrationRun(d, job).state, job.cfg);
    FaithfulReads(d, MigrationRun(d, job).state, job.cfg, calm);
  }

  lemma FaithfulReads(d: Disk, s: State, cfg: Config, calm: Weather)
    requires Faithful(d, s, cfg) && calm.db.Clean? && calm.transit.Clean?
    ensures s.disk.rows.Keys == d.rows.Keys
    ensures forall id :: id in d.rows ==> ReadsAsBefore(d, s.disk, cfg, id, calm)
  {
    hide Sound, BookOf, Decrypt, OpenEnvelope;
    var e := s.disk;
    BookHasTheSameIds(d, cfg);
    BookHasTheSameIds(e, cfg);
    forall id | id in d.rows ensures id in e.rows && ReadsAsBefore(d, e, cfg, id, calm) {
      GetRefines(e, cfg, Get(VaultTransit, Handle(id, d.rows[id].org), calm));
    }
  }

  /** Row `id` has its tenant and plaintext, and if it moved the Vault backend returns that plaintext. */
  predicate ReadsAsBefore(d: Disk, e: Disk, cfg: Config, id: Uuid, calm: Weather)
    requires id in d.rows && e.rows.Keys == d.rows.Keys
  {
    && e.rows[id].org == d.rows[id].org
    && Meaning(e.rows[id], cfg, e.vault) == Meaning(d.rows[id], cfg, d.vault)
    && (e.rows[id].algorithm != d.rows[id].algorithm ==>
          && OpenEnvelope(d.rows[id], cfg.kek).Some?
          && GetVault(e, cfg, Handle(id, d.rows[id].org), calm) == Plaintext(OpenEnvelope(d.rows[id], cfg.kek).value))
  }

  // ------------------------------------------------------------------- progress

  predicate Calm(sky: seq<Hour>) {
    forall i :: 0 <= i < |sky| ==> sky[i] == Hour(true, Clean, Weather(Clean, Clean, Clean))
  }

  /** Candidates that open under the KEK. */
  function Readable(d: Disk, cfg: Config): set<Uuid> {
    set id | id in d.rows && d.rows[id].algorithm.PgpSym? && OpenEnvelope(d.rows[id], cfg.kek).Some?
  }

  /** With nothing failing, a row is migrated exactly when it opens. */
  lemma CalmVisit(s: State, job: Job, id: Uuid)
    requires Calm(job.sky) && job.apply && id in Candidates(s.disk)
    ensures var t := Visit(s, job, id);
            if id in Readable(s.disk, job.cfg) then
              && t.log.migrated == s.log.migrated + 1 && t.log.errors == s.log.errors
              && Readable(t.disk, job.cfg) == Readable(s.disk, job.cfg) - {id}
              && Candidates(t.disk) == Sorted(CandidateIds(s.disk.rows) - {id})
            else
              && t.log.migrated == s.log.migrated && t.log.errors == s.log.errors + 1
              && t.disk == s.disk
  {
    hide VaultKeyName, OpenEnvelope, Sorted, CiphertextText;
    var t := Visit(s, job, id);
    if id in Readable(s.disk, job.cfg) {
      CalmSeal(s.disk.vault, VaultKeyName(job.cfg.prefix, OrgOf(s.disk, id)), OpenEnvelope(s.disk.rows[id], job.cfg.kek).value);
      assert CandidateIds(t.disk.rows) == CandidateIds(s.disk.rows) - {id};
      assert Readable(t.disk, job.cfg) == Readable(s.disk, job.cfg) - {id};
    }
  }

  lemma CalmSeal(v: Vault, key: string, text: string)
    ensures Seal(v, key, text, Weather(Clean, Clean, Clean)).ciphertext.Some?
  {
    hide CiphertextText;
  }

  /** A calm page either migrates something or found only unreadable rows. */
  lemma {:induction false} CalmBatch(s: State, job: Job, ids: seq<Uuid>)
    requires Calm(job.sky) && job.apply && Ascending(ids) && forall id :: id in ids ==> id in Candidates(s.disk)
    ensures var t := VisitAll(s, job, ids);
            && Readable(t.disk, job.cfg) <= Readable(s.disk, job.cfg)
            && CandidateIds(s.disk.rows) - Readable(s.disk, job.cfg) == CandidateIds(t.disk.rows) - Readable(t.disk, job.cfg)
            && (if forall id :: id in ids ==> id !in Readable(s.disk, job.cfg) then t.disk == s.disk
                else |Readable(t.disk, job.cfg)| < |Readable(s.disk, job.cfg)|)
            && (t.log.errors == s.log.errors <==> forall id :: id in ids ==> id in Readable(s.disk, job.cfg))
    decreases |ids|
  {
    hide Visit, Candidates, Readable, CandidateIds, Calm;
    if ids != [] {
      var u := Visit(s, job, ids[0]);
      CalmVisitInNumbers(s, job, ids);
      RestOf(ids);
      CalmBatch(u, job, ids[1..]);
      ErrorsOnlyGrow(u, job, ids[1..]);
    }
  }

  lemma CalmVisitInNumbers(s: State, job: Job, ids: seq<Uuid>)
    requires Calm(job.sky) && job.apply && ids != [] && Ascending(ids)
    requires forall id :: id in ids ==> id in Candidates(s.disk)
    ensures var u := Visit(s, job, ids[0]);
            && (forall id :: id in ids[1..] ==> id in Candidates(u.disk))
            && (forall id :: id in ids[1..] ==> (id in Readable(u.disk, job.cfg) <==> id in Readable(s.disk, job.cfg)))
            && Readable(u.disk, job.cfg) <= Readable(s.disk, job.cfg)
            && CandidateIds(s.disk.rows) - Readable(s.disk, job.cfg) == CandidateIds(u.disk.rows) - Readable(u.disk, job.cfg)
            && (if ids[0] in Readable(s.disk, job.cfg)
                then |Readable(u.disk, job.cfg)| < |Readable(s.disk, job.cfg)| && u.log.errors == s.log.errors
                else u.disk == s.disk && u.log.errors > s.log.errors)
  {
    hide Visit, OpenEnvelope, Sorted, Calm;
    CalmVisit(s, job, ids[0]);
    RestOf(ids);
    var u := Visit(s, job, ids[0]);
    assert forall id :: id in Readable(s.disk, job.cfg) ==> id in CandidateIds(s.disk.rows);
    if ids[0] in Readable(s.disk, job.cfg) {
      assert forall id :: id in Candidates(u.disk) <==> id in CandidateIds(u.disk.rows);
      assert CandidateIds(u.disk.rows) == CandidateIds(s.disk.rows) - {ids[0]};
      assert Readable(u.disk, job.cfg) == Readable(s.disk, job.cfg) - {ids[0]};
      assert |Readable(u.disk, job.cfg)| == |Readable(s.disk, job.cfg)| - 1;
    }
  }

  /** Unreadable candidates stay candidates. */
  ghost predicate OnlyReadableLeave(d: Disk, e: Disk, cfg: Config) {
    && Readable(e, cfg) <= Readable(d, cfg)
    && CandidateIds(d.rows) - Readable(d, cfg) == CandidateIds(e.rows) - Readable(e, cfg)
  }

  /** What one calm page does, with `CalmBatch` read at the page boundaries. */
  lemma CalmPage(s: State, job: Job, offset: nat)
    requires Calm(job.sky) && job.apply && job.batchSize > 0
    ensures var page := Page(Candidates(s.disk), job.batchSize, offset);
            var t := VisitAll(Tick(s), job, page);
            && (page == [] ==> offset >= |Candidates(s.disk)|)
            && (page != [] ==> offset < |Candidates(s.disk)| && |Candidates(t.disk)| <= |Candidates(s.disk)|)
            && OnlyReadableLeave(s.disk, t.disk, job.cfg)
            && (|Readable(t.disk, job.cfg)| >= |Readable(s.disk, job.cfg)| ==>
                  t.disk == s.disk && forall id :: id in page ==> id !in Readable(s.disk, job.cfg))
            && (CandidateIds(s.disk.rows) <= Readable(s.disk, job.cfg) ==> t.log.errors == s.log.errors)
  {
    hide Candidates, VisitAll, Readable, Page, Calm;
    var page := Page(Candidates(s.disk), job.batchSize, offset);
    PageIsSlice(Candidates(s.disk), job.batchSize, offset);
    VisitAllShrinks(Tick(s), job, page);
    CalmBatch(Tick(s), job, page);
    forall id | id in page ensures id in CandidateIds(s.disk.rows) { assert id in Candidates(s.disk); }
  }

  lemma {:induction false} CalmPagesKeepUnreadable(s: State, job: Job, offset: nat)
    requires Calm(job.sky) && job.apply && job.batchSize > 0
    ensures var r := Pages(s, job, offset);
            r.completed && OnlyReadableLeave(s.disk, r.state.disk, job.cfg)
    decreases if offset < |Candidates(s.disk)| then |Candidates(s.disk)| - offset else 0
  {
    hide Candidates, VisitAll, Readable, Page, CandidateIds;
    var ids := Candidates(s.disk);
    var page := Page(ids, job.batchSize, offset);
    CalmFetch(job.sky, s.log.clock);
    CalmPage(s, job, offset);
    if page != [] { CalmPagesKeepUnreadable(VisitAll(Tick(s), job, page), job, offset + |page|); }
  }

  lemma {:induction false} CalmPagesWithoutErrors(s: State, job: Job, offset: nat)
    requires Calm(job.sky) && job.apply && job.batchSize > 0 && CandidateIds(s.disk.rows) <= Readable(s.disk, job.cfg)
    ensures Pages(s, job, offset).state.log.errors == s.log.errors
    decreases if offset < |Candidates(s.disk)| then |Candidates(s.disk)| - offset else 0
  {
    hide Candidates, VisitAll, Readable, Page, CandidateIds;
    var ids := Candidates(s.disk);
    var page := Page(ids, job.batchSize, offset);
    CalmFetch(job.sky, s.log.clock);
    CalmPage(s, job, offset);
    if page != [] {
      NoneUnreadable(s.disk, VisitAll(Tick(s), job, page).disk, job.cfg);
      CalmPagesWithoutErrors(VisitAll(Tick(s), job, page), job, offset + |page|);
    }
  }

  /** While only unreadable rows were passed, the next page starts right behind them. */
  lemma {:induction false} CalmPagesProgress(s: State, job: Job, offset: nat)
    requires Calm(job.sky) && job.apply && job.batchSize > 0 && Readable(s.disk, job.cfg) != {}
    requires forall i :: 0 <= i < offset && i < |Candidates(s.disk)| ==>
               Candidates(s.disk)[i] !in Readable(s.disk, job.cfg)
    ensures |Readable(Pages(s, job, offset).state.disk, job.cfg)| < |Readable(s.disk, job.cfg)|
    decreases if offset < |Candidates(s.disk)| then |Candidates(s.disk)| - offset else 0
  {
    hide Candidates, VisitAll, Readable, Page, CandidateIds;
    var ids := Candidates(s.disk);
    var page := Page(ids, job.batchSize, offset);
    CalmFetch(job.sky, s.log.clock);
    CalmPage(s, job, offset);
    PageIsSlice(ids, job.batchSize, offset);
    ReadableAreCandidates(s.disk, job.cfg);
    assert page != [] by {
      var x :| x in Readable(s.disk, job.cfg);
      assert x in ids;
    }
    var t, end := VisitAll(Tick(s), job, page), offset + |page|;
    if t.disk == s.disk {
      forall i | 0 <= i < end && i < |ids| ensures ids[i] !in Readable(s.disk, job.cfg) {
        if i >= offset { assert page[i - offset] == ids[i]; }
      }
      CalmPagesProgress(t, job, end);
    } else {
      CalmPagesKeepUnreadable(t, job, end);
      SubsetIsSmaller(Readable(Pages(t, job, end).state.disk, job.cfg), Readable(t.disk, job.cfg));
    }
  }

  lemma CalmFetch(sky: seq<Hour>, t: nat)
    requires Calm(sky)
    ensures HourAt(sky, t).fetched
  {
  }

  lemma ReadableAreCandidates(d: Disk, cfg: Config)
    ensures Readable(d, cfg) <= CandidateIds(d.rows)
    ensures forall id :: id in Readable(d, cfg) ==> id in Candidates(d)
  {
    hide OpenEnvelope, Sorted;
  }

  lemma NoneUnreadable(d: Disk, e: Disk, cfg: Config)
    requires OnlyReadableLeave(d, e, cfg) && CandidateIds(d.rows) <= Readable(d, cfg)
    ensures CandidateIds(e.rows) <= Readable(e, cfg)
  {
    hide Readable, CandidateIds;
    assert CandidateIds(d.rows) - Readable(d, cfg) == {};
    forall id | id in CandidateIds(e.rows) && id !in Readable(e, cfg)
      ensures id in CandidateIds(e.rows) - Readable(e, cfg)
    {
    }
  }

  /** An undisturbed run makes progress while any readable row is left, and never drops an unreadable one. */
  lemma CalmRunProgresses(d: Disk, job: Job)
    requires Calm(job.sky) && job.apply && job.batchSize > 0
    ensures var r := MigrationRun(d, job);
            && r.completed && OnlyReadableLeave(d, r.state.disk, job.cfg)
            && (Readable(d, job.cfg) != {} ==> |Readable(r.state.disk, job.cfg)| < |Readable(d, job.cfg)|)
            && (CandidateIds(d.rows) <= Readable(d, job.cfg) ==> ExitCode(r) == 0)
  {
    hide Candidates, Pages, Readable;
    var s := Tick(State(d, Log(0, 0, 0, [], 0)));
    ReadableAreCandidates(d, job.cfg);
    CalmFetch(job.sky, 0);
    CalmPagesKeepUnreadable(s, job, 0);
    if Readable(d, job.cfg) != {} { CalmPagesProgress(s, job, 0); }
    if CandidateIds(d.rows) <= Readable(d, job.cfg) { CalmPagesWithoutErrors(s, job, 0); }
  }

  // ------------------------------------------------------------------------ halving

  ghost predicate NoneReadable(s: State, cfg: Config) {
    forall x :: x in s.log.visited ==> x !in Readable(s.disk, cfg)
  }

  /** In calm a visited row is never readable again: it was migrated, or never opened. */
  lemma {:induction false} CalmBatchSettles(s: State, job: Job, ids: seq<Uuid>)
    requires Calm(job.sky) && job.apply && Ascending(ids) && (forall id :: id in ids ==> id in Candidates(s.disk))
    requires NoneReadable(s, job.cfg)
    ensures NoneReadable(VisitAll(s, job, ids), job.cfg)
    decreases |ids|
  {
    hide Candidates, Readable, CandidateIds, Calm;
    if ids != [] {
      hide MigrateRow;
      var u := Visit(s, job, ids[0]);
      CalmVisitInNumbers(s, job, ids);
      CalmVisitSettles(s, job, ids[0]);
      RestOf(ids);
      CalmBatchSettles(u, job, ids[1..]);
    }
  }

  lemma CalmVisitSettles(s: State, job: Job, id: Uuid)
    requires Calm(job.sky) && job.apply && id in Candidates(s.disk) && NoneReadable(s, job.cfg)
    ensures NoneReadable(Visit(s, job, id), job.cfg)
  {
    hide Candidates, Readable, Calm, MigrateRow;
    CalmVisit(s, job, id);
  }

  lemma {:induction false} CalmPagesSettle(s: State, job: Job, offset: nat)
    requires Calm(job.sky) && job.apply && job.batchSize > 0 && NoneReadable(s, job.cfg)
    ensures NoneReadable(Pages(s, job, offset).state, job.cfg)
    decreases if offset < |Candidates(s.disk)| then |Candidates(s.disk)| - offset else 0
  {
    hide Candidates, VisitAll, Readable, Page, CandidateIds;
    var ids := Candidates(s.disk);
    var page := Page(ids, job.batchSize, offset);
    PageIsSlice(ids, job.batchSize, offset);
    CalmFetch(job.sky, s.log.clock);
    CalmPage(s, job, offset);
    if page != [] {
      CalmBatchSettles(Tick(s), job, page);
      CalmPagesSettle(VisitAll(Tick(s), job, page), job, offset + |page|);
    }
  }

  function IdSet(a: seq<Uuid>): set<Uuid> { set x | x in a }

  lemma {:induction false} AscendingCount(a: seq<Uuid>)
    requires Ascending(a)
    ensures |IdSet(a)| == |a|
    decreases |a|
  {
    if a == [] {
      assert IdSet(a) == {};
    } else {
      RestOf(a);
      AscendingCount(a[1..]);
      assert IdSet(a) == {a[0]} + IdSet(a[1..]) && a[0] !in IdSet(a[1..]);
    }
  }

  /**
    Counting: of the rows `left`, at most as many are unvisited as were migrated,
    and every readable row left is unvisited.
   */
  lemma HalfCount(visited: set<Uuid>, left: set<Uuid>, before: set<Uuid>, after: set<Uuid>)
    requires |left| <= |visited| && after <= before && after <= left && visited !! after && visited - before <= left
    ensures 2 * |after| <= |before|
  {
    var done, stuck := visited * before, visited - before;
    assert visited == done + stuck && done !! stuck;
    SubsetIsSmaller(after + stuck, left);
    assert |after + stuck| == |after| + |stuck|;
    SubsetIsSmaller(after + done, before);
    assert |after + done| == |after| + |done|;
  }

  /** An undisturbed run at least halves the readable candidates, whatever unreadable rows lie among them. */
  lemma CalmRunHalves(d: Disk, job: Job)
    requires Calm(job.sky) && job.apply && job.batchSize > 0
    ensures 2 * |Readable(MigrationRun(d, job).state.disk, job.cfg)| <= |Readable(d, job.cfg)|
  {
    hide Pages, Readable, CandidateIds, Sorted;
    var r := MigrationRun(d, job);
    var after := r.state.disk;
    var visited := IdSet(r.state.log.visited);
    CalmRunProgresses(d, job);
    MigrationAccounting(d, job);
    EachRowIsVisitedAtMostOnce(d, job);
    AscendingCount(r.state.log.visited);
    CalmFetch(job.sky, 0);
    CalmPagesSettle(Tick(State(d, Log(0, 0, 0, [], 0))), job, 0);
    ReadableAreCandidates(after, job.cfg);
    VisitedWereCandidates(d, r.state.log.visited);
    LeftOver(d, after, job.cfg, visited);
    CandidateCount(after);
    HalfCount(visited, CandidateIds(after.rows), Readable(d, job.cfg), Readable(after, job.cfg));
  }

  lemma VisitedWereCandidates(d: Disk, visited: seq<Uuid>)
    requires forall x :: x in visited ==> x in Candidates(d)
    ensures forall x :: x in visited ==> x in CandidateIds(d.rows)
  {
    hide Sorted;
  }

  lemma CandidateCount(d: Disk)
    ensures |Candidates(d)| == |CandidateIds(d.rows)|
  {
    hide Sorted;
  }

  lemma LeftOver(d: Disk, e: Disk, cfg: Config, visited: set<Uuid>)
    requires OnlyReadableLeave(d, e, cfg) && forall x :: x in visited ==> x in CandidateIds(d.rows)
    ensures visited - Readable(d, cfg) <= CandidateIds(e.rows)
  {
    hide Readable, CandidateIds;
    forall x | x in visited - Readable(d, cfg) ensures x in CandidateIds(e.rows) {
      assert x in CandidateIds(d.rows) - Readable(d, cfg);
    }
  }

  /** Undisturbed runs, more than log2 of the readable candidates, leave exactly the rows that cannot be opened. */
  lemma {:induction false} RerunsLeaveOnlyUnreadableRows(d: Disk, cfg: Config, jobs: seq<Job>)
    requires forall i :: 0 <= i < |jobs| ==>
               jobs[i].cfg == cfg && Calm(jobs[i].sky) && jobs[i].apply && jobs[i].batchSize > 0
    requires Pow2(|jobs|) > |Readable(d, cfg)|
    ensures CandidateIds(Reruns(d, jobs).rows) == CandidateIds(d.rows) - Readable(d, cfg)
    ensures Readable(Reruns(d, jobs), cfg) == {}
    decreases |jobs|
  {
    hide Readable, CandidateIds, MigrationRun, Calm;
    if jobs != [] {
      CalmRunProgresses(d, jobs[0]);
      CalmRunHalves(d, jobs[0]);
      RerunsLeaveOnlyUnreadableRows(MigrationRun(d, jobs[0]).state.disk, cfg, jobs[1..]);
    }
  }

  lemma {:induction false} CalmRunsExitZero(d: Disk, cfg: Config, jobs: seq<Job>)
    requires forall i :: 0 <= i < |jobs| ==>
               jobs[i].cfg == cfg && Calm(jobs[i].sky) && jobs[i].apply && jobs[i].batchSize > 0
    requires CandidateIds(d.rows) <= Readable(d, cfg)
    ensures AllExitZero(d, jobs)
    decreases |jobs|
  {
    hide Readable, CandidateIds, MigrationRun, Calm, ExitCode;
    if jobs != [] {
      CalmRunProgresses(d, jobs[0]);
      NoneUnreadable(d, MigrationRun(d, jobs[0]).state.disk, cfg);
      CalmRunsExitZero(MigrationRun(d, jobs[0]).state.disk, cfg, jobs[1..]);
    }
  }

  /** Over readable rows, `k` undisturbed runs finish the migration if and only if there are at most `(2^k - 1) * batch` rows. */
  lemma CalmRunsFinishIff(d: Disk, cfg: Config, jobs: seq<Job>, batch: nat)
    requires batch > 0 && CandidateIds(d.rows) <= Readable(d, cfg)
    requires forall i :: 0 <= i < |jobs| ==>
               jobs[i].cfg == cfg && Calm(jobs[i].sky) && jobs[i].apply && jobs[i].batchSize == batch
    ensures Candidates(Reruns(d, jobs)) == [] <==> |Candidates(d)| <= (Pow2(|jobs|) - 1) * batch
  {
    hide Readable, CandidateIds, Candidates, Calm, Reruns, AllExitZero;
    CalmRunsExitZero(d, cfg, jobs);
    RunsNeeded(d, jobs, batch);
  }
}
