/**
  What an undisturbed run counts, row by row, and what a dry run therefore tells
  about the apply run that follows it.
 */
module MigrationRehearsal {
  import opened Ordering
  import opened Uuids
  import opened SecretModel
  import opened MigrationModel
  import opened MigrationProofs
  import opened MigrationMeaning

  /** How many visited rows are in `rows`. */
  function Hits(visited: seq<Uuid>, rows: set<Uuid>): nat {
    if visited == [] then 0
    else Hits(visited[..|visited| - 1], rows) + if visited[|visited| - 1] in rows then 1 else 0
  }

  lemma HitsSnoc(visited: seq<Uuid>, id: Uuid, rows: set<Uuid>)
    ensures Hits(visited + [id], rows) == Hits(visited, rows) + if id in rows then 1 else 0
  {
    assert (visited + [id])[..|visited|] == visited;
  }

  lemma {:induction false} HitsCount(visited: seq<Uuid>, rows: set<Uuid>)
    requires Ascending(visited)
    ensures Hits(visited, rows) == |IdSet(visited) * rows|
    ensures |visited| - Hits(visited, rows) == |IdSet(visited) - rows|
    decreases |visited|
  {
    if visited == [] {
      assert IdSet(visited) == {};
    } else {
      var n := |visited| - 1;
      var front, last := visited[..n], visited[n];
      HitsCount(front, rows);
      FrontOf(visited);
      SetSnoc(IdSet(front), last, rows);
    }
  }

  lemma FrontOf(visited: seq<Uuid>)
    requires Ascending(visited) && visited != []
    ensures var n := |visited| - 1;
            && Ascending(visited[..n]) && visited[n] !in IdSet(visited[..n])
            && IdSet(visited) == IdSet(visited[..n]) + {visited[n]}
  {
    var n := |visited| - 1;
    assert visited == visited[..n] + [visited[n]];
  }

  lemma SetSnoc(a: set<Uuid>, x: Uuid, rows: set<Uuid>)
    requires x !in a
    ensures |(a + {x}) * rows| == |a * rows| + if x in rows then 1 else 0
    ensures |(a + {x}) - rows| == |a - rows| + if x in rows then 0 else 1
  {
    if x in rows {
      assert (a + {x}) * rows == a * rows + {x} && (a + {x}) - rows == a - rows;
    } else {
      assert (a + {x}) * rows == a * rows && (a + {x}) - rows == a - rows + {x};
    }
  }

  // ---------------------------------------------------------------- undisturbed runs

  /** Successes, of whichever kind the mode counts. */
  function Succeeded(log: Log, job: Job): nat { if job.apply then log.migrated else log.skipped }

  /** The rows an apply run took out of the listing. */
  function Taken(s: State, job: Job, readable: set<Uuid>): set<Uuid> {
    if job.apply then IdSet(s.log.visited) * readable else {}
  }

  /** The counters and the listing, read off the visited rows and what was readable at the start. */
  ghost predicate Tallied(d: Disk, s: State, job: Job) {
    var readable := Readable(d, job.cfg);
    && Succeeded(s.log, job) == Hits(s.log.visited, readable)
    && s.log.errors == |s.log.visited| - Hits(s.log.visited, readable)
    && CandidateIds(s.disk.rows) == CandidateIds(d.rows) - Taken(s, job, readable)
    && forall id :: id in CandidateIds(s.disk.rows) ==> (id in Readable(s.disk, job.cfg) <==> id in readable)
  }

  /** A dry run opens the row as well: it succeeds exactly when the row opens. */
  lemma CalmDryVisit(s: State, job: Job, id: Uuid)
    requires Calm(job.sky) && !job.apply && id in Candidates(s.disk)
    ensures var t := Visit(s, job, id);
            && t.disk == s.disk && t.log.visited == s.log.visited + [id]
            && (if id in Readable(s.disk, job.cfg) then t.log.skipped == s.log.skipped + 1 && t.log.errors == s.log.errors
                else t.log.skipped == s.log.skipped && t.log.errors == s.log.errors + 1)
  {
    hide VaultKeyName, OpenEnvelope, Sorted, Seal;
  }

  lemma VisitTallies(d: Disk, s: State, job: Job, id: Uuid)
    requires Calm(job.sky) && id in Candidates(s.disk) && Tallied(d, s, job)
    ensures Tallied(d, Visit(s, job, id), job)
  {
    hide Hits, Readable, Calm, Visit, Candidates, CandidateIds;
    VisitLogs(s, job, id);
    HitsSnoc(s.log.visited, id, Readable(d, job.cfg));
    CandidateInSet(s.disk, id);
    if job.apply {
      ApplyTallies(s, job, id);
      TakenSnoc(s.log.visited, id, Readable(d, job.cfg));
    } else {
      CalmDryVisit(s, job, id);
    }
  }

  lemma CandidateInSet(d: Disk, id: Uuid)
    ensures id in Candidates(d) <==> id in CandidateIds(d.rows)
  {
    hide Sorted;
  }

  /** One row of an undisturbed apply run, in sets. */
  lemma ApplyTallies(s: State, job: Job, id: Uuid)
    requires Calm(job.sky) && job.apply && id in Candidates(s.disk)
    ensures var t := Visit(s, job, id);
            var gone := if id in Readable(s.disk, job.cfg) then {id} else {};
            && CandidateIds(t.disk.rows) == CandidateIds(s.disk.rows) - gone
            && Readable(t.disk, job.cfg) == Readable(s.disk, job.cfg) - gone
            && t.log.migrated == s.log.migrated + |gone| && t.log.errors == s.log.errors + 1 - |gone|
  {
    hide Readable, Calm, Visit, Candidates, CandidateIds, Sorted;
    CalmVisit(s, job, id);
    CandidatesAre(Visit(s, job, id).disk, CandidateIds(s.disk.rows) - {id});
  }

  lemma VisitLogs(s: State, job: Job, id: Uuid)
    ensures Visit(s, job, id).log.visited == s.log.visited + [id]
  {
    hide MigrateRow;
  }

  lemma TakenSnoc(visited: seq<Uuid>, id: Uuid, readable: set<Uuid>)
    ensures IdSet(visited + [id]) * readable == IdSet(visited) * readable + (if id in readable then {id} else {})
  {
  }

  lemma CandidatesAre(d: Disk, ids: set<Uuid>)
    ensures Candidates(d) == Sorted(ids) ==> CandidateIds(d.rows) == ids
  {
    if Candidates(d) == Sorted(ids) {
      forall x ensures x in CandidateIds(d.rows) <==> x in ids { assert x in Candidates(d) <==> x in Sorted(ids); }
    }
  }

  lemma {:induction false} VisitAllTallies(d: Disk, s: State, job: Job, ids: seq<Uuid>)
    requires Calm(job.sky) && Ascending(ids) && (forall id :: id in ids ==> id in Candidates(s.disk)) && Tallied(d, s, job)
    ensures Tallied(d, VisitAll(s, job, ids), job)
    decreases |ids|
  {
    hide Visit, Candidates, Tallied, Calm;
    if ids != [] {
      var u := Visit(s, job, ids[0]);
      VisitTallies(d, s, job, ids[0]);
      RestOf(ids);
      VisitTakes(s, job, ids[0]);
      forall id | id in ids[1..] ensures id in Candidates(u.disk) {
        assert id in CandidateIds(s.disk.rows) - {ids[0]};
      }
      VisitAllTallies(d, u, job, ids[1..]);
    }
  }

  lemma TickTallies(d: Disk, s: State, job: Job)
    requires Tallied(d, s, job)
    ensures Tallied(d, Tick(s), job)
  {
    hide Readable, CandidateIds;
  }

  lemma {:induction false} PagesTally(d: Disk, s: State, job: Job, offset: nat)
    requires Calm(job.sky) && job.batchSize > 0 && Tallied(d, s, job)
    ensures var r := Pages(s, job, offset); r.completed && Tallied(d, r.state, job)
    decreases if offset < |Candidates(s.disk)| then |Candidates(s.disk)| - offset else 0
  {
    hide Candidates, VisitAll, Page, Tallied, CandidateIds;
    var page := Page(Candidates(s.disk), job.batchSize, offset);
    PageIsSlice(Candidates(s.disk), job.batchSize, offset);
    CalmFetch(job.sky, s.log.clock);
    TickTallies(d, s, job);
    if page != [] {
      VisitAllTallies(d, Tick(s), job, page);
      VisitAllShrinks(Tick(s), job, page);
      PagesTally(d, VisitAll(Tick(s), job, page), job, offset + |page|);
    }
  }

  lemma NothingTallies(d: Disk, job: Job)
    ensures Tallied(d, State(d, Log(0, 0, 0, [], 0)), job)
  {
    hide Readable, CandidateIds;
    assert IdSet([]) == {};
  }

  lemma RunTallies(d: Disk, job: Job)
    requires Calm(job.sky) && job.batchSize > 0
    ensures var r := MigrationRun(d, job); r.completed && Tallied(d, r.state, job)
  {
    hide Candidates, Pages, Tallied;
    var s := State(d, Log(0, 0, 0, [], 0));
    NothingTallies(d, job);
    TickTallies(d, s, job);
    CalmFetch(job.sky, 0);
    PagesTally(d, Tick(s), job, 0);
  }

  /**
    An undisturbed run, dry or not, counts one success for each visited row that
    opens under the KEK and one error for each that does not; applying it takes
    exactly the visited rows that open out of the listing.
   */
  lemma CalmRunCounts(d: Disk, job: Job)
    requires Calm(job.sky) && job.batchSize > 0
    ensures var r := MigrationRun(d, job);
            var visited := IdSet(r.state.log.visited);
            && r.completed
            && Succeeded(r.state.log, job) == |visited * Readable(d, job.cfg)|
            && r.state.log.errors == |visited - Readable(d, job.cfg)|
            && CandidateIds(r.state.disk.rows) == CandidateIds(d.rows) - Taken(r.state, job, Readable(d, job.cfg))
  {
    hide MigrationRun, Readable, CandidateIds;
    RunTallies(d, job);
    EachRowIsVisitedAtMostOnce(d, job);
    HitsCount(MigrationRun(d, job).state.log.visited, Readable(d, job.cfg));
  }

  /**
    The rehearsal is truthful: an undisturbed dry run counts every readable
    candidate as skipped and every other as an error, and exits with 0 if and
    only if every candidate opens under the KEK.
   */
  lemma DryRunTellsReadability(d: Disk, job: Job)
    requires Calm(job.sky) && !job.apply && job.batchSize > 0
    ensures var r := MigrationRun(d, job);
            && r.state.disk == d && r.state.log.migrated == 0
            && r.state.log.skipped == |Readable(d, job.cfg)|
            && r.state.log.errors == |CandidateIds(d.rows) - Readable(d, job.cfg)|
            && (ExitCode(r) == 0 <==>
                  forall id :: id in d.rows && d.rows[id].algorithm.PgpSym? ==> OpenEnvelope(d.rows[id], job.cfg.kek).Some?)
  {
    hide MigrationRun, OpenEnvelope, Sorted;
    var r := MigrationRun(d, job);
    CalmRunCounts(d, job);
    DryRunVisitsEverything(d, job);
    MigrationAccounting(d, job);
    ReadableAreCandidates(d, job.cfg);
    assert IdSet(r.state.log.visited) == CandidateIds(d.rows);
    assert CandidateIds(d.rows) * Readable(d, job.cfg) == Readable(d, job.cfg);
    var stuck := CandidateIds(d.rows) - Readable(d, job.cfg);
    assert |stuck| == 0 <==> stuck == {};
    assert forall id :: id in stuck <==> id in d.rows && d.rows[id].algorithm.PgpSym? && OpenEnvelope(d.rows[id], job.cfg.kek).None?;
  }

  /**
    The apply run after the rehearsal: each row it visits stays a candidate if and
    only if the rehearsal could not open it, it never counts more errors than the
    rehearsal, exactly as many when everything fits one batch, and a second
    rehearsal finds the same number of unreadable rows.
   */
  lemma RehearsalForecasts(d: Disk, dry: Job, job: Job)
    requires Calm(dry.sky) && !dry.apply && dry.batchSize > 0
    requires Calm(job.sky) && job.apply && job.batchSize > 0 && job.cfg == dry.cfg
    ensures var forecast, r := MigrationRun(d, dry).state.log, MigrationRun(d, job);
            && (forall id :: id in r.state.log.visited ==>
                  id in d.rows && (id in Candidates(r.state.disk) <==> OpenEnvelope(d.rows[id], job.cfg.kek).None?))
            && r.state.log.errors <= forecast.errors && r.state.log.migrated <= forecast.skipped
            && (|Candidates(d)| <= job.batchSize ==>
                  r.state.log.errors == forecast.errors && r.state.log.migrated == forecast.skipped)
            && MigrationRun(r.state.disk, dry).state.log.errors == forecast.errors
  {
    hide MigrationRun, OpenEnvelope, Candidates, Calm, Readable, CandidateIds;
    forall id | id in MigrationRun(d, job).state.log.visited
      ensures id in d.rows && (id in Candidates(MigrationRun(d, job).state.disk) <==> OpenEnvelope(d.rows[id], job.cfg.kek).None?)
    {
      VisitedRowStaysIff(d, job, id);
    }
    DryRunTellsReadability(d, dry);
    DryRunTellsReadability(MigrationRun(d, job).state.disk, dry);
    CalmRunProgresses(d, job);
    ApplyRunInNumbers(d, job);
  }

  lemma VisitedRowStaysIff(d: Disk, job: Job, id: Uuid)
    requires Calm(job.sky) && job.apply && job.batchSize > 0 && id in MigrationRun(d, job).state.log.visited
    ensures id in d.rows
    ensures id in Candidates(MigrationRun(d, job).state.disk) <==> OpenEnvelope(d.rows[id], job.cfg.kek).None?
  {
    hide MigrationRun, OpenEnvelope, Sorted, Calm;
    CalmRunCounts(d, job);
    VisitedIn(d, job);
  }

  lemma ApplyRunInNumbers(d: Disk, job: Job)
    requires Calm(job.sky) && job.apply && job.batchSize > 0
    ensures var log, readable := MigrationRun(d, job).state.log, Readable(d, job.cfg);
            && log.migrated <= |readable| && log.errors <= |CandidateIds(d.rows) - readable|
            && (|Candidates(d)| <= job.batchSize ==>
                  log.migrated == |readable| && log.errors == |CandidateIds(d.rows) - readable|)
  {
    hide MigrationRun, Readable, CandidateIds, Candidates, Calm;
    var visited, readable := IdSet(MigrationRun(d, job).state.log.visited), Readable(d, job.cfg);
    CalmRunCounts(d, job);
    VisitedIn(d, job);
    ReadableAreCandidates(d, job.cfg);
    SubsetIsSmaller(visited * readable, readable);
    SubsetIsSmaller(visited - readable, CandidateIds(d.rows) - readable);
    if |Candidates(d)| <= job.batchSize {
      OneBatchVisitsAll(d, job);
      assert CandidateIds(d.rows) * readable == readable;
    }
  }

  lemma VisitedIn(d: Disk, job: Job)
    ensures IdSet(MigrationRun(d, job).state.log.visited) <= CandidateIds(d.rows)
    ensures forall id :: id in MigrationRun(d, job).state.log.visited ==> id in d.rows
  {
    hide MigrationRun, Sorted;
    EachRowIsVisitedAtMostOnce(d, job);
  }

  lemma OneBatchVisitsAll(d: Disk, job: Job)
    requires Calm(job.sky) && job.batchSize > 0 && |Candidates(d)| <= job.batchSize
    ensures IdSet(MigrationRun(d, job).state.log.visited) == CandidateIds(d.rows)
  {
    hide Sorted, VisitAll, Calm;
    var ids := Candidates(d);
    var s := Tick(State(d, Log(0, 0, 0, [], 0)));
    CalmFetch(job.sky, 0);
    if ids == [] {
      assert forall id :: id in CandidateIds(d.rows) ==> id in ids;
    } else {
      hide Candidates;
      assert Page(ids, job.batchSize, 0) == ids;
      CalmFetch(job.sky, s.log.clock);
      var t := VisitAll(Tick(s), job, ids);
      VisitAllLogs(Tick(s), job, ids);
      VisitAllShrinks(Tick(s), job, ids);
      PageBeyondTheEndLogs(t, job, |ids|);
      assert [] + ids == ids;
    }
  }

  lemma PageBeyondTheEndLogs(s: State, job: Job, offset: nat)
    requires offset >= |Candidates(s.disk)|
    ensures Pages(s, job, offset).state.log.visited == s.log.visited
  {
    hide Candidates;
  }
}
