/**
  What the migration loop achieves: exact accounting for every run, what an
  undisturbed run leaves behind, how many runs empty the table, and that no
  secret changes its meaning.
 */
module MigrationProofs {
  import opened Uuids
  import opened SecretModel
  import opened MigrationModel

  // -------------------------------------------------------------------- listing

  /** An ascending listing is determined by its elements. */
  lemma {:induction false} ListingIsUnique(a: seq<Uuid>, b: seq<Uuid>)
    requires Ascending(a) && Ascending(b) && forall x :: x in a <==> x in b
    ensures a == b
    decreases |a|
  {
    if a == [] {
      assert forall i :: 0 <= i < |b| ==> b[i] in a;
    } else {
      assert a[0] in a;
      assert b != [];
      assert b[0] in b;
      FirstIsLeast(a, b[0]);
      FirstIsLeast(b, a[0]);
      RestOf(a);
      RestOf(b);
      ListingIsUnique(a[1..], b[1..]);
      assert a == [a[0]] + a[1..] && b == [b[0]] + b[1..];
    }
  }

  lemma FirstIsLeast(a: seq<Uuid>, x: Uuid)
    requires Ascending(a) && x in a
    ensures a[0] <= x
  {
    var i :| 0 <= i < |a| && a[i] == x;
    if i > 0 { assert a[0] < a[i]; }
  }

  lemma RestOf(a: seq<Uuid>)
    requires Ascending(a) && a != []
    ensures Ascending(a[1..]) && forall x :: x in a[1..] <==> x in a && x != a[0]
  {
    forall x | x in a && x != a[0] ensures x in a[1..] {
      var i :| 0 <= i < |a| && a[i] == x;
      assert a[1..][i - 1] == x;
    }
    forall x | x in a[1..] ensures x != a[0] {
      var i :| 0 <= i < |a[1..]| && a[1..][i] == x;
      assert a[0] < a[i + 1];
    }
  }

  lemma PageIsSlice(ids: seq<Uuid>, batch: nat, offset: nat)
    requires Ascending(ids)
    ensures var page := Page(ids, batch, offset);
            && Ascending(page) && (forall id :: id in page ==> id in ids)
            && (page != [] ==> offset + |page| <= |ids| && page == ids[offset..offset + |page|])
            && (page == [] && batch > 0 ==> offset >= |ids|)
  {
  }

  // ----------------------------------------------------------------- accounting

  /** Rows handled since the start, and rows that left the listing, in numbers. */
  predicate Counted(s: State, job: Job, offset: nat, total: nat) {
    var left := |Candidates(s.disk)|;
    && offset == s.log.migrated + s.log.skipped + s.log.errors == |s.log.visited|
    && (if job.apply then s.log.skipped == 0 else s.log.migrated == 0)
    && left + s.log.migrated <= total <= left + s.log.migrated + s.log.errors
  }

  lemma VisitCounts(s: State, job: Job, id: Uuid, offset: nat, total: nat)
    requires Counted(s, job, offset, total) && id in Candidates(s.disk)
    ensures Counted(Visit(s, job, id), job, offset + 1, total)
    ensures var t := Visit(s, job, id);
            CandidateIds(t.disk.rows) == CandidateIds(s.disk.rows) || CandidateIds(t.disk.rows) == CandidateIds(s.disk.rows) - {id}
  {
    hide Sorted;
    VisitTakes(s, job, id);
    assert id in CandidateIds(s.disk.rows);
  }

  /** Which rows leave the listing when one is visited. */
  lemma VisitTakes(s: State, job: Job, id: Uuid)
    requires id in Candidates(s.disk)
    ensures var t := Visit(s, job, id);
            var gone := CandidateIds(t.disk.rows) == CandidateIds(s.disk.rows) - {id};
            && (gone || CandidateIds(t.disk.rows) == CandidateIds(s.disk.rows))
            && (t.log.migrated > s.log.migrated ==> gone)
            && (gone ==> t.log.migrated > s.log.migrated || t.log.errors > s.log.errors)
            && (!job.apply ==> t.disk == s.disk)
  {
    hide VaultKeyName, Seal, OpenEnvelope, Sorted;
    VisitRows(s, job, id);
  }

  lemma {:induction false} VisitAllCounts(s: State, job: Job, ids: seq<Uuid>, offset: nat, total: nat)
    requires Counted(s, job, offset, total) && Ascending(ids) && forall id :: id in ids ==> id in Candidates(s.disk)
    ensures Counted(VisitAll(s, job, ids), job, offset + |ids|, total)
    decreases |ids|
  {
    hide Visit, Candidates, Counted;
    if ids != [] {
      VisitCounts(s, job, ids[0], offset, total);
      RestOf(ids);
      forall id | id in ids[1..] ensures id in Candidates(Visit(s, job, ids[0]).disk) {
        assert id in CandidateIds(s.disk.rows) - {ids[0]};
      }
      VisitAllCounts(Visit(s, job, ids[0]), job, ids[1..], offset + 1, total);
    }
  }

  lemma {:induction false} PagesCount(s: State, job: Job, offset: nat, total: nat)
    requires Counted(s, job, offset, total)
    ensures var r := Pages(s, job, offset);
            && Counted(r.state, job, |r.state.log.visited|, total)
            && (r.completed && job.batchSize > 0 ==> |Candidates(r.state.disk)| <= |r.state.log.visited|)
    decreases if offset < |Candidates(s.disk)| then |Candidates(s.disk)| - offset else 0
  {
    hide Candidates, VisitAll, Page, Counted;
    TickCounts(s, job, offset, total);
    if HourAt(job.sky, s.log.clock).fetched && job.batchSize >= 0 {
      var page := Page(Candidates(s.disk), job.batchSize, offset);
      PageIsSlice(Candidates(s.disk), job.batchSize, offset);
      if page != [] {
        VisitAllShrinks(Tick(s), job, page);
        VisitAllCounts(Tick(s), job, page, offset, total);
        PagesCount(VisitAll(Tick(s), job, page), job, offset + |page|, total);
      }
    }
  }

  lemma TickCounts(s: State, job: Job, offset: nat, total: nat)
    requires Counted(s, job, offset, total)
    ensures Counted(Tick(s), job, |s.log.visited|, total) && |s.log.visited| == offset
  {
    hide Candidates;
  }

  /**
    Accounting of every run, whatever fails. The rows that left the listing are
    at least those counted as migrated and at most those counted as migrated or
    failed; and a completed run with a positive batch size leaves no more rows
    than it visited.
   */
  lemma MigrationAccounting(d: Disk, job: Job)
    ensures var r := MigrationRun(d, job);
            var log := r.state.log;
            var left := |Candidates(r.state.disk)|;
            && |log.visited| == log.migrated + log.skipped + log.errors
            && (if job.apply then log.skipped == 0 else log.migrated == 0)
            && left + log.migrated <= |Candidates(d)| <= left + log.migrated + log.errors
            && (job.apply && r.completed && job.batchSize > 0 ==> left <= log.migrated + log.errors)
            && (job.apply && ExitCode(r) == 0 && job.batchSize > 0 ==> 2 * left <= |Candidates(d)|)
  {
    hide Candidates, Pages;
    var s := Tick(State(d, Log(0, 0, 0, [], 0)));
    PagesCount(s, job, 0, |Candidates(d)|);
  }

  // -------------------------------------------------- what an error-free run leaves

  /** The rows an error-free run passes over: every second block of `batch` rows. */
  function OddBlocks(ids: seq<Uuid>, batch: nat): seq<Uuid>
    requires batch > 0
    decreases |ids|
  {
    if |ids| <= batch then []
    else if |ids| <= 2 * batch then ids[batch..]
    else ids[batch..2 * batch] + OddBlocks(ids[2 * batch..], batch)
  }

  lemma {:induction false} ErrorsOnlyGrow(s: State, job: Job, ids: seq<Uuid>)
    ensures VisitAll(s, job, ids).log.errors >= s.log.errors
    ensures VisitAll(s, job, ids).log.migrated >= s.log.migrated
    decreases |ids|
  {
    if ids != [] { ErrorsOnlyGrow(Visit(s, job, ids[0]), job, ids[1..]); }
  }

  lemma {:induction false} PagesOnlyGrow(s: State, job: Job, offset: nat)
    ensures Pages(s, job, offset).state.log.errors >= s.log.errors
    ensures Pages(s, job, offset).state.log.migrated >= s.log.migrated
    decreases if offset < |Candidates(s.disk)| then |Candidates(s.disk)| - offset else 0
  {
    hide Candidates, Visit;
    if HourAt(job.sky, s.log.clock).fetched && job.batchSize >= 0 {
      var page := Page(Candidates(s.disk), job.batchSize, offset);
      if page != [] {
        VisitAllShrinks(Tick(s), job, page);
        ErrorsOnlyGrow(Tick(s), job, page);
        PagesOnlyGrow(VisitAll(Tick(s), job, page), job, offset + |page|);
      }
    }
  }

  lemma {:induction false} ErrorFreeBatch(s: State, job: Job, ids: seq<Uuid>)
    requires job.apply && Ascending(ids) && forall id :: id in ids ==> id in Candidates(s.disk)
    requires VisitAll(s, job, ids).log.errors == s.log.errors
    ensures CandidateIds(VisitAll(s, job, ids).disk.rows) == CandidateIds(s.disk.rows) - (set id | id in ids)
    decreases |ids|
  {
    hide Candidates;
    if ids == [] {
      assert (set id | id in ids) == {};
    } else {
      hide MigrateRow;
      var u := Visit(s, job, ids[0]);
      VisitTakes(s, job, ids[0]);
      ErrorsOnlyGrow(u, job, ids[1..]);
      RestOf(ids);
      assert (set id | id in ids) == {ids[0]} + (set id | id in ids[1..]);
      forall id | id in ids[1..] ensures id in Candidates(u.disk) {
        assert id in CandidateIds(s.disk.rows) - {ids[0]};
      }
      ErrorFreeBatch(u, job, ids[1..]);
    }
  }

  lemma AscendingWithout(a: seq<Uuid>, i: nat, j: nat)
    requires Ascending(a) && i <= j <= |a|
    ensures Ascending(a[..i] + a[j..])
    ensures forall x :: x in a[..i] + a[j..] <==> x in a && x !in a[i..j]
  {
    forall x | x in a && x !in a[i..j] ensures x in a[..i] + a[j..] {
      var k :| 0 <= k < |a| && a[k] == x;
      if k < i { assert a[..i][k] == x; }
      if k >= j { assert a[j..][k - j] == x; }
    }
    forall x | x in a[..i] + a[j..] ensures x in a && x !in a[i..j] {
      var m :| 0 <= m < |a| && (m < i || j <= m) && a[m] == x;
      forall k | i <= k < j ensures a[k] != x {
        assert if k < m then a[k] < a[m] else a[m] < a[k];
      }
    }
  }

  /** An error-free page takes exactly its own rows out of the listing. */
  lemma ErrorFreePage(s: State, job: Job, i: nat, j: nat)
    requires job.apply && i <= j <= |Candidates(s.disk)|
    requires VisitAll(s, job, Candidates(s.disk)[i..j]).log.errors == s.log.errors
    ensures Candidates(VisitAll(s, job, Candidates(s.disk)[i..j]).disk) == Candidates(s.disk)[..i] + Candidates(s.disk)[j..]
  {
    hide Candidates, VisitAll;
    var ids := Candidates(s.disk);
    var t := VisitAll(s, job, ids[i..j]);
    ErrorFreeBatch(s, job, ids[i..j]);
    AscendingWithout(ids, i, j);
    forall x ensures x in Candidates(t.disk) <==> x in ids[..i] + ids[j..] {
      assert x in CandidateIds(t.disk.rows) <==> x in CandidateIds(s.disk.rows) && x !in ids[i..j];
    }
    ListingIsUnique(Candidates(t.disk), ids[..i] + ids[j..]);
  }

  lemma {:induction false} ErrorFreePages(s: State, job: Job, kept: seq<Uuid>, rest: seq<Uuid>)
    requires job.apply && job.batchSize > 0 && Candidates(s.disk) == kept + rest
    requires var r := Pages(s, job, |kept|); r.completed && r.state.log.errors == s.log.errors
    ensures Candidates(Pages(s, job, |kept|).state.disk) == kept + OddBlocks(rest, job.batchSize)
    decreases |rest|
  {
    hide Candidates, VisitAll, Page, OddBlocks, Pages;
    var b := job.batchSize;
    if rest == [] {
      PageBeyondTheEnd(s, job, |kept|);
      OddBlocksOfFew(rest, b);
    } else {
      var k, t := OnePage(s, job, kept, rest);
      if |rest| >= 2 * b {
        assert kept + rest[b..] == (kept + rest[b..2 * b]) + rest[2 * b..];
        ErrorFreePages(t, job, kept + rest[b..2 * b], rest[2 * b..]);
        OddBlocksUnfold(rest, b);
        assert (kept + rest[b..2 * b]) + OddBlocks(rest[2 * b..], b) == kept + OddBlocks(rest, b);
      } else {
        OddBlocksOfFew(rest, b);
        PageBeyondTheEnd(t, job, |kept| + k);
      }
    }
  }

  /** One page of an error-free run: the first rows of `rest` go, and paging goes on behind the next ones. */
  lemma OnePage(s: State, job: Job, kept: seq<Uuid>, rest: seq<Uuid>) returns (k: nat, t: State)
    requires job.apply && job.batchSize > 0 && Candidates(s.disk) == kept + rest && rest != []
    requires var r := Pages(s, job, |kept|); r.completed && r.state.log.errors == s.log.errors
    ensures k == if |rest| < job.batchSize then |rest| else job.batchSize
    ensures Candidates(t.disk) == kept + rest[k..] && t.log.errors == s.log.errors
    ensures Pages(s, job, |kept|) == Pages(t, job, |kept| + k)
  {
    hide Candidates, VisitAll;
    var ids := kept + rest;
    k := if |rest| < job.batchSize then |rest| else job.batchSize;
    var page := Page(ids, job.batchSize, |kept|);
    assert page == ids[|kept|..|kept| + k];
    t := VisitAll(Tick(s), job, page);
    VisitAllShrinks(Tick(s), job, page);
    ErrorsOnlyGrow(Tick(s), job, page);
    PagesOnlyGrow(t, job, |kept| + k);
    ErrorFreePage(Tick(s), job, |kept|, |kept| + k);
    assert ids[..|kept|] + ids[|kept| + k..] == kept + rest[k..];
  }

  lemma OddBlocksOfFew(ids: seq<Uuid>, batch: nat)
    requires batch > 0 && |ids| < 2 * batch
    ensures OddBlocks(ids, batch) == ids[if |ids| < batch then |ids| else batch..]
  {
  }

  lemma OddBlocksUnfold(ids: seq<Uuid>, batch: nat)
    requires batch > 0 && |ids| >= 2 * batch
    ensures OddBlocks(ids, batch) == ids[batch..2 * batch] + OddBlocks(ids[2 * batch..], batch)
  {
    if |ids| == 2 * batch {
      assert ids[2 * batch..] == [] && ids[batch..2 * batch] == ids[batch..];
    }
  }

  lemma PageBeyondTheEnd(s: State, job: Job, offset: nat)
    requires offset >= |Candidates(s.disk)|
    ensures Pages(s, job, offset).state.disk == s.disk
  {
    hide Candidates;
  }

  /** A run that exits with code 0 leaves exactly every second block of the listing. */
  lemma ErrorFreeRunLeavesOddBlocks(d: Disk, job: Job)
    requires job.apply && job.batchSize > 0 && ExitCode(MigrationRun(d, job)) == 0
    ensures Candidates(MigrationRun(d, job).state.disk) == OddBlocks(Candidates(d), job.batchSize)
  {
    hide Candidates, Pages;
    if Candidates(d) != [] {
      ErrorFreePages(Tick(State(d, Log(0, 0, 0, [], 0))), job, [], Candidates(d));
      assert [] + Candidates(d) == Candidates(d);
    }
  }

  /** Row `i` of the listing is passed over exactly when its block number is odd. */
  lemma {:induction false} OddBlocksAreTheOddOnes(ids: seq<Uuid>, batch: nat, i: nat)
    requires batch > 0 && i < |ids| && Ascending(ids)
    ensures ids[i] in OddBlocks(ids, batch) <==> (i / batch) % 2 == 1
    decreases |ids|
  {
    hide OddBlocks, Ascending;
    if i < batch {
      DivUnique(i, batch, 0, i);
      OddBlocksAreLater(ids, batch, i);
    } else if i < 2 * batch {
      DivUnique(i, batch, 1, i - batch);
      SecondBlockStays(ids, batch, i);
    } else {
      var rest := ids[2 * batch..];
      RestIsAscending(ids, batch, i);
      OddBlocksUnfold(ids, batch);
      OddBlocksAreTheOddOnes(rest, batch, i - 2 * batch);
      BlockShift(i, batch);
      assert ids[i] == rest[i - 2 * batch];
    }
  }

  lemma SecondBlockStays(ids: seq<Uuid>, batch: nat, i: nat)
    requires 0 < batch <= i < 2 * batch && i < |ids|
    ensures ids[i] in OddBlocks(ids, batch)
  {
    assert OddBlocks(ids, batch)[i - batch] == ids[i];
  }

  lemma RestIsAscending(ids: seq<Uuid>, batch: nat, i: nat)
    requires Ascending(ids) && 2 * batch <= i < |ids|
    ensures Ascending(ids[2 * batch..]) && ids[i] !in ids[batch..2 * batch]
  {
  }

  lemma BlockShift(i: nat, batch: nat)
    requires batch > 0 && i >= 2 * batch
    ensures ((i - 2 * batch) / batch) % 2 == (i / batch) % 2
  {
    var j := i - 2 * batch;
    assert i == batch * (j / batch + 2) + j % batch;
    DivUnique(i, batch, j / batch + 2, j % batch);
  }

  lemma DivUnique(n: nat, d: nat, q: nat, r: nat)
    requires d > 0 && r < d && n == d * q + r
    ensures n / d == q
  {
    var p := n / d;
    assert p < q ==> d * (p + 1) <= d * q;
    assert p > q ==> d * (q + 1) <= d * p;
  }

  lemma {:induction false} OddBlocksAreLater(ids: seq<Uuid>, batch: nat, i: nat)
    requires batch > 0 && i < batch && i < |ids| && Ascending(ids)
    ensures ids[i] !in OddBlocks(ids, batch)
    decreases |ids|
  {
    OddBlocksAreTail(ids, batch);
    forall x | x in OddBlocks(ids, batch) ensures x != ids[i] {
      var j :| batch <= j < |ids| && ids[j] == x;
      assert ids[i] < ids[j];
    }
  }

  lemma {:induction false} OddBlocksAreTail(ids: seq<Uuid>, batch: nat)
    requires batch > 0
    ensures forall x :: x in OddBlocks(ids, batch) ==> exists j :: batch <= j < |ids| && ids[j] == x
    decreases |ids|
  {
    if |ids| > 2 * batch {
      OddBlocksAreTail(ids[2 * batch..], batch);
    }
  }

  // --------------------------------------------------------------------- re-runs

  /** Apply runs one after another, each with its own environment. */
  function Reruns(d: Disk, jobs: seq<Job>): Disk
    decreases |jobs|
  {
    if jobs == [] then d else Reruns(MigrationRun(d, jobs[0]).state.disk, jobs[1..])
  }

  predicate AllExitZero(d: Disk, jobs: seq<Job>)
    decreases |jobs|
  {
    jobs == [] ||
      (&& ExitCode(MigrationRun(d, jobs[0])) == 0
       && AllExitZero(MigrationRun(d, jobs[0]).state.disk, jobs[1..]))
  }

  function Pow2(k: nat): (p: nat)
    ensures p > 0
  {
    if k == 0 then 1 else 2 * Pow2(k - 1)
  }

  lemma Products(t: nat, batch: nat)
    ensures (2 * t + 1) * batch == 2 * (t * batch) + batch
    ensures t > 0 ==> (t - 1) * batch == t * batch - batch && t * batch >= batch
  {
  }

  /** At most `t` blocks remain exactly when there were at most `2t + 1`. */
  lemma {:induction false} OddBlocksCount(ids: seq<Uuid>, batch: nat, t: nat)
    requires batch > 0
    ensures |OddBlocks(ids, batch)| <= t * batch <==> |ids| <= (2 * t + 1) * batch
    decreases |ids|
  {
    Products(t, batch);
    if |ids| > 2 * batch && t > 0 {
      Products(t - 1, batch);
      OddBlocksCount(ids[2 * batch..], batch, t - 1);
    }
  }

  /**
    `k` error-free runs empty the listing if and only if it holds at most
    `(2^k - 1) * batch` rows; a single run only if it fits one batch.
   */
  lemma {:induction false} RunsNeeded(d: Disk, jobs: seq<Job>, batch: nat)
    requires batch > 0 && AllExitZero(d, jobs)
    requires forall i :: 0 <= i < |jobs| ==> jobs[i].apply && jobs[i].batchSize == batch
    ensures Candidates(Reruns(d, jobs)) == [] <==> |Candidates(d)| <= (Pow2(|jobs|) - 1) * batch
    decreases |jobs|
  {
    hide Candidates, MigrationRun, ExitCode;
    if jobs != [] {
      ErrorFreeRunLeavesOddBlocks(d, jobs[0]);
      var t := Pow2(|jobs| - 1) - 1;
      RunsNeeded(MigrationRun(d, jobs[0]).state.disk, jobs[1..], batch);
      OddBlocksCount(Candidates(d), batch, t);
    }
  }

  /** One run is enough exactly when everything fits one batch; a zero batch does nothing. */
  lemma OneRunSuffices(d: Disk, job: Job)
    requires job.apply && ExitCode(MigrationRun(d, job)) == 0
    ensures Candidates(MigrationRun(d, job).state.disk) == [] <==> |Candidates(d)| <= (if job.batchSize < 0 then 0 else job.batchSize)
    ensures job.batchSize <= 0 ==> MigrationRun(d, job).state.disk == d
  {
    hide Candidates, MigrationRun, ExitCode;
    if job.batchSize > 0 {
      assert AllExitZero(MigrationRun(d, job).state.disk, []);
      assert [job][1..] == [];
      assert Reruns(d, [job]) == Reruns(MigrationRun(d, job).state.disk, [job][1..]) == MigrationRun(d, job).state.disk;
      assert Pow2(1) == 2 * Pow2(0) == 2;
      RunsNeeded(d, [job], job.batchSize);
    } else {
      NoBatchNoWork(d, job);
    }
  }

  lemma NoBatchNoWork(d: Disk, job: Job)
    requires job.batchSize <= 0
    ensures MigrationRun(d, job).state.disk == d
    ensures job.batchSize < 0 && Candidates(d) != [] ==> ExitCode(MigrationRun(d, job)) == 1
  {
    hide Candidates, VisitAll;
  }

  // --------------------------------------------------------------- visiting order

  /** A sub-listing is pointwise at or above the listing it comes from. */
  lemma {:induction false} SublistingDominates(a: seq<Uuid>, b: seq<Uuid>, i: nat)
    requires Ascending(a) && Ascending(b) && i < |a| && forall x :: x in a ==> x in b
    ensures i < |b| && b[i] <= a[i]
  {
    assert a[i] in b;
    var p :| 0 <= p < |b| && b[p] == a[i];
    if i > 0 {
      SublistingDominates(a, b, i - 1);
      assert a[i - 1] < a[i];
      SameOrder(b, i - 1, p);
    }
    if i < p { assert b[i] < b[p]; }
  }

  lemma SameOrder(a: seq<Uuid>, i: nat, j: nat)
    requires Ascending(a) && i < |a| && j < |a|
    ensures a[i] < a[j] <==> i < j
  {
  }

  /** What was visited is in order, and below everything still to be listed. */
  predicate InOrder(s: State, offset: nat) {
    var ids := Candidates(s.disk);
    && Ascending(s.log.visited)
    && forall x, j :: x in s.log.visited && offset <= j < |ids| ==> x < ids[j]
  }

  lemma {:induction false} VisitAllLogs(s: State, job: Job, ids: seq<Uuid>)
    ensures VisitAll(s, job, ids).log.visited == s.log.visited + ids
    decreases |ids|
  {
    hide MigrateRow;
    if ids != [] {
      VisitAllLogs(Visit(s, job, ids[0]), job, ids[1..]);
      assert s.log.visited + [ids[0]] + ids[1..] == s.log.visited + ids;
    }
  }

  lemma PageKeepsOrder(s: State, job: Job, offset: nat, end: nat)
    requires offset <= end <= |Candidates(s.disk)| && InOrder(s, offset)
    ensures InOrder(VisitAll(s, job, Candidates(s.disk)[offset..end]), end)
  {
    hide VisitAll, Candidates;
    var ids := Candidates(s.disk);
    var page := ids[offset..end];
    var t := VisitAll(s, job, page);
    var now := Candidates(t.disk);
    VisitAllLogs(s, job, page);
    VisitAllShrinks(s, job, page);
    forall x | x in now ensures x in ids { assert x in CandidateIds(t.disk.rows); }
    forall x, j | x in t.log.visited && end <= j < |now| ensures x < now[j] {
      SublistingDominates(now, ids, j);
      if x !in s.log.visited {
        var p :| offset <= p < end && ids[p] == x;
        assert ids[p] < ids[j];
      }
    }
    JoinAscending(s.log.visited, page);
  }

  lemma JoinAscending(a: seq<Uuid>, b: seq<Uuid>)
    requires Ascending(a) && Ascending(b) && forall x, j :: x in a && 0 <= j < |b| ==> x < b[j]
    ensures Ascending(a + b)
  {
    forall i, j | 0 <= i < j < |a + b| ensures (a + b)[i] < (a + b)[j] {
      if i < |a| <= j { assert a[i] in a; }
    }
  }

  lemma {:induction false} PagesInOrder(s: State, job: Job, offset: nat, all: set<Uuid>)
    requires InOrder(s, offset) && CandidateIds(s.disk.rows) <= all && forall x :: x in s.log.visited ==> x in all
    ensures var r := Pages(s, job, offset);
            Ascending(r.state.log.visited) && forall x :: x in r.state.log.visited ==> x in all
    decreases if offset < |Candidates(s.disk)| then |Candidates(s.disk)| - offset else 0
  {
    hide Candidates, VisitAll;
    if HourAt(job.sky, s.log.clock).fetched && job.batchSize >= 0 {
      var ids := Candidates(s.disk);
      var page := Page(ids, job.batchSize, offset);
      if page != [] {
        assert page == ids[offset..offset + |page|];
        VisitAllShrinks(Tick(s), job, page);
        VisitAllLogs(Tick(s), job, page);
        PageKeepsOrder(Tick(s), job, offset, offset + |page|);
        forall x | x in page ensures x in all { assert x in ids && x in CandidateIds(s.disk.rows); }
        PagesInOrder(VisitAll(Tick(s), job, page), job, offset + |page|, all);
      }
    }
  }

  /** Every run visits rows in id order, none twice, and only rows that were candidates. */
  lemma EachRowIsVisitedAtMostOnce(d: Disk, job: Job)
    ensures var r := MigrationRun(d, job);
            Ascending(r.state.log.visited) && forall x :: x in r.state.log.visited ==> x in Candidates(d)
  {
    hide Candidates, Pages;
    PagesInOrder(Tick(State(d, Log(0, 0, 0, [], 0))), job, 0, CandidateIds(d.rows));
  }

  lemma {:induction false} DryPages(s: State, job: Job, offset: nat)
    requires !job.apply && offset <= |Candidates(s.disk)|
    ensures var r := Pages(s, job, offset);
            && r.state.disk == s.disk
            && (r.completed && job.batchSize > 0 ==> r.state.log.visited == s.log.visited + Candidates(s.disk)[offset..])
    decreases |Candidates(s.disk)| - offset
  {
    hide Candidates, VisitAll;
    if HourAt(job.sky, s.log.clock).fetched && job.batchSize >= 0 {
      var ids := Candidates(s.disk);
      var page := Page(ids, job.batchSize, offset);
      if page != [] {
        assert page == ids[offset..offset + |page|];
        VisitAllShrinks(Tick(s), job, page);
        VisitAllLogs(Tick(s), job, page);
        DryVisits(Tick(s), job, page);
        DryPages(VisitAll(Tick(s), job, page), job, offset + |page|);
        assert s.log.visited + page + ids[offset + |page|..] == s.log.visited + ids[offset..];
      }
    }
  }

  lemma {:induction false} DryVisits(s: State, job: Job, ids: seq<Uuid>)
    requires !job.apply
    ensures VisitAll(s, job, ids).disk == s.disk
    decreases |ids|
  {
    if ids != [] {
      DryVisits(Visit(s, job, ids[0]), job, ids[1..]);
    }
  }

  /** A dry run changes nothing and, when it completes, visits every candidate exactly once. */
  lemma DryRunVisitsEverything(d: Disk, job: Job)
    requires !job.apply
    ensures var r := MigrationRun(d, job);
            && r.state.disk == d
            && (r.completed && job.batchSize > 0 ==>
                  && r.state.log.visited == Candidates(d)
                  && r.state.log.skipped + r.state.log.errors == |Candidates(d)|)
  {
    hide Candidates, Pages;
    MigrationAccounting(d, job);
    DryPages(Tick(State(d, Log(0, 0, 0, [], 0))), job, 0);
  }
}
