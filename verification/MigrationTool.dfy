/**
  The migration program as it executes: a loop that keeps its counters in
  variables and rewrites table rows in place, proved to do what
  `MigrationModel.MigrationRun` says.
 */
module MigrationTool {
  import opened Uuids
  import opened SecretModel
  import opened SecretStores
  import opened MigrationModel

  class Migrator {
    const pool: SecretsTable
    const transit: InMemoryVaultTransit
    const job: Job
    var migrated: nat
    var skipped: nat
    var errors: nat
    var visited: seq<Uuid>
    var clock: nat

    constructor (pool: SecretsTable, transit: InMemoryVaultTransit, job: Job)
      ensures this.pool == pool && this.transit == transit && this.job == job
      ensures Now() == State(Disk(pool.rows, transit.State()), Log(0, 0, 0, [], 0))
    {
      this.pool, this.transit, this.job := pool, transit, job;
      migrated, skipped, errors, visited, clock := 0, 0, 0, [], 0;
    }

    function Now(): State
      reads this, pool, transit
    {
      State(Disk(pool.rows, transit.State()), Log(migrated, skipped, errors, visited, clock))
    }

    /** `migrate_row`: `ok` for Applied or DryRun, false for an error. */
    method MigrateRow(handle: Handle, h: Hour) returns (ok: bool)
      modifies pool, transit
      ensures Migrated(ok, Disk(pool.rows, transit.State())) ==
        SecretModel.MigrateRow(old(Disk(pool.rows, transit.State())), job.cfg, handle, job.apply, h.read, h.env)
    {
      hide VaultKeyName, SecretModel.Seal;
      if !h.read.Clean? || handle.id !in pool.rows { return false; }
      var text := OpenEnvelope(pool.rows[handle.id], job.cfg.kek);
      if text.None? { return false; }
      if !job.apply { return true; }
      var sealed := transit.Seal(VaultKeyName(job.cfg.prefix, handle.org), text.value, h.env);
      if sealed.None? { return false; }
      var row := pool.rows[handle.id];
      if !h.env.db.Refused? && row.algorithm == PgpSym {
        pool.rows := pool.rows[handle.id := row.(ciphertext := Text(sealed.value), wrappedDek := Blank,
                                                 algorithm := VaultTransit)];
      }
      ok := h.env.db.Clean?;
    }

    method VisitRow(id: Uuid)
      modifies this, pool, transit
      ensures Now() == Visit(old(Now()), job, id)
    {
      hide SecretModel.MigrateRow;
      var ok := MigrateRow(Handle(id, OrgOf(Disk(pool.rows, transit.State()), id)), HourAt(job.sky, clock));
      visited, clock := visited + [id], clock + 1;
      if !ok {
        errors := errors + 1;
      } else if job.apply {
        migrated := migrated + 1;
      } else {
        skipped := skipped + 1;
      }
    }

    method VisitPage(rows: seq<Uuid>)
      modifies this, pool, transit
      ensures Now() == VisitAll(old(Now()), job, rows)
    {
      hide Visit;
      for i := 0 to |rows|
        invariant VisitAll(old(Now()), job, rows) == VisitAll(Now(), job, rows[i..])
      {
        assert rows[i..][1..] == rows[i + 1..];
        VisitRow(rows[i]);
      }
    }

    /** The batch loop; `completed` is false when a query failed. */
    method PageLoop() returns (completed: bool)
      modifies this, pool, transit
      ensures Run(completed, Now()) == Pages(old(Now()), job, 0)
    {
      hide VisitAll, Candidates, Page;
      var offset: nat := 0;
      while true
        invariant Pages(old(Now()), job, 0) == Pages(Now(), job, offset)
        decreases if offset < |Candidates(Now().disk)| then |Candidates(Now().disk)| - offset else 0
      {
        var fetched := HourAt(job.sky, clock).fetched;
        ghost var before := Now();
        clock := clock + 1;
        if !fetched || job.batchSize < 0 { return false; }
        var rows := Page(Candidates(Disk(pool.rows, transit.State())), job.batchSize, offset);
        if rows == [] { return true; }
        VisitAllShrinks(Now(), job, rows);
        PageInside(Candidates(before.disk), job.batchSize, offset);
        VisitPage(rows);
        offset := offset + |rows|;
      }
    }

    method Execute() returns (exit: int)
      requires migrated == skipped == errors == clock == 0 && visited == []
      modifies this, pool, transit
      ensures Now() == MigrationRun(old(Now().disk), job).state
      ensures exit == ExitCode(MigrationRun(old(Now().disk), job))
    {
      hide Pages, Candidates;
      var counted := HourAt(job.sky, clock).fetched;
      clock := clock + 1;
      if !counted { return 1; }
      if Candidates(Disk(pool.rows, transit.State())) == [] { return 0; }
      var completed := PageLoop();
      exit := if completed && errors == 0 then 0 else 1;
    }
  }

  lemma PageInside(ids: seq<Uuid>, batch: nat, offset: nat)
    ensures Page(ids, batch, offset) != [] ==> offset < |ids|
  {
  }
}
