/**
  The batch loop of the pgcrypto-to-Vault migration. It pages through the rows
  still tagged `pgp_sym_v1` with LIMIT and OFFSET, while its own updates take
  rows out of that listing.
 */
module MigrationModel {
  import opened Environment
  import opened Ordering
  import opened Uuids
  import opened SecretModel

  /** How the environment treats one query or one row. */
  datatype Hour = Hour(fetched: bool, read: Reply, env: Weather)

  /** The command line, and everything the environment will do during the run. */
  datatype Job = Job(cfg: Config, apply: bool, batchSize: int, sky: seq<Hour>)

  /** The counters the loop keeps; `visited` and `clock` are history. */
  datatype Log = Log(migrated: nat, skipped: nat, errors: nat, visited: seq<Uuid>, clock: nat)

  datatype State = State(disk: Disk, log: Log)

  datatype Run = Run(completed: bool, state: State)

  function HourAt(sky: seq<Hour>, t: nat): Hour {
    if t < |sky| then sky[t] else Hour(true, Clean, Weather(Clean, Clean, Clean))
  }

  // ------------------------------------------------------------- ordered listing

  predicate Ascending(s: seq<Uuid>) {
    forall i, j :: 0 <= i < j < |s| ==> s[i] < s[j]
  }

  /** `ORDER BY id`. */
  function Sorted(s: set<Uuid>): (r: seq<Uuid>)
    ensures Ascending(r) && |r| == |s|
    ensures forall x :: x in r <==> x in s
    decreases |s|
  {
    if s == {} then [] else [Least(s)] + Sorted(s - {Least(s)})
  }

  function CandidateIds(rows: map<Uuid, Row>): set<Uuid> {
    set id | id in rows && rows[id].algorithm.PgpSym?
  }

  function Candidates(d: Disk): (ids: seq<Uuid>)
    ensures Ascending(ids)
    ensures forall id :: id in ids <==> id in d.rows && d.rows[id].algorithm.PgpSym?
  {
    Sorted(CandidateIds(d.rows))
  }

  /** `LIMIT batch OFFSET offset`. */
  function Page(ids: seq<Uuid>, batch: nat, offset: nat): (page: seq<Uuid>)
    ensures |page| <= batch
  {
    if offset >= |ids| then []
    else if offset + batch <= |ids| then ids[offset..offset + batch]
    else ids[offset..]
  }

  // ------------------------------------------------------------------------ loop

  /** The organization comes with the listing and never changes. */
  function OrgOf(d: Disk, id: Uuid): Uuid { if id in d.rows then d.rows[id].org else 0 }

  function Visit(s: State, job: Job, id: Uuid): State {
    var h := HourAt(job.sky, s.log.clock);
    var m := MigrateRow(s.disk, job.cfg, Handle(id, OrgOf(s.disk, id)), job.apply, h.read, h.env);
    var log := s.log.(visited := s.log.visited + [id], clock := s.log.clock + 1);
    State(m.disk,
          if !m.ok then log.(errors := log.errors + 1)
          else if job.apply then log.(migrated := log.migrated + 1)
          else log.(skipped := log.skipped + 1))
  }

  function VisitAll(s: State, job: Job, ids: seq<Uuid>): State
    decreases |ids|
  {
    if ids == [] then s else VisitAll(Visit(s, job, ids[0]), job, ids[1..])
  }

  function Tick(s: State): State { s.(log := s.log.(clock := s.log.clock + 1)) }

  function Pages(s: State, job: Job, offset: nat): Run
    decreases if offset < |Candidates(s.disk)| then |Candidates(s.disk)| - offset else 0
  {
    if !HourAt(job.sky, s.log.clock).fetched || job.batchSize < 0 then Run(false, Tick(s))
    else
      var page := Page(Candidates(s.disk), job.batchSize, offset);
      if page == [] then Run(true, Tick(s))
      else
        VisitAllShrinks(Tick(s), job, page);
        Pages(VisitAll(Tick(s), job, page), job, offset + |page|)
  }

  /** The whole program: count, stop early when there is nothing, else page through. */
  function MigrationRun(d: Disk, job: Job): Run {
    var s := State(d, Log(0, 0, 0, [], 0));
    if !HourAt(job.sky, 0).fetched then Run(false, Tick(s))
    else if Candidates(d) == [] then Run(true, Tick(s))
    else Pages(Tick(s), job, 0)
  }

  function ExitCode(r: Run): int {
    if r.completed && r.state.log.errors == 0 then 0 else 1
  }

  // ----------------------------------------------------------- effect of one row

  /** Either nothing happened to the rows, or exactly this row was rewritten. */
  lemma VisitRows(s: State, job: Job, id: Uuid)
    ensures var t := Visit(s, job, id);
            || t.disk.rows == s.disk.rows
            || (&& id in s.disk.rows && s.disk.rows[id].algorithm.PgpSym? && job.apply
                && t.disk.rows.Keys == s.disk.rows.Keys && t.disk.rows[id].algorithm.VaultTransit?
                && t.disk.rows == s.disk.rows[id := t.disk.rows[id]])
  {
    hide VaultKeyName, Seal, OpenEnvelope;
  }

  lemma {:induction false} VisitAllShrinks(s: State, job: Job, ids: seq<Uuid>)
    ensures var t := VisitAll(s, job, ids);
            && CandidateIds(t.disk.rows) <= CandidateIds(s.disk.rows)
            && |Candidates(t.disk)| <= |Candidates(s.disk)|
    decreases |ids|
  {
    hide Visit;
    if ids == [] {
    } else {
      VisitRows(s, job, ids[0]);
      var u := Visit(s, job, ids[0]);
      assert CandidateIds(u.disk.rows) <= CandidateIds(s.disk.rows);
      VisitAllShrinks(u, job, ids[1..]);
      SubsetIsSmaller(CandidateIds(VisitAll(s, job, ids).disk.rows), CandidateIds(s.disk.rows));
    }
  }
}
