/**
  Lives in which no soft-delete of a scale-in takes effect: what is recorded,
  what is live, and how far `worker_count` falls behind the live fleet.
 */
module FleetDrift {
  import opened FleetModel
  import opened FleetRuns
  import opened FleetInvariant
  import opened FleetSafety
  import opened FleetLife
  import opened FleetNaming
  import opened FleetCounts
  import opened FleetLoss
  import opened FleetStale

  // ------------------------------------------------------------------ the arithmetic

  /** Recorded worker rows, which of them run, and the count the cluster row shows. */
  datatype Spots = Spots(rows: nat, live: set<nat>, count: int)

  function Upto(a: nat, b: nat): (s: set<nat>)
    ensures forall j :: j in s <==> a <= j < b
    decreases b
  {
    if a >= b then {} else Upto(a, b - 1) + {b - 1}
  }

  /** How many rows a scale-in by `k` leaves alone: it aims at the last `k`. */
  function Spared(rows: nat, k: nat): nat { if k < rows then rows - k else 0 }

  function After(s: Spots, delta: int): Spots {
    if delta >= 0 then Spots(s.rows + delta, s.live + Upto(s.rows, s.rows + delta), s.count + delta)
    else Spots(s.rows, s.live - Upto(Spared(s.rows, -delta), s.rows), s.count + delta)
  }

  function SpotsOf(workers: nat, deltas: seq<int>): Spots
    decreases |deltas|
  {
    if deltas == [] then Spots(workers, Upto(0, workers), workers)
    else After(SpotsOf(workers, deltas[..|deltas| - 1]), deltas[|deltas| - 1])
  }

  /** How many removals of one request hit a row whose server was gone already, or no row at all. */
  function WasteOf(s: Spots, delta: int): int {
    if delta >= 0 then 0 else (0 - delta) - |s.live * Upto(Spared(s.rows, -delta), s.rows)|
  }

  function Wasted(workers: nat, deltas: seq<int>): int
    decreases |deltas|
  {
    if deltas == [] then 0
    else Wasted(workers, deltas[..|deltas| - 1]) + WasteOf(SpotsOf(workers, deltas[..|deltas| - 1]), deltas[|deltas| - 1])
  }

  lemma {:induction false} UptoSize(a: nat, b: nat)
    requires a <= b
    ensures |Upto(a, b)| == b - a
    decreases b
  {
    if a < b { UptoSize(a, b - 1); }
  }

  ghost predicate LiveAreRows(s: Spots) { forall j :: j in s.live ==> j < s.rows }

  lemma SubsetCount(a: set<nat>, b: set<nat>)
    requires a <= b
    ensures |a| <= |b|
  {
    assert b == a + (b - a);
  }

  /** One request changes the surplus of live servers over the count by what it wastes. */
  lemma AfterSurplus(s: Spots, delta: int)
    requires LiveAreRows(s)
    ensures LiveAreRows(After(s, delta))
    ensures |After(s, delta).live| - After(s, delta).count == |s.live| - s.count + WasteOf(s, delta)
    ensures WasteOf(s, delta) >= 0
  {
    hide Upto;
    if delta >= 0 {
      UptoSize(s.rows, s.rows + delta);
      Disjoint(s.live, Upto(s.rows, s.rows + delta));
    } else {
      var k: nat := 0 - delta;
      var last := Upto(Spared(s.rows, k), s.rows);
      Partition(s.live, last);
      SubsetCount(s.live * last, last);
      UptoSize(Spared(s.rows, k), s.rows);
    }
  }

  lemma Disjoint(a: set<nat>, b: set<nat>)
    requires a !! b
    ensures |a + b| == |a| + |b|
  {
  }

  lemma Partition(a: set<nat>, b: set<nat>)
    ensures |a| == |a - b| + |a * b|
  {
    assert a == (a - b) + a * b;
  }

  /** The live fleet exceeds the count by exactly the wasted removals, which are never negative. */
  lemma {:induction false} SurplusIsWaste(workers: nat, deltas: seq<int>)
    ensures var s := SpotsOf(workers, deltas); LiveAreRows(s) && |s.live| == s.count + Wasted(workers, deltas)
    ensures Wasted(workers, deltas) >= 0
    decreases |deltas|
  {
    hide After, WasteOf, Upto;
    if deltas == [] {
      UptoSize(0, workers);
    } else {
      hide LiveAreRows;
      SurplusIsWaste(workers, deltas[..|deltas| - 1]);
      AfterSurplus(SpotsOf(workers, deltas[..|deltas| - 1]), deltas[|deltas| - 1]);
    }
  }

  // --------------------------------------------------------------------- the world

  function Requests(deltas: seq<int>): (r: seq<Request>)
    ensures |r| == |deltas| && forall i :: 0 <= i < |deltas| ==> r[i] == Scale(deltas[i])
  {
    seq(|deltas|, i requires 0 <= i < |deltas| => Scale(deltas[i]))
  }

  function LifeOf(w: World, deltas: seq<int>): World { Life(w, Requests(deltas)) }

  lemma LifeSnoc(w: World, deltas: seq<int>)
    requires deltas != []
    ensures var n := |deltas| - 1; LifeOf(w, deltas) == Serve(LifeOf(w, deltas[..n]), Scale(deltas[n])).w
  {
    hide Serve;
    var n := |deltas| - 1;
    assert Requests(deltas)[..n] == Requests(deltas[..n]);
  }

  /** The provision and every request report success, and no scale-in changes a row. */
  predicate NothingForgotten(w: World, deltas: seq<int>)
    decreases |deltas|
  {
    if deltas == [] then RunProvision(w).ok
    else
      var n := |deltas| - 1;
      var u, d := LifeOf(w, deltas[..n]), deltas[n];
      && NothingForgotten(w, deltas[..n]) && Serve(u, Scale(d)).ok
      && (d < 0 ==> Serve(u, Scale(d)).w.servers == u.servers)
  }

  /** The rows are in order, row `j` stands for the worker of index `j`, and the live ones are those of `s`. */
  ghost predicate Shows(v: World, s: Spots) {
    var ws := Workers(v);
    && v.row.status.Ready? && !v.stalled && v.cloud.monotone
    && |ws| == s.rows && StrictlyAscending(ws) && v.row.workerCount == s.count
    && forall j :: 0 <= j < |ws| ==> RowShows(v, s, j)
  }

  // -------------------------------------------------------------------- one request

  /** A scale request that reports success handed over to its run, with the count already changed. */
  lemma OkHandsOver(u: World, delta: int)
    requires ScaleWorkers(u, delta).ok && delta != 0
    ensures u.row.status.Ready?
    ensures var c := Handed(u, delta);
            && c == u.(faults := c.faults, row := u.row.(workerCount := u.row.workerCount + delta))
            && ScaleWorkers(u, delta) == if delta > 0 then RunScaleOut(c, delta) else RunScaleIn(c, -delta)
  {
    hide RunScaleOut, RunScaleIn;
  }

  lemma OkScaleOutDoesNotStall(w: World, count: nat)
    requires RunScaleOut(w, count).ok && w.row.status.Ready?
    ensures Launched(w).Some?
  {
    hide AddAndRecord, Pick;
  }

  /** A scale-out revives no server. */
  lemma ScaleOutRevivesNone(b: map<ServerId, Host>, w: World, count: nat, i: ServerId)
    requires Inv(b, w) && i in w.cloud.issued && i !in w.cloud.live
    ensures i !in RunScaleOut(w, count).w.cloud.live
  {
    hide AddAndRecord, ScaleOut, Inv;
    if Launched(w).None? {
      NotLaunched(w, count);
    } else {
      var u := Launched(w).value;
      LaunchedRuns(w, count);
      ScaleOutMakes(b, w, u, |Workers(u)|, count);
      AddAndRecordCloud(u, |Workers(u)|, count);
    }
  }

  lemma AddAndRecordCloud(u: World, start: nat, count: nat)
    ensures AddAndRecord(u, start, count).w.cloud == ScaleOut(u, start, count).w.cloud
  {
    hide ScaleOut, RecordServers;
    var added := ScaleOut(u, start, count);
    if added.value.Some? { RecordKeepsCloud(added.w, added.value.value, Worker); }
  }

  lemma {:induction false} RecordKeepsCloud(w: World, views: seq<View>, role: Role)
    ensures RecordServers(w, views, role).w.cloud == w.cloud
    decreases |views|
  {
    if views != [] {
      var r := RecordServer(w, views[0], role);
      if r.ok { RecordKeepsCloud(r.w, views[1..], role); }
    }
  }

  lemma AddAndRecordStall(u: World, start: nat, count: nat)
    requires CloudOk(u.cloud)
    ensures AddAndRecord(u, start, count).w.stalled == u.stalled
  {
    hide ScaleOut, RecordServers, Grew;
    var added := ScaleOut(u, start, count);
    AddWorkersMake(u, start, count);
    ScaleOutKeepsStall(u, start, count);
    if added.value.Some? { RecordKeepsStall(added.w, added.value.value, Worker); }
  }

  lemma ScaleOutKeepsStall(u: World, start: nat, count: nat)
    requires CloudOk(u.cloud)
    ensures ScaleOut(u, start, count).w.stalled == u.stalled
  {
    hide AddWorkers;
    AddWorkersMake(u, start, count);
  }

  lemma {:induction false} RecordKeepsStall(w: World, views: seq<View>, role: Role)
    ensures RecordServers(w, views, role).w.stalled == w.stalled
    decreases |views|
  {
    if views != [] {
      var r := RecordServer(w, views[0], role);
      if r.ok { RecordKeepsStall(r.w, views[1..], role); }
    }
  }

  /** A successful scale-out adds its workers behind the recorded ones. */
  lemma ScaleOutShows(b: map<ServerId, Host>, c: World, s: Spots, count: nat)
    requires Inv(b, c) && Shows(c, s) && RunScaleOut(c, count).ok
    ensures Shows(RunScaleOut(c, count).w, Spots(s.rows + count, s.live + Upto(s.rows, s.rows + count), s.count))
  {
    hide RunScaleOut, Inv, Pick;
    var v := RunScaleOut(c, count).w;
    ScaleOutEndsNamed(b, c, count);
    ScaleOutAccounts(b, c, count);
    OkScaleOutKeepsStall(b, c, count);
    var views, ids :| |views| == count && Widened(c, v, views, ids);
    WidenedRows(b, c, v, views, ids);
    WidenedShows(b, c, v, s, count, views, ids);
  }

  lemma OkScaleOutKeepsStall(b: map<ServerId, Host>, c: World, count: nat)
    requires Inv(b, c) && RunScaleOut(c, count).ok && c.row.status.Ready?
    ensures RunScaleOut(c, count).w.stalled == c.stalled
  {
    hide AddAndRecord, Inv, Pick;
    OkScaleOutDoesNotStall(c, count);
    LaunchedRuns(c, count);
    LaunchedStall(c);
    InvIssues(b, c);
    var u := Launched(c).value;
    AddAndRecordStall(u, |Workers(u)|, count);
  }

  lemma LaunchedStall(w: World)
    requires Launched(w).Some?
    ensures Launched(w).value.stalled == w.stalled
  {
    hide Pick;
  }

  lemma WidenedRows(b: map<ServerId, Host>, c: World, v: World, views: seq<View>, ids: seq<ServerId>)
    requires Inv(b, c) && StrictlyAscending(Workers(c)) && c.cloud.monotone && Widened(c, v, views, ids)
    ensures StrictlyAscending(Workers(v)) && Workers(v) == Workers(c) + RowsOf(views, Worker)
    ensures forall j :: 0 <= j < |ids| ==> RowsOf(views, Worker)[j].serverId == ids[j]
  {
    hide Inv, Pick;
    WorkersBelowCeiling(b, c);
    WidenedLists(c, v, views);
    RowsCarryIds(views, ids);
    JoinAscending(Workers(c), RowsOf(views, Worker), c.cloud.ceiling);
  }

  /** Row `j` of the table, with its server live or not and named or not, as `s` has it. */
  ghost predicate RowShows(v: World, s: Spots, j: nat)
    requires j < |Workers(v)|
  {
    var id := Workers(v)[j].serverId;
    (id in v.cloud.live <==> j in s.live) && (j in s.live ==> v.cloud.live[id] == WorkerName(v.row.name, j))
  }

  lemma WidenedRow(b: map<ServerId, Host>, c: World, v: World, s: Spots, count: nat, views: seq<View>, ids: seq<ServerId>, j: nat)
    requires Inv(b, c) && v == RunScaleOut(c, count).w && |views| == count && Widened(c, v, views, ids)
    requires Workers(v) == Workers(c) + RowsOf(views, Worker) && j < |Workers(v)| && s.rows == |Workers(c)|
    requires forall i :: 0 <= i < |ids| ==> RowsOf(views, Worker)[i].serverId == ids[i]
    requires j < |Workers(c)| ==> RowShows(c, s, j)
    requires forall i :: 0 <= i < |Workers(c)| ==> Workers(c)[i].serverId in c.cloud.issued
    ensures RowShows(v, Spots(s.rows + count, s.live + Upto(s.rows, s.rows + count), s.count), j)
  {
    hide RunScaleOut, Inv, Pick, Upto;
    var old_, ws := Workers(c), Workers(v);
    if j < |old_| {
      assert ws[j] == old_[j];
      if j !in s.live { ScaleOutRevivesNone(b, c, count, old_[j].serverId); }
    } else {
      assert ws[j].serverId == ids[j - |old_|];
    }
  }

  lemma WidenedShows(b: map<ServerId, Host>, c: World, v: World, s: Spots, count: nat, views: seq<View>, ids: seq<ServerId>)
    requires Inv(b, c) && Shows(c, s) && v == RunScaleOut(c, count).w && |views| == count && Widened(c, v, views, ids)
    requires StrictlyAscending(Workers(v)) && Workers(v) == Workers(c) + RowsOf(views, Worker)
    requires forall j :: 0 <= j < |ids| ==> RowsOf(views, Worker)[j].serverId == ids[j]
    requires v.row.status.Ready? && !v.stalled && v.cloud.monotone && v.row.workerCount == c.row.workerCount
    ensures Shows(v, Spots(s.rows + count, s.live + Upto(s.rows, s.rows + count), s.count))
  {
    hide RunScaleOut, Inv, Pick, Upto, Widened, StrictlyAscending, RowShows;
    WorkersIssued(b, c);
    var t := Spots(s.rows + count, s.live + Upto(s.rows, s.rows + count), s.count);
    forall j | 0 <= j < |Workers(v)| ensures RowShows(v, t, j) {
      WidenedRow(b, c, v, s, count, views, ids, j);
    }
  }

  lemma WorkersIssued(b: map<ServerId, Host>, w: World)
    requires Inv(b, w)
    ensures forall j :: 0 <= j < |Workers(w)| ==> Workers(w)[j].serverId in w.cloud.issued
  {
    forall j | 0 <= j < |Workers(w)| ensures Workers(w)[j].serverId in w.cloud.issued {
      PickMembers(w.servers, Worker, Workers(w)[j]);
    }
  }

  /** A successful scale-in that changes no row takes the servers of the last `count` rows. */
  lemma ScaleInShows(b: map<ServerId, Host>, c: World, s: Spots, count: nat)
    requires Inv(b, c) && Shows(c, s) && RunScaleIn(c, count).ok && RunScaleIn(c, count).w.servers == c.servers
    ensures Shows(RunScaleIn(c, count).w, Spots(s.rows, s.live - Upto(Spared(s.rows, count), s.rows), s.count))
  {
    hide RunScaleIn, Inv, Pick, Youngest, Aimed;
    var v, ws := RunScaleIn(c, count).w, Workers(c);
    ScaleInAims(c, count);
    ScaleInLater(c, count);
    OkScaleInEnds(c, count);
    WorkersIssued(b, c);
    YoungestOf(ws, count);
    var t := Spots(s.rows, s.live - Upto(Spared(s.rows, count), s.rows), s.count);
    forall j | 0 <= j < |ws| ensures RowShows(v, t, j) {
      assert RowShows(c, s, j);
      AimedAtRow(b, c, count, j);
    }
  }

  lemma AimedAtRow(b: map<ServerId, Host>, c: World, count: nat, j: nat)
    requires StrictlyAscending(Workers(c)) && j < |Workers(c)| && Workers(c)[j].serverId in c.cloud.issued
    requires forall k :: 0 <= k < |Workers(c)| ==> Workers(c)[k].serverId in c.cloud.issued
    ensures Workers(c)[j].serverId in Aimed(c, count) <==> Spared(|Workers(c)|, count) <= j
  {
    hide Pick, Youngest, Aimed;
    var ws, doomed := Workers(c), Doomed(c, count);
    YoungestOf(ws, count);
    AimedIs(c, count, ws[j].serverId);
    if Spared(|ws|, count) <= j {
      var m := |ws| - 1 - j;
      assert doomed[m] == ws[j];
    }
  }

  lemma OkScaleInEnds(w: World, count: nat)
    requires RunScaleIn(w, count).ok && w.row.status.Ready?
    ensures RunScaleIn(w, count).w.row.status.Ready? && RunScaleIn(w, count).w.stalled == w.stalled
  {
    hide RemoveAndForget, Youngest, TargetsOf;
    var begun := BeginScaling(w);
    var listed := Attempt(begun.w);
    var staged := Attempt(Attempt(GetCluster(listed.w).w).w);
    var doomed := Youngest(Workers(listed.w), count);
    var targets := TargetsOf(w.row.name, Workers(listed.w), doomed);
    RemoveAndForgetFrame(staged.w, targets, doomed);
    OkRemoveEndsReady(staged.w, targets, doomed);
  }

  lemma OkRemoveEndsReady(w: World, targets: seq<Target>, doomed: seq<ServerRow>)
    requires RemoveAndForget(w, targets, doomed).ok
    ensures RemoveAndForget(w, targets, doomed).w.row.status.Ready?
  {
    hide ScaleIn, ForgetServers;
    EndsReady(ForgetServers(ScaleIn(w, targets).w, doomed));
  }

  lemma RecountShows(b: map<ServerId, Host>, u: World, c: World, s: Spots, delta: int)
    requires Inv(b, u) && Shows(u, s) && c == u.(faults := c.faults, row := u.row.(workerCount := u.row.workerCount + delta))
    ensures Inv(b, c) && Shows(c, s.(count := s.count + delta))
  {
    hide Pick;
    SameRows(u, c, s, s.(count := s.count + delta));
  }

  lemma SameRows(u: World, c: World, s: Spots, t: Spots)
    requires c.servers == u.servers && c.cloud == u.cloud && c.row.name == u.row.name && t.live == s.live
    requires forall j :: 0 <= j < |Workers(u)| ==> RowShows(u, s, j)
    ensures forall j :: 0 <= j < |Workers(c)| ==> RowShows(c, t, j)
  {
    hide Pick;
    forall j | 0 <= j < |Workers(c)| ensures RowShows(c, t, j) { assert RowShows(u, s, j); }
  }

  lemma RequestShows(b: map<ServerId, Host>, u: World, s: Spots, delta: int)
    requires Inv(b, u) && Shows(u, s) && Serve(u, Scale(delta)).ok
    requires delta < 0 ==> Serve(u, Scale(delta)).w.servers == u.servers
    ensures Shows(Serve(u, Scale(delta)).w, After(s, delta))
  {
    hide RunScaleIn, RunScaleOut, ScaleWorkers, Shows, Inv, Handed, Upto, Pick;
    if delta == 0 {
      NoChange(u, s);
    } else {
      OkHandsOver(u, delta);
      var c, t := Handed(u, delta), s.(count := s.count + delta);
      RecountShows(b, u, c, s, delta);
      if delta > 0 {
        ScaleOutShows(b, c, t, delta);
      } else {
        ScaleInShows(b, c, t, -delta);
      }
    }
  }

  lemma NoChange(u: World, s: Spots)
    requires Shows(u, s)
    ensures Shows(ScaleWorkers(u, 0).w, After(s, 0))
  {
    hide Pick, Upto;
    assert s.live + Upto(s.rows, s.rows + 0) == s.live;
    SameRows(u, ScaleWorkers(u, 0).w, s, After(s, 0));
  }

  lemma ProvisionShows(w: World)
    requires Fresh(w) && w.cloud.monotone && RunProvision(w).ok
    ensures Shows(RunProvision(w).w, SpotsOf(w.row.workerCount, []))
  {
    hide RunProvision, Pick;
    ProvisionEndsNamed(w);
    FreshInv(w);
    ProvisionAccounts(w.cloud.live, w);
  }

  /**
    When every request succeeds and no soft-delete takes effect: the table keeps
    a row for every worker ever made, in order of index; the servers that run are
    exactly those no scale-in aimed at since they were made, under their own
    names; the count is the created number plus all deltas; and the live fleet
    exceeds it by the removals that hit rows of servers already gone.
   */
  lemma {:induction false} LifeWithoutSoftDeletes(w: World, deltas: seq<int>)
    requires Fresh(w) && w.cloud.monotone && NothingForgotten(w, deltas)
    ensures var s := SpotsOf(w.row.workerCount, deltas);
            && Shows(LifeOf(w, deltas), s)
            && |s.live| == LifeOf(w, deltas).row.workerCount + Wasted(w.row.workerCount, deltas)
    decreases |deltas|
  {
    hide Serve, RunProvision, Shows, Inv, After, LostOver, GrowthSucceeded;
    SurplusIsWaste(w.row.workerCount, deltas);
    if deltas == [] {
      ProvisionShows(w);
      assert Requests(deltas) == [];
    } else {
      var n := |deltas| - 1;
      LifeWithoutSoftDeletes(w, deltas[..n]);
      NoServerIsLostSilently(w, Requests(deltas[..n]));
      LifeSnoc(w, deltas);
      hide LifeOf, Requests;
      RequestShows(w.cloud.live, LifeOf(w, deltas[..n]), SpotsOf(w.row.workerCount, deltas[..n]), deltas[n]);
    }
    ShowsCount(LifeOf(w, deltas), SpotsOf(w.row.workerCount, deltas));
  }

  lemma ShowsCount(v: World, s: Spots)
    requires Shows(v, s)
    ensures v.row.workerCount == s.count
  {
  }
}
