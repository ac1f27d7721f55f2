/**
  Which step loses a server: a growing run loses exactly the servers it made
  and stopped before committing their rows.
 */
module FleetLoss {
  import opened Environment
  import opened Numerals
  import opened FleetModel
  import opened FleetRuns
  import opened FleetInvariant
  import opened FleetSafety
  import opened FleetLife

  /** How many of `n` calls in a row take effect; the first that reports an error is the last. */
  function Committed(w: World, n: nat): (k: nat)
    ensures k <= n
    decreases n
  {
    if n == 0 || Next(w).reply.Refused? then 0
    else if Next(w).reply.LostReply? then 1
    else 1 + Committed(Tick(w), n - 1)
  }

  lemma {:induction false} RecordServersCommit(w: World, views: seq<View>, role: Role)
    requires Recordable(w.servers, views)
    ensures var r, k := RecordServers(w, views, role), Committed(w, |views|);
            r.w == w.(faults := r.w.faults, servers := w.servers + RowsOf(views[..k], role))
    decreases |views|
  {
    hide RecordServer, Recordable;
    if views == [] {
      RecordedNone(w.servers, views, role);
    } else {
      FirstIsRecordable(w.servers, views);
      RecordServerAppends(w, views[0], role);
      RecordServerTicks(w, views[0], role);
      var r := RecordServer(w, views[0], role);
      if Next(w).reply.Clean? {
        RecordableRest(w.servers, views, role);
        RecordServersCommit(r.w, views[1..], role);
        CommittedReadsFaults(Tick(w), r.w, |views| - 1);
        RecordedMore(w.servers, views, role, Committed(Tick(w), |views| - 1));
      } else if Next(w).reply.Refused? {
        RecordedNone(w.servers, views, role);
      } else {
        RecordedOne(w.servers, views, role);
      }
    }
  }

  lemma FirstIsRecordable(rows: seq<ServerRow>, views: seq<View>)
    requires Recordable(rows, views) && views != []
    ensures views[0].id <= I64_MAX && views[0].id !in RowIds(rows)
  {
  }

  lemma RecordServerTicks(w: World, view: View, role: Role)
    ensures var r := RecordServer(w, view, role); r.ok == Next(w).reply.Clean? && r.w.faults == Tick(w).faults
  {
  }

  lemma {:induction false} CommittedReadsFaults(w: World, v: World, n: nat)
    requires w.faults == v.faults
    ensures Committed(w, n) == Committed(v, n)
    decreases n
  {
    if n > 0 { CommittedReadsFaults(Tick(w), Tick(v), n - 1); }
  }

  // ------------------------------------------------------------------- what is lost

  /** Live rows are those before and the first `k` of the new servers. */
  ghost predicate RowsUpTo(w: World, v: World, all: seq<View>, k: nat)
    requires k <= |all|
  {
    forall i: ServerId :: i in RowIds(v.servers) <==> i in RowIds(w.servers) || Listed(all[..k], i)
  }

  /** `all` are exactly the servers made since `w`. */
  ghost predicate AllMade(w: World, u: World, all: seq<View>) {
    AllNew(w, u, all) && forall i :: i in u.cloud.live ==> i in w.cloud.live || Listed(all, i)
  }

  lemma ListedSplit(all: seq<View>, k: nat, i: ServerId)
    requires k <= |all|
    ensures Listed(all, i) <==> Listed(all[..k], i) || Listed(all[k..], i)
  {
    if Listed(all, i) {
      var j :| 0 <= j < |all| && all[j].id == i;
      if j < k { assert all[..k][j] == all[j]; } else { assert all[k..][j - k] == all[j]; }
    }
  }

  lemma LossOf(w: World, u: World, v: World, all: seq<View>, k: nat, i: ServerId)
    requires CloudOk(w.cloud) && RowsIssued(w, w.servers) && k <= |all|
    requires v.cloud == u.cloud && AllMade(w, u, all) && RowsUpTo(w, v, all, k)
    ensures i in Lost(w, v) <==> Listed(all[k..], i)
  {
    ListedSplit(all, k, i);
    if Listed(all[k..], i) {
      var j :| 0 <= j < |all[k..]| && all[k..][j].id == i;
      assert all[k + j].id == i;
      forall m | 0 <= m < k ensures all[..k][m].id != i { assert all[m].id != all[k + j].id; }
    }
  }

  lemma RowsAfterRecording(w: World, v: World, views: seq<View>, role: Role, k: nat)
    requires k <= |views| && v.servers == w.servers + RowsOf(views[..k], role)
    requires forall i :: 0 <= i < |views| ==> views[i].id <= I64_MAX
    ensures RowsUpTo(w, v, views, k)
  {
    RowIdsAppend(w.servers, RowsOf(views[..k], role));
    forall i: ServerId ensures i in RowIds(v.servers) <==> i in RowIds(w.servers) || Listed(views[..k], i) {
      RowIdsOfViews(views[..k], role, i);
    }
  }

  // ---------------------------------------------------------------------- scale-out

  lemma ScaleOutMakes(b: map<ServerId, Host>, w: World, u: World, start: nat, count: nat)
    requires Inv(b, w) && u.cloud == w.cloud && u.servers == w.servers
    ensures var added := ScaleOut(u, start, count);
            && Grew(u, added.w)
            && (added.value.Some? ==> AllMade(w, added.w, added.value.value) && Fits(b, w, added.w, added.value.value))
  {
    hide ScaleOut;
    ScaleOutFits(b, w, u, start, count);
    var added := ScaleOut(u, start, count);
    if added.value.Some? { MadeFits(b, w, u, added.w, added.value.value); }
  }

  lemma MadeFits(b: map<ServerId, Host>, w: World, u: World, v: World, views: seq<View>)
    requires Inv(b, w) && u.cloud == w.cloud && u.servers == w.servers && Grew(u, v) && Fits(b, w, v, views)
    requires forall i :: i in Lost(w, v) ==> Listed(views, i)
    ensures AllMade(w, v, views)
  {
    forall i | i in v.cloud.live && i !in w.cloud.live ensures Listed(views, i) {
      assert i !in w.cloud.issued && i !in RowIds(v.servers);
      assert i in Lost(w, v);
    }
  }

  /** What adding and recording workers loses. */
  lemma AddAndRecordLoses(b: map<ServerId, Host>, w: World, u: World, start: nat, count: nat, i: ServerId)
    requires Inv(b, w) && u.cloud == w.cloud && u.servers == w.servers
    ensures var added, v := ScaleOut(u, start, count), AddAndRecord(u, start, count).w;
            i in Lost(w, v) <==>
              if added.value.None? then i in added.w.cloud.live && i !in w.cloud.live
              else Listed(added.value.value[Committed(added.w, |added.value.value|)..], i)
  {
    hide ScaleOut, RecordServers, AllMade, Fits;
    ScaleOutMakes(b, w, u, start, count);
    var added, v := ScaleOut(u, start, count), AddAndRecord(u, start, count).w;
    if added.value.None? {
      NothingRecorded(b, w, u, added.w, v, i);
    } else {
      var views := added.value.value;
      FitsOpens(b, w, added.w, views);
      RecordServersCommit(added.w, views, Worker);
      var recorded := RecordServers(added.w, views, Worker);
      assert v.cloud == added.w.cloud && v.servers == recorded.w.servers;
      RowsAfterRecording(w, v, views, Worker, Committed(added.w, |views|));
      InvIssues(b, w);
      LossOf(w, added.w, v, views, Committed(added.w, |views|), i);
    }
  }

  lemma FitsOpens(b: map<ServerId, Host>, w: World, u: World, views: seq<View>)
    requires Fits(b, w, u, views)
    ensures Recordable(u.servers, views) && forall i :: 0 <= i < |views| ==> views[i].id <= I64_MAX
  {
  }

  lemma InvIssues(b: map<ServerId, Host>, w: World)
    requires Inv(b, w)
    ensures CloudOk(w.cloud) && RowsIssued(w, w.servers)
  {
  }

  lemma NothingRecorded(b: map<ServerId, Host>, w: World, u: World, made: World, v: World, i: ServerId)
    requires Inv(b, w) && u.cloud == w.cloud && u.servers == w.servers && Grew(u, made)
    requires v.cloud == made.cloud && v.servers == made.servers
    ensures i in Lost(w, v) <==> i in made.cloud.live && i !in w.cloud.live
  {
  }

  /** The next call, a creation, has no effect: it is refused, or the provider is out of ids. */
  predicate NoCreation(u: World) {
    Next(u).reply.Refused? || PickId(u.cloud, Next(u).proposedId) > I64_MAX
  }

  lemma CreationIs(u: World, name: Host)
    requires CloudOk(u.cloud)
    ensures var made := CreateServer(u, name);
            if NoCreation(u) then made.value.None? && made.w.cloud == u.cloud
            else exists i :: i in made.w.cloud.live && i !in u.cloud.live
  {
    if !NoCreation(u) {
      var i := PickId(u.cloud, Next(u).proposedId);
      assert i in CreateServer(u, name).w.cloud.live && i !in u.cloud.live;
    }
  }

  lemma {:induction false} CreatingKeepsLive(w: World, start: nat, count: nat, ids: seq<ServerId>, i: ServerId)
    requires i in w.cloud.live
    ensures i in CreateWorkers(w, start, count, ids).w.cloud.live
    decreases count
  {
    if count > 0 {
      var made := CreateServer(w, WorkerName(w.row.name, start));
      if made.value.Some? { CreatingKeepsLive(made.w, start + 1, count - 1, ids + [made.value.value], i); }
    }
  }

  lemma BootingKeepsCloud(w: World, ids: seq<ServerId>)
    ensures var booted := AwaitWorkers(w, ids, []);
            && booted.w.cloud == w.cloud
            && (booted.value.Some? ==> JoinWorkers(Publish(booted.w, Step(InstallingK3sAgents)), booted.value.value).w.cloud == w.cloud)
  {
    hide AwaitWorkers, JoinWorkers;
    AwaitIsSame(w, [], ids, []);
    var booted := AwaitWorkers(w, ids, []);
    if booted.value.Some? { JoinIsSame(Publish(booted.w, Step(InstallingK3sAgents)), booted.value.value); }
  }

  /** The provider changed in a failed workflow exactly when its first creation took effect. */
  lemma FirstCreationDecides(u: World, start: nat, count: nat)
    requires CloudOk(u.cloud) && ScaleOut(u, start, count).value.None?
    ensures ScaleOut(u, start, count).w.cloud.live.Keys == u.cloud.live.Keys <==> NoCreation(u)
  {
    hide AwaitWorkers, JoinWorkers, CreateServer, NoCreation;
    var w1 := Publish(u, Step(CreatingWorkers));
    var created := CreateWorkers(w1, start, count, []);
    if created.value.Some? { BootingKeepsCloud(Publish(created.w, Step(WaitingCloudInitWorkers)), created.value.value); }
    assert ScaleOut(u, start, count).w.cloud == created.w.cloud;
    if count == 0 {
      NoWorkersNoFailure(u, start);
    } else {
      var name := WorkerName(w1.row.name, start);
      SameCreation(u, w1);
      CreationIs(w1, name);
      var made := CreateServer(w1, name);
      if !NoCreation(u) {
        var i :| i in made.w.cloud.live && i !in u.cloud.live;
        if made.value.Some? { CreatingKeepsLive(made.w, start + 1, count - 1, [] + [made.value.value], i); }
        assert i in created.w.cloud.live.Keys && i !in u.cloud.live.Keys;
      }
    }
  }

  lemma SameCreation(u: World, v: World)
    requires v == u.(events := v.events)
    ensures NoCreation(v) == NoCreation(u)
  {
  }

  lemma NoWorkersNoFailure(u: World, start: nat)
    ensures ScaleOut(u, start, 0).value.Some?
  {
  }

  /** Where a scale-out starts creating, if it gets there. */
  function Launched(w: World): Option<World> {
    var begun := BeginScaling(w);
    var listed := Attempt(begun.w);
    var token := Attempt(listed.w);
    var cps := Pick(listed.w.servers, ControlPlane);
    if begun.ok && listed.ok && cps != [] && cps[0].hasIpv4 && token.ok then Some(token.w) else None
  }

  /**
    The run did not stop between a creation that took effect and the commit of
    that server's row: it never got to create, or its workflow failed and already
    the first creation had no effect, or every row was committed.
   */
  ghost predicate ScaleOutComplete(w: World, count: nat) {
    var u := Launched(w);
    u.Some? ==>
      var added := ScaleOut(u.value, |Workers(u.value)|, count);
      if added.value.None? then NoCreation(u.value)
      else Committed(added.w, |added.value.value|) == |added.value.value|
  }

  lemma ListedNone(views: seq<View>)
    ensures (forall i :: !Listed(views, i)) <==> views == []
  {
    if views != [] { assert Listed(views, views[0].id); }
  }

  /** A scale-out loses a server if and only if it stopped in between. */
  lemma ScaleOutLosesIff(b: map<ServerId, Host>, w: World, count: nat)
    requires Inv(b, w) && w.row.status.Ready?
    ensures Lost(w, RunScaleOut(w, count).w) == {} <==> ScaleOutComplete(w, count)
  {
    hide AddAndRecord, ScaleOut, Inv;
    InvIssues(b, w);
    var v := RunScaleOut(w, count).w;
    if Launched(w).None? {
      NotLaunched(w, count);
      LosesNothing(w, v);
    } else {
      var u := Launched(w).value;
      LaunchedRuns(w, count);
      var added := ScaleOut(u, |Workers(u)|, count);
      forall i ensures i in Lost(w, v) <==>
        if added.value.None? then i in added.w.cloud.live && i !in w.cloud.live
        else Listed(added.value.value[Committed(added.w, |added.value.value|)..], i)
      {
        AddAndRecordLoses(b, w, u, |Workers(u)|, count, i);
      }
      ScaleOutMakes(b, w, u, |Workers(u)|, count);
      if added.value.None? {
        GrownKeys(u, added.w);
        FirstCreationDecides(u, |Workers(u)|, count);
      } else {
        ListedNone(added.value.value[Committed(added.w, |added.value.value|)..]);
      }
    }
  }

  lemma GrownKeys(u: World, v: World)
    requires Grew(u, v)
    ensures (forall i :: !(i in v.cloud.live && i !in u.cloud.live)) <==> v.cloud.live.Keys == u.cloud.live.Keys
  {
    if forall i :: !(i in v.cloud.live && i !in u.cloud.live) {
      forall i ensures i in v.cloud.live.Keys <==> i in u.cloud.live.Keys {}
    }
    if v.cloud.live.Keys == u.cloud.live.Keys {
      forall i | i in v.cloud.live ensures i in u.cloud.live { assert i in v.cloud.live.Keys; }
    }
  }

  lemma NotLaunched(w: World, count: nat)
    requires Launched(w).None?
    ensures RunScaleOut(w, count).w.cloud == w.cloud
  {
    hide AddAndRecord, Pick;
  }

  lemma LaunchedRuns(w: World, count: nat)
    requires Launched(w).Some?
    ensures var u := Launched(w).value;
            && RunScaleOut(w, count) == AddAndRecord(u, |Workers(u)|, count)
            && u.cloud == w.cloud && u.servers == w.servers
  {
    hide AddAndRecord, Pick;
  }

  // ------------------------------------------------------------------- provisioning

  function Workforce(w: World): nat { if w.row.workerCount < 0 then 0 else w.row.workerCount }

  /** Where a provision starts creating, if it gets there. */
  function Begun(w: World): Option<World> {
    var begun := UpdateStatus(w, Provisioning);
    var shadow := Attempt(begun.w);
    if begun.ok && shadow.ok then Some(shadow.w) else None
  }

  /** The same for a provision: no stop between a creation that took effect and its row. */
  ghost predicate ProvisionComplete(w: World) {
    var u := Begun(w);
    u.Some? ==>
      var fleet := ProvisionCluster(u.value, Workforce(w));
      if fleet.value.None? then NoCreation(u.value)
      else Committed(fleet.w, |AllViews(fleet.value.value)|) == |AllViews(fleet.value.value)|
  }

  /** The same for a provision, whose first creation is the control plane's. */
  lemma ControlPlaneDecides(u: World, n: nat)
    requires CloudOk(u.cloud) && ProvisionCluster(u, n).value.None?
    ensures ProvisionCluster(u, n).w.cloud.live.Keys == u.cloud.live.Keys <==> NoCreation(u)
  {
    hide AddWorkers, CreateServer, NoCreation, WaitForCloudInit;
    var w1, name := Publish(u, Step(CreatingControlPlane)), ControlPlaneName(u.row.name);
    SameCreation(u, w1);
    CreationIs(w1, name);
    var made, cp := CreateServer(w1, name), AddControlPlane(u);
    if made.value.Some? { WaitIsSame(Publish(made.w, Step(WaitingCloudInitCp)), made.value.value, u.maxPolls); }
    assert cp.w.cloud == made.w.cloud;
    if !NoCreation(u) {
      var i :| i in made.w.cloud.live && i !in u.cloud.live;
      if cp.value.Some? { AddingKeepsLive(cp.w, n, i); }
      assert i in ProvisionCluster(u, n).w.cloud.live.Keys && i !in u.cloud.live.Keys;
    }
  }

  lemma AddingKeepsLive(w: World, n: nat, i: ServerId)
    requires i in w.cloud.live
    ensures i in AddWorkers(w, 0, n).w.cloud.live
  {
    hide AwaitWorkers, JoinWorkers, CreateWorkers;
    var w1 := Publish(w, Step(CreatingWorkers));
    CreatingKeepsLive(w1, 0, n, [], i);
    var created := CreateWorkers(w1, 0, n, []);
    if created.value.Some? { BootingKeepsCloud(Publish(created.w, Step(WaitingCloudInitWorkers)), created.value.value); }
  }

  lemma FleetIsAllMade(b: map<ServerId, Host>, w: World, u: World, f: Fleet)
    requires Inv(b, w) && FleetMade(w.(row := u.row), u, f)
    ensures Fits(b, w, u, AllViews(f)) && AllMade(w, u, AllViews(f))
  {
    hide FleetMade, AllNew, Fits;
    InvIssues(b, w);
    FitsAll(b, w, u, f);
    AllViewsNew(w, u, f);
    FleetCovers(w, u, f);
  }

  lemma FleetCovers(w: World, u: World, f: Fleet)
    requires FleetMade(w.(row := u.row), u, f)
    ensures forall i :: i in u.cloud.live ==> i in w.cloud.live || Listed(AllViews(f), i)
  {
    var views := AllViews(f);
    forall i | i in u.cloud.live && i !in w.cloud.live ensures Listed(views, i) {
      if i == f.controlPlane.id {
        assert views[0].id == i;
      } else {
        var j :| 0 <= j < |f.workers| && f.workers[j].id == i;
        assert views[j + 1].id == i;
      }
    }
  }

  lemma FinishCommits(b: map<ServerId, Host>, w: World, u: World, f: Fleet)
    requires Fits(b, w, u, AllViews(f)) && u.servers == w.servers
    ensures var v := FinishProvision(u, f).w;
            v.cloud == u.cloud && RowsUpTo(w, v, AllViews(f), Committed(u, |AllViews(f)|))
  {
    hide RecordServer, RecordServers, SealProvision, RowsUpTo, Fits;
    var views, n := AllViews(f), |f.workers|;
    assert views[0] == f.controlPlane && views[1..] == f.workers;
    FitsOpens(b, w, u, views);
    FirstIsRecordable(u.servers, views);
    RecordServerAppends(u, f.controlPlane, ControlPlane);
    RecordServerTicks(u, f.controlPlane, ControlPlane);
    var cp, v := RecordServer(u, f.controlPlane, ControlPlane), FinishProvision(u, f).w;
    if Next(u).reply.Clean? {
      RecordableRest(u.servers, views, ControlPlane);
      RecordServersCommit(cp.w, f.workers, Worker);
      CommittedReadsFaults(Tick(u), cp.w, n);
      var rest, k := RecordServers(cp.w, f.workers, Worker), Committed(cp.w, n);
      SealFrame(rest.w);
      assert v.servers == u.servers + [RowOf(f.controlPlane, ControlPlane)] + RowsOf(f.workers[..k], Worker);
      RowsOfFleet(w, v, f, k);
    } else if Next(u).reply.Refused? {
      NoRowYet(w, v, views);
    } else {
      assert v.servers == u.servers + [RowOf(f.controlPlane, ControlPlane)] + RowsOf(f.workers[..0], Worker);
      RowsOfFleet(w, v, f, 0);
    }
  }

  lemma SealFrame(u: World)
    ensures SealProvision(u).w.cloud == u.cloud && SealProvision(u).w.servers == u.servers
  {
    StoreFrame(u);
  }

  lemma NoRowYet(w: World, v: World, views: seq<View>)
    requires v.servers == w.servers
    ensures RowsUpTo(w, v, views, 0)
  {
    ListedNone(views[..0]);
  }

  lemma RowsOfFleet(w: World, v: World, f: Fleet, k: nat)
    requires k <= |f.workers| && forall i :: 0 <= i < |AllViews(f)| ==> AllViews(f)[i].id <= I64_MAX
    requires v.servers == w.servers + [RowOf(f.controlPlane, ControlPlane)] + RowsOf(f.workers[..k], Worker)
    ensures RowsUpTo(w, v, AllViews(f), k + 1)
  {
    var views, cp := AllViews(f), [f.controlPlane];
    assert views[0] == f.controlPlane && views[1..] == f.workers && views[..k + 1] == cp + f.workers[..k];
    assert RowsOf(cp, ControlPlane) == [RowOf(f.controlPlane, ControlPlane)];
    RowIdsAppend(w.servers + RowsOf(cp, ControlPlane), RowsOf(f.workers[..k], Worker));
    RowIdsAppend(w.servers, RowsOf(cp, ControlPlane));
    forall i: ServerId ensures i in RowIds(v.servers) <==> i in RowIds(w.servers) || Listed(views[..k + 1], i) {
      assert forall j :: 0 <= j < k ==> f.workers[j] == views[j + 1];
      RowIdsOfViews(cp, ControlPlane, i);
      RowIdsOfViews(f.workers[..k], Worker, i);
      ListedSplit(views[..k + 1], 1, i);
      assert views[..k + 1][..1] == cp && views[..k + 1][1..] == f.workers[..k];
    }
  }

  /** A provision loses a server if and only if it stopped in between. */
  lemma ProvisionLosesIff(b: map<ServerId, Host>, w: World)
    requires Inv(b, w)
    ensures Lost(w, RunProvision(w).w) == {} <==> ProvisionComplete(w)
  {
    hide ProvisionCluster, FinishProvision, Inv, FleetMade, AllMade, Fits, RowsUpTo, Grew;
    InvIssues(b, w);
    var v := RunProvision(w).w;
    if Begun(w).None? {
      LosesNothing(w, v);
    } else {
      var u := Begun(w).value;
      ProvisionClusterMakes(u, Workforce(w));
      var fleet := ProvisionCluster(u, Workforce(w));
      GrewKeepsRows(u, fleet.w);
      if fleet.value.None? {
        forall i ensures i in Lost(w, v) <==> i in fleet.w.cloud.live && i !in w.cloud.live {
          NothingRecorded(b, w, u, fleet.w, v, i);
        }
        GrownKeys(u, fleet.w);
        ControlPlaneDecides(u, Workforce(w));
      } else {
        var f := fleet.value.value;
        var views := AllViews(f);
        FleetMadeAlike(w, u, fleet.w, f);
        FleetIsAllMade(b, w, fleet.w, f);
        FinishCommits(b, w, fleet.w, f);
        var k := Committed(fleet.w, |views|);
        forall i ensures i in Lost(w, v) <==> Listed(views[k..], i) { LossOf(w, fleet.w, v, views, k, i); }
        ListedNone(views[k..]);
      }
    }
  }

  lemma GrewKeepsRows(u: World, v: World)
    requires Grew(u, v)
    ensures v.servers == u.servers && v.row == u.row
  {
  }

  lemma FleetMadeAlike(w: World, u: World, v: World, f: Fleet)
    requires FleetMade(u, v, f) && u == w.(faults := u.faults, row := u.row) && v.row == u.row
    ensures FleetMade(w.(row := v.row), v, f)
  {
  }

  /** Loss happens: the control plane is created, the reply is lost, and no row is ever written. */
  lemma ProvisionCanLose(w: World)
    requires Fresh(w) && w.cloud.ceiling <= I64_MAX
    ensures var ok, lost := Fault(Clean, 0, Running(true)), Fault(LostReply, w.cloud.ceiling, Running(true));
            Lost(w, RunProvision(w.(faults := [ok, ok, lost])).w) != {}
  {
    hide FinishProvision, ProvisionCluster;
    var ok, lost := Fault(Clean, 0, Running(true)), Fault(LostReply, w.cloud.ceiling, Running(true));
    var v := w.(faults := [ok, ok, lost]);
    assert [ok, ok, lost][1..] == [ok, lost] && [ok, lost][1..] == [lost];
    var u := w.(faults := [lost], row := w.row.(status := Provisioning));
    assert Begun(v) == Some(u);
    LostControlPlane(u, Workforce(v));
    FreshInv(v);
    ProvisionLosesIff(v.cloud.live, v);
    LostFrom(v, w, RunProvision(v).w);
  }

  lemma LostControlPlane(u: World, n: nat)
    requires u.faults != [] && u.faults[0].reply.LostReply? && PickId(u.cloud, u.faults[0].proposedId) <= I64_MAX
    ensures ProvisionCluster(u, n).value.None? && !NoCreation(u)
  {
    hide AddWorkers;
  }

  // ---------------------------------------------------------------------- whole lives

  /** Where a scale request hands over to its run. */
  function Handed(w: World, delta: int): World {
    UpdateWorkerCount(Attempt(GetCluster(w).w).w, SaturatingAdd(w.row.workerCount, delta)).w
  }

  predicate Runs(w: World, delta: int) {
    var got := GetCluster(w);
    var credential := Attempt(got.w);
    && got.ok && w.row.status.Ready? && delta > 0
    && MIN_WORKER_COUNT <= SaturatingAdd(w.row.workerCount, delta) <= MAX_WORKER_COUNT
    && credential.ok && UpdateWorkerCount(credential.w, SaturatingAdd(w.row.workerCount, delta)).ok
  }

  /** A request that grows the fleet did not stop in between; others cannot lose a server. */
  ghost predicate RequestComplete(w: World, request: Request) {
    request.Scale? && Runs(w, request.delta) ==> ScaleOutComplete(Handed(w, request.delta), request.delta)
  }

  lemma RequestLosesIff(b: map<ServerId, Host>, w: World, request: Request)
    requires Inv(b, w)
    ensures Lost(w, Serve(w, request).w) == {} <==> RequestComplete(w, request)
  {
    hide Inv, ScaleOutComplete, RunScaleOut, RunScaleIn, DestroyRequest;
    InvIssues(b, w);
    match request
    case Destroy => DestroyLosesNothing(w);
    case Scale(delta) =>
      if Runs(w, delta) {
        HandedIsConsistent(b, w, delta);
        ScaleOutLosesIff(b, Handed(w, delta), delta);
        LostFrom(w, Handed(w, delta), Serve(w, request).w);
      } else {
        ShrinkingLosesNothing(w, delta);
        LosesNothing(w, Serve(w, request).w);
      }
  }

  lemma LostFrom(w: World, u: World, v: World)
    requires u.cloud == w.cloud
    ensures Lost(u, v) == Lost(w, v)
  {
  }

  lemma HandedIsConsistent(b: map<ServerId, Host>, w: World, delta: int)
    requires Inv(b, w) && Runs(w, delta)
    ensures Inv(b, Handed(w, delta)) && Handed(w, delta).row.status.Ready? && Handed(w, delta).cloud == w.cloud
  {
  }

  lemma ShrinkingLosesNothing(w: World, delta: int)
    requires !Runs(w, delta)
    ensures forall i :: i in ScaleWorkers(w, delta).w.cloud.live ==> i in w.cloud.live
  {
    hide RunScaleOut, RunScaleIn;
    if delta < 0 { ScaleInIssuesNothing(Handed(w, delta), -delta); }
  }

  /** No run of the life stopped between a creation that took effect and the commit of its row. */
  ghost predicate LifeComplete(w: World, requests: seq<Request>)
    decreases |requests|
  {
    if requests == [] then ProvisionComplete(w)
    else
      var before := requests[..|requests| - 1];
      LifeComplete(w, before) && RequestComplete(Life(w, before), requests[|requests| - 1])
  }

  lemma {:induction false} LifeLosesIff(w: World, requests: seq<Request>)
    requires Fresh(w)
    ensures LostOver(w, requests) == {} <==> LifeComplete(w, requests)
    decreases |requests|
  {
    hide ProvisionComplete, RequestComplete, Serve, RunProvision, Inv;
    if requests == [] {
      FreshInv(w);
      ProvisionLosesIff(w.cloud.live, w);
    } else {
      var before := requests[..|requests| - 1];
      LifeLosesIff(w, before);
      NoServerIsLostSilently(w, before);
      RequestLosesIff(w.cloud.live, Life(w, before), requests[|requests| - 1]);
    }
  }

  /**
    A destroy that reports success gives the provider back as it was before the
    cluster if and only if no provision or scale-out of its life stopped between
    a creation that took effect and the commit of that server's row.
   */
  lemma DestroyIsWholeIff(w: World, requests: seq<Request>)
    requires Fresh(w) && DestroyRequest(Life(w, requests)).ok
    ensures DestroyRequest(Life(w, requests)).w.cloud.live == w.cloud.live <==> LifeComplete(w, requests)
  {
    hide Life, DestroyRequest, LostOver, LifeComplete;
    DestroyGivesTheCloudBack(w, requests);
    LifeLosesIff(w, requests);
  }
}
