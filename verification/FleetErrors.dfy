/**
  No error is lost on the way: a run that reports success met none, but for the
  ones the runner drops on purpose.
 */
module FleetErrors {
  import opened FleetModel
  import opened FleetRuns
  import opened FleetInvariant
  import opened FleetSafety

  // -------------------------------------------------------------------- counting errors

  /** How many of the first `k` replies are errors. */
  function Errors(faults: seq<Fault>, k: nat): nat
    requires k <= |faults|
  {
    if k == 0 then 0 else Errors(faults, k - 1) + if faults[k - 1].reply.Clean? then 0 else 1
  }

  /** Between the two moments at most `n` calls were answered with an error. */
  ghost predicate Met(w: World, v: World, n: nat) {
    exists k :: 0 <= k <= |w.faults| && v.faults == w.faults[k..] && Errors(w.faults, k) <= n
  }

  lemma {:induction false} ErrorsAppend(faults: seq<Fault>, a: nat, b: nat)
    requires a + b <= |faults|
    ensures Errors(faults, a + b) == Errors(faults, a) + Errors(faults[a..], b)
    decreases b
  {
    if b > 0 {
      ErrorsAppend(faults, a, b - 1);
      assert faults[a..][b - 1] == faults[a + b - 1];
    }
  }

  lemma MetNothing(w: World, v: World)
    requires v.faults == w.faults
    ensures Met(w, v, 0)
  {
    assert w.faults[0..] == w.faults;
  }

  lemma MetTrans(w: World, u: World, v: World, m: nat, n: nat)
    requires Met(w, u, m) && Met(u, v, n)
    ensures Met(w, v, m + n)
  {
    hide Errors;
    var a :| 0 <= a <= |w.faults| && u.faults == w.faults[a..] && Errors(w.faults, a) <= m;
    var b :| 0 <= b <= |u.faults| && v.faults == u.faults[b..] && Errors(u.faults, b) <= n;
    ErrorsAppend(w.faults, a, b);
    SliceOfSlice(w.faults, a, b);
  }

  lemma SliceOfSlice(faults: seq<Fault>, a: nat, b: nat)
    requires a + b <= |faults|
    ensures faults[a..][b..] == faults[a + b..]
  {
  }

  /** One call. */
  lemma MetOne(w: World, v: World)
    requires v.faults == Tick(w).faults
    ensures Met(w, v, 1) && (Next(w).reply.Clean? ==> Met(w, v, 0))
  {
    if w.faults == [] {
      MetNothing(w, v);
      assert w.faults[0..] == v.faults && Errors(w.faults, 0) == 0;
    } else {
      assert Errors(w.faults, 1) == Errors(w.faults, 0) + if w.faults[0].reply.Clean? then 0 else 1;
      assert v.faults == w.faults[1..];
    }
  }

  lemma Calls(w: World, u: World, v: World)
    requires Met(w, u, 0) && v.faults == Tick(u).faults && Next(u).reply.Clean?
    ensures Met(w, v, 0)
  {
    MetOne(u, v);
    MetTrans(w, u, v, 0, 0);
  }

  /** Nothing but the log moved between two calls. */
  lemma Quietly(w: World, u: World, v: World, n: nat)
    requires Met(w, u, n) && v.faults == u.faults
    ensures Met(w, v, n)
  {
  }

  // ------------------------------------------------------------------------------ loops

  lemma {:induction false} PollMeets(w: World, id: ServerId, attempts: nat)
    requires WaitForCloudInit(w, id, attempts).value.Some?
    ensures Met(w, WaitForCloudInit(w, id, attempts).w, 0)
    decreases attempts
  {
    hide Met;
    MetOne(w, Tick(w));
    if Next(w).boot.Initializing? {
      PollMeets(Tick(w), id, attempts - 1);
      MetTrans(w, Tick(w), WaitForCloudInit(w, id, attempts).w, 0, 0);
    }
  }

  lemma {:induction false} CreateMeets(w: World, start: nat, count: nat, ids: seq<ServerId>)
    requires CreateWorkers(w, start, count, ids).value.Some?
    ensures Met(w, CreateWorkers(w, start, count, ids).w, 0)
    decreases count
  {
    hide Met;
    MetNothing(w, w);
    if count > 0 {
      var made := CreateServer(w, WorkerName(w.row.name, start));
      MetOne(w, made.w);
      CreateMeets(made.w, start + 1, count - 1, ids + [made.value.value]);
      MetTrans(w, made.w, CreateWorkers(w, start, count, ids).w, 0, 0);
    }
  }

  lemma {:induction false} AwaitMeets(w: World, ids: seq<ServerId>, views: seq<View>)
    requires AwaitWorkers(w, ids, views).value.Some?
    ensures Met(w, AwaitWorkers(w, ids, views).w, 0)
    decreases |ids|
  {
    hide Met, WaitForCloudInit;
    MetNothing(w, w);
    if ids != [] {
      PollMeets(w, ids[0], w.maxPolls);
      var booted := WaitForCloudInit(w, ids[0], w.maxPolls);
      AwaitMeets(booted.w, ids[1..], views + [booted.value.value]);
      MetTrans(w, booted.w, AwaitWorkers(w, ids, views).w, 0, 0);
    }
  }

  lemma {:induction false} JoinMeets(w: World, views: seq<View>)
    requires JoinWorkers(w, views).ok
    ensures Met(w, JoinWorkers(w, views).w, 0) && forall i :: 0 <= i < |views| ==> views[i].hasIpv4
    decreases |views|
  {
    hide Met;
    MetNothing(w, w);
    if views != [] {
      var joined := JoinNode(w, views[0].id);
      MetOne(w, joined.w);
      JoinMeets(joined.w, views[1..]);
      MetTrans(w, joined.w, JoinWorkers(w, views).w, 0, 0);
    }
  }

  lemma {:induction false} RecordMeets(w: World, views: seq<View>, role: Role)
    requires RecordServers(w, views, role).ok
    ensures Met(w, RecordServers(w, views, role).w, 0)
    decreases |views|
  {
    hide Met;
    MetNothing(w, w);
    if views != [] {
      var r := RecordServer(w, views[0], role);
      MetOne(w, r.w);
      RecordMeets(r.w, views[1..], role);
      MetTrans(w, r.w, RecordServers(w, views, role).w, 0, 0);
    }
  }

  lemma {:induction false} DrainMeets(w: World, nodes: seq<Host>)
    requires DrainNodes(w, nodes).ok
    ensures Met(w, DrainNodes(w, nodes).w, 0)
    decreases |nodes|
  {
    hide Met;
    MetNothing(w, w);
    if nodes != [] {
      var d := DrainNode(w, nodes[0]);
      MetOne(w, d.w);
      DrainMeets(d.w, nodes[1..]);
      MetTrans(w, d.w, DrainNodes(w, nodes).w, 0, 0);
    }
  }

  lemma {:induction false} RemoveMeets(w: World, nodes: seq<Host>)
    requires RemoveNodes(w, nodes).ok
    ensures Met(w, RemoveNodes(w, nodes).w, 0)
    decreases |nodes|
  {
    hide Met;
    MetNothing(w, w);
    if nodes != [] {
      var d := RemoveNode(w, nodes[0]);
      MetOne(w, d.w);
      RemoveMeets(d.w, nodes[1..]);
      MetTrans(w, d.w, RemoveNodes(w, nodes).w, 0, 0);
    }
  }

  lemma {:induction false} DeleteMeets(w: World, ids: seq<ServerId>)
    requires DeleteServers(w, ids).ok
    ensures Met(w, DeleteServers(w, ids).w, 0)
    decreases |ids|
  {
    hide Met;
    MetNothing(w, w);
    if ids != [] {
      var d := DeleteServerIdempotent(w, ids[0]);
      MetOne(w, d.w);
      DeleteMeets(d.w, ids[1..]);
      MetTrans(w, d.w, DeleteServers(w, ids).w, 0, 0);
    }
  }

  /** Forgetting drops its errors: at most one for each row. */
  lemma {:induction false} ForgetMeets(w: World, rows: seq<ServerRow>)
    ensures Met(w, ForgetServers(w, rows), |rows|)
    decreases |rows|
  {
    hide Met;
    MetNothing(w, w);
    if rows != [] {
      var u := ForgetServer(w, rows[0].serverId);
      MetOne(w, u);
      ForgetMeets(u, rows[1..]);
      MetTrans(w, u, ForgetServers(w, rows), 1, |rows| - 1);
    }
  }

  // -------------------------------------------------------------------------- workflows

  lemma AddWorkersMeets(w: World, start: nat, count: nat)
    requires AddWorkers(w, start, count).value.Some?
    ensures var added := AddWorkers(w, start, count);
            Met(w, added.w, 0) && forall i :: 0 <= i < |added.value.value| ==> added.value.value[i].hasIpv4
  {
    hide Met, CreateWorkers, AwaitWorkers, JoinWorkers;
    var w1 := Publish(w, Step(CreatingWorkers));
    var made := CreateWorkers(w1, start, count, []);
    var w2 := Publish(made.w, Step(WaitingCloudInitWorkers));
    var booted := AwaitWorkers(w2, made.value.value, []);
    var w3 := Publish(booted.w, Step(InstallingK3sAgents));
    MetNothing(w, w1);
    CreateMeets(w1, start, count, []);
    MetTrans(w, w1, made.w, 0, 0);
    Quietly(w, made.w, w2, 0);
    AwaitMeets(w2, made.value.value, []);
    MetTrans(w, w2, booted.w, 0, 0);
    Quietly(w, booted.w, w3, 0);
    JoinMeets(w3, booted.value.value);
    MetTrans(w, w3, AddWorkers(w, start, count).w, 0, 0);
  }

  lemma AddControlPlaneMeets(w: World)
    requires AddControlPlane(w).value.Some?
    ensures Met(w, AddControlPlane(w).w, 0)
  {
    hide Met, WaitForCloudInit;
    var w1 := Publish(w, Step(CreatingControlPlane));
    var made := CreateServer(w1, ControlPlaneName(w.row.name));
    var w2 := Publish(made.w, Step(WaitingCloudInitCp));
    var booted := WaitForCloudInit(w2, made.value.value, w.maxPolls);
    var w3 := Publish(booted.w, Step(InstallingK3sServer));
    var installed := JoinNode(w3, made.value.value);
    MetNothing(w, w1);
    Calls(w, w1, made.w);
    Quietly(w, made.w, w2, 0);
    PollMeets(w2, made.value.value, w.maxPolls);
    MetTrans(w, w2, booted.w, 0, 0);
    Quietly(w, booted.w, w3, 0);
    Calls(w, w3, installed.w);
    Calls(w, installed.w, AddControlPlane(w).w);
  }

  lemma ProvisionClusterMeets(w: World, count: nat)
    requires ProvisionCluster(w, count).value.Some?
    ensures Met(w, ProvisionCluster(w, count).w, 0)
  {
    hide Met, AddControlPlane, AddWorkers;
    var cp := AddControlPlane(w);
    var added := AddWorkers(cp.w, 0, count);
    var w1 := Publish(added.w, Step(CollectingKubeconfig));
    AddControlPlaneMeets(w);
    AddWorkersMeets(cp.w, 0, count);
    MetTrans(w, cp.w, added.w, 0, 0);
    Quietly(w, added.w, w1, 0);
    Calls(w, w1, ProvisionCluster(w, count).w);
  }

  lemma ScaleInMeets(w: World, targets: seq<Target>)
    requires ScaleIn(w, targets).ok
    ensures Met(w, ScaleIn(w, targets).w, 0)
  {
    hide Met, DrainNodes, RemoveNodes, DeleteServers;
    var nodes := NodesOf(targets);
    var w1 := Publish(w, Step(DrainingNodes));
    var drained := DrainNodes(w1, nodes);
    var w2 := Publish(drained.w, Step(DeletingNodes));
    var removed := RemoveNodes(w2, nodes);
    var w3 := Publish(removed.w, Step(DestroyingServers));
    var deleted := DeleteServers(w3, IdsOf(targets));
    MetNothing(w, w1);
    DrainMeets(w1, nodes);
    MetTrans(w, w1, drained.w, 0, 0);
    Quietly(w, drained.w, w2, 0);
    RemoveMeets(w2, nodes);
    MetTrans(w, w2, removed.w, 0, 0);
    Quietly(w, removed.w, w3, 0);
    DeleteMeets(w3, IdsOf(targets));
    MetTrans(w, w3, deleted.w, 0, 0);
    Quietly(w, deleted.w, ScaleIn(w, targets).w, 0);
  }

  // ------------------------------------------------------------------------------- runs

  lemma SealMeets(w: World)
    requires SealProvision(w).ok
    ensures Met(w, SealProvision(w).w, 0) && SealProvision(w).w.row.status.Ready? && SealProvision(w).w.row.kubeconfig.Some?
  {
    hide Met;
    var put := PutSecret(w);
    var stored := SetKubeconfigSecret(put.w, put.value.value);
    var ready := UpdateStatus(stored.w, Ready);
    MetOne(w, put.w);
    Calls(w, put.w, stored.w);
    Calls(w, stored.w, ready.w);
    Calls(w, ready.w, SealProvision(w).w);
  }

  lemma FinishMeets(w: World, f: Fleet)
    requires FinishProvision(w, f).ok
    ensures var v := FinishProvision(w, f).w; Met(w, v, 0) && v.row.status.Ready? && v.row.kubeconfig.Some?
  {
    hide Met, RecordServers, SealProvision;
    var cp := RecordServer(w, f.controlPlane, ControlPlane);
    var rest := RecordServers(cp.w, f.workers, Worker);
    MetOne(w, cp.w);
    RecordMeets(cp.w, f.workers, Worker);
    MetTrans(w, cp.w, rest.w, 0, 0);
    SealMeets(rest.w);
    MetTrans(w, rest.w, FinishProvision(w, f).w, 0, 0);
  }

  /** A provision that reports success met no error at all. */
  lemma ProvisionMeetsNoError(w: World)
    requires RunProvision(w).ok
    ensures Met(w, RunProvision(w).w, 0)
    ensures RunProvision(w).w.row.status.Ready? && RunProvision(w).w.row.kubeconfig.Some?
  {
    hide Met, ProvisionCluster, FinishProvision;
    var begun := UpdateStatus(w, Provisioning);
    var shadow := Attempt(begun.w);
    var n := if w.row.workerCount < 0 then 0 else w.row.workerCount;
    var fleet := ProvisionCluster(shadow.w, n);
    MetOne(w, begun.w);
    Calls(w, begun.w, shadow.w);
    ProvisionClusterMeets(shadow.w, n);
    MetTrans(w, shadow.w, fleet.w, 0, 0);
    FinishMeets(fleet.w, fleet.value.value);
    MetTrans(w, fleet.w, RunProvision(w).w, 0, 0);
  }

  lemma BeginMeets(w: World)
    requires BeginScaling(w).ok
    ensures Met(w, BeginScaling(w).w, 0)
  {
    hide Met;
    MetOne(w, BeginScaling(w).w);
  }

  lemma AddAndRecordMeets(w: World, start: nat, count: nat)
    requires AddAndRecord(w, start, count).ok
    ensures Met(w, AddAndRecord(w, start, count).w, 0) && AddAndRecord(w, start, count).w.row.status.Ready?
  {
    hide Met, AddWorkers, RecordServers;
    var inner := AddWorkers(w, start, count);
    var added := ScaleOut(w, start, count);
    var recorded := RecordServers(added.w, added.value.value, Worker);
    AddWorkersMeets(w, start, count);
    Quietly(w, inner.w, added.w, 0);
    RecordMeets(added.w, added.value.value, Worker);
    MetTrans(w, added.w, recorded.w, 0, 0);
    Calls(w, recorded.w, AddAndRecord(w, start, count).w);
  }

  /** So did a scale-out. */
  lemma ScaleOutMeetsNoError(w: World, count: nat)
    requires RunScaleOut(w, count).ok
    ensures Met(w, RunScaleOut(w, count).w, 0) && RunScaleOut(w, count).w.row.status.Ready?
  {
    hide Met, AddAndRecord, Pick;
    var begun := BeginScaling(w);
    var listed := Attempt(begun.w);
    var token := Attempt(listed.w);
    BeginMeets(w);
    Calls(w, begun.w, listed.w);
    Calls(w, listed.w, token.w);
    AddAndRecordMeets(token.w, |Workers(token.w)|, count);
    MetTrans(w, token.w, RunScaleOut(w, count).w, 0, 0);
  }

  lemma RemoveAndForgetMeets(w: World, targets: seq<Target>, doomed: seq<ServerRow>)
    requires RemoveAndForget(w, targets, doomed).ok
    ensures Met(w, RemoveAndForget(w, targets, doomed).w, |doomed|)
    ensures RemoveAndForget(w, targets, doomed).w.row.status.Ready?
  {
    hide Met, ScaleIn, ForgetServers;
    var scaled := ScaleIn(w, targets);
    var forgot := ForgetServers(scaled.w, doomed);
    ScaleInMeets(w, targets);
    ForgetMeets(scaled.w, doomed);
    MetTrans(w, scaled.w, forgot, 0, |doomed|);
    var v := RemoveAndForget(w, targets, doomed).w;
    MetOne(forgot, v);
    MetTrans(w, forgot, v, |doomed|, 0);
  }

  /** A scale-in drops at most the errors of its soft-deletes, one for each worker it removes. */
  lemma ScaleInMeetsOnlyDropped(w: World, count: nat)
    requires RunScaleIn(w, count).ok
    ensures Met(w, RunScaleIn(w, count).w, |Youngest(Workers(w), count)|) && RunScaleIn(w, count).w.row.status.Ready?
  {
    hide Met, RemoveAndForget, Youngest, Pick;
    var begun := BeginScaling(w);
    var listed := Attempt(begun.w);
    var handle := GetCluster(listed.w);
    var fetched := Attempt(handle.w);
    var staged := Attempt(fetched.w);
    var doomed := Youngest(Workers(listed.w), count);
    var targets := TargetsOf(w.row.name, Workers(listed.w), doomed);
    BeginMeets(w);
    Calls(w, begun.w, listed.w);
    Calls(w, listed.w, handle.w);
    Calls(w, handle.w, fetched.w);
    Calls(w, fetched.w, staged.w);
    RemoveAndForgetMeets(staged.w, targets, doomed);
    MetTrans(w, staged.w, RunScaleIn(w, count).w, 0, |doomed|);
  }

  /** Hiding the row and marking it destroyed. */
  lemma HideMeets(u: World)
    requires SoftDeleteCluster(u).ok && UpdateStatus(SoftDeleteCluster(u).w, Destroyed).ok
    ensures var v := UpdateStatus(SoftDeleteCluster(u).w, Destroyed).w;
            Met(u, v, 0) && v.row.status.Destroyed? && v.row.deleted
  {
    hide Met;
    MetOne(u, SoftDeleteCluster(u).w);
    Calls(u, SoftDeleteCluster(u).w, UpdateStatus(SoftDeleteCluster(u).w, Destroyed).w);
  }

  /** Reading the handle and trying to delete the secret behind it. */
  lemma HandleMeets(w: World)
    requires GetCluster(w).ok
    ensures Met(w, DropSecret(GetCluster(w).w), if w.row.kubeconfig.Some? then 1 else 0)
  {
    hide Met;
    var handle := GetCluster(w).w;
    MetOne(w, handle);
    if w.row.kubeconfig.Some? {
      MetOne(handle, DropSecret(handle));
      MetTrans(w, handle, DropSecret(handle), 0, 1);
    }
  }

  lemma FinalizeMeets(w: World)
    requires FinalizeDestroy(w).ok
    ensures var v := FinalizeDestroy(w).w;
            Met(w, v, if w.row.kubeconfig.Some? then 1 else 0) && v.row.status.Destroyed? && v.row.deleted
  {
    hide Met, SoftDeleteCluster, UpdateStatus, GetCluster, DeleteSecret;
    HandleMeets(w);
    var u := DropSecret(GetCluster(w).w);
    HideMeets(u);
    MetTrans(w, u, FinalizeDestroy(w).w, if w.row.kubeconfig.Some? then 1 else 0, 0);
  }

  lemma DestroyClusterMeets(w: World, ids: seq<ServerId>)
    requires DestroyCluster(w, ids).ok
    ensures Met(w, DestroyCluster(w, ids).w, 0)
  {
    hide Met, DeleteServers;
    var w1 := Publish(w, Step(DestroyingServers));
    MetNothing(w, w1);
    DeleteMeets(w1, ids);
    MetTrans(w, w1, DeleteServers(w1, ids).w, 0, 0);
    Quietly(w, DeleteServers(w1, ids).w, DestroyCluster(w, ids).w, 0);
  }

  lemma BeginDestroyMeets(w: World)
    requires BeginDestroy(w).ok
    ensures Met(w, BeginDestroy(w).w, 0) && BeginDestroy(w).w.row.kubeconfig == w.row.kubeconfig
  {
    hide Met;
    MetOne(w, GetCluster(w).w);
    Calls(w, GetCluster(w).w, BeginDestroy(w).w);
  }

  /** A destroy drops at most the error of deleting the kubeconfig secret. */
  lemma DestroyMeetsOnlyDropped(w: World)
    requires RunDestroy(w).ok
    ensures var v := RunDestroy(w).w;
            Met(w, v, if w.row.kubeconfig.Some? then 1 else 0) && v.row.status.Destroyed? && v.row.deleted
  {
    hide Met, DestroyCluster, BeginDestroy, FinalizeDestroy, Pick;
    var begun := BeginDestroy(w);
    var listed := Attempt(begun.w);
    var ids := DoomedIds(ListServers(listed.w));
    var gone := DestroyCluster(listed.w, ids);
    var forgotten := SoftDeleteServers(gone.w);
    var finalized := FinalizeDestroy(forgotten.w);
    BeginDestroyMeets(w);
    Calls(w, begun.w, listed.w);
    DestroyClusterMeets(listed.w, ids);
    MetTrans(w, listed.w, gone.w, 0, 0);
    Calls(w, gone.w, forgotten.w);
    DestroyKeepsHandle(listed.w, ids);
    FinalizeMeets(forgotten.w);
    MetTrans(w, forgotten.w, finalized.w, 0, if w.row.kubeconfig.Some? then 1 else 0);
    Quietly(w, finalized.w, RunDestroy(w).w, if w.row.kubeconfig.Some? then 1 else 0);
  }

  lemma DestroyKeepsHandle(w: World, ids: seq<ServerId>)
    ensures DestroyCluster(w, ids).w.row == w.row
  {
    hide DeleteServers;
    var k, tried := DeleteServersPrefix(Publish(w, Step(DestroyingServers)), ids);
  }
}
