/**
  The runner as it executes: an object that updates the provider, the tables and
  the event log in place, step by step, with loops and early returns. Every
  method is proved to do exactly what the function of the same name says.
 */
module FleetRunner {
  import opened Environment
  import opened Numerals
  import opened FleetModel
  import opened FleetRuns

  class LocalRunner {
    var cloud: Cloud
    var nodes: map<Host, bool>
    var row: ClusterRow
    var servers: seq<ServerRow>
    var secrets: set<nat>
    var nextSecret: nat
    var faults: seq<Fault>
    var events: seq<Event>
    var calls: seq<Call>
    var swallowed: set<int>
    var stalled: bool
    const maxPolls: nat

    constructor (w: World)
      ensures State() == w
    {
      cloud, nodes, row, servers := w.cloud, w.nodes, w.row, w.servers;
      secrets, nextSecret, faults, events := w.secrets, w.nextSecret, w.faults, w.events;
      calls, swallowed, stalled, maxPolls := w.calls, w.swallowed, w.stalled, w.maxPolls;
    }

    function State(): World
      reads this
    {
      World.World(cloud, nodes, row, servers, secrets, nextSecret, faults, events, calls, swallowed, stalled, maxPolls)
    }

    // -------------------------------------------------------------------- environment

    /** How the environment answers the next call. */
    method Answer() returns (f: Fault)
      modifies this`faults
      ensures f == Next(old(State())) && State() == Tick(old(State()))
    {
      if faults == [] {
        f := Fault(Clean, 0, Running(true));
      } else {
        f := faults[0];
        faults := faults[1..];
      }
    }

    method Try() returns (ok: bool)
      modifies this`faults
      ensures Out(ok, State()) == Attempt(old(State()))
    {
      var f := Answer();
      ok := f.reply.Clean?;
    }

    method Emit(e: Event)
      modifies this`events
      ensures State() == Publish(old(State()), e)
    {
      events := events + [e];
    }

    // ----------------------------------------------------------------- provider, kubectl

    method CreateServer(name: Host) returns (made: Option<ServerId>)
      modifies this
      ensures Got(made, State()) == FleetModel.CreateServer(old(State()), name)
    {
      var f := Answer();
      var id := PickId(cloud, f.proposedId);
      if f.reply.Refused? || id > I64_MAX { return None; }
      cloud := WithServer(cloud, id, name);
      made := if f.reply.Clean? then Some(id) else None;
    }

    method DeleteServer(id: ServerId) returns (ok: bool)
      modifies this
      ensures Out(ok, State()) == DeleteServerIdempotent(old(State()), id)
    {
      var f := Answer();
      calls := calls + [Call.DeleteServer(id)];
      if !f.reply.Refused? { cloud := cloud.(live := cloud.live - {id}); }
      ok := f.reply.Clean?;
    }

    method DrainNode(node: Host) returns (ok: bool)
      modifies this
      ensures Out(ok, State()) == FleetModel.DrainNode(old(State()), node)
    {
      var f := Answer();
      calls := calls + [Drain(node)];
      if !f.reply.Refused? && node in nodes { nodes := nodes[node := true]; }
      ok := f.reply.Clean?;
    }

    method RemoveNode(node: Host) returns (ok: bool)
      modifies this
      ensures Out(ok, State()) == FleetModel.RemoveNode(old(State()), node)
    {
      var f := Answer();
      calls := calls + [DeleteNode(node)];
      if !f.reply.Refused? { nodes := nodes - {node}; }
      ok := f.reply.Clean?;
    }

    method JoinNode(id: ServerId) returns (ok: bool)
      modifies this
      ensures Out(ok, State()) == FleetModel.JoinNode(old(State()), id)
    {
      var f := Answer();
      if !f.reply.Refused? && id in cloud.live { nodes := nodes[cloud.live[id] := false]; }
      ok := f.reply.Clean?;
    }

    method WaitForCloudInit(id: ServerId) returns (view: Option<View>)
      modifies this
      ensures Got(view, State()) == FleetRuns.WaitForCloudInit(old(State()), id, maxPolls)
    {
      var left := maxPolls;
      while left > 0
        invariant FleetRuns.WaitForCloudInit(old(State()), id, maxPolls) == FleetRuns.WaitForCloudInit(State(), id, left)
      {
        var f := Answer();
        if !f.reply.Clean? { return None; }
        match f.boot
        case Running(hasIpv4) => return Some(View(id, hasIpv4));
        case Broken => return None;
        case Initializing => left := left - 1;
      }
      view := None;
    }

    // ----------------------------------------------------------------------- repository

    method UpdateStatus(status: Status) returns (ok: bool)
      modifies this
      ensures Out(ok, State()) == FleetModel.UpdateStatus(old(State()), status)
    {
      var f := Answer();
      if !f.reply.Refused? { row := row.(status := status); }
      ok := f.reply.Clean?;
    }

    method RecordServer(view: View, role: Role) returns (ok: bool)
      modifies this
      ensures Out(ok, State()) == FleetModel.RecordServer(old(State()), view, role)
    {
      var f := Answer();
      var r := RowOf(view, role);
      if !f.reply.Refused? && !(exists x :: x in servers && !x.deleted && x.serverId == r.serverId) {
        servers := servers + [r];
      }
      ok := f.reply.Clean?;
    }

    method ForgetServer(serverId: int)
      modifies this
      ensures State() == FleetModel.ForgetServer(old(State()), serverId)
    {
      var f := Answer();
      if f.reply.Refused? {
        swallowed := swallowed + {serverId};
      } else {
        servers := WithoutRow(servers, serverId);
      }
    }

    method SoftDeleteServers() returns (ok: bool)
      modifies this
      ensures Out(ok, State()) == FleetModel.SoftDeleteServers(old(State()))
    {
      var f := Answer();
      if !f.reply.Refused? { servers := AllDeleted(servers); }
      ok := f.reply.Clean?;
    }

    method GetCluster() returns (ok: bool)
      modifies this
      ensures Out(ok, State()) == FleetModel.GetCluster(old(State()))
    {
      var f := Answer();
      ok := f.reply.Clean? && !row.deleted;
    }

    method StoreKubeconfig() returns (ok: bool)
      modifies this
      ensures Out(ok, State()) == FleetModel.StoreKubeconfig(old(State()))
    {
      var put := Answer();
      if put.reply.Refused? { return false; }
      var secret := nextSecret;
      secrets, nextSecret := secrets + {secret}, nextSecret + 1;
      if !put.reply.Clean? { return false; }
      var set_ := Answer();
      if !row.deleted && (row.kubeconfig.None? || row.kubeconfig == Some(secret)) {
        if !set_.reply.Refused? { row := row.(kubeconfig := Some(secret)); }
        if set_.reply.Clean? { return true; }
      }
      var _ := DeleteSecret(secret);
      ok := false;
    }

    method DeleteSecret(secret: nat) returns (ok: bool)
      modifies this
      ensures Out(ok, State()) == FleetModel.DeleteSecret(old(State()), secret)
    {
      var f := Answer();
      if row.kubeconfig == Some(secret) { return false; }
      if !f.reply.Refused? { secrets := secrets - {secret}; }
      ok := f.reply.Clean?;
    }

    // ------------------------------------------------------------------------ workflows

    method AddWorkers(start: nat, count: nat) returns (views: Option<seq<View>>)
      modifies this
      ensures Got(views, State()) == FleetRuns.AddWorkers(old(State()), start, count)
    {
      Emit(Step(CreatingWorkers));
      ghost var w1 := State();
      var ids := [];
      for offset := 0 to count
        invariant row == old(row)
        invariant CreateWorkers(w1, start, count, []) == CreateWorkers(State(), start + offset, count - offset, ids)
      {
        var made := CreateServer(WorkerName(row.name, start + offset));
        if made.None? { return None; }
        ids := ids + [made.value];
      }
      Emit(Step(WaitingCloudInitWorkers));
      ghost var w2 := State();
      var workers := [];
      for i := 0 to |ids|
        invariant AwaitWorkers(w2, ids, []) == AwaitWorkers(State(), ids[i..], workers)
      {
        assert ids[i..][1..] == ids[i + 1..];
        var booted := WaitForCloudInit(ids[i]);
        if booted.None? { return None; }
        workers := workers + [booted.value];
      }
      Emit(Step(InstallingK3sAgents));
      ghost var w3 := State();
      for i := 0 to |workers|
        invariant JoinWorkers(w3, workers) == JoinWorkers(State(), workers[i..])
      {
        assert workers[i..][1..] == workers[i + 1..];
        if !workers[i].hasIpv4 { return None; }
        var joined := JoinNode(workers[i].id);
        if !joined { return None; }
      }
      views := Some(workers);
    }

    method AddControlPlane() returns (view: Option<View>)
      modifies this
      ensures Got(view, State()) == FleetRuns.AddControlPlane(old(State()))
    {
      Emit(Step(CreatingControlPlane));
      var made := CreateServer(ControlPlaneName(row.name));
      if made.None? { return None; }
      Emit(Step(WaitingCloudInitCp));
      view := WaitForCloudInit(made.value);
      if view.None? || !view.value.hasIpv4 { return None; }
      Emit(Step(InstallingK3sServer));
      var installed := JoinNode(made.value);
      if !installed { return None; }
      var token := Try();
      if !token { return None; }
    }

    method ProvisionCluster(workerCount: nat) returns (fleet: Option<Fleet>)
      modifies this
      ensures Got(fleet, State()) == FleetRuns.ProvisionCluster(old(State()), workerCount)
    {
      hide FleetRuns.AddControlPlane, FleetRuns.AddWorkers;
      var cp := AddControlPlane();
      if cp.None? { return None; }
      var workers := AddWorkers(0, workerCount);
      if workers.None? { return None; }
      Emit(Step(CollectingKubeconfig));
      var collected := Try();
      if !collected { return None; }
      Emit(Step(Finished));
      fleet := Some(Fleet(cp.value, workers.value));
    }

    method DeleteServers(ids: seq<ServerId>) returns (ok: bool)
      modifies this
      ensures Out(ok, State()) == FleetRuns.DeleteServers(old(State()), ids)
    {
      for i := 0 to |ids|
        invariant FleetRuns.DeleteServers(old(State()), ids) == FleetRuns.DeleteServers(State(), ids[i..])
      {
        assert ids[i..][1..] == ids[i + 1..];
        ok := DeleteServer(ids[i]);
        if !ok { return; }
      }
      ok := true;
    }

    method ScaleIn(targets: seq<Target>) returns (ok: bool)
      modifies this
      ensures Out(ok, State()) == FleetRuns.ScaleIn(old(State()), targets)
    {
      var names := NodesOf(targets);
      Emit(Step(DrainingNodes));
      ghost var w1 := State();
      for i := 0 to |targets|
        invariant DrainNodes(w1, names) == DrainNodes(State(), names[i..])
      {
        assert names[i..][1..] == names[i + 1..];
        ok := DrainNode(targets[i].node);
        if !ok { return; }
      }
      Emit(Step(DeletingNodes));
      ghost var w2 := State();
      for i := 0 to |targets|
        invariant RemoveNodes(w2, names) == RemoveNodes(State(), names[i..])
      {
        assert names[i..][1..] == names[i + 1..];
        ok := RemoveNode(targets[i].node);
        if !ok { return; }
      }
      Emit(Step(DestroyingServers));
      ok := DeleteServers(IdsOf(targets));
      if ok { Emit(Step(Finished)); }
    }

    // --------------------------------------------------------------------------- runner

    method RecordServers(views: seq<View>, role: Role) returns (ok: bool)
      modifies this
      ensures Out(ok, State()) == FleetRuns.RecordServers(old(State()), views, role)
    {
      for i := 0 to |views|
        invariant FleetRuns.RecordServers(old(State()), views, role)
               == FleetRuns.RecordServers(State(), views[i..], role)
      {
        assert views[i..][1..] == views[i + 1..];
        ok := RecordServer(views[i], role);
        if !ok { return; }
      }
      ok := true;
    }

    method RunProvision() returns (ok: bool)
      modifies this
      ensures Out(ok, State()) == FleetRuns.RunProvision(old(State()))
    {
      hide FleetRuns.ProvisionCluster, FleetRuns.RecordServers, FleetModel.StoreKubeconfig, FleetModel.RecordServer;
      ok := UpdateStatus(Provisioning);
      if !ok { return; }
      ok := Try();
      if !ok { return; }
      var fleet := ProvisionCluster(if row.workerCount < 0 then 0 else row.workerCount);
      if fleet.None? {
        var _ := UpdateStatus(Failed);
        var _ := Try();
        Emit(Terminal(Failed));
        return false;
      }
      ok := RecordServer(fleet.value.controlPlane, ControlPlane);
      if !ok { return; }
      ok := RecordServers(fleet.value.workers, Worker);
      if !ok { return; }
      ok := StoreKubeconfig();
      if !ok { return; }
      ok := UpdateStatus(Ready);
      if !ok { return; }
      ok := Try();
      if ok { Emit(Terminal(Ready)); }
    }

    method RunScaleOut(count: nat) returns (ok: bool)
      modifies this
      ensures Out(ok, State()) == FleetRuns.RunScaleOut(old(State()), count)
    {
      hide FleetRuns.AddWorkers, FleetRuns.RecordServers;
      ok := UpdateStatus(Scaling);
      if !ok {
        stalled := stalled || !row.status.Scaling?;
        return;
      }
      ok := Try();
      var cps := Pick(servers, ControlPlane);
      if !ok || cps == [] || !cps[0].hasIpv4 { return false; }
      ok := Try();
      if !ok { return; }
      var added := AddWorkers(|Pick(servers, Worker)|, count);
      if added.None? {
        var _ := UpdateStatus(Failed);
        Emit(Terminal(Failed));
        return false;
      }
      Emit(Step(Finished));
      ok := RecordServers(added.value, Worker);
      if !ok { return; }
      ok := UpdateStatus(Ready);
      if ok { Emit(Terminal(Ready)); }
    }

    method RunScaleIn(count: nat) returns (ok: bool)
      modifies this
      ensures Out(ok, State()) == FleetRuns.RunScaleIn(old(State()), count)
    {
      hide FleetRuns.ScaleIn, Youngest, TargetsOf;
      ok := UpdateStatus(Scaling);
      if !ok {
        stalled := stalled || !row.status.Scaling?;
        return;
      }
      ok := Try();
      if !ok { return; }
      var workers := Pick(servers, Worker);
      var doomed := Youngest(workers, count);
      ok := GetCluster();
      if !ok || row.kubeconfig.None? { return false; }
      ok := Try();
      if !ok { return; }
      ok := Try();
      if !ok { return; }
      ok := ScaleIn(TargetsOf(row.name, workers, doomed));
      if !ok {
        var _ := UpdateStatus(Failed);
        Emit(Terminal(Failed));
        return;
      }
      ForgetServers(doomed);
      ok := UpdateStatus(Ready);
      if ok { Emit(Terminal(Ready)); }
    }

    method ForgetServers(rows: seq<ServerRow>)
      modifies this
      ensures State() == FleetRuns.ForgetServers(old(State()), rows)
    {
      for i := 0 to |rows|
        invariant FleetRuns.ForgetServers(old(State()), rows) == FleetRuns.ForgetServers(State(), rows[i..])
      {
        assert rows[i..][1..] == rows[i + 1..];
        ForgetServer(rows[i].serverId);
      }
    }

    method RunDestroy() returns (ok: bool)
      modifies this
      ensures Out(ok, State()) == FleetRuns.RunDestroy(old(State()))
    {
      hide FleetRuns.DeleteServers, FleetModel.DeleteSecret, ListServers, DoomedIds;
      ok := GetCluster();
      if !ok || row.status.Destroyed? { return false; }
      ok := UpdateStatus(Destroying);
      if !ok { return; }
      ok := Try();
      if !ok { return; }
      var ids := DoomedIds(ListServers(State()));
      Emit(Step(DestroyingServers));
      ok := DeleteServers(ids);
      if !ok {
        var _ := UpdateStatus(Failed);
        Emit(Terminal(Failed));
        return;
      }
      Emit(Step(Finished));
      ok := SoftDeleteServers();
      if !ok { return; }
      ok := FinalizeDestroy();
      if ok { Emit(Terminal(Destroyed)); }
    }

    method FinalizeDestroy() returns (ok: bool)
      modifies this
      ensures Out(ok, State()) == FleetRuns.FinalizeDestroy(old(State()))
    {
      hide FleetModel.DeleteSecret;
      ok := GetCluster();
      if !ok { return; }
      if row.kubeconfig.Some? { var _ := DeleteSecret(row.kubeconfig.value); }
      var f := Answer();
      if !f.reply.Refused? { row := row.(deleted := true); }
      if !f.reply.Clean? { return false; }
      ok := UpdateStatus(Destroyed);
    }

    /** `POST /v1/clusters/:id/workers`, with the run it spawns. */
    method ScaleWorkers(delta: int) returns (ok: bool)
      modifies this
      ensures Out(ok, State()) == FleetRuns.ScaleWorkers(old(State()), delta)
    {
      hide FleetRuns.RunScaleOut, FleetRuns.RunScaleIn;
      ok := GetCluster();
      if !ok || !row.status.Ready? { return false; }
      if delta == 0 { return true; }
      var count := SaturatingAdd(row.workerCount, delta);
      if !(MIN_WORKER_COUNT <= count <= MAX_WORKER_COUNT) { return false; }
      ok := Try();
      if !ok { return; }
      var f := Answer();
      var before := row.workerCount;
      if !f.reply.Refused? { row := row.(workerCount := count); }
      if !f.reply.Clean? {
        stalled := stalled || row.workerCount != before;
        return false;
      }
      if delta > 0 {
        ok := RunScaleOut(delta);
      } else {
        ok := RunScaleIn(0 - delta);
      }
    }
  }
}
