/**
  The workflows and the runner, as functions from the world before a call to
  the world after it. `FleetRunner.LocalRunner` executes the same steps in place.
 */
module FleetRuns {
  import opened Environment
  import opened Text
  import opened FleetModel

  datatype Fleet = Fleet(controlPlane: View, workers: seq<View>)

  // ------------------------------------------------------------------- activities

  function WaitForCloudInit(w: World, id: ServerId, attemptsLeft: nat): Got<View>
    decreases attemptsLeft
  {
    if attemptsLeft == 0 then Got(None, w)
    else
      var v := Tick(w);
      if !Next(w).reply.Clean? then Got(None, v)
      else match Next(w).boot
        case Running(hasIpv4) => Got(Some(View(id, hasIpv4)), v)
        case Broken => Got(None, v)
        case Initializing => WaitForCloudInit(v, id, attemptsLeft - 1)
  }

  function CreateWorkers(w: World, start: nat, count: nat, ids: seq<ServerId>): Got<seq<ServerId>>
    decreases count
  {
    if count == 0 then Got(Some(ids), w)
    else
      var made := CreateServer(w, WorkerName(w.row.name, start));
      if made.value.None? then Got(None, made.w)
      else CreateWorkers(made.w, start + 1, count - 1, ids + [made.value.value])
  }

  function AwaitWorkers(w: World, ids: seq<ServerId>, views: seq<View>): Got<seq<View>>
    decreases |ids|
  {
    if ids == [] then Got(Some(views), w)
    else
      var booted := WaitForCloudInit(w, ids[0], w.maxPolls);
      if booted.value.None? then Got(None, booted.w)
      else AwaitWorkers(booted.w, ids[1..], views + [booted.value.value])
  }

  function JoinWorkers(w: World, views: seq<View>): Out
    decreases |views|
  {
    if views == [] then Out(true, w)
    else if !views[0].hasIpv4 then Out(false, w)
    else
      var joined := JoinNode(w, views[0].id);
      if !joined.ok then joined else JoinWorkers(joined.w, views[1..])
  }

  function DeleteServers(w: World, ids: seq<ServerId>): Out
    decreases |ids|
  {
    if ids == [] then Out(true, w)
    else
      var d := DeleteServerIdempotent(w, ids[0]);
      if !d.ok then d else DeleteServers(d.w, ids[1..])
  }

  function DrainNodes(w: World, nodes: seq<Host>): Out
    decreases |nodes|
  {
    if nodes == [] then Out(true, w)
    else
      var d := DrainNode(w, nodes[0]);
      if !d.ok then d else DrainNodes(d.w, nodes[1..])
  }

  function RemoveNodes(w: World, nodes: seq<Host>): Out
    decreases |nodes|
  {
    if nodes == [] then Out(true, w)
    else
      var d := RemoveNode(w, nodes[0]);
      if !d.ok then d else RemoveNodes(d.w, nodes[1..])
  }

  // -------------------------------------------------------------------- workflows

  /** Create, await and join `count` workers named from index `start` on. */
  function AddWorkers(w: World, start: nat, count: nat): Got<seq<View>> {
    var made := CreateWorkers(Publish(w, Step(CreatingWorkers)), start, count, []);
    if made.value.None? then Got(None, made.w)
    else
      var booted := AwaitWorkers(Publish(made.w, Step(WaitingCloudInitWorkers)), made.value.value, []);
      if booted.value.None? then Got(None, booted.w)
      else
        var joined := JoinWorkers(Publish(booted.w, Step(InstallingK3sAgents)), booted.value.value);
        if joined.ok then Got(booted.value, joined.w) else Got(None, joined.w)
  }

  function AddControlPlane(w: World): Got<View> {
    var made := CreateServer(Publish(w, Step(CreatingControlPlane)), ControlPlaneName(w.row.name));
    if made.value.None? then Got(None, made.w)
    else
      var booted := WaitForCloudInit(Publish(made.w, Step(WaitingCloudInitCp)), made.value.value, w.maxPolls);
      if booted.value.None? || !booted.value.value.hasIpv4 then Got(None, booted.w)
      else
        var installed := JoinNode(Publish(booted.w, Step(InstallingK3sServer)), made.value.value);
        if !installed.ok then Got(None, installed.w)
        else
          var token := Attempt(installed.w);
          if token.ok then Got(booted.value, token.w) else Got(None, token.w)
  }

  function ProvisionCluster(w: World, workerCount: nat): Got<Fleet> {
    var cp := AddControlPlane(w);
    if cp.value.None? then Got(None, cp.w)
    else
      var added := AddWorkers(cp.w, 0, workerCount);
      if added.value.None? then Got(None, added.w)
      else
        var collected := Attempt(Publish(added.w, Step(CollectingKubeconfig)));
        if !collected.ok then Got(None, collected.w)
        else Got(Some(Fleet(cp.value.value, added.value.value)), Publish(collected.w, Step(Finished)))
  }

  function ScaleOut(w: World, start: nat, count: nat): Got<seq<View>> {
    var added := AddWorkers(w, start, count);
    if added.value.None? then added else Got(added.value, Publish(added.w, Step(Finished)))
  }

  datatype Target = Target(id: ServerId, node: Host)

  function NodesOf(targets: seq<Target>): (nodes: seq<Host>)
    ensures |nodes| == |targets|
    ensures forall i :: 0 <= i < |targets| ==> nodes[i] == targets[i].node
  {
    seq(|targets|, i requires 0 <= i < |targets| => targets[i].node)
  }

  function IdsOf(targets: seq<Target>): (ids: seq<ServerId>)
    ensures |ids| == |targets|
    ensures forall i :: 0 <= i < |targets| ==> ids[i] == targets[i].id
  {
    seq(|targets|, i requires 0 <= i < |targets| => targets[i].id)
  }

  function ScaleIn(w: World, targets: seq<Target>): Out {
    var drained := DrainNodes(Publish(w, Step(DrainingNodes)), NodesOf(targets));
    if !drained.ok then drained
    else
      var removed := RemoveNodes(Publish(drained.w, Step(DeletingNodes)), NodesOf(targets));
      if !removed.ok then removed
      else
        var deleted := DeleteServers(Publish(removed.w, Step(DestroyingServers)), IdsOf(targets));
        if !deleted.ok then deleted else Out(true, Publish(deleted.w, Step(Finished)))
  }

  function DestroyCluster(w: World, ids: seq<ServerId>): Out {
    var deleted := DeleteServers(Publish(w, Step(DestroyingServers)), ids);
    if !deleted.ok then deleted else Out(true, Publish(deleted.w, Step(Finished)))
  }

  // ----------------------------------------------------------------------- runner

  function RecordServers(w: World, views: seq<View>, role: Role): Out
    decreases |views|
  {
    if views == [] then Out(true, w)
    else
      var r := RecordServer(w, views[0], role);
      if !r.ok then r else RecordServers(r.w, views[1..], role)
  }

  /** The error path: the status write may itself fail, the event is sent anyway. */
  function MarkFailed(w: World): World {
    Publish(UpdateStatus(w, Failed).w, Terminal(Failed))
  }

  function MarkReady(w: World): Out {
    var ready := UpdateStatus(w, Ready);
    if !ready.ok then ready else Out(true, Publish(ready.w, Terminal(Ready)))
  }

  function RunProvision(w: World): Out {
    var begun := UpdateStatus(w, Provisioning);
    if !begun.ok then begun
    else
      var shadow := Attempt(begun.w);  // workflow shadow row
      if !shadow.ok then shadow
      else
        var fleet := ProvisionCluster(shadow.w, if w.row.workerCount < 0 then 0 else w.row.workerCount);
        if fleet.value.None? then
          Out(false, Publish(Attempt(UpdateStatus(fleet.w, Failed).w).w, Terminal(Failed)))
        else FinishProvision(fleet.w, fleet.value.value)
  }

  function FinishProvision(w: World, fleet: Fleet): Out {
    var cp := RecordServer(w, fleet.controlPlane, ControlPlane);
    if !cp.ok then cp
    else
      var rest := RecordServers(cp.w, fleet.workers, Worker);
      if !rest.ok then rest else SealProvision(rest.w)
  }

  function SealProvision(w: World): Out {
    var stored := StoreKubeconfig(w);
    if !stored.ok then stored
    else
      var ready := UpdateStatus(stored.w, Ready);
      if !ready.ok then ready
      else
        var closed := Attempt(ready.w);  // workflow shadow row
        if !closed.ok then closed else Out(true, Publish(closed.w, Terminal(Ready)))
  }

  /** A scale run that could not even announce itself leaves the cluster Ready. */
  function BeginScaling(w: World): Out {
    var begun := UpdateStatus(w, Scaling);
    if begun.ok then begun else Out(false, begun.w.(stalled := begun.w.stalled || !begun.w.row.status.Scaling?))
  }

  function RunScaleOut(w: World, count: nat): Out {
    var begun := BeginScaling(w);
    if !begun.ok then begun
    else
      var listed := Attempt(begun.w);
      var cps := Pick(listed.w.servers, ControlPlane);
      if !listed.ok || cps == [] || !cps[0].hasIpv4 then Out(false, listed.w)
      else
        var token := Attempt(listed.w);
        if !token.ok then token else AddAndRecord(token.w, |Workers(token.w)|, count)
  }

  function AddAndRecord(w: World, start: nat, count: nat): Out {
    var added := ScaleOut(w, start, count);
    if added.value.None? then Out(false, MarkFailed(added.w))
    else
      var recorded := RecordServers(added.w, added.value.value, Worker);
      if !recorded.ok then recorded else MarkReady(recorded.w)
  }

  // Sorting by provider id, as the runner does before it picks targets.

  function InsertAscending(r: ServerRow, s: seq<ServerRow>): seq<ServerRow> {
    if s == [] || r.serverId < s[0].serverId then [r] + s else [s[0]] + InsertAscending(r, s[1..])
  }

  function Ascending(rows: seq<ServerRow>): seq<ServerRow> {
    if rows == [] then [] else InsertAscending(rows[|rows| - 1], Ascending(rows[..|rows| - 1]))
  }

  function InsertDescending(r: ServerRow, s: seq<ServerRow>): seq<ServerRow> {
    if s == [] || r.serverId > s[0].serverId then [r] + s else [s[0]] + InsertDescending(r, s[1..])
  }

  function Descending(rows: seq<ServerRow>): seq<ServerRow> {
    if rows == [] then [] else InsertDescending(rows[|rows| - 1], Descending(rows[..|rows| - 1]))
  }

  function IndexOf(rows: seq<ServerRow>, serverId: int): nat {
    if rows == [] then 0
    else if rows[0].serverId == serverId then 0
    else if exists r :: r in rows && r.serverId == serverId then 1 + IndexOf(rows[1..], serverId)
    else 0
  }

  /** The `count` workers with the highest ids. */
  function Youngest(workers: seq<ServerRow>, count: nat): seq<ServerRow> {
    var sorted := Descending(workers);
    if count < |sorted| then sorted[..count] else sorted
  }

  /** The node name is rebuilt from the rank of the id, not read from the provider. */
  function TargetOf(cluster: string, workers: seq<ServerRow>, r: ServerRow): Target {
    Target(ProviderId(r.serverId), WorkerName(cluster, IndexOf(Ascending(workers), r.serverId)))
  }

  function TargetsOf(cluster: string, workers: seq<ServerRow>, rows: seq<ServerRow>): (targets: seq<Target>)
    ensures |targets| == |rows|
    ensures forall i :: 0 <= i < |rows| ==> targets[i] == TargetOf(cluster, workers, rows[i])
  {
    seq(|rows|, i requires 0 <= i < |rows| => TargetOf(cluster, workers, rows[i]))
  }

  function ForgetServers(w: World, rows: seq<ServerRow>): World
    decreases |rows|
  {
    if rows == [] then w else ForgetServers(ForgetServer(w, rows[0].serverId), rows[1..])
  }

  function RunScaleIn(w: World, count: nat): Out {
    var begun := BeginScaling(w);
    if !begun.ok then begun
    else
      var listed := Attempt(begun.w);
      if !listed.ok then listed
      else
        var doomed := Youngest(Workers(listed.w), count);
        var handle := GetCluster(listed.w);  // kubeconfig handle
        if !handle.ok || handle.w.row.kubeconfig.None? then Out(false, handle.w)
        else
          var fetched := Attempt(handle.w);  // kubeconfig plaintext
          if !fetched.ok then fetched
          else
            var staged := Attempt(fetched.w);  // kubeconfig file
            if !staged.ok then staged
            else
              RemoveAndForget(staged.w, TargetsOf(w.row.name, Workers(listed.w), doomed), doomed)
  }

  function RemoveAndForget(w: World, targets: seq<Target>, doomed: seq<ServerRow>): Out {
    var scaled := ScaleIn(w, targets);
    if !scaled.ok then Out(false, MarkFailed(scaled.w)) else MarkReady(ForgetServers(scaled.w, doomed))
  }

  function FinalizeDestroy(w: World): Out {
    var handle := GetCluster(w);
    if !handle.ok then handle
    else
      var v := if handle.w.row.kubeconfig.Some? then DeleteSecret(handle.w, handle.w.row.kubeconfig.value).w
               else handle.w;
      var hidden := SoftDeleteCluster(v);
      if !hidden.ok then hidden else UpdateStatus(hidden.w, Destroyed)
  }

  function BeginDestroy(w: World): Out {
    var got := GetCluster(w);
    if !got.ok || got.w.row.status.Destroyed? then Out(false, got.w) else UpdateStatus(got.w, Destroying)
  }

  function DoomedIds(rows: seq<ServerRow>): (ids: seq<ServerId>)
    ensures |ids| == |rows|
    ensures forall i :: 0 <= i < |rows| ==> ids[i] == ProviderId(rows[i].serverId)
  {
    seq(|rows|, i requires 0 <= i < |rows| => ProviderId(rows[i].serverId))
  }

  function RunDestroy(w: World): Out {
    var begun := BeginDestroy(w);
    if !begun.ok then begun
    else
      var listed := Attempt(begun.w);
      if !listed.ok then listed
      else
        var gone := DestroyCluster(listed.w, DoomedIds(ListServers(listed.w)));
        if !gone.ok then Out(false, MarkFailed(gone.w))
        else
          var forgotten := SoftDeleteServers(gone.w);
          if !forgotten.ok then forgotten
          else
            var finalized := FinalizeDestroy(forgotten.w);
            if !finalized.ok then finalized
            else Out(true, Publish(finalized.w, Terminal(Destroyed)))
  }

  // ---------------------------------------------------------------------- requests

  /** 16-bit saturating addition. */
  function SaturatingAdd(a: int, b: int): int {
    if a + b > 32767 then 32767 else if a + b < -32768 then -32768 else a + b
  }

  /** `POST /v1/clusters/:id/workers`, with the run it spawns. */
  function ScaleWorkers(w: World, delta: int): Out {
    var got := GetCluster(w);
    if !got.ok || !got.w.row.status.Ready? then Out(false, got.w)
    else if delta == 0 then got
    else
      var count := SaturatingAdd(got.w.row.workerCount, delta);
      if !(MIN_WORKER_COUNT <= count <= MAX_WORKER_COUNT) then Out(false, got.w)
      else
        var credential := Attempt(got.w);
        if !credential.ok then credential
        else
          var counted := UpdateWorkerCount(credential.w, count);
          if !counted.ok then
            Out(false, counted.w.(stalled := counted.w.stalled || counted.w.row.workerCount != w.row.workerCount))
          else if delta > 0 then RunScaleOut(counted.w, delta)
          else RunScaleIn(counted.w, -delta)
  }

  /** `DELETE /v1/clusters/:id`, with the run it spawns. */
  function DestroyRequest(w: World): Out {
    var got := GetCluster(w);
    if !got.ok then got
    else
      var credential := Attempt(got.w);
      if !credential.ok then credential else RunDestroy(credential.w)
  }

  datatype Request = Scale(delta: int) | Destroy

  function Serve(w: World, request: Request): Out {
    match request
    case Scale(delta) => ScaleWorkers(w, delta)
    case Destroy => DestroyRequest(w)
  }

  /** What a caller asks for. */
  datatype NewCluster = NewCluster(name: string, region: string, serverType: string, controlPlanes: int, workers: int)

  const REGIONS := ["nbg1", "fsn1", "hel1", "ash", "hil"]
  const SERVER_TYPES := ["cpx11", "cpx21", "cpx31", "cpx41", "ccx13", "ccx23"]

  /** `validate_allowed`, in front of the insert. */
  predicate ValidateAllowed(n: NewCluster) {
    && Trim(n.name) != [] && n.region in REGIONS && n.serverType in SERVER_TYPES
    && n.controlPlanes == 1 && MIN_WORKER_COUNT <= n.workers <= MAX_WORKER_COUNT
  }

  /** `create`: the row of a new cluster in a world where it has no servers yet, or no row. */
  function Create(w: World, n: NewCluster): Option<World> {
    if !ValidateAllowed(n) || Next(w).reply != Clean then None
    else Some(Tick(w).(row := ClusterRow(n.name, Pending, false, n.workers, None), servers := [],
                       swallowed := {}, stalled := false))
  }

  /** A cluster just inserted: nothing created for it yet. */
  predicate Fresh(w: World) {
    && CloudOk(w.cloud)
    && w.row.status.Pending? && !w.row.deleted && MIN_WORKER_COUNT <= w.row.workerCount <= MAX_WORKER_COUNT && w.row.kubeconfig.None?
    && w.servers == [] && (forall s :: s in w.secrets ==> s < w.nextSecret)
    && w.swallowed == {} && !w.stalled
  }

  /** Every accepted request starts a fresh cluster; one with another number of workers is refused. */
  lemma CreatedIsFresh(w: World, n: NewCluster)
    requires CloudOk(w.cloud) && forall s :: s in w.secrets ==> s < w.nextSecret
    ensures var v := Create(w, n);
            && (v.Some? ==> ValidateAllowed(n) && Fresh(v.value) && v.value.cloud == w.cloud
                            && v.value.row.name == n.name && v.value.row.workerCount == n.workers)
            && (!(MIN_WORKER_COUNT <= n.workers <= MAX_WORKER_COUNT) ==> v.None?)
  {
  }

  /** A whole life: provision once, then any requests one after another. */
  function Life(w: World, requests: seq<Request>): World
    decreases |requests|
  {
    if requests == [] then RunProvision(w).w
    else Serve(Life(w, requests[..|requests| - 1]), requests[|requests| - 1]).w
  }
}
