/**
  The world a cluster lives in: the cloud provider, the cluster row, the
  `cluster_servers` table, the Kubernetes nodes, and an environment that may
  let any single call fail.

  Every provider call, SSH command, kubectl call and SQL transaction is one
  atomic step. The environment answers each step from `faults`; when the list
  is used up every further step succeeds. A step that is `Refused` has no
  effect and reports an error. A step with a `LostReply` takes effect but still
  reports an error (a timed-out request, a commit whose acknowledgement never
  arrived), which also covers a process that dies right after the step.
 */
module FleetModel {
  import opened Environment
  import opened Numerals

  const MIN_WORKER_COUNT: int := 1
  const MAX_WORKER_COUNT: int := 10

  type ServerId = nat

  datatype Status = Pending | Provisioning | Ready | Scaling | Failed | Destroying | Destroyed

  datatype Role = ControlPlane | Worker

  // ---------------------------------------------------------------- environment

  /** What one poll of a booting server shows. */
  datatype Boot = Running(hasIpv4: bool) | Initializing | Broken

  datatype Fault = Fault(reply: Reply, proposedId: nat, boot: Boot)

  /**
    The provider. `issued` are all the ids it ever handed out, all of them below
    `ceiling`; ids are never reused. A `monotone` provider only hands out ids
    above every earlier one. `live` also holds servers of other clusters.
   */
  datatype Cloud = Cloud(live: map<ServerId, Host>, issued: set<ServerId>, ceiling: nat, monotone: bool)

  datatype ClusterRow = ClusterRow(name: string, status: Status, deleted: bool, workerCount: int,
                                   kubeconfig: Option<nat>)

  datatype ServerRow = ServerRow(serverId: int, role: Role, hasIpv4: bool, deleted: bool)

  datatype StepName =
    | CreatingControlPlane | WaitingCloudInitCp | InstallingK3sServer
    | CreatingWorkers | WaitingCloudInitWorkers | InstallingK3sAgents | CollectingKubeconfig
    | DrainingNodes | DeletingNodes | DestroyingServers | Finished

  datatype Event = Step(step: StepName) | Terminal(status: Status)

  datatype Call = Drain(node: Host) | DeleteNode(node: Host) | DeleteServer(id: ServerId)

  /**
    `nodes` maps each Kubernetes node to whether it is drained. `events` is what
    was published to the event hub, `calls` the attempted kubectl and provider
    deletions in order. `swallowed` and `stalled` are history: the soft-deletes
    whose error scale-in dropped, and whether some scale request changed
    `worker_count` without its run ever leaving `Ready`. `maxPolls` is how often
    a booting server is polled (60 in `activities.rs`, arbitrary here).
   */
  datatype World = World(cloud: Cloud, nodes: map<Host, bool>, row: ClusterRow, servers: seq<ServerRow>,
                         secrets: set<nat>, nextSecret: nat, faults: seq<Fault>, events: seq<Event>,
                         calls: seq<Call>, swallowed: set<int>, stalled: bool, maxPolls: nat)

  /** A step that reports success or an error, and the world after it. */
  datatype Out = Out(ok: bool, w: World)

  /** A step that yields a value or an error. */
  datatype Got<T> = Got(value: Option<T>, w: World)

  /** A server as the provider describes it once it runs. */
  datatype View = View(id: ServerId, hasIpv4: bool)

  function Next(w: World): Fault {
    if w.faults == [] then Fault(Clean, 0, Running(true)) else w.faults[0]
  }

  function Tick(w: World): World {
    w.(faults := if w.faults == [] then [] else w.faults[1..])
  }

  function Settle(reply: Reply, before: World, after: World): Out {
    Out(reply.Clean?, if reply.Refused? then before else after)
  }

  /** A read or a command without effect on the modelled state. */
  function Attempt(w: World): Out {
    Out(Next(w).reply.Clean?, Tick(w))
  }

  function Publish(w: World, e: Event): World {
    w.(events := w.events + [e])
  }

  // ------------------------------------------------------------------- hostnames

  /** A hostname by what it stands for; `HostText` is its spelling. */
  datatype Host = ControlPlaneName(cluster: string) | WorkerName(cluster: string, index: nat) | Foreign(text: string)

  function HostText(h: Host): string {
    match h
    case ControlPlaneName(cluster) => cluster + "-cp-01"
    case WorkerName(cluster, index) => cluster + "-worker-" + Padded(index, 10, 2)
    case Foreign(text) => text
  }

  /** Within one cluster different servers are spelled differently. */
  lemma HostTextIsInjective(g: Host, h: Host)
    requires !g.Foreign? && !h.Foreign? && g.cluster == h.cluster && HostText(g) == HostText(h)
    ensures g == h
  {
    var n := |g.cluster|;
    if g.WorkerName? && h.WorkerName? {
      assert HostText(g)[n + 8..] == Padded(g.index, 10, 2);
      assert HostText(h)[n + 8..] == Padded(h.index, 10, 2);
      PaddedIsInjective(g.index, h.index, 10, 2);
    } else {
      assert HostText(g)[n + 1] == if g.WorkerName? then 'w' else 'c';
      assert HostText(h)[n + 1] == if h.WorkerName? then 'w' else 'c';
    }
  }

  // -------------------------------------------------------------------- provider

  predicate CloudOk(c: Cloud) {
    && (forall i :: i in c.live ==> i in c.issued)
    && (forall i :: i in c.issued ==> i < c.ceiling && i <= I64_MAX)
  }

  function PickId(c: Cloud, proposed: nat): ServerId {
    if proposed >= c.ceiling || (!c.monotone && proposed !in c.issued) then proposed else c.ceiling
  }

  function WithServer(c: Cloud, id: ServerId, name: Host): Cloud {
    c.(live := c.live[id := name], issued := c.issued + {id},
       ceiling := if id < c.ceiling then c.ceiling else id + 1)
  }

  /** Provider ids are signed 64-bit; a provider that ran out of ids refuses. */
  function CreateServer(w: World, name: Host): Got<ServerId> {
    var v := Tick(w);
    var id := PickId(v.cloud, Next(w).proposedId);
    if Next(w).reply.Refused? || id > I64_MAX then Got(None, v)
    else Got(if Next(w).reply.Clean? then Some(id) else None, v.(cloud := WithServer(v.cloud, id, name)))
  }

  /** The provider may hand out any id it never issued; one that only counts up, any at or above its ceiling. */
  lemma AnyUnusedIdCanBeIssued(w: World, name: Host, id: ServerId, boot: Boot)
    requires CloudOk(w.cloud) && id <= I64_MAX && id !in w.cloud.issued && (w.cloud.monotone ==> id >= w.cloud.ceiling)
    ensures CreateServer(w.(faults := [Fault(Clean, id, boot)]), name) ==
            Got(Some(id), w.(faults := [], cloud := WithServer(w.cloud, id, name)))
  {
  }

  /** A server that is already gone answers 404, which counts as success. */
  function DeleteServerIdempotent(w: World, id: ServerId): Out {
    var v := Tick(w).(calls := w.calls + [DeleteServer(id)]);
    Settle(Next(w).reply, v, v.(cloud := v.cloud.(live := v.cloud.live - {id})))
  }

  // ------------------------------------------------------------------ kubernetes

  function DrainNode(w: World, node: Host): Out {
    var v := Tick(w).(calls := w.calls + [Drain(node)]);
    Settle(Next(w).reply, v, if node in v.nodes then v.(nodes := v.nodes[node := true]) else v)
  }

  function RemoveNode(w: World, node: Host): Out {
    var v := Tick(w).(calls := w.calls + [DeleteNode(node)]);
    Settle(Next(w).reply, v, v.(nodes := v.nodes - {node}))
  }

  /** Installing k3s on a server registers it under its hostname. */
  function JoinNode(w: World, id: ServerId): Out {
    var v := Tick(w);
    Settle(Next(w).reply, v,
           if id in v.cloud.live then v.(nodes := v.nodes[v.cloud.live[id] := false]) else v)
  }

  // --------------------------------------------------------------- cluster_servers

  /** The id as stored in a BIGINT column, and as read back. */
  function RecordedId(id: ServerId): int { if id <= I64_MAX then id else I64_MAX }

  function ProviderId(stored: int): ServerId { if stored >= 0 then stored else 0 }

  /** The stored id is the largest one that fits the column and is not above the id: the right one exactly when that fits. */
  lemma RecordedIdReadsBack(id: ServerId)
    ensures ProviderId(RecordedId(id)) == id <==> id < 0x8000_0000_0000_0000
    ensures 0 <= RecordedId(id) <= id && (RecordedId(id) == id || RecordedId(id) == 0x7fff_ffff_ffff_ffff)
    ensures RecordedId(id) < 0x8000_0000_0000_0000
  {
  }

  function RowOf(view: View, role: Role): ServerRow {
    ServerRow(RecordedId(view.id), role, view.hasIpv4, false)
  }

  function RowsOf(views: seq<View>, role: Role): (rows: seq<ServerRow>)
    ensures |rows| == |views|
    ensures forall i :: 0 <= i < |views| ==> rows[i] == RowOf(views[i], role)
  {
    seq(|views|, i requires 0 <= i < |views| => RowOf(views[i], role))
  }

  /** Live rows of one role, in creation order. */
  function Pick(rows: seq<ServerRow>, role: Role): seq<ServerRow> {
    if rows == [] then []
    else
      var last := rows[|rows| - 1];
      Pick(rows[..|rows| - 1], role) + if !last.deleted && last.role == role then [last] else []
  }

  /** `ORDER BY role ASC, created_at ASC` over the live rows. */
  function ListServers(w: World): seq<ServerRow> {
    Pick(w.servers, ControlPlane) + Pick(w.servers, Worker)
  }

  function Workers(w: World): seq<ServerRow> {
    Pick(w.servers, Worker)
  }

  ghost function RowIds(rows: seq<ServerRow>): set<int> {
    set r | r in rows && !r.deleted :: r.serverId
  }

  /** `INSERT … ON CONFLICT (hetzner_server_id) WHERE deleted_at IS NULL DO NOTHING`. */
  function RecordServer(w: World, view: View, role: Role): Out {
    var v := Tick(w);
    var row := RowOf(view, role);
    Settle(Next(w).reply, v,
           if exists r :: r in v.servers && !r.deleted && r.serverId == row.serverId then v
           else v.(servers := v.servers + [row]))
  }

  function WithoutRow(rows: seq<ServerRow>, serverId: int): (kept: seq<ServerRow>)
    ensures |kept| == |rows|
    ensures forall i :: 0 <= i < |rows| ==>
              kept[i] == if rows[i].serverId == serverId then rows[i].(deleted := true) else rows[i]
  {
    seq(|rows|, i requires 0 <= i < |rows| =>
      if rows[i].serverId == serverId then rows[i].(deleted := true) else rows[i])
  }

  function AllDeleted(rows: seq<ServerRow>): (gone: seq<ServerRow>)
    ensures |gone| == |rows|
    ensures forall i :: 0 <= i < |rows| ==> gone[i] == rows[i].(deleted := true)
  {
    seq(|rows|, i requires 0 <= i < |rows| => rows[i].(deleted := true))
  }

  /** Scale-in's soft-delete of one row; the caller drops the error. */
  function ForgetServer(w: World, serverId: int): World {
    var v := Tick(w);
    if Next(w).reply.Refused? then v.(swallowed := v.swallowed + {serverId})
    else v.(servers := WithoutRow(v.servers, serverId))
  }

  function SoftDeleteServers(w: World): Out {
    var v := Tick(w);
    Settle(Next(w).reply, v, v.(servers := AllDeleted(v.servers)))
  }

  // -------------------------------------------------------------------- clusters

  function UpdateStatus(w: World, status: Status): Out {
    var v := Tick(w);
    Settle(Next(w).reply, v, v.(row := v.row.(status := status)))
  }

  function UpdateWorkerCount(w: World, count: int): Out {
    var v := Tick(w);
    Settle(Next(w).reply, v, v.(row := v.row.(workerCount := count)))
  }

  function SoftDeleteCluster(w: World): Out {
    var v := Tick(w);
    Settle(Next(w).reply, v, v.(row := v.row.(deleted := true)))
  }

  /** Reads hide a soft-deleted row. */
  function GetCluster(w: World): Out {
    Out(Next(w).reply.Clean? && !w.row.deleted, Tick(w))
  }

  // ------------------------------------------------------------------ kubeconfig

  function PutSecret(w: World): Got<nat> {
    var v := Tick(w);
    if Next(w).reply.Refused? then Got(None, v)
    else Got(if Next(w).reply.Clean? then Some(v.nextSecret) else None,
             v.(secrets := v.secrets + {v.nextSecret}, nextSecret := v.nextSecret + 1))
  }

  /** The first secret wins; a different one afterwards is a conflict. */
  function SetKubeconfigSecret(w: World, secret: nat): Out {
    var v := Tick(w);
    if v.row.deleted || !(v.row.kubeconfig.None? || v.row.kubeconfig == Some(secret)) then Out(false, v)
    else Settle(Next(w).reply, v, v.(row := v.row.(kubeconfig := Some(secret))))
  }

  /** `clusters.kubeconfig_secret_id` is declared ON DELETE RESTRICT. */
  function DeleteSecret(w: World, secret: nat): Out {
    var v := Tick(w);
    if v.row.kubeconfig == Some(secret) then Out(false, v)
    else Settle(Next(w).reply, v, v.(secrets := v.secrets - {secret}))
  }

  function StoreKubeconfig(w: World): Out {
    var put := PutSecret(w);
    if put.value.None? then Out(false, put.w)
    else
      var set_ := SetKubeconfigSecret(put.w, put.value.value);
      if set_.ok then set_ else Out(false, DeleteSecret(set_.w, put.value.value).w)
  }
}
