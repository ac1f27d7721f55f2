/**
  What every atomic step keeps, and the accounting of servers: who is live,
  who is recorded, and who is live without a record.
 */
module FleetInvariant {
  import opened Numerals
  import opened FleetModel
  import opened FleetRuns

  /** Servers of this cluster that run at the provider without a live row. */
  ghost function Orphans(b: map<ServerId, Host>, w: World): set<ServerId> {
    set i | i in w.cloud.live && i !in b && i !in RowIds(w.servers)
  }

  ghost predicate RowsOk(b: map<ServerId, Host>, w: World) {
    && (forall r :: r in w.servers ==> r.serverId in w.cloud.issued && r.serverId !in b)
    && (forall r :: r in w.servers && r.deleted ==> r.serverId !in w.cloud.live)
    && (forall i, j :: 0 <= i < j < |w.servers| ==> w.servers[i].serverId != w.servers[j].serverId)
  }

  ghost predicate SecretsOk(w: World) {
    && (forall s :: s in w.secrets ==> s < w.nextSecret)
    && (w.row.kubeconfig.Some? ==> w.row.kubeconfig.value in w.secrets)
  }

  /**
    `b` are the servers at the provider that are not this cluster's. They are
    never touched; a row is only ever soft-deleted after its server is gone; a
    Ready cluster has no unrecorded server; a hidden row has no live server rows.
   */
  ghost predicate Inv(b: map<ServerId, Host>, w: World) {
    && CloudOk(w.cloud)
    && (forall i :: i in b ==> i in w.cloud.live && w.cloud.live[i] == b[i])
    && RowsOk(b, w)
    && SecretsOk(w)
    && (w.row.status.Destroyed? ==> w.row.deleted)
    && (w.row.deleted ==> RowIds(w.servers) == {} && (w.row.status.Destroying? || w.row.status.Destroyed?))
    && (w.row.status.Ready? ==> Orphans(b, w) == {})
  }

  // ------------------------------------------------------- what the workflows leave alone

  /** Only the script, the log and the Kubernetes nodes moved. */
  predicate Same(w: World, v: World) {
    v == w.(faults := v.faults, events := v.events, calls := v.calls, nodes := v.nodes)
  }

  /** Servers may have been added at the provider; nothing else moved. */
  predicate Grew(w: World, v: World) {
    && Same(w.(cloud := v.cloud), v)
    && CloudOk(v.cloud)
    && v.cloud.monotone == w.cloud.monotone && v.cloud.ceiling >= w.cloud.ceiling
    && (forall i :: i in w.cloud.issued ==> i in v.cloud.issued)
    && (forall i :: i in w.cloud.live ==> i in v.cloud.live && v.cloud.live[i] == w.cloud.live[i])
    && (forall i :: i in v.cloud.live ==> i in w.cloud.live || i !in w.cloud.issued)
  }

  lemma GrewTrans(a: World, b: World, c: World)
    requires Grew(a, b) && Grew(b, c)
    ensures Grew(a, c)
  {
  }

  /** `ids` are exactly the servers added since `w`, named from index `start` on. */
  ghost predicate Made(w: World, v: World, start: nat, ids: seq<ServerId>) {
    && Grew(w, v)
    && (forall j :: 0 <= j < |ids| ==>
          && ids[j] in v.cloud.live && v.cloud.live[ids[j]] == WorkerName(w.row.name, start + j)
          && ids[j] !in w.cloud.issued)
    && (forall i :: i in v.cloud.live ==> i in w.cloud.live || i in ids)
    && (forall i, j :: 0 <= i < j < |ids| ==> ids[i] != ids[j])
    && (w.cloud.monotone ==> forall j :: 0 <= j < |ids| ==> w.cloud.ceiling <= ids[j])
    && (w.cloud.monotone ==> forall i, j :: 0 <= i < j < |ids| ==> ids[i] < ids[j])
  }

  lemma CreateServerGrows(w: World, name: Host)
    requires CloudOk(w.cloud)
    ensures var made := CreateServer(w, name);
            && Grew(w, made.w)
            && (made.value.Some? ==>
                  var id := made.value.value;
                  && id !in w.cloud.issued && id in made.w.cloud.issued
                  && made.w.cloud.live == w.cloud.live[id := name]
                  && (w.cloud.monotone ==> w.cloud.ceiling <= id))
  {
  }

  lemma {:induction false} CreateWorkersMake(w0: World, start0: nat, w: World, start: nat, count: nat, ids: seq<ServerId>)
    requires CloudOk(w0.cloud) && Made(w0, w, start0, ids) && start == start0 + |ids|
    ensures var made := CreateWorkers(w, start, count, ids);
            && Grew(w0, made.w)
            && (made.value.Some? ==>
                  |made.value.value| == |ids| + count && Made(w0, made.w, start0, made.value.value))
    decreases count
  {
    hide CreateServer;
    if count > 0 {
      var made := CreateServer(w, WorkerName(w.row.name, start));
      CreateServerGrows(w, WorkerName(w.row.name, start));
      GrewTrans(w0, w, made.w);
      if made.value.Some? {
        CreateWorkersMake(w0, start0, made.w, start + 1, count - 1, ids + [made.value.value]);
      }
    }
  }

  lemma {:induction false} WaitIsSame(w: World, id: ServerId, attemptsLeft: nat)
    ensures var booted := WaitForCloudInit(w, id, attemptsLeft);
            Same(w, booted.w) && (booted.value.Some? ==> booted.value.value.id == id)
    decreases attemptsLeft
  {
    if attemptsLeft > 0 && Next(w).reply.Clean? && Next(w).boot.Initializing? {
      WaitIsSame(Tick(w), id, attemptsLeft - 1);
    }
  }

  predicate ViewsOf(views: seq<View>, ids: seq<ServerId>) {
    |views| == |ids| && forall i :: 0 <= i < |ids| ==> views[i].id == ids[i]
  }

  lemma {:induction false} AwaitIsSame(w: World, done: seq<ServerId>, ids: seq<ServerId>, views: seq<View>)
    requires ViewsOf(views, done)
    ensures var booted := AwaitWorkers(w, ids, views);
            Same(w, booted.w) && (booted.value.Some? ==> ViewsOf(booted.value.value, done + ids))
    decreases |ids|
  {
    hide WaitForCloudInit;
    if ids == [] {
      assert done + ids == done;
    } else {
      WaitIsSame(w, ids[0], w.maxPolls);
      var booted := WaitForCloudInit(w, ids[0], w.maxPolls);
      if booted.value.Some? {
        AwaitIsSame(booted.w, done + [ids[0]], ids[1..], views + [booted.value.value]);
        assert done + [ids[0]] + ids[1..] == done + ids;
      }
    }
  }

  lemma {:induction false} JoinIsSame(w: World, views: seq<View>)
    ensures Same(w, JoinWorkers(w, views).w)
    decreases |views|
  {
    if views != [] && views[0].hasIpv4 {
      var joined := JoinNode(w, views[0].id);
      if joined.ok {
        JoinIsSame(joined.w, views[1..]);
      }
    }
  }

  lemma GrewSame(a: World, b: World, c: World)
    requires Grew(a, b) && Same(b, c)
    ensures Grew(a, c)
  {
  }

  lemma MadeSame(a: World, b: World, c: World, start: nat, ids: seq<ServerId>)
    requires Made(a, b, start, ids) && Same(b, c)
    ensures Made(a, c, start, ids)
  {
    GrewSame(a, b, c);
  }

  lemma AddWorkersMake(w: World, start: nat, count: nat)
    requires CloudOk(w.cloud)
    ensures var added := AddWorkers(w, start, count);
            && Grew(w, added.w)
            && (added.value.Some? ==>
                  && |added.value.value| == count
                  && exists ids :: ViewsOf(added.value.value, ids) && Made(w, added.w, start, ids))
  {
    hide CreateWorkers, AwaitWorkers, JoinWorkers;
    var w1 := Publish(w, Step(CreatingWorkers));
    CreateWorkersMake(w, start, w1, start, count, []);
    var made := CreateWorkers(w1, start, count, []);
    if made.value.Some? {
      BootWorkersMake(w, made.w, start, made.value.value);
    }
  }

  /** The second half: waiting and joining add nothing at the provider. */
  lemma BootWorkersMake(w0: World, w: World, start: nat, ids: seq<ServerId>)
    requires Made(w0, w, start, ids)
    ensures var w2 := Publish(w, Step(WaitingCloudInitWorkers));
            var booted := AwaitWorkers(w2, ids, []);
            && Grew(w0, booted.w)
            && (booted.value.Some? ==>
                  && ViewsOf(booted.value.value, ids)
                  && Made(w0, JoinWorkers(Publish(booted.w, Step(InstallingK3sAgents)), booted.value.value).w,
                          start, ids))
  {
    var w2 := Publish(w, Step(WaitingCloudInitWorkers));
    AwaitIsSame(w2, [], ids, []);
    assert [] + ids == ids;
    var booted := AwaitWorkers(w2, ids, []);
    MadeSame(w0, w, booted.w, start, ids);
    if booted.value.Some? {
      var w3 := Publish(booted.w, Step(InstallingK3sAgents));
      JoinIsSame(w3, booted.value.value);
      MadeSame(w0, booted.w, JoinWorkers(w3, booted.value.value).w, start, ids);
    }
  }

  lemma AddControlPlaneMakes(w: World)
    requires CloudOk(w.cloud)
    ensures var cp := AddControlPlane(w);
            && Grew(w, cp.w)
            && (cp.value.Some? ==>
                  var id := cp.value.value.id;
                  && cp.value.value.hasIpv4
                  && id !in w.cloud.issued && id in cp.w.cloud.issued
                  && cp.w.cloud.live == w.cloud.live[id := ControlPlaneName(w.row.name)]
                  && (w.cloud.monotone ==> w.cloud.ceiling <= id))
  {
    hide WaitForCloudInit, CreateServer;
    var w1 := Publish(w, Step(CreatingControlPlane));
    CreateServerGrows(w1, ControlPlaneName(w.row.name));
    var made := CreateServer(w1, ControlPlaneName(w.row.name));
    if made.value.Some? {
      WaitIsSame(Publish(made.w, Step(WaitingCloudInitCp)), made.value.value, w.maxPolls);
    }
  }

  // ----------------------------------------------------------------------- recording

  lemma RecordedNone(rows: seq<ServerRow>, views: seq<View>, role: Role)
    ensures rows + RowsOf(views[..0], role) == rows
  {
  }

  lemma RecordedOne(rows: seq<ServerRow>, views: seq<View>, role: Role)
    requires views != []
    ensures rows + [RowOf(views[0], role)] == rows + RowsOf(views[..1], role)
  {
  }

  lemma RecordedMore(rows: seq<ServerRow>, views: seq<View>, role: Role, k: nat)
    requires views != [] && k < |views|
    ensures rows + [RowOf(views[0], role)] + RowsOf(views[1..][..k], role) == rows + RowsOf(views[..k + 1], role)
  {
    assert [RowOf(views[0], role)] + RowsOf(views[1..][..k], role) == RowsOf(views[..k + 1], role);
  }

  /** Recording an id without a live row appends one row, or nothing when refused. */
  lemma RecordServerAppends(w: World, view: View, role: Role)
    requires view.id <= I64_MAX && view.id !in RowIds(w.servers)
    ensures var r := RecordServer(w, view, role);
            && (r.ok ==> !Next(w).reply.Refused?)
            && r.w == w.(faults := r.w.faults,
                         servers := if Next(w).reply.Refused? then w.servers else w.servers + [RowOf(view, role)])
  {
    assert forall x :: x in w.servers && !x.deleted ==> x.serverId in RowIds(w.servers);
  }

  /** Distinct ids that fit the column and have no live row yet. */
  ghost predicate Recordable(rows: seq<ServerRow>, views: seq<View>) {
    && (forall i :: 0 <= i < |views| ==> views[i].id <= I64_MAX && views[i].id !in RowIds(rows))
    && (forall i, j :: 0 <= i < j < |views| ==> views[i].id != views[j].id)
  }

  lemma RecordableRest(rows: seq<ServerRow>, views: seq<View>, role: Role)
    requires views != [] && Recordable(rows, views)
    ensures Recordable(rows + [RowOf(views[0], role)], views[1..])
  {
    var first := RowOf(views[0], role);
    RowIdsAppend(rows, [first]);
    assert RowIds([first]) == {views[0].id as int};
    forall i | 0 <= i < |views[1..]|
      ensures views[1..][i].id <= I64_MAX && views[1..][i].id !in RowIds(rows + [first])
    {
      assert views[1..][i] == views[i + 1];
    }
  }

  /** A run of `record_server` calls commits the rows of some first `k` views. */
  lemma {:induction false} RecordServersAppend(w: World, views: seq<View>, role: Role) returns (k: nat)
    requires Recordable(w.servers, views)
    ensures var r := RecordServers(w, views, role);
            && k <= |views| && (r.ok ==> k == |views|)
            && r.w == w.(faults := r.w.faults, servers := w.servers + RowsOf(views[..k], role))
    decreases |views|
  {
    if views == [] {
      k := 0;
      RecordedNone(w.servers, views, role);
      return;
    }
    RecordServerAppends(w, views[0], role);
    var r := RecordServer(w, views[0], role);
    if r.ok {
      RecordableRest(w.servers, views, role);
      var rest := RecordServersAppend(r.w, views[1..], role);
      RecordedMore(w.servers, views, role, rest);
      k := rest + 1;
    } else if Next(w).reply.Refused? {
      k := 0;
      RecordedNone(w.servers, views, role);
    } else {
      k := 1;
      RecordedOne(w.servers, views, role);
    }
  }

  lemma RowIdsAppend(rows: seq<ServerRow>, more: seq<ServerRow>)
    ensures RowIds(rows + more) == RowIds(rows) + RowIds(more)
  {
    assert forall r :: r in rows + more <==> r in rows || r in more;
  }

  // ------------------------------------------------------------------------ deleting

  lemma DeletionCons(live: map<ServerId, Host>, calls: seq<Call>, ids: seq<ServerId>, k: nat, tried: nat)
    requires ids != [] && k < |ids| && tried < |ids|
    ensures calls + [DeleteServer(ids[0])] + ServerCalls(ids[1..][..tried]) == calls + ServerCalls(ids[..tried + 1])
    ensures live - {ids[0]} - Members(ids[1..][..k]) == live - Members(ids[..k + 1])
  {
    assert ids[..k + 1] == [ids[0]] + ids[1..][..k];
    assert Members(ids[..k + 1]) == {ids[0]} + Members(ids[1..][..k]);
    assert [DeleteServer(ids[0])] + ServerCalls(ids[1..][..tried]) == ServerCalls(ids[..tried + 1]);
  }

  lemma DeletionNone(live: map<ServerId, Host>, calls: seq<Call>, ids: seq<ServerId>)
    ensures live - Members(ids[..0]) == live
    ensures calls + ServerCalls(ids[..0]) == calls
  {
  }

  /** Deletions stop at the first error; `k` of the ids are gone, in order. */
  lemma {:induction false} DeleteServersPrefix(w: World, ids: seq<ServerId>) returns (k: nat, tried: nat)
    ensures var d := DeleteServers(w, ids);
            && k <= tried <= |ids| && tried <= k + 1
            && (d.ok ==> k == |ids|) && (!d.ok ==> tried > 0)
            && d.w == w.(faults := d.w.faults, calls := w.calls + ServerCalls(ids[..tried]),
                         cloud := w.cloud.(live := w.cloud.live - Members(ids[..k])))
    decreases |ids|
  {
    k, tried := 0, 0;
    DeletionNone(w.cloud.live, w.calls, ids);
    if ids != [] {
      var d := DeleteServerIdempotent(w, ids[0]);
      if d.ok {
        k, tried := DeleteServersPrefix(d.w, ids[1..]);
        DeletionCons(w.cloud.live, w.calls, ids, k, tried);
        k, tried := k + 1, tried + 1;
      } else {
        DeletionCons(w.cloud.live, w.calls, ids, 0, 0);
        DeletionNone(w.cloud.live - {ids[0]}, w.calls + [DeleteServer(ids[0])], ids[1..]);
        k, tried := if Next(w).reply.Refused? then 0 else 1, 1;
      }
    }
  }

  ghost function Members<T(!new)>(s: seq<T>): set<T> { set x | x in s }

  function ServerCalls(ids: seq<ServerId>): (calls: seq<Call>)
    ensures |calls| == |ids| && forall i :: 0 <= i < |ids| ==> calls[i] == DeleteServer(ids[i])
  {
    seq(|ids|, i requires 0 <= i < |ids| => DeleteServer(ids[i]))
  }
}
