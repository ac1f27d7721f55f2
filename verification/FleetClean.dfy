/**
  What runs achieve when the environment plays along: polling succeeds exactly
  when the replies say so, and a smooth provision or scale-out builds, records
  and joins exactly the servers that were asked for.
 */
module FleetClean {
  import opened Environment
  import opened Numerals
  import opened FleetModel
  import opened FleetRuns
  import opened FleetInvariant
  import opened FleetSafety
  import opened FleetNaming
  import opened FleetCounts

  // --------------------------------------------------------------------------- polling

  /** How the environment answers the `k`-th call from now on. */
  function FaultAt(w: World, k: nat): Fault {
    if k < |w.faults| then w.faults[k] else Fault(Clean, 0, Running(true))
  }

  /** The world after `k` calls without effect. */
  function Spent(w: World, k: nat): World {
    w.(faults := if k <= |w.faults| then w.faults[k..] else [])
  }

  /** The server is still starting in polls 0 to `k - 1` and runs in poll `k`; no poll fails. */
  ghost predicate BootsAt(w: World, k: nat, hasIpv4: bool) {
    && (forall j :: 0 <= j < k ==> FaultAt(w, j).reply.Clean? && FaultAt(w, j).boot.Initializing?)
    && FaultAt(w, k).reply.Clean? && FaultAt(w, k).boot == Running(hasIpv4)
  }

  lemma FaultAtTick(w: World, j: nat)
    ensures FaultAt(Tick(w), j) == FaultAt(w, j + 1)
  {
  }

  lemma BootsLater(w: World, k: nat, hasIpv4: bool)
    ensures BootsAt(w, k + 1, hasIpv4) <==> Next(w).reply.Clean? && Next(w).boot.Initializing? && BootsAt(Tick(w), k, hasIpv4)
  {
    hide FaultAt, Tick;
    assert Next(w) == FaultAt(w, 0) by { NextIsFirst(w); }
    FaultAtTick(w, k);
    forall j: nat | j < k ensures FaultAt(Tick(w), j) == FaultAt(w, j + 1) { FaultAtTick(w, j); }
    if Next(w).reply.Clean? && Next(w).boot.Initializing? && BootsAt(Tick(w), k, hasIpv4) {
      forall j | 0 <= j < k + 1 ensures FaultAt(w, j).reply.Clean? && FaultAt(w, j).boot.Initializing? {
        if j > 0 { assert FaultAt(Tick(w), j - 1) == FaultAt(w, j); }
      }
    }
    if BootsAt(w, k + 1, hasIpv4) {
      forall j | 0 <= j < k ensures FaultAt(Tick(w), j).reply.Clean? && FaultAt(Tick(w), j).boot.Initializing? {
        assert FaultAt(Tick(w), j) == FaultAt(w, j + 1);
      }
    }
  }

  lemma NextIsFirst(w: World)
    ensures Next(w) == FaultAt(w, 0)
  {
  }

  lemma {:induction false} PollSucceeds(w: World, id: ServerId, attempts: nat, k: nat, hasIpv4: bool)
    requires k < attempts && BootsAt(w, k, hasIpv4)
    ensures WaitForCloudInit(w, id, attempts) == Got(Some(View(id, hasIpv4)), Spent(w, k + 1))
    decreases attempts
  {
    hide BootsAt;
    if k == 0 {
      BootsNow(w, hasIpv4);
    } else {
      BootsLater(w, k - 1, hasIpv4);
      PollSucceeds(Tick(w), id, attempts - 1, k - 1, hasIpv4);
    }
  }

  lemma BootsNow(w: World, hasIpv4: bool)
    ensures BootsAt(w, 0, hasIpv4) <==> Next(w).reply.Clean? && Next(w).boot == Running(hasIpv4)
  {
  }

  lemma {:induction false} PollSucceeded(w: World, id: ServerId, attempts: nat) returns (k: nat)
    requires WaitForCloudInit(w, id, attempts).value.Some?
    ensures k < attempts && BootsAt(w, k, WaitForCloudInit(w, id, attempts).value.value.hasIpv4)
    decreases attempts
  {
    hide BootsAt;
    var hasIpv4 := WaitForCloudInit(w, id, attempts).value.value.hasIpv4;
    if Next(w).boot.Initializing? {
      k := PollSucceeded(Tick(w), id, attempts - 1);
      BootsLater(w, k, hasIpv4);
      k := k + 1;
    } else {
      k := 0;
      BootsNow(w, hasIpv4);
    }
  }

  /**
    Polling yields a server if and only if one of the polls finds it running and
    all earlier ones were answered with a server still starting.
   */
  lemma PollIff(w: World, id: ServerId, attempts: nat, hasIpv4: bool)
    ensures WaitForCloudInit(w, id, attempts).value == Some(View(id, hasIpv4)) <==>
              exists k :: 0 <= k < attempts && BootsAt(w, k, hasIpv4)
    ensures WaitForCloudInit(w, id, attempts).value.Some? ==> WaitForCloudInit(w, id, attempts).value.value.id == id
  {
    hide WaitForCloudInit, BootsAt;
    WaitIsSame(w, id, attempts);
    if WaitForCloudInit(w, id, attempts).value.Some? {
      var k := PollSucceeded(w, id, attempts);
    }
    if k: nat :| k < attempts && BootsAt(w, k, hasIpv4) {
      PollSucceeds(w, id, attempts, k, hasIpv4);
    }
  }

  // -------------------------------------------------------------------- smooth weather

  /**
    Every call from now on is answered, a server runs when it is first polled, and
    the provider has ids for `n` more servers. The environment with nothing left to
    say is one case of this.
   */
  predicate Smooth(w: World, n: nat) {
    && w.maxPolls > 0 && CloudOk(w.cloud) && w.cloud.ceiling + n <= I64_MAX + 1
    && forall k :: 0 <= k < |w.faults| ==> SmoothFault(w.faults[k], n)
  }

  predicate SmoothFault(f: Fault, n: nat) {
    f.reply.Clean? && f.boot == Running(true) && f.proposedId + n <= I64_MAX + 1
  }

  lemma SmoothNext(w: World, n: nat)
    requires Smooth(w, n)
    ensures SmoothFault(Next(w), n) && Smooth(Tick(w), n)
  {
  }

  /** Smoothness looks at the provider, the script and the number of polls only. */
  lemma SmoothFrame(w: World, v: World, n: nat)
    requires Smooth(w, n) && v.cloud == w.cloud && v.maxPolls == w.maxPolls && v.faults == w.faults
    ensures Smooth(v, n)
  {
  }

  lemma SmoothCreate(w: World, name: Host, n: nat)
    requires Smooth(w, n + 1)
    ensures var made := CreateServer(w, name);
            && made.value.Some? && made.w == w.(cloud := made.w.cloud, faults := made.w.faults)
            && made.w.cloud.live == w.cloud.live[made.value.value := name] && Smooth(made.w, n)
  {
    SmoothNext(w, n + 1);
  }

  lemma {:induction false} SmoothCreateWorkers(w: World, start: nat, count: nat, ids: seq<ServerId>, n: nat)
    requires Smooth(w, count + n)
    ensures var made := CreateWorkers(w, start, count, ids);
            made.value.Some? && made.w == w.(cloud := made.w.cloud, faults := made.w.faults) && Smooth(made.w, n)
    decreases count
  {
    hide Smooth, CreateServer;
    if count > 0 {
      SmoothCreate(w, WorkerName(w.row.name, start), count - 1 + n);
      var made := CreateServer(w, WorkerName(w.row.name, start));
      SmoothCreateWorkers(made.w, start + 1, count - 1, ids + [made.value.value], n);
    }
  }

  lemma SmoothPoll(w: World, id: ServerId, n: nat)
    requires Smooth(w, n)
    ensures WaitForCloudInit(w, id, w.maxPolls) == Got(Some(View(id, true)), Tick(w)) && Smooth(Tick(w), n)
  {
    SmoothNext(w, n);
  }

  ghost predicate AllRun(views: seq<View>, ids: seq<ServerId>) {
    |views| == |ids| && forall i :: 0 <= i < |ids| ==> views[i] == View(ids[i], true)
  }

  lemma {:induction false} SmoothAwait(w: World, done: seq<ServerId>, ids: seq<ServerId>, views: seq<View>, n: nat)
    requires Smooth(w, n) && AllRun(views, done)
    ensures var booted := AwaitWorkers(w, ids, views);
            && booted.value.Some? && AllRun(booted.value.value, done + ids)
            && booted.w == w.(faults := booted.w.faults) && Smooth(booted.w, n)
    decreases |ids|
  {
    hide Smooth, WaitForCloudInit;
    if ids == [] {
      assert done + ids == done;
    } else {
      SmoothPoll(w, ids[0], n);
      assert done + [ids[0]] + ids[1..] == done + ids;
      SmoothAwait(Tick(w), done + [ids[0]], ids[1..], views + [View(ids[0], true)], n);
    }
  }

  /** The Kubernetes nodes after these hosts joined: new or again, and not drained. */
  function Joined(nodes: map<Host, bool>, hosts: seq<Host>): map<Host, bool> {
    map h | h in nodes.Keys + (set i | 0 <= i < |hosts| :: hosts[i]) :: h !in hosts && nodes[h]
  }

  /** The names of workers `start` to `start + count - 1`. */
  function WorkerHosts(name: string, start: nat, count: nat): (hosts: seq<Host>)
    ensures |hosts| == count && forall i :: 0 <= i < count ==> hosts[i] == WorkerName(name, start + i)
  {
    seq(count, i requires 0 <= i < count => WorkerName(name, start + i))
  }

  lemma JoinedNone(nodes: map<Host, bool>)
    ensures Joined(nodes, []) == nodes
  {
  }

  lemma JoinedCons(nodes: map<Host, bool>, hosts: seq<Host>)
    requires hosts != []
    ensures Joined(nodes[hosts[0] := false], hosts[1..]) == Joined(nodes, hosts)
  {
    assert hosts == [hosts[0]] + hosts[1..];
    forall h ensures h in Joined(nodes[hosts[0] := false], hosts[1..]) <==> h in Joined(nodes, hosts) {
      if h in hosts && h != hosts[0] {
        var i :| 0 <= i < |hosts| && hosts[i] == h;
        assert hosts[1..][i - 1] == h;
      }
    }
  }

  lemma JoinedAppend(nodes: map<Host, bool>, a: seq<Host>, b: seq<Host>)
    ensures Joined(Joined(nodes, a), b) == Joined(nodes, a + b)
  {
    forall h ensures h in a + b <==> h in a || h in b {
    }
    assert forall h :: h in Joined(nodes, a) <==> h in nodes || h in a;
    assert forall h :: h in Joined(nodes, a + b) <==> h in nodes || h in a + b;
  }

  ghost predicate RunsAs(live: map<ServerId, Host>, views: seq<View>, hosts: seq<Host>) {
    |views| == |hosts|
    && forall i :: 0 <= i < |views| ==> views[i].hasIpv4 && views[i].id in live && live[views[i].id] == hosts[i]
  }

  lemma {:induction false} SmoothJoin(w: World, views: seq<View>, hosts: seq<Host>, n: nat)
    requires Smooth(w, n) && RunsAs(w.cloud.live, views, hosts)
    ensures var joined := JoinWorkers(w, views);
            && joined.ok && joined.w == w.(faults := joined.w.faults, nodes := Joined(w.nodes, hosts)) && Smooth(joined.w, n)
    decreases |views|
  {
    hide Smooth, Joined;
    JoinedNone(w.nodes);
    if views == [] {
      assert hosts == [];
    } else {
      SmoothNext(w, n);
      JoinedCons(w.nodes, hosts);
      var joined := JoinNode(w, views[0].id);
      SmoothFrame(Tick(w), joined.w, n);
      SmoothJoin(joined.w, views[1..], hosts[1..], n);
    }
  }

  // ------------------------------------------------------------------------- workflows

  /** The provider gained exactly these servers, each new and under its own name. */
  ghost predicate NewServers(c: Cloud, d: Cloud, ids: seq<ServerId>, hosts: seq<Host>) {
    && |ids| == |hosts|
    && (forall x :: x in d.live <==> x in c.live || x in ids)
    && (forall x :: x in c.live ==> d.live[x] == c.live[x])
    && (forall i :: 0 <= i < |ids| ==> ids[i] !in c.issued && ids[i] in d.live && d.live[ids[i]] == hosts[i])
    && (forall i, j :: 0 <= i < j < |ids| ==> ids[i] != ids[j])
  }

  lemma NewServersAppend(c: Cloud, d: Cloud, e: Cloud, a: seq<ServerId>, b: seq<ServerId>, hosts: seq<Host>, more: seq<Host>)
    requires NewServers(c, d, a, hosts) && NewServers(d, e, b, more)
    requires (forall i :: i in c.issued ==> i in d.issued) && forall i :: 0 <= i < |a| ==> a[i] in d.issued
    ensures NewServers(c, e, a + b, hosts + more)
  {
    var ids, names := a + b, hosts + more;
    forall i | 0 <= i < |ids| ensures ids[i] !in c.issued && ids[i] in e.live && e.live[ids[i]] == names[i] {
      NewServersAt(c, d, e, a, b, hosts, more, i);
    }
    forall i, j | 0 <= i < j < |ids| ensures ids[i] != ids[j] {
      if j >= |a| {
        assert ids[j] == b[j - |a|] && ids[j] !in d.issued;
        if i >= |a| { assert ids[i] == b[i - |a|]; }
      }
    }
    assert forall x :: x in ids <==> x in a || x in b;
  }

  lemma NewServersAt(c: Cloud, d: Cloud, e: Cloud, a: seq<ServerId>, b: seq<ServerId>, hosts: seq<Host>, more: seq<Host>, i: nat)
    requires NewServers(c, d, a, hosts) && NewServers(d, e, b, more) && i < |a + b|
    requires forall i :: i in c.issued ==> i in d.issued
    ensures var ids, names := a + b, hosts + more; ids[i] !in c.issued && ids[i] in e.live && e.live[ids[i]] == names[i]
  {
    if i < |a| {
      assert (a + b)[i] == a[i] && (hosts + more)[i] == hosts[i];
    } else {
      assert (a + b)[i] == b[i - |a|] && (hosts + more)[i] == more[i - |a|];
    }
  }

  /** Exactly these servers were added, all of them run, and exactly their hosts joined. */
  ghost predicate Grown(w: World, v: World, start: nat, views: seq<View>, ids: seq<ServerId>) {
    && Made(w, v, start, ids) && AllRun(views, ids)
    && v.nodes == Joined(w.nodes, WorkerHosts(w.row.name, start, |ids|)) && v.calls == w.calls
  }

  lemma SmoothAddWorkers(w: World, start: nat, count: nat, n: nat) returns (ids: seq<ServerId>)
    requires Smooth(w, count + n)
    ensures var added := AddWorkers(w, start, count);
            added.value.Some? && |ids| == count && Grown(w, added.w, start, added.value.value, ids) && Smooth(added.w, n)
  {
    hide Smooth, CreateWorkers, AwaitWorkers, JoinWorkers, Made, Joined, AllRun;
    var w1 := Publish(w, Step(CreatingWorkers));
    SmoothFrame(w, w1, count + n);
    SmoothCloud(w, count + n);
    SmoothCreateWorkers(w1, start, count, [], n);
    MadeNothing(w, w1, start);
    CreateWorkersMake(w, start, w1, start, count, []);
    var made := CreateWorkers(w1, start, count, []);
    ids := made.value.value;
    var w2 := Publish(made.w, Step(WaitingCloudInitWorkers));
    SmoothFrame(made.w, w2, n);
    assert AllRun([], []) by { NoneRun(); }
    SmoothAwait(w2, [], ids, [], n);
    assert [] + ids == ids;
    var booted := AwaitWorkers(w2, ids, []);
    var w3 := Publish(booted.w, Step(InstallingK3sAgents));
    SmoothFrame(booted.w, w3, n);
    MadeRuns(w, made.w, start, booted.value.value, ids);
    SmoothJoin(w3, booted.value.value, WorkerHosts(w.row.name, start, count), n);
    var joined := JoinWorkers(w3, booted.value.value);
    MadeSame(w, made.w, joined.w, start, ids);
  }

  lemma SmoothCloud(w: World, n: nat)
    requires Smooth(w, n)
    ensures CloudOk(w.cloud) && w.maxPolls > 0
  {
  }

  lemma NoneRun()
    ensures AllRun([], [])
  {
  }

  lemma MadeNothing(w: World, v: World, start: nat)
    requires CloudOk(w.cloud) && Same(w, v)
    ensures Made(w, v, start, [])
  {
  }

  lemma MadeRuns(w: World, v: World, start: nat, views: seq<View>, ids: seq<ServerId>)
    requires Made(w, v, start, ids) && AllRun(views, ids)
    ensures RunsAs(v.cloud.live, views, WorkerHosts(w.row.name, start, |ids|))
  {
  }

  /** Live rows for these servers, each with its address. */
  function RowsFor(ids: seq<ServerId>, role: Role): (rows: seq<ServerRow>)
    ensures |rows| == |ids| && forall i :: 0 <= i < |ids| ==> rows[i] == ServerRow(ids[i], role, true, false)
  {
    seq(|ids|, i requires 0 <= i < |ids| => ServerRow(ids[i], role, true, false))
  }

  lemma RowsForViews(views: seq<View>, ids: seq<ServerId>, role: Role)
    requires AllRun(views, ids) && forall i :: 0 <= i < |ids| ==> ids[i] <= I64_MAX
    ensures RowsOf(views, role) == RowsFor(ids, role)
  {
    forall i | 0 <= i < |ids| ensures RowsOf(views, role)[i] == RowsFor(ids, role)[i] {
      assert views[i] == View(ids[i], true);
    }
  }

  lemma GrownIsNew(w: World, v: World, start: nat, views: seq<View>, ids: seq<ServerId>)
    requires Grown(w, v, start, views, ids)
    ensures NewServers(w.cloud, v.cloud, ids, WorkerHosts(w.row.name, start, |ids|))
    ensures RowsOf(views, Worker) == RowsFor(ids, Worker)
    ensures ViewsOf(views, ids)
  {
    hide Joined;
    forall i | 0 <= i < |ids| ensures ids[i] <= I64_MAX { assert ids[i] in v.cloud.issued; }
    RowsForViews(views, ids, Worker);
  }

  /** The control plane: one new server that runs and joined under its name. */
  ghost predicate Crowned(w: World, v: World, id: ServerId) {
    && Grew(w, v) && id !in w.cloud.issued && id in v.cloud.issued
    && v.cloud.live == w.cloud.live[id := ControlPlaneName(w.row.name)]
    && v.nodes == Joined(w.nodes, [ControlPlaneName(w.row.name)]) && v.calls == w.calls
  }

  lemma SmoothControlPlane(w: World, n: nat)
    requires Smooth(w, n + 1)
    ensures var cp := AddControlPlane(w);
            && cp.value.Some? && cp.value.value.hasIpv4 && Crowned(w, cp.w, cp.value.value.id) && Smooth(cp.w, n)
  {
    hide Smooth, CreateServer, WaitForCloudInit, Joined;
    SmoothCloud(w, n + 1);
    var name := ControlPlaneName(w.row.name);
    var w1 := Publish(w, Step(CreatingControlPlane));
    SmoothFrame(w, w1, n + 1);
    SmoothCreate(w1, name, n);
    CreateServerGrows(w1, name);
    var made := CreateServer(w1, name);
    var id := made.value.value;
    var w2 := Publish(made.w, Step(WaitingCloudInitCp));
    SmoothFrame(made.w, w2, n);
    SmoothPoll(w2, id, n);
    var w3 := Publish(Tick(w2), Step(InstallingK3sServer));
    SmoothFrame(Tick(w2), w3, n);
    SmoothNext(w3, n);
    var installed := JoinNode(w3, id);
    JoinedNone(w.nodes[name := false]);
    JoinedCons(w.nodes, [name]);
    SmoothFrame(Tick(w3), installed.w, n);
    SmoothNext(installed.w, n);
    assert [name][1..] == [];
    GrewSame(w, made.w, Attempt(installed.w).w);
  }

  lemma CrownedIsNew(w: World, v: World, id: ServerId)
    requires Crowned(w, v, id) && CloudOk(w.cloud)
    ensures NewServers(w.cloud, v.cloud, [id], [ControlPlaneName(w.row.name)])
    ensures (forall i :: i in w.cloud.issued ==> i in v.cloud.issued) && id in v.cloud.issued && id <= I64_MAX
  {
    hide Joined;
  }

  /** The whole fleet: a control plane and workers 0, 1, 2, …, all new, running and joined. */
  ghost predicate Built(w: World, v: World, f: Fleet, ids: seq<ServerId>) {
    && FleetMade(w, v, f) && Provisioned(w, v, f, ids) && AllRun(f.workers, ids) && v.calls == w.calls
    && NewServers(w.cloud, v.cloud, [f.controlPlane.id] + ids, FleetHosts(w.row.name, |ids|))
    && v.nodes == Joined(w.nodes, FleetHosts(w.row.name, |ids|))
  }

  /** The names of a fleet of one control plane and `count` workers. */
  function FleetHosts(name: string, count: nat): seq<Host> {
    [ControlPlaneName(name)] + WorkerHosts(name, 0, count)
  }

  lemma SmoothProvisionCluster(w: World, count: nat) returns (ids: seq<ServerId>)
    requires Smooth(w, count + 1)
    ensures var fleet := ProvisionCluster(w, count);
            fleet.value.Some? && |ids| == count && Built(w, fleet.w, fleet.value.value, ids) && Smooth(fleet.w, 0)
  {
    hide Smooth, AddControlPlane, AddWorkers, Joined, Made, FleetMade, Provisioned, AllRun, Grew, NewServers, CloudOk;
    SmoothControlPlane(w, count);
    var cp := AddControlPlane(w);
    assert cp.w.row == w.row by { GrewRow(w, cp.w); }
    SmoothCloud(w, count + 1);
    ids := SmoothAddWorkers(cp.w, 0, count, 0);
    var added := AddWorkers(cp.w, 0, count);
    AllRunAreViews(added.value.value, ids);
    var u := Publish(added.w, Step(CollectingKubeconfig));
    SmoothFrame(added.w, u, 0);
    SmoothNext(u, 0);
    var v := ProvisionCluster(w, count).w;
    SmoothFrame(Tick(u), v, 0);
    FleetMadeFrom(w, cp.w, added.w, cp.value.value, added.value.value, ids);
    FleetMadeSame(w, added.w, v, Fleet(cp.value.value, added.value.value));
    ProvisionedFrom(w, cp.w, added.w, cp.value.value, added.value.value, ids);
    ProvisionedSame(w, added.w, v, Fleet(cp.value.value, added.value.value), ids);
    JoinedAppend(w.nodes, [ControlPlaneName(w.row.name)], WorkerHosts(w.row.name, 0, count));
    CrownedIsNew(w, cp.w, cp.value.value.id);
    GrownIsNew(cp.w, added.w, 0, added.value.value, ids);
    NewServersAppend(w.cloud, cp.w.cloud, added.w.cloud, [cp.value.value.id], ids,
                     [ControlPlaneName(w.row.name)], WorkerHosts(w.row.name, 0, count));
  }

  lemma GrewRow(w: World, v: World)
    requires Grew(w, v)
    ensures v.row == w.row && v.servers == w.servers && v.secrets == w.secrets && v.nextSecret == w.nextSecret
    ensures v.swallowed == w.swallowed && v.stalled == w.stalled && v.maxPolls == w.maxPolls
  {
  }

  lemma AllRunAreViews(views: seq<View>, ids: seq<ServerId>)
    requires AllRun(views, ids)
    ensures ViewsOf(views, ids)
  {
  }

  lemma ProvisionedSame(w: World, u: World, v: World, f: Fleet, ids: seq<ServerId>)
    requires Provisioned(w, u, f, ids) && v.cloud == u.cloud
    ensures Provisioned(w, v, f, ids)
  {
  }

  // ------------------------------------------------------------------------- recording

  lemma {:induction false} SmoothRecord(w: World, views: seq<View>, role: Role, n: nat)
    requires Smooth(w, n)
    ensures var r := RecordServers(w, views, role);
            r.ok && r.w == w.(faults := r.w.faults, servers := r.w.servers) && Smooth(r.w, n)
    decreases |views|
  {
    hide Smooth;
    if views != [] {
      SmoothNext(w, n);
      var r := RecordServer(w, views[0], role);
      SmoothFrame(Tick(w), r.w, n);
      SmoothRecord(r.w, views[1..], role, n);
    }
  }

  lemma SmoothSeal(w: World)
    requires Smooth(w, 0) && !w.row.deleted && w.row.kubeconfig.None?
    ensures var r := SealProvision(w);
            && r.ok
            && r.w == w.(faults := r.w.faults, events := r.w.events, row := w.row.(status := Ready, kubeconfig := Some(w.nextSecret)),
                         secrets := w.secrets + {w.nextSecret}, nextSecret := w.nextSecret + 1)
  {
    hide Smooth;
    SmoothNext(w, 0);
    var put := PutSecret(w);
    SmoothFrame(Tick(w), put.w, 0);
    SmoothNext(put.w, 0);
    var stored := SetKubeconfigSecret(put.w, w.nextSecret);
    SmoothFrame(Tick(put.w), stored.w, 0);
    SmoothNext(stored.w, 0);
    var ready := UpdateStatus(stored.w, Ready);
    SmoothFrame(Tick(stored.w), ready.w, 0);
    SmoothNext(ready.w, 0);
  }

  lemma SmoothFinish(b: map<ServerId, Host>, w: World, u: World, f: Fleet)
    requires Smooth(u, 0) && !u.row.deleted && u.row.kubeconfig.None? && u.servers == []
    requires Fits(b, w, u, AllViews(f))
    ensures var r := FinishProvision(u, f);
            && r.ok
            && r.w == u.(faults := r.w.faults, events := r.w.events, row := u.row.(status := Ready, kubeconfig := Some(u.nextSecret)),
                         secrets := u.secrets + {u.nextSecret}, nextSecret := u.nextSecret + 1,
                         servers := [RowOf(f.controlPlane, ControlPlane)] + RowsOf(f.workers, Worker))
  {
    hide Smooth, SealProvision, RecordServers, RecordServer;
    FitsRecordable(b, w, u, AllViews(f));
    RecordsFleet(u, f);
    SmoothRecordOne(u, f.controlPlane, ControlPlane, 0);
    var cp := RecordServer(u, f.controlPlane, ControlPlane);
    SmoothRecord(cp.w, f.workers, Worker, 0);
    SmoothSeal(RecordServers(cp.w, f.workers, Worker).w);
  }

  lemma FitsRecordable(b: map<ServerId, Host>, w: World, u: World, views: seq<View>)
    requires Fits(b, w, u, views)
    ensures Recordable(u.servers, views)
  {
  }

  lemma SmoothRecordOne(w: World, view: View, role: Role, n: nat)
    requires Smooth(w, n)
    ensures RecordServer(w, view, role).ok && Smooth(RecordServer(w, view, role).w, n)
  {
    SmoothNext(w, n);
  }

  // ---------------------------------------------------------------------- whole requests

  /** A script that has run out is smooth as long as ids are left. */
  lemma NoFaultsIsSmooth(w: World, n: nat)
    requires w.faults == [] && w.maxPolls > 0 && CloudOk(w.cloud) && w.cloud.ceiling + n <= I64_MAX + 1
    ensures Smooth(w, n)
  {
  }

  /**
    Provisioning works: when every call is answered, a fresh cluster ends Ready
    with its kubeconfig stored; the provider gained exactly one control plane and
    the workers 0 to n - 1, all of them recorded with role and address, and exactly
    those hosts joined Kubernetes, none of them drained.
   */
  lemma ProvisionSucceeds(w: World) returns (ids: seq<ServerId>)
    requires Fresh(w) && Smooth(w, w.row.workerCount + 1)
    ensures |ids| == w.row.workerCount + 1
    ensures var r := RunProvision(w);
            var hosts := FleetHosts(w.row.name, w.row.workerCount);
            && r.ok && r.w.row == w.row.(status := Ready, kubeconfig := Some(w.nextSecret))
            && r.w.secrets == w.secrets + {w.nextSecret}
            && NewServers(w.cloud, r.w.cloud, ids, hosts)
            && r.w.servers == RowsFor(ids[..1], ControlPlane) + RowsFor(ids[1..], Worker)
            && r.w.nodes == Joined(w.nodes, hosts)
  {
    hide Smooth, ProvisionCluster, FinishProvision, Joined, NewServers;
    var n := w.row.workerCount;
    SmoothNext(w, n + 1);
    var begun := UpdateStatus(w, Provisioning);
    SmoothFrame(Tick(w), begun.w, n + 1);
    SmoothNext(begun.w, n + 1);
    var u := Attempt(begun.w).w;
    var workers := SmoothProvisionCluster(u, n);
    var fleet := ProvisionCluster(u, n);
    var f := fleet.value.value;
    ids := [f.controlPlane.id] + workers;
    assert ids[..1] == [f.controlPlane.id] && ids[1..] == workers;
    ProvisionMiddle(w, u);
    BuiltKeeps(u, fleet.w, f, workers);
    SmoothFinish(w.cloud.live, w, fleet.w, f);
    BuiltRows(u, fleet.w, f, workers);
  }

  lemma BuiltRows(w: World, v: World, f: Fleet, ids: seq<ServerId>)
    requires Built(w, v, f, ids)
    ensures [RowOf(f.controlPlane, ControlPlane)] + RowsOf(f.workers, Worker) == RowsFor([f.controlPlane.id], ControlPlane) + RowsFor(ids, Worker)
  {
    hide Joined, NewServers, FleetMade;
    RowsForViews(f.workers, ids, Worker);
    assert RowsFor([f.controlPlane.id], ControlPlane) == [RowOf(f.controlPlane, ControlPlane)];
  }

  lemma BuiltKeeps(w: World, v: World, f: Fleet, ids: seq<ServerId>)
    requires Built(w, v, f, ids)
    ensures v.nextSecret == w.nextSecret && v.secrets == w.secrets && v.servers == w.servers && v.row == w.row
    ensures v.nodes == Joined(w.nodes, FleetHosts(w.row.name, |ids|))
    ensures NewServers(w.cloud, v.cloud, [f.controlPlane.id] + ids, FleetHosts(w.row.name, |ids|))
  {
    hide Joined, NewServers;
  }

  // --------------------------------------------------------------------------- scale-out

  lemma SmoothReady(u: World)
    requires Smooth(u, 0)
    ensures var r := MarkReady(u);
            r.ok && r.w == u.(faults := r.w.faults, events := u.events + [Terminal(Ready)], row := u.row.(status := Ready))
  {
    SmoothNext(u, 0);
  }

  /** From the announcement on: the servers are added, recorded, and the cluster is Ready again. */
  lemma SmoothAddAndRecord(b: map<ServerId, Host>, w: World, u: World, start: nat, count: nat) returns (ids: seq<ServerId>)
    requires Inv(b, w) && u.cloud == w.cloud && u.servers == w.servers && Smooth(u, count)
    ensures |ids| == count
    ensures var r := AddAndRecord(u, start, count);
            && r.ok && NewServers(w.cloud, r.w.cloud, ids, WorkerHosts(u.row.name, start, count))
            && r.w.servers == w.servers + RowsFor(ids, Worker)
            && r.w.nodes == Joined(u.nodes, WorkerHosts(u.row.name, start, count))
            && r.w.row == u.row.(status := Ready) && r.w.stalled == u.stalled && r.w.swallowed == u.swallowed
  {
    hide Smooth, AddWorkers, RecordServers, MarkReady, Joined, NewServers, Inv, Made;
    ids := SmoothAddWorkers(u, start, count, 0);
    var inner := AddWorkers(u, start, count);
    var views := inner.value.value;
    GrownIsNew(u, inner.w, start, views, ids);
    var added := ScaleOut(u, start, count);
    SmoothFrame(inner.w, added.w, 0);
    MadeSame(u, inner.w, added.w, start, ids);
    MadeGrew(u, added.w, start, ids);
    GrewRow(u, added.w);
    FitsWorkers(b, w, u, added.w, start, views, ids);
    FitsRecordable(b, w, added.w, views);
    RecordsAll(added.w, views);
    SmoothRecord(added.w, views, Worker, 0);
    SmoothReady(RecordServers(added.w, views, Worker).w);
  }

  lemma MadeGrew(w: World, v: World, start: nat, ids: seq<ServerId>)
    requires Made(w, v, start, ids)
    ensures Grew(w, v)
  {
  }

  lemma ScaleOutRuns(b: map<ServerId, Host>, w: World, count: nat) returns (ids: seq<ServerId>)
    requires Inv(b, w) && w.row.status.Ready? && Named(w) && Smooth(w, count)
    ensures |ids| == count
    ensures var r := RunScaleOut(w, count);
            && r.ok && NewServers(w.cloud, r.w.cloud, ids, WorkerHosts(w.row.name, |Workers(w)|, count))
            && r.w.servers == w.servers + RowsFor(ids, Worker)
            && r.w.nodes == Joined(w.nodes, WorkerHosts(w.row.name, |Workers(w)|, count))
            && r.w.row == w.row && r.w.stalled == w.stalled && r.w.swallowed == w.swallowed
  {
    hide Smooth, AddAndRecord, Joined, NewServers, Inv, Pick;
    SmoothNext(w, count);
    var begun := BeginScaling(w);
    SmoothFrame(Tick(w), begun.w, count);
    SmoothNext(begun.w, count);
    var listed := Attempt(begun.w);
    SmoothNext(listed.w, count);
    var token := Attempt(listed.w);
    ids := SmoothAddAndRecord(b, w, token.w, |Workers(w)|, count);
  }

  /**
    Scaling out works: from an agreeing Ready state, when every call is answered,
    `delta` more workers run under the next free names, exactly those are recorded
    and joined, the count grows by `delta`, and the cluster is Ready again.
   */
  lemma ScaleOutSucceeds(b: map<ServerId, Host>, w: World, delta: nat) returns (ids: seq<ServerId>)
    requires Inv(b, w) && w.row.status.Ready? && Agree(w) && Smooth(w, delta)
    requires delta > 0 && w.row.workerCount + delta <= MAX_WORKER_COUNT
    ensures |ids| == delta
    ensures var r := ScaleWorkers(w, delta);
            var hosts := WorkerHosts(w.row.name, w.row.workerCount, delta);
            && r.ok && r.w.row == w.row.(workerCount := w.row.workerCount + delta)
            && NewServers(w.cloud, r.w.cloud, ids, hosts)
            && r.w.servers == w.servers + RowsFor(ids, Worker)
            && r.w.nodes == Joined(w.nodes, hosts)
            && r.w.stalled == w.stalled && r.w.swallowed == w.swallowed
  {
    hide Smooth, RunScaleOut, Joined, NewServers, Inv, Named;
    assert !w.row.deleted by { ReadyIsShown(b, w); }
    SmoothNext(w, delta);
    var got := GetCluster(w);
    SmoothNext(got.w, delta);
    var credential := Attempt(got.w);
    SmoothNext(credential.w, delta);
    var counted := UpdateWorkerCount(credential.w, w.row.workerCount + delta);
    SmoothFrame(Tick(credential.w), counted.w, delta);
    RecountKeeps(b, w, w.(row := counted.w.row));
    InvAndNames(b, w.(row := counted.w.row), counted.w);
    ids := ScaleOutRuns(b, counted.w, delta);
  }

  lemma ReadyIsShown(b: map<ServerId, Host>, w: World)
    requires Inv(b, w) && w.row.status.Ready?
    ensures !w.row.deleted
  {
  }

  lemma InvAndNames(b: map<ServerId, Host>, w: World, v: World)
    requires Inv(b, w) && Named(w) && v == w.(faults := v.faults)
    ensures Inv(b, v) && Named(v)
  {
    InvSame(b, w, v);
  }
}
