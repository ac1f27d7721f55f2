/**
  What a request may ask for, and the small promises the runs rely on: recording
  is idempotent, the first kubeconfig wins, servers are destroyed in listing order.
 */
module FleetRequests {
  import opened Numerals
  import opened Text
  import opened FleetModel
  import opened FleetRuns
  import opened FleetInvariant
  import opened FleetSafety

  // --------------------------------------------------------------------------- requests

  /** The request may start a run: the cluster is visible and Ready, and 1 to 10 workers are left. */
  predicate Scalable(w: World, delta: int) {
    !w.row.deleted && w.row.status.Ready? && 1 <= w.row.workerCount + delta <= 10
  }

  /**
    A scale request that may not start a run changes nothing; it is an error unless
    it asked a Ready cluster for no change. One that may, and whose first three
    calls are answered, writes the sum as the count and starts the run for `delta`.
   */
  lemma ScaleIsGated(w: World, delta: int)
    requires Next(w).reply.Clean?
    ensures var r := ScaleWorkers(w, delta);
            && (!Scalable(w, delta) || delta == 0 ==>
                  r.w == Tick(w) && (r.ok <==> delta == 0 && !w.row.deleted && w.row.status.Ready?))
            && (Scalable(w, delta) && delta != 0 && Next(Tick(w)).reply.Clean? && Next(Tick(Tick(w))).reply.Clean? ==>
                  var u := Tick(Tick(Tick(w))).(row := w.row.(workerCount := w.row.workerCount + delta));
                  r == if delta > 0 then RunScaleOut(u, delta) else RunScaleIn(u, 0 - delta))
  {
    hide RunScaleOut, RunScaleIn;
  }

  /** A destroy request reaches its run exactly when the cluster is visible and both first calls are answered. */
  lemma DestroyIsGated(w: World)
    ensures DestroyRequest(w) ==
      if Next(w).reply.Clean? && !w.row.deleted then
        if Next(Tick(w)).reply.Clean? then RunDestroy(Tick(Tick(w))) else Out(false, Tick(Tick(w)))
      else Out(false, Tick(w))
  {
    hide RunDestroy;
  }

  /** A destroy run begins exactly on a visible cluster that is not marked destroyed, and marks it Destroying. */
  lemma DestroyBegins(w: World)
    requires Next(w).reply.Clean? && Next(Tick(w)).reply.Clean?
    ensures BeginDestroy(w) ==
      if !w.row.deleted && w.row.status != Destroyed then Out(true, Tick(Tick(w)).(row := w.row.(status := Destroying)))
      else Out(false, Tick(w))
  {
  }

  /** A new cluster is accepted if and only if it has a name, an offered region and type, one control plane and 1 to 10 workers. */
  lemma CreateIff(w: World, n: NewCluster)
    ensures Create(w, n).Some? <==>
      && Next(w).reply.Clean? && (exists i :: 0 <= i < |n.name| && !WhiteSpace(n.name[i]))
      && (n.region == "nbg1" || n.region == "fsn1" || n.region == "hel1" || n.region == "ash" || n.region == "hil")
      && (n.serverType == "cpx11" || n.serverType == "cpx21" || n.serverType == "cpx31" || n.serverType == "cpx41"
          || n.serverType == "ccx13" || n.serverType == "ccx23")
      && n.controlPlanes == 1 && 1 <= n.workers <= 10
  {
    hide Trim, WhiteSpace;
    TrimEmptyIff(n.name);
  }

  /** The spelling of a hostname: two digits for the first hundred workers, more only when needed. */
  lemma HostTextIs(cluster: string, index: nat)
    ensures HostText(ControlPlaneName(cluster)) == cluster + "-cp-01"
    ensures index < 100 ==>
              HostText(WorkerName(cluster, index)) == cluster + "-worker-" + [DigitChar(index / 10), DigitChar(index % 10)]
  {
    if index < 10 {
      assert Render(index, 10) == [DigitChar(index)];
      assert Zeros(1) == ['0'];
    } else if index < 100 {
      assert Render(index / 10, 10) == [DigitChar(index / 10)];
    }
  }

  // ---------------------------------------------------------------------------- promises

  /** Recording a server adds its row with role and address, unless a live row has its id; a second time changes nothing. */
  lemma RecordingIsIdempotent(w: World, view: View, role: Role, again: Role)
    requires RecordServer(w, view, role).ok
    ensures var once := RecordServer(w, view, role).w;
            && RecordServer(once, view, again).w == Tick(once)
            && once.servers ==
               if exists r :: r in w.servers && !r.deleted && r.serverId == RecordedId(view.id) then w.servers
               else w.servers + [ServerRow(RecordedId(view.id), role, view.hasIpv4, false)]
  {
    var once := RecordServer(w, view, role).w;
    if !(exists r :: r in w.servers && !r.deleted && r.serverId == RecordedId(view.id)) {
      assert once.servers[|w.servers|] == RowOf(view, role);
    }
  }

  /** The first kubeconfig wins: a second one, or one for a hidden cluster, is refused and does not stay behind. */
  lemma FirstKubeconfigWins(w: World)
    requires SecretsOk(w) && (w.row.kubeconfig.Some? || w.row.deleted) && w.faults == []
    ensures StoreKubeconfig(w) == Out(false, w.(nextSecret := w.nextSecret + 1))
  {
    assert w.secrets + {w.nextSecret} - {w.nextSecret} == w.secrets;
  }

  /** The listing keeps creation order within a role. */
  lemma {:induction false} PickKeepsOrder(rows: seq<ServerRow>, role: Role, i: nat, j: nat) returns (a: nat, b: nat)
    requires i < j < |Pick(rows, role)|
    ensures a < b < |rows| && rows[a] == Pick(rows, role)[i] && rows[b] == Pick(rows, role)[j]
    decreases |rows|
  {
    var init := rows[..|rows| - 1];
    if j < |Pick(init, role)| {
      a, b := PickKeepsOrder(init, role, i, j);
    } else {
      PickMembers(init, role, Pick(init, role)[i]);
      a :| 0 <= a < |init| && init[a] == Pick(init, role)[i];
      b := |rows| - 1;
    }
  }

  /** Control planes come before workers, each role in creation order. */
  ghost predicate InListingOrder(rows: seq<ServerRow>, r: ServerRow, s: ServerRow) {
    if r.role == s.role then exists a, b :: 0 <= a < b < |rows| && rows[a] == r && rows[b] == s
    else r.role == ControlPlane && s.role == Worker
  }

  lemma ListingIsOrdered(w: World, i: nat, j: nat)
    requires i < j < |ListServers(w)|
    ensures InListingOrder(w.servers, ListServers(w)[i], ListServers(w)[j])
  {
    hide Pick;
    RolesInOrder(w, i);
    RolesInOrder(w, j);
    var cps := Pick(w.servers, ControlPlane);
    if j < |cps| {
      var a, b := PickKeepsOrder(w.servers, ControlPlane, i, j);
    } else if i >= |cps| {
      var a, b := PickKeepsOrder(w.servers, Worker, i - |cps|, j - |cps|);
    }
  }

  /** A destroy deletes the servers of all live rows in listing order, each once. */
  lemma DestroyGoesInOrder(w: World)
    requires RunDestroy(w).ok
    ensures RunDestroy(w).w.calls == w.calls + ServerCalls(DoomedIds(ListServers(w)))
    ensures forall i, j :: 0 <= i < j < |ListServers(w)| ==> InListingOrder(w.servers, ListServers(w)[i], ListServers(w)[j])
    ensures forall r :: r in ListServers(w) <==> r in w.servers && !r.deleted
  {
    hide RunDestroy, ListServers, InListingOrder;
    DestroyCalls(w);
    forall i: nat, j: nat | i < j < |ListServers(w)| ensures InListingOrder(w.servers, ListServers(w)[i], ListServers(w)[j]) {
      ListingIsOrdered(w, i, j);
    }
    forall r ensures r in ListServers(w) <==> r in w.servers && !r.deleted { ListedServersAreAll(w, r); }
  }

  lemma RolesInOrder(w: World, i: nat)
    requires i < |ListServers(w)|
    ensures ListServers(w)[i].role == if i < |Pick(w.servers, ControlPlane)| then ControlPlane else Worker
  {
    hide Pick;
    var role := if i < |Pick(w.servers, ControlPlane)| then ControlPlane else Worker;
    PickMembers(w.servers, role, ListServers(w)[i]);
  }

  lemma DestroyCalls(w: World)
    requires RunDestroy(w).ok
    ensures RunDestroy(w).w.calls == w.calls + ServerCalls(DoomedIds(ListServers(w)))
  {
    hide Pick, DeleteServers, FinalizeDestroy;
    var begun := BeginDestroy(w);
    var listed := Attempt(begun.w);
    var ids := DoomedIds(ListServers(listed.w));
    assert listed.w.servers == w.servers && listed.w.calls == w.calls;
    var k, tried := DeleteServersPrefix(Publish(listed.w, Step(DestroyingServers)), ids);
    assert ids[..|ids|] == ids;
    var gone := DestroyCluster(listed.w, ids);
    FinalizeCalls(SoftDeleteServers(gone.w).w);
  }

  lemma FinalizeCalls(w: World)
    ensures FinalizeDestroy(w).w.calls == w.calls
  {
  }
}
