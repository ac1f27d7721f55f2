/** Names and counts over whole lives, and what happens when they part. */
module FleetCounts {
  import opened Environment
  import opened Numerals
  import opened FleetModel
  import opened FleetRuns
  import opened FleetInvariant
  import opened FleetTeardown
  import opened FleetSafety
  import opened FleetLife
  import opened FleetNaming

  // -------------------------------------------------------------------- provisioning

  /** The rows of a freshly provisioned cluster. */
  ghost predicate Provisioned(w: World, v: World, f: Fleet, ids: seq<ServerId>) {
    && f.controlPlane.hasIpv4 && f.controlPlane.id <= I64_MAX
    && f.controlPlane.id in v.cloud.live && v.cloud.live[f.controlPlane.id] == ControlPlaneName(w.row.name)
    && ViewsOf(f.workers, ids)
    && (forall j :: 0 <= j < |ids| ==>
          ids[j] in v.cloud.live && v.cloud.live[ids[j]] == WorkerName(w.row.name, j) && ids[j] <= I64_MAX)
    && (w.cloud.monotone ==> forall i, j :: 0 <= i < j < |ids| ==> ids[i] < ids[j])
  }

  lemma ProvisionClusterNames(w: World, n: nat)
    requires CloudOk(w.cloud)
    ensures var fleet := ProvisionCluster(w, n);
            && Same(w.(cloud := fleet.w.cloud), fleet.w) && fleet.w.cloud.monotone == w.cloud.monotone
            && (fleet.value.Some? ==>
                  && |fleet.value.value.workers| == n
                  && exists ids :: Provisioned(w, fleet.w, fleet.value.value, ids))
  {
    ProvisionClusterMakes(w, n);
    AddControlPlaneMakes(w);
    var cp := AddControlPlane(w);
    if cp.value.Some? {
      AddWorkersMake(cp.w, 0, n);
      var added := AddWorkers(cp.w, 0, n);
      if added.value.Some? {
        var ids :| ViewsOf(added.value.value, ids) && Made(cp.w, added.w, 0, ids);
        ProvisionedFrom(w, cp.w, added.w, cp.value.value, added.value.value, ids);
        var fleet := ProvisionCluster(w, n);
        if fleet.value.Some? {
          assert Provisioned(w, fleet.w, fleet.value.value, ids);
        }
      }
    }
  }

  lemma ProvisionedFrom(w: World, u: World, v: World, cp: View, views: seq<View>, ids: seq<ServerId>)
    requires Grew(w, u) && cp.hasIpv4 && cp.id in u.cloud.issued
    requires u.cloud.live == w.cloud.live[cp.id := ControlPlaneName(w.row.name)]
    requires ViewsOf(views, ids) && Made(u, v, 0, ids)
    ensures Provisioned(w, v, Fleet(cp, views), ids)
  {
    assert forall j :: 0 <= j < |ids| ==> ids[j] in v.cloud.issued;
  }

  lemma ProvisionedLists(v: World, f: Fleet)
    requires v.servers == [RowOf(f.controlPlane, ControlPlane)] + RowsOf(f.workers, Worker)
    ensures Workers(v) == RowsOf(f.workers, Worker)
    ensures Pick(v.servers, ControlPlane) == [RowOf(f.controlPlane, ControlPlane)]
  {
    var one, cp, more := [f.controlPlane], [RowOf(f.controlPlane, ControlPlane)], RowsOf(f.workers, Worker);
    assert RowsOf(one, ControlPlane) == cp;
    PickOfViews(one, ControlPlane, ControlPlane);
    PickOfViews(one, ControlPlane, Worker);
    PickOfViews(f.workers, Worker, ControlPlane);
    PickOfViews(f.workers, Worker, Worker);
    PickAppend(cp, more, ControlPlane);
    PickAppend(cp, more, Worker);
  }

  /** Recorded as a whole, the new fleet carries the names its rows stand for. */
  lemma ProvisionedIsNamed(w: World, v: World, f: Fleet, ids: seq<ServerId>)
    requires w.cloud.monotone && Provisioned(w, v, f, ids) && v.row.name == w.row.name
    requires v.servers == [RowOf(f.controlPlane, ControlPlane)] + RowsOf(f.workers, Worker)
    ensures Named(v) && |Workers(v)| == |f.workers|
  {
    ProvisionedLists(v, f);
    RowsCarryIds(f.workers, ids);
    var ws := Workers(v);
    forall i | 0 <= i < |ws|
      ensures ws[i].serverId in v.cloud.live && v.cloud.live[ws[i].serverId] == WorkerName(v.row.name, i)
    {
      assert ws[i].serverId == ids[i];
    }
  }

  /** The last steps of provisioning leave the recorded fleet alone. */
  lemma SealKeeps(u: World)
    ensures var v := SealProvision(u).w;
            && v.servers == u.servers && v.cloud == u.cloud && v.swallowed == u.swallowed && v.stalled == u.stalled
            && v.row == u.row.(status := v.row.status, kubeconfig := v.row.kubeconfig)
  {
    StoreFrame(u);
    var stored := StoreKubeconfig(u);
    if stored.ok {
      var ready := UpdateStatus(stored.w, Ready);
      assert ready.w == stored.w.(faults := ready.w.faults, row := stored.w.row.(status := ready.w.row.status));
    }
  }

  /** Both recording steps done, the table holds the fleet. */
  lemma RecordsFleet(u: World, f: Fleet)
    requires Recordable(u.servers, AllViews(f)) && u.servers == []
    ensures var cp := RecordServer(u, f.controlPlane, ControlPlane);
            && cp.w == u.(faults := cp.w.faults, servers := cp.w.servers)
            && (cp.ok ==>
                  var rest := RecordServers(cp.w, f.workers, Worker);
                  && rest.w == u.(faults := rest.w.faults, servers := rest.w.servers)
                  && (rest.ok ==> rest.w.servers == [RowOf(f.controlPlane, ControlPlane)] + RowsOf(f.workers, Worker)))
  {
    var views := AllViews(f);
    assert views[0] == f.controlPlane && views[1..] == f.workers;
    RecordServerAppends(u, f.controlPlane, ControlPlane);
    assert [] + [RowOf(f.controlPlane, ControlPlane)] == [RowOf(f.controlPlane, ControlPlane)];
    var cp := RecordServer(u, f.controlPlane, ControlPlane);
    if cp.ok {
      RecordableRest(u.servers, views, ControlPlane);
      RecordsAll(cp.w, f.workers);
    }
  }

  lemma RecordsAll(u: World, views: seq<View>)
    requires Recordable(u.servers, views)
    ensures var rest := RecordServers(u, views, Worker);
            && rest.w == u.(faults := rest.w.faults, servers := rest.w.servers)
            && (rest.ok ==> rest.w.servers == u.servers + RowsOf(views, Worker))
  {
    var k := RecordServersAppend(u, views, Worker);
    if RecordServers(u, views, Worker).ok {
      assert views[..k] == views;
    }
  }

  lemma FinishNames(b: map<ServerId, Host>, w: World, u: World, f: Fleet)
    requires Fits(b, w, u, AllViews(f)) && !u.row.status.Ready? && u.servers == []
    ensures var v := FinishProvision(u, f).w;
            && v.cloud == u.cloud && v.swallowed == u.swallowed && v.stalled == u.stalled
            && v.row == u.row.(status := v.row.status, kubeconfig := v.row.kubeconfig)
            && (v.row.status.Ready? ==> v.servers == [RowOf(f.controlPlane, ControlPlane)] + RowsOf(f.workers, Worker))
  {
    RecordsFleet(u, f);
    var cp := RecordServer(u, f.controlPlane, ControlPlane);
    if cp.ok && RecordServers(cp.w, f.workers, Worker).ok {
      SealKeeps(RecordServers(cp.w, f.workers, Worker).w);
    }
  }

  lemma ProvisionFinishes(w: World, u: World, f: Fleet)
    requires Fits(w.cloud.live, w, u, AllViews(f)) && u.servers == [] && w.row.workerCount >= 0
    requires u.row == w.row.(status := Provisioning) && |f.workers| == w.row.workerCount
    requires exists ids :: Provisioned(w, u, f, ids)
    ensures var v := FinishProvision(u, f).w;
            && v.swallowed == u.swallowed && v.stalled == u.stalled && v.cloud == u.cloud
            && v.row == w.row.(status := v.row.status, kubeconfig := v.row.kubeconfig)
            && (v.row.status.Ready? ==> |Workers(v)| == w.row.workerCount)
            && (v.row.status.Ready? && w.cloud.monotone ==> Agree(v))
  {
    FinishNames(w.cloud.live, w, u, f);
    var v := FinishProvision(u, f).w;
    if v.row.status.Ready? { ProvisionedLists(v, f); }
    var ids :| Provisioned(w, u, f, ids);
    if v.row.status.Ready? && w.cloud.monotone {
      assert Provisioned(w, v, f, ids);
      ProvisionedIsNamed(w, v, f, ids);
    }
  }

  /** The workflow between the status write and the recording. */
  lemma ProvisionMiddle(w: World, u: World)
    requires Fresh(w) && u == w.(faults := u.faults, row := w.row.(status := Provisioning))
    ensures var fleet := ProvisionCluster(u, w.row.workerCount);
            && fleet.w.row == u.row && fleet.w.swallowed == {} && !fleet.w.stalled
            && fleet.w.cloud.monotone == w.cloud.monotone && fleet.w.servers == []
            && (fleet.value.Some? ==>
                  && |fleet.value.value.workers| == w.row.workerCount
                  && Fits(w.cloud.live, w, fleet.w, AllViews(fleet.value.value))
                  && exists ids :: Provisioned(w, fleet.w, fleet.value.value, ids))
  {
    hide ProvisionCluster, Fits;
    var n := w.row.workerCount;
    FreshInv(w);
    ProvisionClusterMakes(u, n);
    ProvisionClusterNames(u, n);
    var fleet := ProvisionCluster(u, n);
    if fleet.value.Some? {
      FitsAll(w.cloud.live, w, fleet.w, fleet.value.value);
      var ids :| Provisioned(u, fleet.w, fleet.value.value, ids);
      assert Provisioned(w, fleet.w, fleet.value.value, ids);
    }
  }

  lemma ProvisionEndsNamed(w: World)
    requires Fresh(w)
    ensures var v := RunProvision(w).w;
            && v.swallowed == {} && !v.stalled
            && v.row == w.row.(status := v.row.status, kubeconfig := v.row.kubeconfig)
            && v.cloud.monotone == w.cloud.monotone
            && (v.row.status.Ready? ==> |Workers(v)| == w.row.workerCount)
            && (v.row.status.Ready? && w.cloud.monotone ==> Agree(v))
  {
    var begun := UpdateStatus(w, Provisioning);
    var shadow := Attempt(begun.w);
    if begun.ok && shadow.ok {
      ProvisionMiddle(w, shadow.w);
      var fleet := ProvisionCluster(shadow.w, w.row.workerCount);
      if fleet.value.Some? {
        ProvisionFinishes(w, fleet.w, fleet.value.value);
      }
    }
  }

  // ---------------------------------------------------------------------- one request

  /** A request may change the count only to a value between 1 and 10. */
  lemma ScaleCount(b: map<ServerId, Host>, w: World, delta: int)
    requires Inv(b, w)
    ensures var v := ScaleWorkers(w, delta).w;
            && Later(w, v) && (v.row.status.Ready? ==> w.row.status.Ready?)
            && (v.row.workerCount == w.row.workerCount || MIN_WORKER_COUNT <= v.row.workerCount <= MAX_WORKER_COUNT)
  {
    hide RunScaleOut, RunScaleIn;
    var credential := Attempt(GetCluster(w).w);
    var counted := UpdateWorkerCount(credential.w, SaturatingAdd(w.row.workerCount, delta));
    assert Later(w, counted.w) && Inv(b, counted.w) by {
      AccountsRefl(b, w);
      AccountsFrame(b, w, w, counted.w);
    }
    if counted.w.row.status.Ready? {
      if delta > 0 { ScaleOutEndsNamed(b, counted.w, delta); } else { ScaleInLater(counted.w, -delta); }
    }
  }

  /** A Ready cluster is in agreement exactly when nothing was swallowed and nothing stalled. */
  ghost predicate AgreesExactly(v: World) {
    v.row.status.Ready? ==> (Agree(v) <==> v.swallowed == {} && !v.stalled)
  }

  /** Where a scale request from an agreeing Ready state ends, if it ends Ready. */
  lemma ScaleKeepsAgreement(b: map<ServerId, Host>, w: World, delta: int)
    requires Inv(b, w) && w.cloud.monotone && w.row.status.Ready? && Agree(w) && w.swallowed == {} && !w.stalled
    ensures AgreesExactly(ScaleWorkers(w, delta).w)
  {
    hide RunScaleOut, RunScaleIn;
    var v := ScaleWorkers(w, delta).w;
    var got := GetCluster(w);
    var credential := Attempt(got.w);
    var count := SaturatingAdd(w.row.workerCount, delta);
    var counted := UpdateWorkerCount(credential.w, count);
    if v == got.w || v == credential.w {
      AgreeSame(w, v);
    } else if !counted.ok {
      AgreeFrame(w, v);
    } else {
      assert Inv(b, counted.w) by {
        AccountsRefl(b, w);
        AccountsFrame(b, w, w, counted.w);
      }
      assert Counted(b, w, counted.w, delta);
      if delta > 0 {
        ScaleOutAgreement(b, w, counted.w, delta);
      } else {
        ScaleInAgreement(b, w, counted.w, -delta);
      }
    }
  }

  lemma AgreeSame(w: World, v: World)
    requires v == w.(faults := v.faults)
    ensures Agree(v) == Agree(w)
  {
  }

  /** Same fleet: they agree exactly when the count did not move. */
  lemma AgreeFrame(w: World, v: World)
    requires Agree(w) && v.cloud == w.cloud && v.servers == w.servers && v.row.name == w.row.name
    ensures Agree(v) <==> v.row.workerCount == w.row.workerCount
  {
  }

  /** The state handed to the run: the fleet of `w` with the count already changed. */
  ghost predicate Counted(b: map<ServerId, Host>, w: World, u: World, delta: int) {
    && Inv(b, u) && u.cloud.monotone && u.row.status.Ready? && Named(u) && u.swallowed == {} && !u.stalled
    && Agree(w) && u.cloud == w.cloud && u.servers == w.servers && delta != 0
    && u.row == w.row.(workerCount := w.row.workerCount + delta) && u.row.workerCount >= 1
  }

  lemma WidenedAgreement(b: map<ServerId, Host>, w: World, u: World, v: World, delta: int)
    requires Counted(b, w, u, delta) && delta > 0 && ScaleOutOutcome(u, v, delta)
    ensures AgreesExactly(v)
  {
    if !v.row.status.Ready? {
    } else if v.stalled {
      AgreeFrame(w, v);
    } else {
      var views, ids :| |views| == delta && Widened(u, v, views, ids);
      WidenedIsNamed(b, u, v, views, ids);
    }
  }

  lemma NarrowedAgreement(b: map<ServerId, Host>, w: World, u: World, v: World, count: nat)
    requires Counted(b, w, u, 0 - count) && ScaleInOutcome(u, v, count)
    ensures AgreesExactly(v)
  {
    if v.row.status.Ready? && v.stalled {
      AgreeFrame(w, v);
    }
  }

  lemma ScaleOutAgreement(b: map<ServerId, Host>, w: World, u: World, delta: int)
    requires Counted(b, w, u, delta) && delta > 0
    ensures AgreesExactly(RunScaleOut(u, delta).w)
  {
    hide RunScaleOut;
    ScaleOutEndsNamed(b, u, delta);
    WidenedAgreement(b, w, u, RunScaleOut(u, delta).w, delta);
  }

  lemma ScaleInAgreement(b: map<ServerId, Host>, w: World, u: World, count: nat)
    requires Counted(b, w, u, 0 - count)
    ensures AgreesExactly(RunScaleIn(u, count).w)
  {
    hide RunScaleIn;
    ScaleInEndsNamed(b, u, count);
    NarrowedAgreement(b, w, u, RunScaleIn(u, count).w, count);
  }

  /** A destroy changes neither history nor a fleet that stays Ready. */
  lemma DestroyLater(w: World)
    ensures var v := DestroyRequest(w).w;
            && v.swallowed == w.swallowed && v.stalled == w.stalled && Later(w, v)
            && v.row.workerCount == w.row.workerCount
            && (v.row.status.Ready? ==> v == w.(faults := v.faults))
  {
    hide DestroyCluster, FinalizeDestroy, SoftDeleteServers, MarkFailed;
    DestroyShrinks(w);
    var credential := Attempt(GetCluster(w).w);
    var begun := BeginDestroy(credential.w);
    var listed := Attempt(begun.w);
    if begun.ok && listed.ok {
      DestroyBodyLater(listed.w);
    }
  }

  lemma DestroyWorkflowLater(w: World, ids: seq<ServerId>)
    ensures var gone := DestroyCluster(w, ids);
            gone.w.swallowed == w.swallowed && gone.w.stalled == w.stalled && gone.w.row == w.row
  {
    var k, tried := DeleteServersPrefix(Publish(w, Step(DestroyingServers)), ids);
  }

  lemma DestroyTailLater(w: World)
    requires w.row.status.Destroying?
    ensures Quiet(w, MarkFailed(w)) && Quiet(w, SoftDeleteServers(w).w)
    ensures Quiet(w, FinalizeDestroy(SoftDeleteServers(w).w).w)
  {
    FinalizeFrame(SoftDeleteServers(w).w);
    FinalizeNeverReady(SoftDeleteServers(w).w);
  }

  lemma FinalizeNeverReady(w: World)
    requires w.row.status.Destroying?
    ensures !FinalizeDestroy(w).w.row.status.Ready?
  {
  }

  lemma DestroyBodyLater(w: World)
    requires w.row.status.Destroying?
    ensures var gone := DestroyCluster(w, DoomedIds(ListServers(w)));
            var forgotten := SoftDeleteServers(gone.w);
            var finalized := FinalizeDestroy(forgotten.w);
            && Quiet(w, MarkFailed(gone.w)) && Quiet(w, forgotten.w) && Quiet(w, finalized.w)
  {
    DestroyWorkflowLater(w, DoomedIds(ListServers(w)));
    DestroyTailLater(DestroyCluster(w, DoomedIds(ListServers(w))).w);
  }

  predicate Quiet(w: World, v: World) {
    v.swallowed == w.swallowed && v.stalled == w.stalled && !v.row.status.Ready?
  }

  // --------------------------------------------------------------------- whole lives

  /**
    In every reachable Ready state the names and the count agree with the
    recorded fleet of 1 to 10 workers, unless a soft-delete was swallowed or a
    request stalled.
   */
  lemma {:induction false} NamesAndCountAgree(w: World, requests: seq<Request>)
    requires Fresh(w) && w.cloud.monotone
    ensures var v := Life(w, requests);
            && v.cloud.monotone
            && (v.row.status.Ready? && v.swallowed == {} && !v.stalled ==>
                  Agree(v) && MIN_WORKER_COUNT <= |Workers(v)| <= MAX_WORKER_COUNT)
    decreases |requests|
  {
    var b := w.cloud.live;
    CountStaysInBounds(w, requests);
    if requests == [] {
      ProvisionEndsNamed(w);
    } else {
      var before, last := requests[..|requests| - 1], requests[|requests| - 1];
      NamesAndCountAgree(w, before);
      NoServerIsLostSilently(w, before);
      var u := Life(w, before);
      match last {
        case Scale(delta) =>
          ScaleCount(b, u, delta);
          if u.row.status.Ready? && u.swallowed == {} && !u.stalled {
            ScaleKeepsAgreement(b, u, delta);
          }
        case Destroy =>
          DestroyLater(u);
          var v := DestroyRequest(u).w;
          if v.row.status.Ready? { AgreeSame(u, v); }
      }
    }
  }

  /**
    So in every such state a scale-in drains exactly the nodes whose servers it
    deletes, the youngest, and a scale-out picks no name that is in use.
   */
  lemma ScalingIsRightInEveryLife(w: World, requests: seq<Request>, count: nat)
    requires Fresh(w) && w.cloud.monotone
    requires var v := Life(w, requests); v.row.status.Ready? && v.swallowed == {} && !v.stalled
    ensures var v := Life(w, requests);
            var ws := Workers(v);
            var targets := TargetsOf(v.row.name, ws, Youngest(ws, count));
            && |targets| == Min(count, |ws|)
            && (forall i :: 0 <= i < |targets| ==>
                  && targets[i].id in v.cloud.live && v.cloud.live[targets[i].id] == targets[i].node
                  && targets[i].node == WorkerName(v.row.name, |ws| - 1 - i))
            && (forall i, k :: i in v.cloud.live && i !in w.cloud.live && |ws| <= k ==>
                  v.cloud.live[i] != WorkerName(v.row.name, k))
  {
    hide Life, Youngest, TargetsOf, Pick, GrowthSucceeded, LostOver;
    NamesAndCountAgree(w, requests);
    NoServerIsLostSilently(w, requests);
    var v := Life(w, requests);
    TargetsMatchHostnames(v, count);
    forall i, k | i in v.cloud.live && i !in w.cloud.live && |Workers(v)| <= k
      ensures v.cloud.live[i] != WorkerName(v.row.name, k)
    {
      NextIndexIsFree(w.cloud.live, v, i, k);
    }
  }

  /** The count stays between 1 and 10 over every life. */
  lemma {:induction false} CountStaysInBounds(w: World, requests: seq<Request>)
    requires Fresh(w)
    ensures MIN_WORKER_COUNT <= Life(w, requests).row.workerCount <= MAX_WORKER_COUNT
    decreases |requests|
  {
    if requests == [] {
      ProvisionEndsNamed(w);
    } else {
      var before, last := requests[..|requests| - 1], requests[|requests| - 1];
      CountStaysInBounds(w, before);
      NoServerIsLostSilently(w, before);
      var u := Life(w, before);
      match last {
        case Scale(delta) => ScaleCount(w.cloud.live, u, delta);
        case Destroy => DestroyLater(u);
      }
    }
  }

  // --------------------------------------------------------------- when they part ways

  /** The count is written, the status is not: the run ends before it begins. */
  lemma RefusedAnnouncement(w: World, delta: int)
    requires w.row.status.Ready? && delta != 0
    requires w.faults == [Fault(Refused, 0, Running(true))]
    ensures var v := if delta > 0 then RunScaleOut(w, delta).w else RunScaleIn(w, -delta).w;
            v == w.(faults := [], stalled := true)
  {
  }

  /** From any agreeing Ready cluster some failure leaves it Ready with a wrong count. */
  lemma ScaleCanStall(w: World, delta: int)
    requires !w.row.deleted && w.row.status.Ready? && Agree(w) && delta != 0
    requires MIN_WORKER_COUNT <= w.row.workerCount + delta <= MAX_WORKER_COUNT
    ensures exists faults ::
              ScaleWorkers(w.(faults := faults), delta).w
              == w.(faults := [], stalled := true, row := w.row.(workerCount := |Workers(w)| + delta))
  {
    hide RunScaleIn, RunScaleOut, Named, ScaleWorkers;
    var ok, no := Fault(Clean, 0, Running(true)), Fault(Refused, 0, Running(true));
    var u := w.(faults := [ok, ok, ok, no]);
    var counted := w.(faults := [no], row := w.row.(workerCount := w.row.workerCount + delta));
    ThreeCleanCalls(w, delta, ok, no);
    HandsOver(u, delta, w.(faults := [ok, ok, no]), w.(faults := [ok, no]), counted);
    RefusedAnnouncement(counted, delta);
    assert ScaleWorkers(u, delta).w == counted.(faults := [], stalled := true);
  }

  lemma ThreeCleanCalls(w: World, delta: int, ok: Fault, no: Fault)
    requires !w.row.deleted && ok.reply.Clean?
    ensures GetCluster(w.(faults := [ok, ok, ok, no])) == Out(true, w.(faults := [ok, ok, no]))
    ensures Attempt(w.(faults := [ok, ok, no])) == Out(true, w.(faults := [ok, no]))
    ensures UpdateWorkerCount(w.(faults := [ok, no]), w.row.workerCount + delta)
              == Out(true, w.(faults := [no], row := w.row.(workerCount := w.row.workerCount + delta)))
  {
    assert [ok, ok, ok, no][1..] == [ok, ok, no] && [ok, ok, no][1..] == [ok, no] && [ok, no][1..] == [no];
  }

  /** A scale request whose first three calls succeed is its run. */
  lemma HandsOver(w: World, delta: int, got: World, credential: World, counted: World)
    requires w.row.status.Ready? && got.row == w.row && delta != 0
    requires MIN_WORKER_COUNT <= w.row.workerCount + delta <= MAX_WORKER_COUNT
    requires GetCluster(w) == Out(true, got) && Attempt(got) == Out(true, credential)
    requires UpdateWorkerCount(credential, w.row.workerCount + delta) == Out(true, counted)
    ensures ScaleWorkers(w, delta) == if delta > 0 then RunScaleOut(counted, delta) else RunScaleIn(counted, -delta)
  {
    hide RunScaleIn, RunScaleOut, GetCluster, Attempt, UpdateWorkerCount;
  }

  lemma CleanScaleInRun(w: World, count: nat)
    requires w.faults == [] && w.row.status.Ready? && !w.row.deleted && w.row.kubeconfig.Some?
    ensures RunScaleIn(w, count).ok && RunScaleIn(w, count).w.row.status.Ready?
    ensures RunScaleIn(w, count).w.swallowed == w.swallowed
  {
    var staged := w.(row := w.row.(status := Scaling));
    var doomed := Youngest(Workers(w), count);
    var targets := TargetsOf(w.row.name, Workers(w), doomed);
    CleanScaleIn(staged, targets);
    CleanScaleInFaults(staged, targets);
    var gone := ScaleInRemovesPrefix(staged, targets);
    CleanForget(ScaleIn(staged, targets).w, doomed);
  }

  lemma CleanScaleInFaults(w: World, targets: seq<Target>)
    requires w.faults == []
    ensures ScaleIn(w, targets).w.faults == []
  {
    var w1 := Publish(w, Step(DrainingNodes));
    CleanDrain(w1, NodesOf(targets));
    var w2 := Publish(DrainNodes(w1, NodesOf(targets)).w, Step(DeletingNodes));
    CleanRemove(w2, NodesOf(targets));
    CleanDelete(Publish(RemoveNodes(w2, NodesOf(targets)).w, Step(DestroyingServers)), IdsOf(targets));
  }

  lemma {:induction false} CleanForget(w: World, rows: seq<ServerRow>)
    requires w.faults == []
    ensures var v := ForgetServers(w, rows);
            v.faults == [] && v.swallowed == w.swallowed && v.row == w.row
    decreases |rows|
  {
    if rows != [] { CleanForget(ForgetServer(w, rows[0].serverId), rows[1..]); }
  }

  lemma CleanScaleRequest(w: World, delta: int)
    requires w.faults == [] && w.row.status.Ready? && !w.row.deleted && delta < 0
    requires MIN_WORKER_COUNT <= w.row.workerCount + delta <= MAX_WORKER_COUNT
    ensures ScaleWorkers(w, delta) == RunScaleIn(w.(row := w.row.(workerCount := w.row.workerCount + delta)), -delta)
  {
    hide RunScaleIn, RunScaleOut;
  }

  lemma NarrowedToNothing(u: World, v: World, count: nat)
    requires ScaleInOutcome(u, v, count) && v.row.status.Ready? && count >= |Workers(u)|
    requires v.swallowed == {} && !v.stalled
    ensures Workers(v) == [] && v.row.workerCount == u.row.workerCount
  {
  }

  predicate Emptied(r: Out, count: int) {
    r.ok && r.w.row.status.Ready? && r.w.row.workerCount == count && Workers(r.w) == []
  }

  lemma CleanScaleInOfAll(b: map<ServerId, Host>, u: World, count: nat)
    requires Inv(b, u) && u.row.status.Ready? && u.row.kubeconfig.Some? && Named(u)
    requires u.faults == [] && u.swallowed == {} && !u.stalled && count >= |Workers(u)|
    ensures var r := RunScaleIn(u, count);
            Emptied(r, u.row.workerCount)
  {
    hide RunScaleIn;
    CleanScaleInRun(u, count);
    CleanScaleInStalls(u, count);
    ScaleInEndsNamed(b, u, count);
    NarrowedToNothing(u, RunScaleIn(u, count).w, count);
  }

  /**
    A count that is too high by `extra` lets a scale-in, with nothing failing,
    delete every worker while the count it leaves is the permitted minimum.
   */
  lemma WrongCountEmptiesTheFleet(b: map<ServerId, Host>, w: World, extra: nat)
    requires Inv(b, w) && w.row.status.Ready? && w.row.kubeconfig.Some? && Named(w)
    requires w.faults == [] && w.swallowed == {} && extra > 0 && |Workers(w)| > 0 && !w.stalled
    requires w.row.workerCount == |Workers(w)| + extra
    ensures var r := ScaleWorkers(w, 1 - w.row.workerCount);
            Emptied(r, 1)
  {
    hide RunScaleIn, ScaleWorkers;
    var u := w.(row := w.row.(workerCount := 1));
    RecountKeeps(b, w, u);
    CleanScaleRequest(w, 1 - w.row.workerCount);
    CleanScaleInOfAll(b, u, w.row.workerCount - 1);
  }

  lemma RecountKeeps(b: map<ServerId, Host>, w: World, u: World)
    requires Inv(b, w) && Named(w) && u == w.(row := w.row.(workerCount := u.row.workerCount))
    ensures Inv(b, u) && Named(u) && Workers(u) == Workers(w)
  {
    AccountsRefl(b, w);
    AccountsFrame(b, w, w, u);
  }

  lemma CleanScaleInStalls(w: World, count: nat)
    requires w.faults == [] && w.row.status.Ready?
    ensures RunScaleIn(w, count).w.stalled == w.stalled
  {
    var begun := BeginScaling(w);
    var listed := Attempt(begun.w);
    var staged := Attempt(Attempt(GetCluster(listed.w).w).w);
    var doomed := Youngest(Workers(listed.w), count);
    RemoveAndForgetFrame(staged.w, TargetsOf(w.row.name, Workers(listed.w), doomed), doomed);
  }
}
