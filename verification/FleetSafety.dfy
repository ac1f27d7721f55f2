/**
  No server is lost silently: over every life of a cluster, with any step
  failing, the servers that run unrecorded are exactly those some failed
  provision or scale-out made and did not record; a Ready cluster has none; and
  a successful destroy gives the provider back as it was, up to those.
 */
module FleetSafety {
  import opened Environment
  import opened Numerals
  import opened FleetModel
  import opened FleetRuns
  import opened FleetInvariant
  import opened FleetTeardown

  /** Servers made between `w` and `v` that have no live row in `v`. */
  ghost function Lost(w: World, v: World): set<ServerId> {
    set i | i in v.cloud.live && i !in w.cloud.issued && i !in RowIds(v.servers)
  }

  /** The account of one call: what was orphaned stays so, and what it lost is added. */
  ghost predicate Accounts(b: map<ServerId, Host>, w: World, v: World) {
    && Inv(b, v)
    && Orphans(b, v) == Orphans(b, w) + Lost(w, v)
    && (forall i :: i in w.cloud.issued ==> i in v.cloud.issued)
  }

  // ------------------------------------------------------------------- single steps

  lemma InvSame(b: map<ServerId, Host>, w: World, v: World)
    requires Inv(b, w) && Same(w, v)
    ensures Inv(b, v) && Orphans(b, v) == Orphans(b, w)
  {
  }

  lemma AccountsSame(b: map<ServerId, Host>, w: World, u: World, v: World)
    requires Accounts(b, w, u) && Same(u, v)
    ensures Accounts(b, w, v)
  {
    InvSame(b, u, v);
  }

  predicate StatusAllowed(w: World, s: Status) {
    && (w.row.deleted ==> s.Destroying? || s.Destroyed?)
    && (s.Destroyed? ==> w.row.deleted)
    && !s.Ready?
  }

  lemma AccountsStatus(b: map<ServerId, Host>, w: World, u: World, s: Status)
    requires Accounts(b, w, u)
    requires StatusAllowed(u, s) || (s.Ready? && !u.row.deleted && Orphans(b, u) == {})
    ensures Accounts(b, w, UpdateStatus(u, s).w)
    ensures UpdateStatus(u, s).ok ==> UpdateStatus(u, s).w.row.status == s
  {
    var v := UpdateStatus(u, s).w;
    assert v.servers == u.servers && v.cloud == u.cloud;
    assert Orphans(b, v) == Orphans(b, u);
  }

  lemma AccountsRefl(b: map<ServerId, Host>, w: World)
    requires Inv(b, w)
    ensures Accounts(b, w, w)
  {
  }

  /** Creating servers makes orphans, for the time being. */
  lemma AccountsGrew(b: map<ServerId, Host>, w: World, u: World, v: World)
    requires Accounts(b, w, u) && Grew(u, v) && !u.row.status.Ready? && u.cloud.issued == w.cloud.issued
    requires u.servers == w.servers
    ensures Accounts(b, w, v)
  {
    assert forall r :: r in u.servers && r.deleted ==> r.serverId in u.cloud.issued;
    assert v.servers == u.servers;
    assert Orphans(b, v) == Orphans(b, w) + Lost(w, v);
  }

  /** Rows for servers made since `w`. */
  ghost predicate Fits(b: map<ServerId, Host>, w: World, u: World, views: seq<View>) {
    && Recordable(u.servers, views)
    && (forall i :: 0 <= i < |views| ==> views[i].id in u.cloud.live && views[i].id !in w.cloud.issued)
    && (forall r, i :: r in u.servers && 0 <= i < |views| ==> r.serverId != views[i].id)
  }

  predicate Listed(views: seq<View>, id: ServerId) {
    exists i :: 0 <= i < |views| && views[i].id == id
  }

  lemma RowIdsOfViews(views: seq<View>, role: Role, id: ServerId)
    requires forall i :: 0 <= i < |views| ==> views[i].id <= I64_MAX
    ensures id in RowIds(RowsOf(views, role)) <==> Listed(views, id)
  {
    var more := RowsOf(views, role);
    if id in RowIds(more) {
      var r :| r in more && r.serverId == id;
      var i :| 0 <= i < |more| && more[i] == r;
      assert views[i].id == id;
    }
    if Listed(views, id) {
      var i :| 0 <= i < |views| && views[i].id == id;
      assert more[i] in more;
    }
  }

  lemma RowsOkAppend(b: map<ServerId, Host>, w: World, u: World, views: seq<View>, role: Role, v: World)
    requires RowsOk(b, u) && CloudOk(u.cloud) && Fits(b, w, u, views) && (forall i :: i in b ==> i in w.cloud.issued)
    requires v == u.(faults := v.faults, servers := u.servers + RowsOf(views, role))
    ensures RowsOk(b, v)
  {
    var more := RowsOf(views, role);
    forall r | r in v.servers
      ensures r.serverId in v.cloud.issued && r.serverId !in b && (r.deleted ==> r.serverId !in v.cloud.live)
    {
      if r !in u.servers {
        var i :| 0 <= i < |more| && more[i] == r;
        assert r.serverId == views[i].id;
      }
    }
    forall i, j | 0 <= i < j < |v.servers|
      ensures v.servers[i].serverId != v.servers[j].serverId
    {
      var n := |u.servers|;
      if j >= n {
        assert v.servers[j].serverId == views[j - n].id;
        if i >= n {
          assert v.servers[i].serverId == views[i - n].id;
        } else {
          assert v.servers[i] == u.servers[i] && u.servers[i] in u.servers;
        }
      } else {
        assert v.servers[i] == u.servers[i] && v.servers[j] == u.servers[j];
      }
    }
  }

  lemma AccountsRows(b: map<ServerId, Host>, w: World, u: World, views: seq<View>, role: Role, v: World)
    requires Inv(b, w) && Accounts(b, w, u) && !u.row.deleted && !u.row.status.Ready?
    requires Fits(b, w, u, views)
    requires v == u.(faults := v.faults, servers := u.servers + RowsOf(views, role))
    ensures Accounts(b, w, v)
    ensures forall i :: i in Lost(w, v) <==> i in Lost(w, u) && !Listed(views, i)
    ensures v.row == u.row && v.cloud == u.cloud
  {
    RowsOkAppend(b, w, u, views, role, v);
    RowIdsAppend(u.servers, RowsOf(views, role));
    forall i: ServerId ensures i in RowIds(v.servers) <==> i in RowIds(u.servers) || Listed(views, i) {
      RowIdsOfViews(views, role, i);
    }
    assert Orphans(b, v) == Orphans(b, w) + Lost(w, v);
  }

  // ------------------------------------------------------------------- provisioning

  /** `f` lists exactly the servers made since `w`, each once. */
  ghost predicate FleetMade(w: World, v: World, f: Fleet) {
    && Grew(w, v)
    && f.controlPlane.id in v.cloud.live && f.controlPlane.id !in w.cloud.issued
    && (forall i :: 0 <= i < |f.workers| ==>
          && f.workers[i].id in v.cloud.live && f.workers[i].id !in w.cloud.issued
          && f.workers[i].id != f.controlPlane.id)
    && (forall i, j :: 0 <= i < j < |f.workers| ==> f.workers[i].id != f.workers[j].id)
    && (forall i :: i in v.cloud.live ==> i in w.cloud.live || i == f.controlPlane.id || Listed(f.workers, i))
  }

  lemma FleetMadeFrom(w: World, u: World, v: World, cp: View, views: seq<View>, ids: seq<ServerId>)
    requires Grew(w, u) && cp.id !in w.cloud.issued && cp.id in u.cloud.issued
    requires u.cloud.live == w.cloud.live[cp.id := ControlPlaneName(w.row.name)]
    requires ViewsOf(views, ids) && Made(u, v, 0, ids)
    ensures FleetMade(w, v, Fleet(cp, views))
  {
    GrewTrans(w, u, v);
    forall i | i in ids ensures Listed(views, i) {
      var j :| 0 <= j < |ids| && ids[j] == i;
      assert views[j].id == i;
    }
    assert forall i :: 0 <= i < |views| ==> views[i].id == ids[i];
  }

  lemma FleetMadeSame(w: World, u: World, v: World, f: Fleet)
    requires FleetMade(w, u, f) && Same(u, v)
    ensures FleetMade(w, v, f)
  {
  }

  lemma ProvisionClusterMakes(w: World, n: nat)
    requires CloudOk(w.cloud)
    ensures var fleet := ProvisionCluster(w, n);
            Grew(w, fleet.w) && (fleet.value.Some? ==> FleetMade(w, fleet.w, fleet.value.value))
  {
    hide AddControlPlane, AddWorkers, FleetMade, Made;
    AddControlPlaneMakes(w);
    var cp := AddControlPlane(w);
    if cp.value.Some? {
      AddWorkersMake(cp.w, 0, n);
      var added := AddWorkers(cp.w, 0, n);
      GrewTrans(w, cp.w, added.w);
      if added.value.Some? {
        var ids :| ViewsOf(added.value.value, ids) && Made(cp.w, added.w, 0, ids);
        FleetMadeFrom(w, cp.w, added.w, cp.value.value, added.value.value, ids);
        FleetMadeSame(w, added.w, ProvisionCluster(w, n).w, Fleet(cp.value.value, added.value.value));
      }
      GrewSame(w, added.w, ProvisionCluster(w, n).w);
    }
  }

  lemma SetSecretFrame(u: World, secret: nat)
    ensures var r := SetKubeconfigSecret(u, secret);
            && r.w == u.(faults := r.w.faults, row := u.row.(kubeconfig := r.w.row.kubeconfig))
            && (r.w.row.kubeconfig == u.row.kubeconfig || r.w.row.kubeconfig == Some(secret))
            && (r.ok ==> r.w.row.kubeconfig.Some?)
  {
  }

  lemma DeleteSecretFrame(u: World, secret: nat)
    ensures var r := DeleteSecret(u, secret);
            && r.w == u.(faults := r.w.faults, secrets := r.w.secrets)
            && r.w.secrets <= u.secrets && (SecretsOk(u) ==> SecretsOk(r.w))
  {
  }

  /** Storing the kubeconfig touches nothing but the secret and the handle. */
  lemma StoreFrame(u: World)
    ensures var r := StoreKubeconfig(u);
            && r.w == u.(faults := r.w.faults, secrets := r.w.secrets, nextSecret := r.w.nextSecret, row := r.w.row)
            && r.w.row == u.row.(kubeconfig := r.w.row.kubeconfig)
            && (r.ok ==> r.w.row.kubeconfig.Some?)
            && (SecretsOk(u) ==> SecretsOk(r.w))
  {
    hide SetKubeconfigSecret, DeleteSecret;
    var put := PutSecret(u);
    if put.value.Some? {
      SetSecretFrame(put.w, put.value.value);
      DeleteSecretFrame(SetKubeconfigSecret(put.w, put.value.value).w, put.value.value);
    }
  }

  lemma AccountsFrame(b: map<ServerId, Host>, w: World, u: World, v: World)
    requires Accounts(b, w, u) && SecretsOk(v) && v.cloud == u.cloud && v.servers == u.servers
    requires v.row.status == u.row.status && v.row.deleted == u.row.deleted
    ensures Accounts(b, w, v) && Orphans(b, v) == Orphans(b, u) && Lost(w, v) == Lost(w, u)
  {
  }

  function AllViews(f: Fleet): seq<View> { [f.controlPlane] + f.workers }

  /** Distinct servers made since `w`. */
  ghost predicate AllNew(w: World, u: World, views: seq<View>) {
    && (forall i :: 0 <= i < |views| ==> views[i].id in u.cloud.live && views[i].id !in w.cloud.issued)
    && (forall i, j :: 0 <= i < j < |views| ==> views[i].id != views[j].id)
  }

  /** Rows only name servers issued before. */
  ghost predicate RowsIssued(w: World, rows: seq<ServerRow>) {
    forall r :: r in rows ==> r.serverId in w.cloud.issued
  }

  lemma FitsNew(b: map<ServerId, Host>, w: World, u: World, views: seq<View>)
    requires CloudOk(u.cloud) && AllNew(w, u, views) && RowsIssued(w, u.servers)
    ensures Fits(b, w, u, views)
  {
    forall i | 0 <= i < |views| ensures views[i].id <= I64_MAX && views[i].id !in RowIds(u.servers) {
      assert views[i].id in u.cloud.issued;
    }
  }

  lemma AllViewsNew(w: World, u: World, f: Fleet)
    requires FleetMade(w.(row := u.row), u, f)
    ensures AllNew(w, u, AllViews(f))
  {
    var views := AllViews(f);
    assert views[0] == f.controlPlane && forall i :: 0 < i < |views| ==> views[i] == f.workers[i - 1];
    forall i, j | 0 <= i < j < |views| ensures views[i].id != views[j].id {
      if i > 0 { assert f.workers[i - 1].id != f.workers[j - 1].id; }
    }
  }

  lemma FitsAll(b: map<ServerId, Host>, w: World, u: World, f: Fleet)
    requires RowsIssued(w, w.servers) && CloudOk(w.cloud) && FleetMade(w.(row := u.row), u, f)
    ensures Fits(b, w, u, AllViews(f))
    ensures forall i :: i in Lost(w, u) ==> Listed(AllViews(f), i)
  {
    hide Fits, AllNew;
    AllViewsNew(w, u, f);
    FitsNew(b, w, u, AllViews(f));
    var views := AllViews(f);
    forall i | i in Lost(w, u) ensures Listed(views, i) {
      if i == f.controlPlane.id {
        assert views[0].id == i;
      } else {
        var j :| 0 <= j < |f.workers| && f.workers[j].id == i;
        assert views[j + 1].id == i;
      }
    }
  }

  lemma FitsRest(b: map<ServerId, Host>, w: World, u: World, views: seq<View>, role: Role, v: World)
    requires views != [] && Fits(b, w, u, views)
    requires v == u.(faults := v.faults, servers := u.servers + [RowOf(views[0], role)])
    ensures Fits(b, w, v, views[1..])
  {
    RecordableRest(u.servers, views, role);
    assert forall i :: 0 <= i < |views| - 1 ==> views[1..][i] == views[i + 1];
  }

  /** Recording the control plane leaves only the workers to record. */
  lemma FinishControlPlane(b: map<ServerId, Host>, w: World, u: World, f: Fleet)
    requires Inv(b, w) && Accounts(b, w, u) && FleetMade(w.(row := u.row), u, f)
    requires u.row.status.Provisioning? && !u.row.deleted
    ensures var cp := RecordServer(u, f.controlPlane, ControlPlane);
            && Accounts(b, w, cp.w) && cp.w.row == u.row
            && (cp.ok ==> Fits(b, w, cp.w, f.workers) && forall i :: i in Lost(w, cp.w) ==> Listed(f.workers, i))
  {
    hide RecordServer, FleetMade;
    FitsAll(b, w, u, f);
    var views := AllViews(f);
    assert views[0] == f.controlPlane && views[1..] == f.workers && views[..1] == [f.controlPlane];
    RecordServerAppends(u, f.controlPlane, ControlPlane);
    var cp := RecordServer(u, f.controlPlane, ControlPlane);
    if Next(u).reply.Refused? {
      AccountsSame(b, w, u, cp.w);
    } else {
      assert RowsOf(views[..1], ControlPlane) == [RowOf(f.controlPlane, ControlPlane)];
      AccountsRows(b, w, u, views[..1], ControlPlane, cp.w);
      FitsRest(b, w, u, views, ControlPlane, cp.w);
      forall i | i in Lost(w, cp.w) ensures Listed(f.workers, i) {
        var j :| 0 <= j < |views| && views[j].id == i;
        assert views[..1][0] == f.controlPlane && j != 0;
        assert f.workers[j - 1].id == i;
      }
    }
  }

  /** Once the workflow is done, recording it whole leaves nothing unrecorded. */
  lemma FinishAccounts(b: map<ServerId, Host>, w: World, u: World, f: Fleet)
    requires Inv(b, w) && Accounts(b, w, u) && FleetMade(w.(row := u.row), u, f)
    requires u.row.status.Provisioning? && !u.row.deleted && Orphans(b, w) == {}
    ensures var r := FinishProvision(u, f);
            Accounts(b, w, r.w) && (r.ok ==> r.w.row.status.Ready? && Lost(w, r.w) == {})
  {
    hide RecordServer, RecordServers, SealProvision, Inv, FleetMade, Fits;
    FinishControlPlane(b, w, u, f);
    var cp := RecordServer(u, f.controlPlane, ControlPlane);
    if cp.ok {
      FinishWorkersAccounts(b, w, cp.w, f.workers);
      var rest := RecordServers(cp.w, f.workers, Worker);
      if rest.ok {
        FinishStatus(b, w, rest.w);
      }
    }
  }

  lemma FinishStatus(b: map<ServerId, Host>, w: World, u: World)
    requires Accounts(b, w, u) && !u.row.deleted && Orphans(b, u) == {} && Lost(w, u) == {}
    ensures var r := SealProvision(u);
            Accounts(b, w, r.w) && Lost(w, r.w) == {} && (r.ok ==> r.w.row.status.Ready?)
  {
    hide StoreKubeconfig, Lost;
    StoreFrame(u);
    var stored := StoreKubeconfig(u);
    AccountsFrame(b, w, u, stored.w);
    if stored.ok {
      AccountsStatus(b, w, stored.w, Ready);
      var ready := UpdateStatus(stored.w, Ready);
      assert Lost(w, ready.w) == Lost(w, stored.w);
      if ready.ok {
        AccountsFrame(b, w, ready.w, SealProvision(u).w);
      }
    }
  }

  /** Recording the workers that are all that is left unrecorded. */
  lemma FinishWorkersAccounts(b: map<ServerId, Host>, w: World, u: World, views: seq<View>)
    requires Inv(b, w) && Accounts(b, w, u) && !u.row.deleted && !u.row.status.Ready? && Orphans(b, w) == {}
    requires Fits(b, w, u, views)
    requires forall i :: i in Lost(w, u) ==> Listed(views, i)
    ensures var r := RecordServers(u, views, Worker);
            && Accounts(b, w, r.w) && r.w.row == u.row && r.w.cloud == u.cloud
            && r.w.swallowed == u.swallowed && r.w.stalled == u.stalled
            && (r.ok ==> Lost(w, r.w) == {} && Orphans(b, r.w) == {})
  {
    var r := RecordServers(u, views, Worker);
    var k := RecordServersAppend(u, views, Worker);
    AccountsRows(b, w, u, views[..k], Worker, r.w);
    if r.ok {
      assert views[..k] == views;
    }
  }

  /** Provisioning: a run that reports success has recorded every server it made. */
  lemma ProvisionAccounts(b: map<ServerId, Host>, w: World)
    requires Inv(b, w) && w.row.status.Pending? && !w.row.deleted && Orphans(b, w) == {}
    ensures var r := RunProvision(w);
            Accounts(b, w, r.w) && (r.ok ==> r.w.row.status.Ready? && Lost(w, r.w) == {})
  {
    hide ProvisionCluster, FinishProvision, RowsOk;
    AccountsRefl(b, w);
    AccountsStatus(b, w, w, Provisioning);
    var begun := UpdateStatus(w, Provisioning);
    if begun.ok {
      var shadow := Attempt(begun.w);
      AccountsSame(b, w, begun.w, shadow.w);
      if shadow.ok {
        var n := if w.row.workerCount < 0 then 0 else w.row.workerCount;
        ProvisionClusterMakes(shadow.w, n);
        var fleet := ProvisionCluster(shadow.w, n);
        AccountsGrew(b, w, shadow.w, fleet.w);
        if fleet.value.None? {
          AccountsStatus(b, w, fleet.w, Failed);
          AccountsSame(b, w, UpdateStatus(fleet.w, Failed).w, RunProvision(w).w);
        } else {
          assert FleetMade(w.(row := fleet.w.row), fleet.w, fleet.value.value);
          FinishAccounts(b, w, fleet.w, fleet.value.value);
        }
      }
    }
  }

  // ------------------------------------------------------------------------ scaling

  lemma BeginScalingAccounts(b: map<ServerId, Host>, w: World)
    requires Inv(b, w) && !w.row.deleted
    ensures var begun := BeginScaling(w);
            && Accounts(b, w, begun.w) && begun.w.cloud == w.cloud && begun.w.servers == w.servers
            && begun.w.row == w.row.(status := begun.w.row.status)
            && (begun.ok ==> begun.w.row.status.Scaling?)
  {
    AccountsRefl(b, w);
    AccountsStatus(b, w, w, Scaling);
    AccountsFrame(b, w, UpdateStatus(w, Scaling).w, BeginScaling(w).w);
  }

  lemma AccountsFailed(b: map<ServerId, Host>, w: World, u: World)
    requires Accounts(b, w, u) && !u.row.deleted
    ensures Accounts(b, w, MarkFailed(u)) && !MarkFailed(u).row.deleted
    ensures MarkFailed(u).cloud == u.cloud && MarkFailed(u).servers == u.servers && MarkFailed(u).secrets == u.secrets
  {
    AccountsStatus(b, w, u, Failed);
    AccountsSame(b, w, UpdateStatus(u, Failed).w, MarkFailed(u));
  }

  lemma AccountsReady(b: map<ServerId, Host>, w: World, u: World)
    requires Accounts(b, w, u) && !u.row.deleted && Orphans(b, u) == {}
    ensures Accounts(b, w, MarkReady(u).w) && MarkReady(u).w.cloud == u.cloud && MarkReady(u).w.servers == u.servers
    ensures MarkReady(u).ok ==> MarkReady(u).w.row.status.Ready?
  {
    AccountsStatus(b, w, u, Ready);
    if UpdateStatus(u, Ready).ok {
      AccountsSame(b, w, UpdateStatus(u, Ready).w, MarkReady(u).w);
    }
  }

  lemma FitsWorkers(b: map<ServerId, Host>, w: World, u0: World, u: World, start: nat,
                    views: seq<View>, ids: seq<ServerId>)
    requires Inv(b, w) && ViewsOf(views, ids) && Made(u0, u, start, ids)
    requires u0.cloud == w.cloud && u0.servers == w.servers
    ensures Fits(b, w, u, views)
    ensures forall i :: i in Lost(w, u) ==> Listed(views, i)
  {
    assert AllNew(w, u, views) by {
      assert forall i :: 0 <= i < |views| ==> views[i].id == ids[i];
    }
    FitsNew(b, w, u, views);
    forall i | i in Lost(w, u) ensures Listed(views, i) {
      var j :| 0 <= j < |ids| && ids[j] == i;
      assert views[j].id == i;
    }
  }

  lemma ScaleOutRecord(b: map<ServerId, Host>, w: World, u: World, views: seq<View>)
    requires Inv(b, w) && Accounts(b, w, u) && Orphans(b, w) == {}
    requires u.row.status.Scaling? && !u.row.deleted
    requires Fits(b, w, u, views) && forall i :: i in Lost(w, u) ==> Listed(views, i)
    ensures var recorded := RecordServers(u, views, Worker);
            && Accounts(b, w, recorded.w)
            && (recorded.ok ==> Accounts(b, w, MarkReady(recorded.w).w) && Lost(w, MarkReady(recorded.w).w) == {}
                                && (MarkReady(recorded.w).ok ==> MarkReady(recorded.w).w.row.status.Ready?))
  {
    FinishWorkersAccounts(b, w, u, views);
    var recorded := RecordServers(u, views, Worker);
    if recorded.ok {
      AccountsReady(b, w, recorded.w);
    }
  }

  lemma ScaleOutFits(b: map<ServerId, Host>, w: World, u: World, start: nat, count: nat)
    requires Inv(b, w) && u.cloud == w.cloud && u.servers == w.servers
    ensures var added := ScaleOut(u, start, count);
            && Grew(u, added.w)
            && (added.value.Some? ==>
                  && Fits(b, w, added.w, added.value.value)
                  && forall i :: i in Lost(w, added.w) ==> Listed(added.value.value, i))
  {
    AddWorkersMake(u, start, count);
    var inner := AddWorkers(u, start, count);
    var added := ScaleOut(u, start, count);
    GrewSame(u, inner.w, added.w);
    if added.value.Some? {
      var ids :| ViewsOf(inner.value.value, ids) && Made(u, inner.w, start, ids);
      MadeSame(u, inner.w, added.w, start, ids);
      FitsWorkers(b, w, u, added.w, start, added.value.value, ids);
    }
  }

  lemma ScaleOutFinish(b: map<ServerId, Host>, w: World, u: World, start: nat, count: nat)
    requires Inv(b, w) && Accounts(b, w, u) && Orphans(b, w) == {}
    requires u.row.status.Scaling? && !u.row.deleted && u.cloud == w.cloud && u.servers == w.servers
    ensures var r := AddAndRecord(u, start, count);
            Accounts(b, w, r.w) && (r.ok ==> r.w.row.status.Ready? && Lost(w, r.w) == {})
  {
    hide ScaleOut, RecordServers, MarkFailed, MarkReady, Inv, Fits;
    ScaleOutFits(b, w, u, start, count);
    var added := ScaleOut(u, start, count);
    AccountsGrew(b, w, u, added.w);
    if added.value.None? {
      AccountsFailed(b, w, added.w);
    } else {
      ScaleOutRecord(b, w, added.w, added.value.value);
    }
  }

  /** Scale-out: a run that reports success has recorded every server it made. */
  lemma ScaleOutAccounts(b: map<ServerId, Host>, w: World, count: nat)
    requires Inv(b, w) && w.row.status.Ready?
    ensures var r := RunScaleOut(w, count);
            Accounts(b, w, r.w) && (r.ok ==> r.w.row.status.Ready? && Lost(w, r.w) == {})
  {
    hide AddAndRecord;
    BeginScalingAccounts(b, w);
    var begun := BeginScaling(w);
    if begun.ok {
      var listed := Attempt(begun.w);
      AccountsSame(b, w, begun.w, listed.w);
      var token := Attempt(listed.w);
      AccountsSame(b, w, begun.w, token.w);
      ScaleOutFinish(b, w, token.w, |Workers(token.w)|, count);
    }
  }

  // ----------------------------------------------------------------- picking servers

  lemma {:induction false} PickMembers(rows: seq<ServerRow>, role: Role, r: ServerRow)
    ensures r in Pick(rows, role) <==> r in rows && !r.deleted && r.role == role
  {
    if rows != [] {
      PickMembers(rows[..|rows| - 1], role, r);
      assert rows == rows[..|rows| - 1] + [rows[|rows| - 1]];
    }
  }

  lemma {:induction false} InsertDescendingKeeps(r: ServerRow, s: seq<ServerRow>)
    ensures multiset(InsertDescending(r, s)) == multiset(s) + multiset{r}
  {
    if s != [] && r.serverId <= s[0].serverId {
      InsertDescendingKeeps(r, s[1..]);
      assert s == [s[0]] + s[1..];
    }
  }

  /** Sorting only reorders. */
  lemma {:induction false} DescendingKeeps(rows: seq<ServerRow>)
    ensures multiset(Descending(rows)) == multiset(rows)
  {
    if rows != [] {
      DescendingKeeps(rows[..|rows| - 1]);
      InsertDescendingKeeps(rows[|rows| - 1], Descending(rows[..|rows| - 1]));
      assert rows == rows[..|rows| - 1] + [rows[|rows| - 1]];
    }
  }

  lemma YoungestAreWorkers(w: World, count: nat, r: ServerRow)
    requires r in Youngest(Workers(w), count)
    ensures r in w.servers && !r.deleted && r.role.Worker?
  {
    var sorted := Descending(Workers(w));
    assert r in sorted;
    DescendingKeeps(Workers(w));
    assert r in multiset(sorted);
    PickMembers(w.servers, Worker, r);
  }

  // ------------------------------------------------------------------------ scale-in

  /** Deleting recorded servers makes no orphan and touches no one else's server. */
  lemma AccountsShrunk(b: map<ServerId, Host>, w: World, u: World, v: World, gone: set<ServerId>)
    requires Accounts(b, w, u) && !u.row.status.Ready? && !u.row.deleted
    requires forall i :: i in gone ==> i in RowIds(u.servers)
    requires v.servers == u.servers && v.row == u.row && SecretsOk(v)
    requires v.cloud == u.cloud.(live := u.cloud.live - gone)
    ensures Accounts(b, w, v)
    ensures Orphans(b, v) == Orphans(b, u)
  {
    assert forall r :: r in u.servers ==> r.serverId !in b;
    assert forall i :: i in gone ==> i !in b;
    assert Lost(w, v) == Lost(w, u);
  }

  lemma RowIdsWithout(rows: seq<ServerRow>, serverId: int, id: int)
    requires id != serverId
    ensures id in RowIds(WithoutRow(rows, serverId)) <==> id in RowIds(rows)
  {
    var kept := WithoutRow(rows, serverId);
    if id in RowIds(rows) {
      var r :| r in rows && !r.deleted && r.serverId == id;
      var j :| 0 <= j < |rows| && rows[j] == r;
      assert kept[j] == r && kept[j] in kept;
    }
    if id in RowIds(kept) {
      var r :| r in kept && !r.deleted && r.serverId == id;
      var j :| 0 <= j < |kept| && kept[j] == r;
      assert rows[j] == r && rows[j] in rows;
    }
  }

  lemma RowsOkWithout(b: map<ServerId, Host>, u: World, v: World, serverId: int)
    requires RowsOk(b, u) && serverId !in u.cloud.live
    requires v.cloud == u.cloud && v.servers == WithoutRow(u.servers, serverId)
    ensures RowsOk(b, v)
  {
    forall r | r in v.servers
      ensures r.serverId in v.cloud.issued && r.serverId !in b && (r.deleted ==> r.serverId !in v.cloud.live)
    {
      var i :| 0 <= i < |v.servers| && v.servers[i] == r;
      assert u.servers[i] in u.servers && u.servers[i].serverId == r.serverId;
    }
  }

  lemma AccountsForget(b: map<ServerId, Host>, w: World, u: World, serverId: int)
    requires Accounts(b, w, u) && !u.row.status.Ready? && !u.row.deleted
    requires serverId !in u.cloud.live
    ensures var v := ForgetServer(u, serverId);
            Accounts(b, w, v) && Orphans(b, v) == Orphans(b, u) && v.row == u.row && v.cloud == u.cloud
  {
    hide RowsOk, WithoutRow, RowIds;
    var v := ForgetServer(u, serverId);
    if !Next(u).reply.Refused? {
      RowsOkWithout(b, u, v, serverId);
      forall i: ServerId | i in u.cloud.live
        ensures i in RowIds(v.servers) <==> i in RowIds(u.servers)
      {
        RowIdsWithout(u.servers, serverId, i);
      }
      assert Orphans(b, v) == Orphans(b, u);
      assert Lost(w, v) == Lost(w, u);
    } else {
      AccountsFrame(b, w, u, v);
    }
  }

  lemma {:induction false} AccountsForgetAll(b: map<ServerId, Host>, w: World, u: World, rows: seq<ServerRow>)
    requires Accounts(b, w, u) && !u.row.status.Ready? && !u.row.deleted
    requires forall i :: 0 <= i < |rows| ==> rows[i].serverId !in u.cloud.live
    ensures var v := ForgetServers(u, rows);
            Accounts(b, w, v) && Orphans(b, v) == Orphans(b, u) && v.row == u.row && v.cloud == u.cloud
    decreases |rows|
  {
    if rows != [] {
      AccountsForget(b, w, u, rows[0].serverId);
      AccountsForgetAll(b, w, ForgetServer(u, rows[0].serverId), rows[1..]);
    }
  }

  lemma ScaleInFinish(b: map<ServerId, Host>, w: World, u: World, workers: seq<ServerRow>, doomed: seq<ServerRow>)
    requires Accounts(b, w, u) && u.row.status.Scaling? && !u.row.deleted && Orphans(b, u) == {}
    requires forall r :: r in doomed ==> r in u.servers && !r.deleted
    ensures var targets := TargetsOf(w.row.name, workers, doomed);
            var scaled := ScaleIn(u, targets);
            && Accounts(b, w, scaled.w)
            && (!scaled.ok ==> Accounts(b, w, MarkFailed(scaled.w)))
            && (scaled.ok ==> Accounts(b, w, MarkReady(ForgetServers(scaled.w, doomed)).w))
  {
    var targets := TargetsOf(w.row.name, workers, doomed);
    var gone := ScaleInRemovesPrefix(u, targets);
    var scaled := ScaleIn(u, targets);
    var ids := Members(IdsOf(targets)[..gone]);
    forall i | i in ids ensures i in RowIds(u.servers) {
      var j :| 0 <= j < gone && IdsOf(targets)[j] == i;
      assert doomed[j] in doomed && doomed[j].serverId in u.cloud.issued;
    }
    AccountsShrunk(b, w, u, scaled.w, ids);
    if !scaled.ok {
      AccountsFailed(b, w, scaled.w);
    } else {
      forall j | 0 <= j < |doomed| ensures doomed[j].serverId !in scaled.w.cloud.live {
        assert doomed[j] in doomed && doomed[j].serverId in u.cloud.issued;
        assert IdsOf(targets)[j] == doomed[j].serverId;
        assert IdsOf(targets)[j] in Members(IdsOf(targets));
      }
      AccountsForgetAll(b, w, scaled.w, doomed);
      AccountsReady(b, w, ForgetServers(scaled.w, doomed));
    }
  }

  /** Scale-in never orphans a server, whatever fails. */
  lemma ScaleInAccounts(b: map<ServerId, Host>, w: World, count: nat)
    requires Inv(b, w) && w.row.status.Ready?
    ensures Accounts(b, w, RunScaleIn(w, count).w)
  {
    BeginScalingAccounts(b, w);
    var begun := BeginScaling(w);
    if begun.ok {
      var listed := Attempt(begun.w);
      var handle := GetCluster(listed.w);
      var fetched := Attempt(handle.w);
      var staged := Attempt(fetched.w);
      AccountsSame(b, w, begun.w, listed.w);
      AccountsSame(b, w, begun.w, handle.w);
      AccountsSame(b, w, begun.w, fetched.w);
      AccountsSame(b, w, begun.w, staged.w);
      var doomed := Youngest(Workers(listed.w), count);
      forall r | r in doomed ensures r in staged.w.servers && !r.deleted {
        YoungestAreWorkers(listed.w, count, r);
      }
      assert Orphans(b, staged.w) == {};
      ScaleInFinish(b, w, staged.w, Workers(listed.w), doomed);
    }
  }

  // ------------------------------------------------------------------------- destroy

  lemma ListedServersAreAll(w: World, r: ServerRow)
    ensures r in ListServers(w) <==> r in w.servers && !r.deleted
  {
    PickMembers(w.servers, ControlPlane, r);
    PickMembers(w.servers, Worker, r);
  }

  /** After every listed server is gone, the rows may be dropped. */
  lemma AccountsForgetEveryone(b: map<ServerId, Host>, w: World, u: World)
    requires Accounts(b, w, u) && u.row.status.Destroying? && !u.row.deleted
    requires forall r :: r in u.servers && !r.deleted ==> r.serverId !in u.cloud.live
    ensures var f := SoftDeleteServers(u);
            && Accounts(b, w, f.w) && Orphans(b, f.w) == Orphans(b, u)
            && f.w.row == u.row && f.w.cloud == u.cloud && f.w.secrets == u.secrets
            && (f.ok ==> RowIds(f.w.servers) == {})
  {
    var v := SoftDeleteServers(u).w;
    if Next(u).reply.Refused? {
      AccountsSame(b, w, u, v);
    } else {
      forall r | r in v.servers
        ensures r.serverId in v.cloud.issued && r.serverId !in b && r.deleted && r.serverId !in v.cloud.live
      {
        var i :| 0 <= i < |v.servers| && v.servers[i] == r;
        assert u.servers[i] in u.servers && u.servers[i].serverId == r.serverId;
      }
      assert RowsOk(b, v);
      assert forall i: ServerId :: i in u.cloud.live ==> i !in RowIds(u.servers) && i !in RowIds(v.servers);
      assert Orphans(b, v) == Orphans(b, u);
      assert Lost(w, v) == Lost(w, u);
    }
  }

  lemma AccountsHidden(b: map<ServerId, Host>, w: World, u: World)
    requires Accounts(b, w, u) && u.row.status.Destroying? && RowIds(u.servers) == {}
    ensures var h := SoftDeleteCluster(u);
            && Accounts(b, w, h.w) && Orphans(b, h.w) == Orphans(b, u)
            && (h.ok ==> h.w == u.(faults := h.w.faults, row := u.row.(deleted := true)))
  {
    var v := SoftDeleteCluster(u).w;
    assert Orphans(b, v) == Orphans(b, u);
    assert Lost(w, v) == Lost(w, u);
  }

  /** Deleting a secret the cluster row refers to never succeeds. */
  function DropSecret(w: World): World {
    if w.row.kubeconfig.Some? then DeleteSecret(w, w.row.kubeconfig.value).w else w
  }

  lemma FinalizeAccounts(b: map<ServerId, Host>, w: World, u: World)
    requires Accounts(b, w, u) && u.row.status.Destroying? && RowIds(u.servers) == {}
    ensures var f := FinalizeDestroy(u);
            && Accounts(b, w, f.w) && Orphans(b, f.w) == Orphans(b, u)
            && f.w.cloud == u.cloud && f.w.servers == u.servers && f.w.secrets == u.secrets
            && (f.ok ==> f.w.row == u.row.(status := Destroyed, deleted := true))
  {
    var handle := GetCluster(u);
    AccountsSame(b, w, u, handle.w);
    var v := DropSecret(handle.w);
    AccountsSame(b, w, u, v);
    if handle.ok {
      AccountsHidden(b, w, v);
      var hidden := SoftDeleteCluster(v);
      if hidden.ok {
        AccountsStatus(b, w, hidden.w, Destroyed);
        assert Orphans(b, UpdateStatus(hidden.w, Destroyed).w) == Orphans(b, hidden.w);
      }
    }
  }

  lemma BeginDestroyAccounts(b: map<ServerId, Host>, w: World)
    requires Inv(b, w)
    ensures var begun := BeginDestroy(w);
            && Accounts(b, w, begun.w) && begun.w.cloud == w.cloud && begun.w.servers == w.servers
            && (begun.ok ==> begun.w.row == w.row.(status := Destroying) && !w.row.deleted)
  {
    AccountsRefl(b, w);
    var got := GetCluster(w);
    AccountsSame(b, w, w, got.w);
    if got.ok && !got.w.row.status.Destroyed? {
      AccountsStatus(b, w, got.w, Destroying);
    }
  }

  lemma DestroyWorkflowAccounts(b: map<ServerId, Host>, w: World, u: World)
    requires Accounts(b, w, u) && u.row.status.Destroying? && !u.row.deleted
    ensures var gone := DestroyCluster(u, DoomedIds(ListServers(u)));
            && Accounts(b, w, gone.w) && Orphans(b, gone.w) == Orphans(b, u)
            && gone.w.row == u.row && gone.w.servers == u.servers && gone.w.secrets == u.secrets
            && (gone.ok ==> forall r :: r in gone.w.servers && !r.deleted ==> r.serverId !in gone.w.cloud.live)
  {
    var rows := ListServers(u);
    var ids := DoomedIds(rows);
    var w1 := Publish(u, Step(DestroyingServers));
    var k, tried := DeleteServersPrefix(w1, ids);
    var gone := DestroyCluster(u, ids);
    forall i | i in Members(ids[..k]) ensures i in RowIds(u.servers) {
      var j :| 0 <= j < k && ids[j] == i;
      assert rows[j] in rows;
      ListedServersAreAll(u, rows[j]);
      assert rows[j].serverId in u.cloud.issued;
    }
    AccountsShrunk(b, w, u, gone.w, Members(ids[..k]));
    if gone.ok {
      forall r | r in gone.w.servers && !r.deleted ensures r.serverId !in gone.w.cloud.live {
        ListedServersAreAll(u, r);
        var j :| 0 <= j < |rows| && rows[j] == r;
        assert r.serverId in u.cloud.issued;
        assert ids[..k][j] == r.serverId;
      }
    }
  }

  /** The account is kept and neither orphans nor secrets moved since `u`. */
  ghost predicate Torn(b: map<ServerId, Host>, w: World, u: World, v: World) {
    Accounts(b, w, v) && Orphans(b, v) == Orphans(b, u) && v.secrets == u.secrets
  }

  /** Nothing of the cluster is left but the row, hidden and marked. */
  ghost predicate Erased(b: map<ServerId, Host>, u: World, v: World) {
    && v.cloud.live.Keys == b.Keys + Orphans(b, u)
    && RowIds(v.servers) == {}
    && v.row == u.row.(status := Destroyed, deleted := true)
  }

  lemma DestroyTail(b: map<ServerId, Host>, w: World, u: World)
    requires Accounts(b, w, u) && u.row.status.Destroying? && !u.row.deleted
    requires forall r :: r in u.servers && !r.deleted ==> r.serverId !in u.cloud.live
    ensures var forgotten := SoftDeleteServers(u);
            var finalized := FinalizeDestroy(forgotten.w);
            && Torn(b, w, u, forgotten.w)
            && (forgotten.ok ==> Torn(b, w, u, finalized.w) && (finalized.ok ==> Erased(b, u, finalized.w)))
  {
    hide SoftDeleteServers, FinalizeDestroy;
    AccountsForgetEveryone(b, w, u);
    var forgotten := SoftDeleteServers(u);
    if forgotten.ok {
      FinalizeAccounts(b, w, forgotten.w);
      var finalized := FinalizeDestroy(forgotten.w);
      if finalized.ok {
        assert finalized.w.cloud.live.Keys == b.Keys + Orphans(b, finalized.w);
      }
    }
  }

  lemma DestroyBody(b: map<ServerId, Host>, w: World, u: World)
    requires Accounts(b, w, u) && u.row.status.Destroying? && !u.row.deleted
    ensures var gone := DestroyCluster(u, DoomedIds(ListServers(u)));
            var forgotten := SoftDeleteServers(gone.w);
            var finalized := FinalizeDestroy(forgotten.w);
            && (!gone.ok ==> Torn(b, w, u, MarkFailed(gone.w)))
            && (gone.ok ==>
                  && Torn(b, w, u, forgotten.w)
                  && (forgotten.ok ==> Torn(b, w, u, finalized.w) && (finalized.ok ==> Erased(b, u, finalized.w))))
  {
    hide DestroyCluster, SoftDeleteServers, FinalizeDestroy, MarkFailed;
    DestroyWorkflowAccounts(b, w, u);
    var gone := DestroyCluster(u, DoomedIds(ListServers(u)));
    if !gone.ok {
      AccountsFailed(b, w, gone.w);
      assert Orphans(b, MarkFailed(gone.w)) == Orphans(b, gone.w);
    } else {
      DestroyTail(b, w, gone.w);
    }
  }

  /**
    Destroy never orphans a server. A destroy that reports success leaves only
    other people's servers and the orphans of earlier failures, no live row, and
    a hidden cluster row marked Destroyed. The kubeconfig secret stays behind.
   */
  lemma DestroyAccounts(b: map<ServerId, Host>, w: World)
    requires Inv(b, w)
    ensures var r := RunDestroy(w);
            Torn(b, w, w, r.w) && (r.ok ==> Erased(b, w, r.w))
  {
    BeginDestroyAccounts(b, w);
    var begun := BeginDestroy(w);
    assert Orphans(b, begun.w) == Orphans(b, w);
    if begun.ok {
      var listed := Attempt(begun.w);
      AccountsSame(b, w, begun.w, listed.w);
      if listed.ok {
        DestroyBody(b, w, listed.w);
        if RunDestroy(w).ok {
          var finalized := FinalizeDestroy(SoftDeleteServers(DestroyCluster(listed.w, DoomedIds(ListServers(listed.w))).w).w);
          AccountsSame(b, w, finalized.w, RunDestroy(w).w);
        }
      }
    }
  }
}
