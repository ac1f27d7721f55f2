/** Theorems over whole lives of a cluster. */
module FleetLife {
  import opened Environment
  import opened FleetModel
  import opened FleetRuns
  import opened FleetInvariant
  import opened FleetTeardown
  import opened FleetSafety

  // --------------------------------------------------------------------- one request

  lemma AccountsFrom(b: map<ServerId, Host>, w: World, u: World, v: World)
    requires Accounts(b, u, v) && u.cloud == w.cloud && u.servers == w.servers
    ensures Accounts(b, w, v) && Lost(w, v) == Lost(u, v)
  {
    assert Orphans(b, u) == Orphans(b, w);
  }

  lemma ScaleRunAccounts(b: map<ServerId, Host>, w: World, delta: int)
    requires Inv(b, w) && w.row.status.Ready?
    ensures var r := if delta > 0 then RunScaleOut(w, delta) else RunScaleIn(w, -delta);
            Accounts(b, w, r.w) && (r.ok || delta <= 0 ==> Lost(w, r.w) == {})
  {
    hide RunScaleOut, RunScaleIn;
    if delta > 0 {
      ScaleOutAccounts(b, w, delta);
    } else {
      ScaleInAccounts(b, w, -delta);
      ScaleInIssuesNothing(w, -delta);
      LosesNothing(w, RunScaleIn(w, -delta).w);
    }
  }

  lemma LosesNothing(w: World, v: World)
    requires CloudOk(w.cloud) && forall i :: i in v.cloud.live ==> i in w.cloud.live
    ensures Lost(w, v) == {}
  {
  }

  lemma ScaleAccounts(b: map<ServerId, Host>, w: World, delta: int)
    requires Inv(b, w)
    ensures var r := ScaleWorkers(w, delta);
            Accounts(b, w, r.w) && (r.ok || delta <= 0 ==> Lost(w, r.w) == {})
  {
    hide RunScaleOut, RunScaleIn, ScaleWorkers;
    AccountsRefl(b, w);
    var got := GetCluster(w);
    AccountsFrame(b, w, w, got.w);
    var credential := Attempt(got.w);
    AccountsFrame(b, w, w, credential.w);
    var count := SaturatingAdd(got.w.row.workerCount, delta);
    var counted := UpdateWorkerCount(credential.w, count);
    AccountsFrame(b, w, w, counted.w);
    AccountsFrame(b, w, w, counted.w.(stalled := true));
    assert Lost(w, w) == {};
    if counted.w.row.status.Ready? {
      ScaleRunAccounts(b, counted.w, delta);
      var r := if delta > 0 then RunScaleOut(counted.w, delta) else RunScaleIn(counted.w, -delta);
      AccountsFrom(b, w, counted.w, r.w);
    }
    ScaleCases(w, delta, got.w, credential.w, counted);
  }

  /** Where a scale request can end up. */
  lemma ScaleCases(w: World, delta: int, got: World, credential: World, counted: Out)
    requires got == GetCluster(w).w && credential == Attempt(got).w
    requires counted == UpdateWorkerCount(credential, SaturatingAdd(got.row.workerCount, delta))
    ensures var r := ScaleWorkers(w, delta);
            || r.w == got || r.w == credential
            || r.w == counted.w || r.w == counted.w.(stalled := true)
            || (counted.w.row.status.Ready? && r == if delta > 0 then RunScaleOut(counted.w, delta) else RunScaleIn(counted.w, -delta))
  {
  }

  lemma {:induction false} ForgetKeepsCloud(w: World, rows: seq<ServerRow>)
    ensures ForgetServers(w, rows).cloud == w.cloud
    decreases |rows|
  {
    if rows != [] { ForgetKeepsCloud(ForgetServer(w, rows[0].serverId), rows[1..]); }
  }

  predicate OnlyDeletes(c: Cloud, d: Cloud) {
    d == c.(live := d.live) && forall i :: i in d.live ==> i in c.live
  }

  lemma RemoveAndForgetDeletes(w: World, targets: seq<Target>, doomed: seq<ServerRow>)
    ensures OnlyDeletes(w.cloud, RemoveAndForget(w, targets, doomed).w.cloud)
  {
    var gone := ScaleInRemovesPrefix(w, targets);
    ForgetKeepsCloud(ScaleIn(w, targets).w, doomed);
  }

  lemma ScaleInIssuesNothing(w: World, count: nat)
    ensures OnlyDeletes(w.cloud, RunScaleIn(w, count).w.cloud)
  {
    hide RemoveAndForget, Youngest, TargetsOf;
    var begun := BeginScaling(w);
    var listed := Attempt(begun.w);
    var staged := Attempt(Attempt(GetCluster(listed.w).w).w);
    var doomed := Youngest(Workers(listed.w), count);
    RemoveAndForgetDeletes(staged.w, TargetsOf(w.row.name, Workers(listed.w), doomed), doomed);
  }

  lemma DestroyRequestAccounts(b: map<ServerId, Host>, w: World)
    requires Inv(b, w)
    ensures var r := DestroyRequest(w);
            Torn(b, w, w, r.w) && (r.ok ==> Erased(b, w, r.w))
  {
    AccountsRefl(b, w);
    var got := GetCluster(w);
    AccountsSame(b, w, w, got.w);
    var credential := Attempt(got.w);
    AccountsSame(b, w, w, credential.w);
    if got.ok && credential.ok {
      DestroyAccounts(b, credential.w);
      AccountsFrom(b, w, credential.w, RunDestroy(credential.w).w);
    }
  }

  // ---------------------------------------------------------------------- whole lives

  /** Everything the runs of a life made and did not record, run by run. */
  ghost function LostOver(w: World, requests: seq<Request>): set<ServerId>
    decreases |requests|
  {
    if requests == [] then Lost(w, RunProvision(w).w)
    else
      var before := requests[..|requests| - 1];
      LostOver(w, before) + Lost(Life(w, before), Life(w, requests))
  }

  /** Every provision and every scale-out reported success. */
  predicate GrowthSucceeded(w: World, requests: seq<Request>)
    decreases |requests|
  {
    if requests == [] then RunProvision(w).ok
    else
      var before, last := requests[..|requests| - 1], requests[|requests| - 1];
      && GrowthSucceeded(w, before)
      && (last.Scale? && last.delta > 0 ==> Serve(Life(w, before), last).ok)
  }

  lemma FreshInv(w: World)
    requires Fresh(w)
    ensures Inv(w.cloud.live, w) && Orphans(w.cloud.live, w) == {}
  {
  }

  /**
    Over every life and every pattern of failures: servers that were at the
    provider before are untouched, a Ready cluster has no unrecorded server, and
    the unrecorded servers are exactly what the runs lost.
   */
  lemma {:induction false} NoServerIsLostSilently(w: World, requests: seq<Request>)
    requires Fresh(w)
    ensures var b, v := w.cloud.live, Life(w, requests);
            && Inv(b, v)
            && Orphans(b, v) == LostOver(w, requests)
            && (v.row.status.Ready? ==> LostOver(w, requests) == {})
            && (GrowthSucceeded(w, requests) ==> LostOver(w, requests) == {})
    decreases |requests|
  {
    var b := w.cloud.live;
    if requests == [] {
      FreshInv(w);
      ProvisionAccounts(b, w);
    } else {
      var before, last := requests[..|requests| - 1], requests[|requests| - 1];
      NoServerIsLostSilently(w, before);
      var u := Life(w, before);
      match last {
        case Scale(delta) => ScaleAccounts(b, u, delta);
        case Destroy =>
          DestroyRequestAccounts(b, u);
          DestroyLosesNothing(u);
      }
    }
  }

  lemma DestroyLosesNothing(w: World)
    requires CloudOk(w.cloud)
    ensures Lost(w, DestroyRequest(w).w) == {}
  {
    DestroyShrinks(w);
  }

  /**
    A destroy that reports success, at the end of any life, gives the provider
    back exactly as it was before the cluster existed if and only if no earlier
    run lost a server.
   */
  lemma DestroyGivesTheCloudBack(w: World, requests: seq<Request>)
    requires Fresh(w) && DestroyRequest(Life(w, requests)).ok
    ensures var v := DestroyRequest(Life(w, requests)).w;
            && (v.cloud.live == w.cloud.live <==> LostOver(w, requests) == {})
            && v.cloud.live.Keys == w.cloud.live.Keys + LostOver(w, requests)
            && RowIds(v.servers) == {} && v.row.deleted && v.row.status.Destroyed?
  {
    NoServerIsLostSilently(w, requests);
    var b, u := w.cloud.live, Life(w, requests);
    DestroyRequestAccounts(b, u);
    SameMapOrMore(b, DestroyRequest(u).w.cloud.live, Orphans(b, u));
  }

  lemma SameMapOrMore(b: map<ServerId, Host>, live: map<ServerId, Host>, more: set<ServerId>)
    requires live.Keys == b.Keys + more && more !! b.Keys && forall i :: i in b ==> live[i] == b[i]
    ensures live == b <==> more == {}
  {
    if more == {} {
      assert live.Keys == b.Keys;
    } else {
      var i :| i in more;
      assert i in live.Keys && i !in b.Keys;
    }
  }

  // -------------------------------------------------------------------- destroy again

  /** What destroys may have changed: rows all dropped or none, servers only fewer. */
  ghost predicate Tearing(w: World, v: World) {
    && (v.servers == w.servers || v.servers == AllDeleted(w.servers))
    && v.row == w.row.(status := v.row.status, deleted := v.row.deleted)
    && v.cloud == w.cloud.(live := v.cloud.live)
    && (forall i :: i in v.cloud.live ==> i in w.cloud.live && v.cloud.live[i] == w.cloud.live[i])
  }

  lemma TearingTrans(a: World, b: World, c: World)
    requires Tearing(a, b) && Tearing(b, c)
    ensures Tearing(a, c)
  {
    assert AllDeleted(AllDeleted(a.servers)) == AllDeleted(a.servers);
  }

  lemma FinalizeFrame(w: World)
    ensures var f := FinalizeDestroy(w);
            && f.w == w.(faults := f.w.faults, row := f.w.row, secrets := f.w.secrets)
            && f.w.row == w.row.(status := f.w.row.status, deleted := f.w.row.deleted)
            && (f.ok ==> f.w.row.status.Destroyed? && f.w.row.deleted)
  {
    hide DeleteSecret;
    var handle := GetCluster(w);
    if handle.w.row.kubeconfig.Some? { DeleteSecretFrame(handle.w, handle.w.row.kubeconfig.value); }
  }

  lemma DestroyWorkflowShrinks(w: World)
    ensures var gone := DestroyCluster(w, DoomedIds(ListServers(w)));
            && Tearing(w, gone.w) && gone.w.servers == w.servers && gone.w.row == w.row
  {
    var ids := DoomedIds(ListServers(w));
    var k, tried := DeleteServersPrefix(Publish(w, Step(DestroyingServers)), ids);
  }

  lemma TearingTail(w: World, u: World)
    requires Tearing(w, u) && u.servers == w.servers
    ensures Tearing(w, MarkFailed(u)) && Tearing(w, SoftDeleteServers(u).w)
    ensures Tearing(w, FinalizeDestroy(SoftDeleteServers(u).w).w)
    ensures SoftDeleteServers(u).ok && FinalizeDestroy(SoftDeleteServers(u).w).ok ==>
              var v := FinalizeDestroy(SoftDeleteServers(u).w).w;
              v.servers == AllDeleted(w.servers) && v.row.status.Destroyed? && v.row.deleted
  {
    FinalizeFrame(SoftDeleteServers(u).w);
  }

  /** One destroy only tears down; a reported success dropped every row. */
  lemma DestroyShrinks(w: World)
    ensures var r := DestroyRequest(w);
            Tearing(w, r.w)
            && (r.ok ==> r.w.servers == AllDeleted(w.servers) && r.w.row.status.Destroyed? && r.w.row.deleted)
  {
    hide DestroyCluster, FinalizeDestroy, SoftDeleteServers, MarkFailed;
    var credential := Attempt(GetCluster(w).w);
    var begun := BeginDestroy(credential.w);
    var listed := Attempt(begun.w);
    assert Tearing(w, begun.w) && Tearing(w, listed.w);
    var gone := DestroyCluster(listed.w, DoomedIds(ListServers(listed.w)));
    DestroyWorkflowShrinks(listed.w);
    TearingTrans(w, listed.w, gone.w);
    TearingTail(w, gone.w);
  }

  /** `n` destroy requests, one after another; the outcome is that of the last. */
  function Destroys(w: World, n: nat): Out
    requires n > 0
  {
    DestroyRequest(if n == 1 then w else Destroys(w, n - 1).w)
  }

  /**
    However many destroys failed before, the first one that succeeds ends in the
    state of one undisturbed destroy: same provider, same rows, same cluster row.
   */
  lemma DestroyRetriesConverge(b: map<ServerId, Host>, w: World, n: nat)
    requires n > 0 && Inv(b, w) && Destroys(w, n).ok
    ensures var v, clean := Destroys(w, n).w, DestroyRequest(w.(faults := []));
            clean.ok && v.cloud == clean.w.cloud && v.servers == clean.w.servers && v.row == clean.w.row
  {
    hide DestroyRequest;
    DestroysTear(b, w, n);
    var v := Destroys(w, n).w;
    var w' := w.(faults := []);
    InvSame(b, w, w');
    CleanDestroy(w');
    DestroyRequestAccounts(b, w');
    DestroyShrinks(w');
    var clean := DestroyRequest(w').w;
    assert v.cloud.live.Keys == clean.cloud.live.Keys;
    assert v.cloud.live == clean.cloud.live;
  }

  lemma {:induction false} DestroysTear(b: map<ServerId, Host>, w: World, n: nat)
    requires n > 0 && Inv(b, w)
    ensures var r := Destroys(w, n);
            && Inv(b, r.w) && Orphans(b, r.w) == Orphans(b, w) && Tearing(w, r.w)
            && (r.ok ==> Erased(b, w, r.w) && r.w.servers == AllDeleted(w.servers) && !w.row.deleted)
  {
    hide DestroyRequest, Inv;
    var u := if n == 1 then w else Destroys(w, n - 1).w;
    HiddenStaysHidden(w, n);
    if n > 1 {
      DestroysTear(b, w, n - 1);
    }
    DestroyRequestAccounts(b, u);
    DestroyShrinks(u);
    assert Tearing(w, w);
    TearingTrans(w, u, DestroyRequest(u).w);
    assert AllDeleted(AllDeleted(w.servers)) == AllDeleted(w.servers);
  }

  lemma {:induction false} HiddenStaysHidden(w: World, n: nat)
    requires n > 0
    ensures w.row.deleted ==> Destroys(w, n).w.row == w.row && !Destroys(w, n).ok
  {
    if n > 1 { HiddenStaysHidden(w, n - 1); }
  }

  lemma CleanDestroy(w: World)
    requires w.faults == [] && !w.row.deleted && !w.row.status.Destroyed?
    ensures DestroyRequest(w).ok
  {
    var begun := BeginDestroy(Attempt(GetCluster(w).w).w);
    assert begun.ok && begun.w.faults == [];
    var listed := Attempt(begun.w);
    CleanDelete(Publish(listed.w, Step(DestroyingServers)), DoomedIds(ListServers(listed.w)));
    var gone := DestroyCluster(listed.w, DoomedIds(ListServers(listed.w)));
    var k, tried := DeleteServersPrefix(Publish(listed.w, Step(DestroyingServers)), DoomedIds(ListServers(listed.w)));
    assert gone.ok && gone.w.faults == [] && !gone.w.row.deleted;
    assert FinalizeDestroy(SoftDeleteServers(gone.w).w).ok;
  }

  /**
    A destroy interrupted between hiding the row and marking it Destroyed can not
    be finished: no later request of any kind changes anything.
   */
  lemma {:induction false} HiddenIsFinal(w: World, requests: seq<Request>)
    requires w.row.deleted
    ensures var v := ServeAll(w, requests);
            v == w.(faults := v.faults)
    decreases |requests|
  {
    if requests != [] {
      HiddenIsFinal(w, requests[..|requests| - 1]);
    }
  }

  function ServeAll(w: World, requests: seq<Request>): World
    decreases |requests|
  {
    if requests == [] then w else Serve(ServeAll(w, requests[..|requests| - 1]), requests[|requests| - 1]).w
  }

  /** Such an interruption exists for every visible cluster. */
  lemma InterruptedFinalize(w: World)
    requires !w.row.deleted
    ensures exists faults ::
              var f := FinalizeDestroy(w.(faults := faults));
              !f.ok && f.w.row == w.row.(deleted := true)
  {
    var ok, no := Fault(Clean, 0, Running(true)), Fault(Refused, 0, Running(true));
    var faults := if w.row.kubeconfig.Some? then [ok, ok, ok, no] else [ok, ok, no];
    var f := FinalizeDestroy(w.(faults := faults));
    assert !f.ok && f.w.row == w.row.(deleted := true);
  }
}
