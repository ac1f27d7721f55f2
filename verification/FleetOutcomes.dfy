/**
  How each run closes: what it reports, the last event it publishes and the
  status it leaves belong together. A run that fails outside its workflow closes
  with no event at all.
 */
module FleetOutcomes {
  import opened Environment
  import opened FleetModel
  import opened FleetRuns
  import opened FleetInvariant
  import opened FleetSafety
  import opened FleetEvents
  import opened FleetLoss

  /** The terminal event a run closed with, if it published one. */
  function Closing(w: World, v: World): Option<Status> {
    if |v.events| > |w.events| && v.events[|v.events| - 1].Terminal? then Some(v.events[|v.events| - 1].status) else None
  }

  /** Every step was announced, then this end. */
  predicate ToldAll(w: World, v: World, steps: seq<StepName>, goal: Status) {
    v.events == w.events + StepEvents(steps) + [Terminal(goal)]
  }

  lemma AllSteps(w: World, u: World, v: World, steps: seq<StepName>, goal: Status)
    requires Told(w, u, steps, |steps|) && v.events == u.events + [Terminal(goal)]
    ensures ToldAll(w, v, steps, goal) && Closing(w, v) == Some(goal)
  {
    assert steps[..|steps|] == steps;
  }

  lemma SomeSteps(w: World, u: World, steps: seq<StepName>, k: nat)
    requires Told(w, u, steps, k)
    ensures Closing(w, u) == None && |u.events| >= |w.events|
  {
    if k > 0 {
      var n := |u.events| - 1;
      assert u.events[n] == StepEvents(steps[..k])[k - 1];
    }
  }

  lemma ClosedWith(w: World, u: World, v: World, goal: Status)
    requires |u.events| >= |w.events| && v.events == u.events + [Terminal(goal)]
    ensures Closing(w, v) == Some(goal)
  {
  }

  lemma Unsaid(w: World, v: World)
    requires v.events == w.events
    ensures Closing(w, v) == None
  {
  }

  lemma SameClosing(w: World, u: World, v: World)
    requires u.events == w.events
    ensures Closing(u, v) == Closing(w, v)
  {
  }

  // ------------------------------------------------------------------------- provision

  /** The provisioning workflow itself reports an error. */
  predicate ProvisionFails(w: World) {
    Begun(w).Some? && ProvisionCluster(Begun(w).value, Workforce(w)).value.None?
  }

  /** The status write at the end of a failed workflow was not refused. */
  predicate Written(u: World) { !Next(u).reply.Refused? }

  /**
    A provision reports success exactly when it closes with `ready`, after all its
    steps; it closes with `failed` exactly when the workflow failed, and then the
    cluster is Failed unless that very write was refused.
   */
  lemma ProvisionOutcome(w: World)
    requires CloudOk(w.cloud)
    ensures var r := RunProvision(w);
            && (r.ok <==> Closing(w, r.w) == Some(Ready))
            && (r.ok ==> ToldAll(w, r.w, PROVISION_STEPS, Ready) && r.w.row.status.Ready?)
            && (ProvisionFails(w) <==> Closing(w, r.w) == Some(Failed))
            && (ProvisionFails(w) ==>
                  r.w.row.status == if Written(ProvisionCluster(Begun(w).value, Workforce(w)).w) then Failed else Provisioning)
  {
    hide ProvisionCluster, FinishProvision, Told, Closing, ToldAll;
    if Begun(w).Some? {
      var u, n := Begun(w).value, Workforce(w);
      var fleet := ProvisionCluster(u, n);
      var k := ProvisionTells(u, n);
      ToldFrom(w, u, fleet.w, PROVISION_STEPS, k);
      SomeSteps(w, fleet.w, PROVISION_STEPS, k);
      if fleet.value.None? {
        ClosedWith(w, fleet.w, RunProvision(w).w, Failed);
        ProvisionClusterMakes(u, n);
      } else {
        FinishOutcome(w, fleet.w, fleet.value.value);
      }
    } else {
      NotBegun(w);
      Unsaid(w, RunProvision(w).w);
    }
  }

  lemma NotBegun(w: World)
    requires Begun(w).None?
    ensures !RunProvision(w).ok && RunProvision(w).w.events == w.events
  {
    hide ProvisionCluster, FinishProvision;
  }

  lemma FinishOutcome(w: World, u: World, f: Fleet)
    requires Told(w, u, PROVISION_STEPS, |PROVISION_STEPS|)
    ensures var r := FinishProvision(u, f);
            if r.ok then ToldAll(w, r.w, PROVISION_STEPS, Ready) && Closing(w, r.w) == Some(Ready) && r.w.row.status.Ready?
            else Closing(w, r.w) == None
  {
    hide Told, Closing, ToldAll, RecordServers, SealProvision;
    var cp := RecordServer(u, f.controlPlane, ControlPlane);
    RecordIsSilent(cp.w, f.workers, Worker);
    var rest := RecordServers(cp.w, f.workers, Worker);
    SealTells(rest.w);
    var r := FinishProvision(u, f);
    if r.ok {
      AllSteps(w, u, r.w, PROVISION_STEPS, Ready);
    } else {
      ToldQuietly(w, u, r.w, PROVISION_STEPS, |PROVISION_STEPS|);
      SomeSteps(w, r.w, PROVISION_STEPS, |PROVISION_STEPS|);
    }
  }

  // ------------------------------------------------------------------------- scale-out

  predicate ScaleOutFails(w: World, count: nat) {
    Launched(w).Some? && ScaleOut(Launched(w).value, |Workers(Launched(w).value)|, count).value.None?
  }

  /** The same for a scale-out; an error before its workflow starts leaves it Scaling, with nothing said. */
  lemma ScaleOutOutcome(w: World, count: nat)
    requires CloudOk(w.cloud)
    ensures var r := RunScaleOut(w, count);
            && (r.ok <==> Closing(w, r.w) == Some(Ready))
            && (r.ok ==> ToldAll(w, r.w, SCALE_OUT_STEPS, Ready) && r.w.row.status.Ready?)
            && (ScaleOutFails(w, count) <==> Closing(w, r.w) == Some(Failed))
            && (ScaleOutFails(w, count) ==>
                  r.w.row.status == if Written(ScaleOut(Launched(w).value, |Workers(Launched(w).value)|, count).w) then Failed else Scaling)
            && (Launched(w).None? ==> r.w.events == w.events && (BeginScaling(w).ok ==> r.w.row.status.Scaling?))
  {
    hide AddAndRecord, Told, Closing, ToldAll, ScaleOut, Pick;
    if Launched(w).Some? {
      var u := Launched(w).value;
      LaunchedRuns(w, count);
      assert u.events == w.events && u.row.status.Scaling?;
      AddAndRecordOutcome(w, u, |Workers(u)|, count);
    } else {
      Unsaid(w, RunScaleOut(w, count).w);
    }
  }

  lemma AddAndRecordOutcome(w: World, u: World, start: nat, count: nat)
    requires CloudOk(u.cloud) && u.events == w.events && u.row.status.Scaling?
    ensures var r, added := AddAndRecord(u, start, count), ScaleOut(u, start, count);
            if added.value.None? then
              && !r.ok && Closing(w, r.w) == Some(Failed)
              && r.w.row.status == (if Written(added.w) then Failed else Scaling)
            else if r.ok then ToldAll(w, r.w, SCALE_OUT_STEPS, Ready) && Closing(w, r.w) == Some(Ready) && r.w.row.status.Ready?
            else Closing(w, r.w) == None
  {
    hide AddWorkers, Told, Closing, ToldAll, RecordServers;
    var k := ScaleOutTells(u, start, count);
    var r, added := AddAndRecord(u, start, count), ScaleOut(u, start, count);
    ToldFrom(w, u, added.w, SCALE_OUT_STEPS, k);
    SomeSteps(w, added.w, SCALE_OUT_STEPS, k);
    if added.value.None? {
      AddWorkersMake(u, start, count);
      ClosedWith(w, added.w, r.w, Failed);
    } else {
      RecordIsSilent(added.w, added.value.value, Worker);
      if r.ok {
        AllSteps(w, added.w, r.w, SCALE_OUT_STEPS, Ready);
      } else {
        ToldQuietly(w, added.w, r.w, SCALE_OUT_STEPS, k);
        SomeSteps(w, r.w, SCALE_OUT_STEPS, k);
      }
    }
  }

  // -------------------------------------------------------------------------- scale-in

  /** Where a scale-in starts draining, if it gets there. */
  function Staged(w: World): Option<World> {
    var begun := BeginScaling(w);
    var listed := Attempt(begun.w);
    var handle := GetCluster(listed.w);
    var fetched := Attempt(handle.w);
    var staged := Attempt(fetched.w);
    if begun.ok && listed.ok && handle.ok && w.row.kubeconfig.Some? && fetched.ok && staged.ok then Some(staged.w) else None
  }

  function DoomedTargets(w: World, count: nat): seq<Target> {
    TargetsOf(w.row.name, Workers(w), Youngest(Workers(w), count))
  }

  predicate ScaleInFails(w: World, count: nat) {
    Staged(w).Some? && !ScaleIn(Staged(w).value, DoomedTargets(w, count)).ok
  }

  /** The same for a scale-in. */
  lemma ScaleInOutcome(w: World, count: nat)
    ensures var r := RunScaleIn(w, count);
            && (r.ok <==> Closing(w, r.w) == Some(Ready))
            && (r.ok ==> ToldAll(w, r.w, SCALE_IN_STEPS, Ready) && r.w.row.status.Ready?)
            && (ScaleInFails(w, count) <==> Closing(w, r.w) == Some(Failed))
            && (ScaleInFails(w, count) ==>
                  r.w.row.status == if Written(ScaleIn(Staged(w).value, DoomedTargets(w, count)).w) then Failed else Scaling)
            && (Staged(w).None? ==> r.w.events == w.events && (BeginScaling(w).ok ==> r.w.row.status.Scaling?))
  {
    hide RemoveAndForget, Told, Closing, ToldAll, ScaleIn, Pick, Youngest;
    if Staged(w).Some? {
      StagedRuns(w, count);
      RemoveAndForgetOutcome(w, Staged(w).value, DoomedTargets(w, count), Youngest(Workers(w), count));
    } else {
      NotStaged(w, count);
      Unsaid(w, RunScaleIn(w, count).w);
    }
  }

  lemma StagedRuns(w: World, count: nat)
    requires Staged(w).Some?
    ensures var u := Staged(w).value;
            && RunScaleIn(w, count) == RemoveAndForget(u, DoomedTargets(w, count), Youngest(Workers(w), count))
            && u.events == w.events && u.row.status.Scaling?
  {
    hide RemoveAndForget, Pick, Youngest;
  }

  lemma NotStaged(w: World, count: nat)
    requires Staged(w).None?
    ensures var r := RunScaleIn(w, count);
            !r.ok && r.w.events == w.events && (BeginScaling(w).ok ==> r.w.row.status.Scaling?)
  {
    hide RemoveAndForget, Pick, Youngest;
  }

  lemma RemoveAndForgetOutcome(w: World, u: World, targets: seq<Target>, doomed: seq<ServerRow>)
    requires u.events == w.events && u.row.status.Scaling?
    ensures var r, scaled := RemoveAndForget(u, targets, doomed), ScaleIn(u, targets);
            if !scaled.ok then
              && !r.ok && Closing(w, r.w) == Some(Failed)
              && r.w.row.status == (if Written(scaled.w) then Failed else Scaling)
            else if r.ok then ToldAll(w, r.w, SCALE_IN_STEPS, Ready) && Closing(w, r.w) == Some(Ready) && r.w.row.status.Ready?
            else Closing(w, r.w) == None
  {
    hide Told, Closing, ToldAll, ScaleIn, ForgetServers;
    var k := ScaleInTells(u, targets);
    var r, scaled := RemoveAndForget(u, targets, doomed), ScaleIn(u, targets);
    ToldFrom(w, u, scaled.w, SCALE_IN_STEPS, k);
    SomeSteps(w, scaled.w, SCALE_IN_STEPS, k);
    if !scaled.ok {
      ClosedWith(w, scaled.w, r.w, Failed);
    } else {
      ForgetIsSilent(scaled.w, doomed);
      if r.ok {
        AllSteps(w, scaled.w, r.w, SCALE_IN_STEPS, Ready);
      } else {
        ToldQuietly(w, scaled.w, r.w, SCALE_IN_STEPS, k);
        SomeSteps(w, r.w, SCALE_IN_STEPS, k);
      }
    }
  }

  // --------------------------------------------------------------------------- destroy

  /** Where a destroy starts deleting, if it gets there. */
  function Doomed(w: World): Option<World> {
    var begun := BeginDestroy(w);
    var listed := Attempt(begun.w);
    if begun.ok && listed.ok then Some(listed.w) else None
  }

  predicate DestroyFails(w: World) {
    Doomed(w).Some? && !DestroyCluster(Doomed(w).value, DoomedIds(ListServers(w))).ok
  }

  /** And for a destroy, which closes with `destroyed`. */
  lemma DestroyOutcome(w: World)
    ensures var r := RunDestroy(w);
            && (r.ok <==> Closing(w, r.w) == Some(Destroyed))
            && (r.ok ==> ToldAll(w, r.w, DESTROY_STEPS, Destroyed) && r.w.row.status.Destroyed?)
            && (DestroyFails(w) <==> Closing(w, r.w) == Some(Failed))
            && (DestroyFails(w) ==>
                  r.w.row.status == if Written(DestroyCluster(Doomed(w).value, DoomedIds(ListServers(w))).w) then Failed else Destroying)
  {
    hide DestroyCluster, FinalizeDestroy, Told, Closing, ToldAll, Pick;
    if Doomed(w).Some? {
      var u := Doomed(w).value;
      assert u.events == w.events && u.servers == w.servers && u.row.status.Destroying?;
      var ids := DoomedIds(ListServers(w));
      var k := DestroyTells(u, ids);
      var gone, r := DestroyCluster(u, ids), RunDestroy(w);
      ToldFrom(w, u, gone.w, DESTROY_STEPS, k);
      SomeSteps(w, gone.w, DESTROY_STEPS, k);
      FinalizeIsSilent(SoftDeleteServers(gone.w).w);
      if !gone.ok {
        ClosedWith(w, gone.w, r.w, Failed);
      } else if r.ok {
        AllSteps(w, gone.w, r.w, DESTROY_STEPS, Destroyed);
      } else {
        ToldQuietly(w, gone.w, r.w, DESTROY_STEPS, k);
        SomeSteps(w, r.w, DESTROY_STEPS, k);
      }
    } else {
      Unsaid(w, RunDestroy(w).w);
    }
  }
}
