/**
  What a run tells its subscribers: a first part of its list of steps, then at
  most one terminal event; `ready` and `destroyed` are only sent after all steps
  and after that status was written.
 */
module FleetEvents {
  import opened FleetModel
  import opened FleetRuns
  import opened FleetInvariant
  import opened FleetTeardown
  import opened FleetSafety

  const ADD_STEPS := [CreatingWorkers, WaitingCloudInitWorkers, InstallingK3sAgents]
  const PROVISION_STEPS :=
    [CreatingControlPlane, WaitingCloudInitCp, InstallingK3sServer,
     CreatingWorkers, WaitingCloudInitWorkers, InstallingK3sAgents, CollectingKubeconfig, Finished]
  const SCALE_OUT_STEPS := [CreatingWorkers, WaitingCloudInitWorkers, InstallingK3sAgents, Finished]
  const SCALE_IN_STEPS := [DrainingNodes, DeletingNodes, DestroyingServers, Finished]
  const DESTROY_STEPS := [DestroyingServers, Finished]

  function StepEvents(steps: seq<StepName>): (events: seq<Event>)
    ensures |events| == |steps| && forall i :: 0 <= i < |steps| ==> events[i] == Step(steps[i])
  {
    seq(|steps|, i requires 0 <= i < |steps| => Step(steps[i]))
  }

  /** Exactly the first `k` steps were announced since `w`. */
  predicate Told(w: World, v: World, steps: seq<StepName>, k: nat) {
    k <= |steps| && v.events == w.events + StepEvents(steps[..k])
  }

  lemma Tell(w: World, u: World, steps: seq<StepName>, k: nat)
    requires Told(w, u, steps, k) && k < |steps|
    ensures Told(w, Publish(u, Step(steps[k])), steps, k + 1)
  {
    assert StepEvents(steps[..k + 1]) == StepEvents(steps[..k]) + [Step(steps[k])];
  }

  // ------------------------------------------------------------ steps that say nothing

  lemma {:induction false} WaitIsSilent(w: World, id: ServerId, left: nat)
    ensures WaitForCloudInit(w, id, left).w.events == w.events
    decreases left
  {
    if left > 0 && Next(w).reply.Clean? && Next(w).boot.Initializing? { WaitIsSilent(Tick(w), id, left - 1); }
  }

  lemma {:induction false} CreateIsSilent(w: World, start: nat, count: nat, ids: seq<ServerId>)
    ensures CreateWorkers(w, start, count, ids).w.events == w.events
    decreases count
  {
    if count > 0 {
      var made := CreateServer(w, WorkerName(w.row.name, start));
      if made.value.Some? { CreateIsSilent(made.w, start + 1, count - 1, ids + [made.value.value]); }
    }
  }

  lemma {:induction false} AwaitIsSilent(w: World, ids: seq<ServerId>, views: seq<View>)
    ensures AwaitWorkers(w, ids, views).w.events == w.events
    decreases |ids|
  {
    if ids != [] {
      WaitIsSilent(w, ids[0], w.maxPolls);
      var booted := WaitForCloudInit(w, ids[0], w.maxPolls);
      if booted.value.Some? { AwaitIsSilent(booted.w, ids[1..], views + [booted.value.value]); }
    }
  }

  lemma {:induction false} JoinIsSilent(w: World, views: seq<View>)
    ensures JoinWorkers(w, views).w.events == w.events
    decreases |views|
  {
    if views != [] && views[0].hasIpv4 {
      var joined := JoinNode(w, views[0].id);
      if joined.ok { JoinIsSilent(joined.w, views[1..]); }
    }
  }

  lemma {:induction false} RecordIsSilent(w: World, views: seq<View>, role: Role)
    ensures var r := RecordServers(w, views, role); r.w.events == w.events && r.w.row == w.row
    decreases |views|
  {
    if views != [] {
      var r := RecordServer(w, views[0], role);
      if r.ok { RecordIsSilent(r.w, views[1..], role); }
    }
  }

  lemma {:induction false} ForgetIsSilent(w: World, rows: seq<ServerRow>)
    ensures ForgetServers(w, rows).events == w.events
    decreases |rows|
  {
    if rows != [] { ForgetIsSilent(ForgetServer(w, rows[0].serverId), rows[1..]); }
  }

  // ------------------------------------------------------------------------- workflows

  lemma AddWorkersTells(w0: World, w: World, start: nat, count: nat, steps: seq<StepName>, from: nat) returns (k: nat)
    requires Told(w0, w, steps, from) && from + 3 <= |steps| && steps[from..from + 3] == ADD_STEPS
    ensures var added := AddWorkers(w, start, count);
            from < k <= from + 3 && Told(w0, added.w, steps, k) && (added.value.Some? ==> k == from + 3)
  {
    hide CreateWorkers, AwaitWorkers, JoinWorkers, Told;
    assert steps[from] == ADD_STEPS[0] && steps[from + 1] == ADD_STEPS[1] && steps[from + 2] == ADD_STEPS[2];
    var w1 := Publish(w, Step(CreatingWorkers));
    Tell(w0, w, steps, from);
    CreateIsSilent(w1, start, count, []);
    var made := CreateWorkers(w1, start, count, []);
    ToldQuietly(w0, w1, made.w, steps, from + 1);
    k := from + 1;
    if made.value.Some? {
      var w2 := Publish(made.w, Step(WaitingCloudInitWorkers));
      Tell(w0, made.w, steps, from + 1);
      AwaitIsSilent(w2, made.value.value, []);
      var booted := AwaitWorkers(w2, made.value.value, []);
      ToldQuietly(w0, w2, booted.w, steps, from + 2);
      k := from + 2;
      if booted.value.Some? {
        var w3 := Publish(booted.w, Step(InstallingK3sAgents));
        Tell(w0, booted.w, steps, from + 2);
        JoinIsSilent(w3, booted.value.value);
        ToldQuietly(w0, w3, JoinWorkers(w3, booted.value.value).w, steps, from + 3);
        k := from + 3;
      }
    }
  }

  lemma ToldQuietly(w: World, u: World, v: World, steps: seq<StepName>, k: nat)
    requires Told(w, u, steps, k) && v.events == u.events
    ensures Told(w, v, steps, k)
  {
  }

  lemma AddControlPlaneTells(w: World) returns (k: nat)
    ensures var cp := AddControlPlane(w);
            0 < k <= 3 && Told(w, cp.w, PROVISION_STEPS, k) && (cp.value.Some? ==> k == 3)
  {
    hide WaitForCloudInit, Told;
    var w1 := Publish(w, Step(CreatingControlPlane));
    assert Told(w, w, PROVISION_STEPS, 0) by { ToldNothing(w, PROVISION_STEPS); }
    Tell(w, w, PROVISION_STEPS, 0);
    var made := CreateServer(w1, ControlPlaneName(w.row.name));
    ToldQuietly(w, w1, made.w, PROVISION_STEPS, 1);
    k := 1;
    if made.value.Some? {
      var w2 := Publish(made.w, Step(WaitingCloudInitCp));
      Tell(w, made.w, PROVISION_STEPS, 1);
      WaitIsSilent(w2, made.value.value, w.maxPolls);
      var booted := WaitForCloudInit(w2, made.value.value, w.maxPolls);
      ToldQuietly(w, w2, booted.w, PROVISION_STEPS, 2);
      k := 2;
      if booted.value.Some? && booted.value.value.hasIpv4 {
        var w3 := Publish(booted.w, Step(InstallingK3sServer));
        Tell(w, booted.w, PROVISION_STEPS, 2);
        var installed := JoinNode(w3, made.value.value);
        ToldQuietly(w, w3, installed.w, PROVISION_STEPS, 3);
        ToldQuietly(w, w3, Attempt(installed.w).w, PROVISION_STEPS, 3);
        k := 3;
      }
    }
  }

  lemma ToldNothing(w: World, steps: seq<StepName>)
    ensures Told(w, w, steps, 0)
  {
    assert StepEvents(steps[..0]) == [];
  }

  lemma ProvisionTells(w: World, n: nat) returns (k: nat)
    ensures var fleet := ProvisionCluster(w, n);
            Told(w, fleet.w, PROVISION_STEPS, k) && (fleet.value.Some? ==> k == |PROVISION_STEPS|)
  {
    hide AddControlPlane, AddWorkers, Told;
    k := AddControlPlaneTells(w);
    var cp := AddControlPlane(w);
    if cp.value.Some? {
      assert PROVISION_STEPS[3..6] == ADD_STEPS;
      k := AddWorkersTells(w, cp.w, 0, n, PROVISION_STEPS, 3);
      var added := AddWorkers(cp.w, 0, n);
      if added.value.Some? {
        var w1 := Publish(added.w, Step(CollectingKubeconfig));
        Tell(w, added.w, PROVISION_STEPS, 6);
        var collected := Attempt(w1);
        ToldQuietly(w, w1, collected.w, PROVISION_STEPS, 7);
        k := 7;
        if collected.ok {
          Tell(w, collected.w, PROVISION_STEPS, 7);
          k := 8;
        }
      }
    }
  }

  lemma ScaleOutTells(w: World, start: nat, count: nat) returns (k: nat)
    ensures var added := ScaleOut(w, start, count);
            Told(w, added.w, SCALE_OUT_STEPS, k) && (added.value.Some? ==> k == |SCALE_OUT_STEPS|)
  {
    hide AddWorkers, Told;
    ToldNothing(w, SCALE_OUT_STEPS);
    assert SCALE_OUT_STEPS[0..3] == ADD_STEPS;
    k := AddWorkersTells(w, w, start, count, SCALE_OUT_STEPS, 0);
    var added := AddWorkers(w, start, count);
    if added.value.Some? {
      Tell(w, added.w, SCALE_OUT_STEPS, 3);
      k := 4;
    }
  }

  lemma ScaleInTells(w: World, targets: seq<Target>) returns (k: nat)
    ensures var r := ScaleIn(w, targets);
            Told(w, r.w, SCALE_IN_STEPS, k) && (r.ok ==> k == |SCALE_IN_STEPS|) && r.w.row == w.row
  {
    hide DrainNodes, RemoveNodes, DeleteServers, Told;
    ToldNothing(w, SCALE_IN_STEPS);
    var w1 := Publish(w, Step(DrainingNodes));
    Tell(w, w, SCALE_IN_STEPS, 0);
    var a1, b1 := DrainNodesPrefix(w1, NodesOf(targets));
    var drained := DrainNodes(w1, NodesOf(targets));
    ToldQuietly(w, w1, drained.w, SCALE_IN_STEPS, 1);
    k := 1;
    if drained.ok {
      var w2 := Publish(drained.w, Step(DeletingNodes));
      Tell(w, drained.w, SCALE_IN_STEPS, 1);
      var a2, b2 := RemoveNodesPrefix(w2, NodesOf(targets));
      var removed := RemoveNodes(w2, NodesOf(targets));
      ToldQuietly(w, w2, removed.w, SCALE_IN_STEPS, 2);
      k := 2;
      if removed.ok {
        var w3 := Publish(removed.w, Step(DestroyingServers));
        Tell(w, removed.w, SCALE_IN_STEPS, 2);
        var a3, b3 := DeleteServersPrefix(w3, IdsOf(targets));
        var deleted := DeleteServers(w3, IdsOf(targets));
        ToldQuietly(w, w3, deleted.w, SCALE_IN_STEPS, 3);
        k := 3;
        if deleted.ok {
          Tell(w, deleted.w, SCALE_IN_STEPS, 3);
          k := 4;
        }
      }
    }
  }

  lemma DestroyTells(w: World, ids: seq<ServerId>) returns (k: nat)
    ensures var r := DestroyCluster(w, ids);
            Told(w, r.w, DESTROY_STEPS, k) && (r.ok ==> k == |DESTROY_STEPS|) && r.w.row == w.row
  {
    hide DeleteServers, Told;
    ToldNothing(w, DESTROY_STEPS);
    var w1 := Publish(w, Step(DestroyingServers));
    Tell(w, w, DESTROY_STEPS, 0);
    var a, b := DeleteServersPrefix(w1, ids);
    var deleted := DeleteServers(w1, ids);
    ToldQuietly(w, w1, deleted.w, DESTROY_STEPS, 1);
    k := 1;
    if deleted.ok {
      Tell(w, deleted.w, DESTROY_STEPS, 1);
      k := 2;
    }
  }

  // ------------------------------------------------------------------------------ runs

  /**
    The story of a run: steps in order, then silence, a failure, or the good end
    `goal`, which is told only after every step and only once it is true.
   */
  ghost predicate Story(w: World, v: World, steps: seq<StepName>, goal: Status) {
    exists k: nat {:trigger steps[..k]} | k <= |steps| ::
      || v.events == w.events + StepEvents(steps[..k])
      || v.events == w.events + StepEvents(steps[..k]) + [Terminal(Failed)]
      || (k == |steps| && v.events == w.events + StepEvents(steps[..k]) + [Terminal(goal)] && v.row.status == goal)
  }

  lemma StoryOfSilence(w: World, v: World, steps: seq<StepName>, goal: Status, k: nat)
    requires Told(w, v, steps, k)
    ensures Story(w, v, steps, goal)
  {
  }

  lemma StoryOfFailure(w: World, u: World, v: World, steps: seq<StepName>, goal: Status, k: nat)
    requires Told(w, u, steps, k) && v.events == u.events + [Terminal(Failed)]
    ensures Story(w, v, steps, goal)
  {
    assert v.events == w.events + StepEvents(steps[..k]) + [Terminal(Failed)];
  }

  lemma StoryOfSuccess(w: World, u: World, v: World, steps: seq<StepName>, goal: Status)
    requires Told(w, u, steps, |steps|) && v.events == u.events + [Terminal(goal)] && v.row.status == goal
    ensures Story(w, v, steps, goal)
  {
    assert v.events == w.events + StepEvents(steps[..|steps|]) + [Terminal(goal)];
  }

  lemma StoreIsSilent(u: World)
    ensures StoreKubeconfig(u).w.events == u.events
  {
    StoreFrame(u);
  }

  lemma SealTells(u: World)
    ensures var r := SealProvision(u);
            || (!r.ok && r.w.events == u.events)
            || (r.ok && r.w.events == u.events + [Terminal(Ready)] && r.w.row.status.Ready?)
  {
    hide StoreKubeconfig;
    StoreIsSilent(u);
  }

  lemma ProvisionStory(w: World)
    ensures Story(w, RunProvision(w).w, PROVISION_STEPS, Ready)
  {
    hide ProvisionCluster, Story, Told, RecordServers, SealProvision;
    ToldNothing(w, PROVISION_STEPS);
    var v := RunProvision(w).w;
    var shadow := Attempt(UpdateStatus(w, Provisioning).w);
    if v.events == w.events {
      ToldQuietly(w, w, v, PROVISION_STEPS, 0);
      StoryOfSilence(w, v, PROVISION_STEPS, Ready, 0);
    } else {
      var n := if w.row.workerCount < 0 then 0 else w.row.workerCount;
      var fleet := ProvisionCluster(shadow.w, n);
      var k := ProvisionTells(shadow.w, n);
      ToldFrom(w, shadow.w, fleet.w, PROVISION_STEPS, k);
      if fleet.value.None? {
        StoryOfFailure(w, fleet.w, v, PROVISION_STEPS, Ready, k);
      } else {
        FinishStory(w, fleet.w, fleet.value.value);
      }
    }
  }

  lemma ToldFrom(w: World, u: World, v: World, steps: seq<StepName>, k: nat)
    requires Told(u, v, steps, k) && u.events == w.events
    ensures Told(w, v, steps, k)
  {
  }

  lemma FinishStory(w: World, u: World, f: Fleet)
    requires Told(w, u, PROVISION_STEPS, |PROVISION_STEPS|)
    ensures Story(w, FinishProvision(u, f).w, PROVISION_STEPS, Ready)
  {
    hide Story, Told, RecordServers, SealProvision;
    var cp := RecordServer(u, f.controlPlane, ControlPlane);
    RecordIsSilent(cp.w, f.workers, Worker);
    var rest := RecordServers(cp.w, f.workers, Worker);
    SealTells(rest.w);
    var v := FinishProvision(u, f).w;
    if v.events == u.events {
      ToldQuietly(w, u, v, PROVISION_STEPS, |PROVISION_STEPS|);
      StoryOfSilence(w, v, PROVISION_STEPS, Ready, |PROVISION_STEPS|);
    } else {
      StoryOfSuccess(w, u, v, PROVISION_STEPS, Ready);
    }
  }

  lemma ScaleOutStory(w: World, count: nat)
    ensures Story(w, RunScaleOut(w, count).w, SCALE_OUT_STEPS, Ready)
  {
    hide AddAndRecord, Story, Told;
    ToldNothing(w, SCALE_OUT_STEPS);
    var v := RunScaleOut(w, count).w;
    var token := Attempt(Attempt(BeginScaling(w).w).w);
    AddAndRecordStory(w, token.w, |Workers(token.w)|, count);
    if v != AddAndRecord(token.w, |Workers(token.w)|, count).w {
      ToldQuietly(w, w, v, SCALE_OUT_STEPS, 0);
      StoryOfSilence(w, v, SCALE_OUT_STEPS, Ready, 0);
    }
  }

  lemma AddAndRecordStory(w: World, u: World, start: nat, count: nat)
    requires u.events == w.events
    ensures Story(w, AddAndRecord(u, start, count).w, SCALE_OUT_STEPS, Ready)
  {
    hide ScaleOut, RecordServers, Story, Told;
    var v := AddAndRecord(u, start, count).w;
    var k := ScaleOutTells(u, start, count);
    var added := ScaleOut(u, start, count);
    ToldFrom(w, u, added.w, SCALE_OUT_STEPS, k);
    if added.value.None? {
      StoryOfFailure(w, added.w, v, SCALE_OUT_STEPS, Ready, k);
    } else {
      RecordIsSilent(added.w, added.value.value, Worker);
      if v.events == added.w.events {
        ToldQuietly(w, added.w, v, SCALE_OUT_STEPS, k);
        StoryOfSilence(w, v, SCALE_OUT_STEPS, Ready, k);
      } else {
        StoryOfSuccess(w, added.w, v, SCALE_OUT_STEPS, Ready);
      }
    }
  }

  lemma ScaleInStory(w: World, count: nat)
    ensures Story(w, RunScaleIn(w, count).w, SCALE_IN_STEPS, Ready)
  {
    hide RemoveAndForget, Youngest, TargetsOf, Story, Told;
    ToldNothing(w, SCALE_IN_STEPS);
    var v := RunScaleIn(w, count).w;
    var listed := Attempt(BeginScaling(w).w);
    var staged := Attempt(Attempt(GetCluster(listed.w).w).w);
    var doomed := Youngest(Workers(listed.w), count);
    var targets := TargetsOf(w.row.name, Workers(listed.w), doomed);
    RemoveAndForgetStory(w, staged.w, targets, doomed);
    if v != RemoveAndForget(staged.w, targets, doomed).w {
      ToldQuietly(w, w, v, SCALE_IN_STEPS, 0);
      StoryOfSilence(w, v, SCALE_IN_STEPS, Ready, 0);
    }
  }

  lemma RemoveAndForgetStory(w: World, u: World, targets: seq<Target>, doomed: seq<ServerRow>)
    requires u.events == w.events
    ensures Story(w, RemoveAndForget(u, targets, doomed).w, SCALE_IN_STEPS, Ready)
  {
    hide ScaleIn, ForgetServers, Story, Told;
    var v := RemoveAndForget(u, targets, doomed).w;
    var k := ScaleInTells(u, targets);
    var scaled := ScaleIn(u, targets);
    ToldFrom(w, u, scaled.w, SCALE_IN_STEPS, k);
    if !scaled.ok {
      StoryOfFailure(w, scaled.w, v, SCALE_IN_STEPS, Ready, k);
    } else {
      ForgetIsSilent(scaled.w, doomed);
      if v.events == scaled.w.events {
        ToldQuietly(w, scaled.w, v, SCALE_IN_STEPS, k);
        StoryOfSilence(w, v, SCALE_IN_STEPS, Ready, k);
      } else {
        StoryOfSuccess(w, scaled.w, v, SCALE_IN_STEPS, Ready);
      }
    }
  }

  lemma FinalizeIsSilent(w: World)
    ensures var f := FinalizeDestroy(w);
            f.w.events == w.events && (f.ok ==> f.w.row.status.Destroyed?)
  {
    hide DeleteSecret;
    var handle := GetCluster(w);
    if handle.w.row.kubeconfig.Some? { DeleteSecretFrame(handle.w, handle.w.row.kubeconfig.value); }
  }

  lemma DestroyStory(w: World)
    ensures Story(w, RunDestroy(w).w, DESTROY_STEPS, Destroyed)
  {
    hide DestroyCluster, FinalizeDestroy, Story, Told;
    ToldNothing(w, DESTROY_STEPS);
    var v := RunDestroy(w).w;
    var listed := Attempt(BeginDestroy(w).w);
    var ids := DoomedIds(ListServers(listed.w));
    var k := DestroyTells(listed.w, ids);
    var gone := DestroyCluster(listed.w, ids);
    ToldFrom(w, listed.w, gone.w, DESTROY_STEPS, k);
    FinalizeIsSilent(SoftDeleteServers(gone.w).w);
    if v.events == w.events {
      ToldQuietly(w, w, v, DESTROY_STEPS, 0);
      StoryOfSilence(w, v, DESTROY_STEPS, Destroyed, 0);
    } else if !gone.ok {
      StoryOfFailure(w, gone.w, v, DESTROY_STEPS, Destroyed, k);
    } else if v.events == gone.w.events {
      ToldQuietly(w, gone.w, v, DESTROY_STEPS, k);
      StoryOfSilence(w, v, DESTROY_STEPS, Destroyed, k);
    } else {
      StoryOfSuccess(w, gone.w, v, DESTROY_STEPS, Destroyed);
    }
  }
}
