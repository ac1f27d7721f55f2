/**
  Rows of deleted servers. When the soft-deletes of a scale-in do not take
  effect, its rows stay, and they are the first the next scale-in picks.
 */
module FleetStale {
  import opened Environment
  import opened FleetModel
  import opened FleetRuns
  import opened FleetInvariant
  import opened FleetTeardown
  import opened FleetLife

  function Doomed(w: World, count: nat): seq<ServerRow> { Youngest(Workers(w), count) }

  /** The servers a scale-in of `count` aims at. */
  ghost function Aimed(w: World, count: nat): set<ServerId> {
    Members(IdsOf(TargetsOf(w.row.name, Workers(w), Doomed(w, count))))
  }

  lemma AimedIs(w: World, count: nat, i: ServerId)
    ensures i in Aimed(w, count) <==> exists j :: 0 <= j < |Doomed(w, count)| && ProviderId(Doomed(w, count)[j].serverId) == i
  {
    hide Youngest, Pick, Ascending, IndexOf;
    var targets := TargetsOf(w.row.name, Workers(w), Doomed(w, count));
    if i in Aimed(w, count) {
      var j :| 0 <= j < |IdsOf(targets)| && IdsOf(targets)[j] == i;
      assert targets[j].id == ProviderId(Doomed(w, count)[j].serverId);
    }
    if j :| 0 <= j < |Doomed(w, count)| && ProviderId(Doomed(w, count)[j].serverId) == i {
      assert IdsOf(targets)[j] == i;
    }
  }

  lemma RemoveAndForgetAims(w: World, targets: seq<Target>, doomed: seq<ServerRow>)
    ensures var r := RemoveAndForget(w, targets, doomed);
            && OnlyDeletes(w.cloud, r.w.cloud) && (forall i :: i in r.w.cloud.live ==> r.w.cloud.live[i] == w.cloud.live[i])
            && (forall i :: i in w.cloud.live && i !in r.w.cloud.live ==> i in Members(IdsOf(targets)))
            && (r.ok ==> r.w.cloud.live == w.cloud.live - Members(IdsOf(targets)))
  {
    hide ScaleIn, ForgetServers;
    var gone := ScaleInRemovesPrefix(w, targets);
    ForgetKeepsCloud(ScaleIn(w, targets).w, doomed);
    assert forall i :: i in IdsOf(targets)[..gone] ==> i in IdsOf(targets);
  }

  /** A scale-in only deletes what it aims at, and all of it when it reports success. */
  lemma ScaleInAims(w: World, count: nat)
    ensures var r := RunScaleIn(w, count);
            && OnlyDeletes(w.cloud, r.w.cloud) && (forall i :: i in r.w.cloud.live ==> r.w.cloud.live[i] == w.cloud.live[i])
            && (forall i :: i in w.cloud.live && i !in r.w.cloud.live ==> i in Aimed(w, count))
            && (r.ok ==> r.w.cloud.live == w.cloud.live - Aimed(w, count))
  {
    hide RemoveAndForget, Youngest, TargetsOf;
    var begun := BeginScaling(w);
    var listed := Attempt(begun.w);
    var staged := Attempt(Attempt(GetCluster(listed.w).w).w);
    RemoveAndForgetAims(staged.w, TargetsOf(w.row.name, Workers(w), Doomed(w, count)), Doomed(w, count));
  }

  lemma SamePick(w: World, c: nat, d: nat, j: nat)
    requires j < c && j < |Doomed(w, d)|
    ensures j < |Doomed(w, c)| && Doomed(w, c)[j] == Doomed(w, d)[j]
  {
    hide Descending, Pick;
  }

  /**
    After a scale-in of `c` that reported success and whose soft-deletes all had
    no effect, the next scale-in of `d` picks the same `c` rows first: it deletes
    no live server if `d <= c`, and otherwise only servers of the rows behind them.
   */
  lemma StaleRowsComeFirst(w: World, c: nat, d: nat)
    requires RunScaleIn(w, c).ok && RunScaleIn(w, c).w.servers == w.servers
    ensures var v := RunScaleIn(w, c).w;
            var next := RunScaleIn(v, d).w;
            && (d <= c ==> next.cloud == v.cloud)
            && (forall i :: i in v.cloud.live && i !in next.cloud.live ==>
                  exists j :: c <= j < |Doomed(v, d)| && ProviderId(Doomed(v, d)[j].serverId) == i)
  {
    hide RunScaleIn, Aimed, Youngest, Pick;
    ScaleInAims(w, c);
    var v := RunScaleIn(w, c).w;
    ScaleInAims(v, d);
    var next := RunScaleIn(v, d).w;
    assert Doomed(v, c) == Doomed(w, c);
    forall i | i in v.cloud.live && i !in next.cloud.live
      ensures exists j :: c <= j < |Doomed(v, d)| && ProviderId(Doomed(v, d)[j].serverId) == i
    {
      BehindTheStale(w, v, c, d, i);
    }
    if d <= c {
      DoomedLength(v, d);
      KeepsAll(v.cloud, next.cloud);
    }
  }

  lemma KeepsAll(a: Cloud, b: Cloud)
    requires OnlyDeletes(a, b) && (forall i :: i in a.live ==> i in b.live) && forall i :: i in b.live ==> b.live[i] == a.live[i]
    ensures b == a
  {
  }

  lemma DoomedLength(w: World, count: nat)
    ensures |Doomed(w, count)| <= count
  {
    hide Descending, Pick;
  }

  lemma BehindTheStale(w: World, v: World, c: nat, d: nat, i: ServerId)
    requires Doomed(v, c) == Doomed(w, c) && i in Aimed(v, d) && i !in Aimed(w, c)
    ensures exists j :: c <= j < |Doomed(v, d)| && ProviderId(Doomed(v, d)[j].serverId) == i
  {
    hide Aimed, Youngest, Pick;
    AimedIs(v, d, i);
    AimedIs(w, c, i);
    var j :| 0 <= j < |Doomed(v, d)| && ProviderId(Doomed(v, d)[j].serverId) == i;
    if j < c {
      SamePick(v, c, d, j);
    }
  }

  /** Soft-deletes that are all refused leave every row. */
  lemma {:induction false} RefusedForgetsKeepRows(w: World, rows: seq<ServerRow>)
    requires |rows| <= |w.faults| && forall i :: 0 <= i < |rows| ==> w.faults[i].reply.Refused?
    ensures ForgetServers(w, rows).servers == w.servers && ForgetServers(w, rows).faults == w.faults[|rows|..]
    decreases |rows|
  {
    if rows == [] {
      assert w.faults[0..] == w.faults;
    } else {
      var v := ForgetServer(w, rows[0].serverId);
      assert forall i :: 0 <= i < |rows| - 1 ==> v.faults[i] == w.faults[i + 1];
      RefusedForgetsKeepRows(v, rows[1..]);
    }
  }

  // -------------------------------------------------------------- that this happens

  ghost predicate CleanFor(w: World, n: nat) {
    n <= |w.faults| && forall i :: 0 <= i < n ==> w.faults[i].reply.Clean?
  }

  lemma TickClean(w: World, v: World, n: nat)
    requires n > 0 && CleanFor(w, n) && v.faults == w.faults[1..]
    ensures Next(w).reply.Clean? && CleanFor(v, n - 1) && v.faults[n - 1..] == w.faults[n..]
  {
    assert forall i :: 0 <= i < n - 1 ==> v.faults[i] == w.faults[i + 1];
  }

  lemma {:induction false} DrainsClean(w: World, names: seq<Host>)
    requires CleanFor(w, |names|)
    ensures DrainNodes(w, names).ok && DrainNodes(w, names).w.faults == w.faults[|names|..]
    decreases |names|
  {
    hide CleanFor;
    if names == [] {
      assert w.faults[0..] == w.faults;
    } else {
      CleanNonEmpty(w, |names|);
      var d := DrainNode(w, names[0]);
      TickClean(w, d.w, |names|);
      DrainsClean(d.w, names[1..]);
    }
  }

  lemma {:induction false} RemovesClean(w: World, names: seq<Host>)
    requires CleanFor(w, |names|)
    ensures RemoveNodes(w, names).ok && RemoveNodes(w, names).w.faults == w.faults[|names|..]
    decreases |names|
  {
    hide CleanFor;
    if names == [] {
      assert w.faults[0..] == w.faults;
    } else {
      CleanNonEmpty(w, |names|);
      var d := RemoveNode(w, names[0]);
      TickClean(w, d.w, |names|);
      RemovesClean(d.w, names[1..]);
    }
  }

  lemma {:induction false} DeletesClean(w: World, ids: seq<ServerId>)
    requires CleanFor(w, |ids|)
    ensures DeleteServers(w, ids).ok && DeleteServers(w, ids).w.faults == w.faults[|ids|..]
    decreases |ids|
  {
    hide CleanFor;
    if ids == [] {
      assert w.faults[0..] == w.faults;
    } else {
      CleanNonEmpty(w, |ids|);
      var d := DeleteServerIdempotent(w, ids[0]);
      TickClean(w, d.w, |ids|);
      DeletesClean(d.w, ids[1..]);
    }
  }

  lemma CleanNonEmpty(w: World, n: nat)
    requires CleanFor(w, n) && n > 0
    ensures w.faults != []
  {
  }

  lemma CleanLater(w: World, v: World, m: nat, n: nat)
    requires CleanFor(w, m + n) && v.faults == w.faults[m..]
    ensures CleanFor(w, m) && CleanFor(v, n) && v.faults[n..] == w.faults[m + n..]
  {
    assert forall i :: 0 <= i < n ==> v.faults[i] == w.faults[m + i];
  }

  lemma ScaleInClean(w: World, targets: seq<Target>)
    requires CleanFor(w, 3 * |targets|)
    ensures ScaleIn(w, targets).ok && ScaleIn(w, targets).w.faults == w.faults[3 * |targets|..]
  {
    hide CleanFor, DrainNodes, RemoveNodes, DeleteServers;
    var n, names, ids := |targets|, NodesOf(targets), IdsOf(targets);
    var w1 := Publish(w, Step(DrainingNodes));
    SameFaultsClean(w, w1, 3 * n);
    CleanLater(w1, w1.(faults := w1.faults[n..]), n, 2 * n);
    DrainsClean(w1, names);
    var w2 := Publish(DrainNodes(w1, names).w, Step(DeletingNodes));
    SameFaultsClean(w1.(faults := w1.faults[n..]), w2, 2 * n);
    CleanLater(w2, w2.(faults := w2.faults[n..]), n, n);
    RemovesClean(w2, names);
    var w3 := Publish(RemoveNodes(w2, names).w, Step(DestroyingServers));
    SameFaultsClean(w2.(faults := w2.faults[n..]), w3, n);
    DeletesClean(w3, ids);
  }

  lemma SameFaultsClean(w: World, v: World, n: nat)
    requires CleanFor(w, n) && v.faults == w.faults
    ensures CleanFor(v, n)
  {
  }

  function Repeat(f: Fault, n: nat): (faults: seq<Fault>)
    ensures |faults| == n && forall i :: 0 <= i < n ==> faults[i] == f
  {
    seq(n, _ => f)
  }

  /** Every call succeeds but the soft-deletes, which have no effect: the run reports success and keeps every row. */
  lemma SoftDeletesCanBeDropped(w: World, count: nat)
    requires w.row.status.Ready? && !w.row.deleted && w.row.kubeconfig.Some?
    ensures var n := |Doomed(w, count)|;
            var ok, no := Fault(Clean, 0, Running(true)), Fault(Refused, 0, Running(true));
            var r := RunScaleIn(w.(faults := Repeat(ok, 5 + 3 * n) + Repeat(no, n)), count);
            r.ok && r.w.servers == w.servers
  {
    hide Doomed, TargetsOf, RemoveAndForget, RunScaleIn, Repeat;
    var doomed := Doomed(w, count);
    var n := |doomed|;
    var ok, no := Fault(Clean, 0, Running(true)), Fault(Refused, 0, Running(true));
    var faults := Repeat(ok, 5 + 3 * n) + Repeat(no, n);
    var staged := w.(faults := faults[5..], row := w.row.(status := Scaling));
    DoomedReads(w, w.(faults := faults), count);
    FiveCleanCalls(w.(faults := faults), staged, count);
    DroppedTail(staged, TargetsOf(w.row.name, Workers(w), doomed), doomed);
  }

  lemma DoomedReads(w: World, u: World, count: nat)
    requires u.servers == w.servers
    ensures Doomed(u, count) == Doomed(w, count) && Workers(u) == Workers(w)
  {
  }

  lemma FiveCleanCalls(u: World, staged: World, count: nat)
    requires u.row.status.Ready? && !u.row.deleted && u.row.kubeconfig.Some? && CleanFor(u, 5)
    requires staged == u.(faults := u.faults[5..], row := u.row.(status := Scaling))
    ensures RunScaleIn(u, count) == RemoveAndForget(staged, TargetsOf(u.row.name, Workers(u), Doomed(u, count)), Doomed(u, count))
  {
    hide Youngest, TargetsOf, RemoveAndForget, Pick;
    var f := u.faults;
    assert f[1..][0] == f[1] && f[2..][0] == f[2] && f[3..][0] == f[3] && f[4..][0] == f[4];
    assert f[1..][1..] == f[2..] && f[2..][1..] == f[3..] && f[3..][1..] == f[4..] && f[4..][1..] == f[5..];
  }

  lemma DroppedTail(w: World, targets: seq<Target>, doomed: seq<ServerRow>)
    requires |targets| == |doomed| && CleanFor(w, 3 * |doomed|)
    requires |w.faults| == 4 * |doomed| && forall i :: 3 * |doomed| <= i < 4 * |doomed| ==> w.faults[i].reply.Refused?
    ensures var r := RemoveAndForget(w, targets, doomed); r.ok && r.w.servers == w.servers
  {
    hide ScaleIn, ForgetServers;
    var n := |doomed|;
    ScaleInClean(w, targets);
    var gone := ScaleInRemovesPrefix(w, targets);
    var v := ScaleIn(w, targets).w;
    assert forall i :: 0 <= i < n ==> v.faults[i] == w.faults[3 * n + i];
    RefusedForgetsKeepRows(v, doomed);
    assert ForgetServers(v, doomed).faults == [];
  }
}
