/**
  Hostnames and counts. A scale-in rebuilds a worker's hostname from the rank of
  its provider id, a scale-out takes the number of recorded workers as the next
  free index, and the API keeps its own `worker_count`. The three agree in every
  Ready state, provided ids only grow, no soft-delete was swallowed and no scale
  request stalled; each of the last two conditions is exact.
 */
module FleetNaming {
  import opened Numerals
  import opened FleetModel
  import opened FleetRuns
  import opened FleetInvariant
  import opened FleetTeardown
  import opened FleetSafety

  function Min(a: nat, b: nat): nat { if a < b then a else b }

  predicate StrictlyAscending(rows: seq<ServerRow>) {
    forall i, j :: 0 <= i < j < |rows| ==> rows[i].serverId < rows[j].serverId
  }

  /** Recorded workers, oldest first, run under the names of indices 0, 1, 2, … */
  ghost predicate Named(w: World) {
    var ws, cps := Workers(w), Pick(w.servers, ControlPlane);
    && StrictlyAscending(ws)
    && (forall i :: 0 <= i < |ws| ==>
          ws[i].serverId in w.cloud.live && w.cloud.live[ws[i].serverId] == WorkerName(w.row.name, i))
    && |cps| == 1 && cps[0].hasIpv4 && cps[0].serverId in w.cloud.live
    && w.cloud.live[cps[0].serverId] == ControlPlaneName(w.row.name)
  }

  ghost predicate Agree(w: World) {
    Named(w) && |Workers(w)| == w.row.workerCount
  }

  // ---------------------------------------------------------------------- list lemmas

  lemma {:induction false} PickAppend(rows: seq<ServerRow>, more: seq<ServerRow>, role: Role)
    ensures Pick(rows + more, role) == Pick(rows, role) + Pick(more, role)
    decreases |more|
  {
    if more == [] {
      assert rows + more == rows;
    } else {
      var all, init := rows + more, more[..|more| - 1];
      assert all[..|all| - 1] == rows + init;
      PickAppend(rows, init, role);
    }
  }

  lemma {:induction false} PickOfViews(views: seq<View>, made: Role, role: Role)
    ensures Pick(RowsOf(views, made), role) == if made == role then RowsOf(views, made) else []
    decreases |views|
  {
    if views != [] {
      var init := views[..|views| - 1];
      assert RowsOf(views, made)[..|views| - 1] == RowsOf(init, made);
      PickOfViews(init, made, role);
    }
  }

  function Drop(s: seq<ServerRow>, serverId: int): seq<ServerRow> {
    if s == [] then []
    else Drop(s[..|s| - 1], serverId) + if s[|s| - 1].serverId == serverId then [] else [s[|s| - 1]]
  }

  lemma {:induction false} PickWithout(rows: seq<ServerRow>, serverId: int, role: Role)
    ensures Pick(WithoutRow(rows, serverId), role) == Drop(Pick(rows, role), serverId)
    decreases |rows|
  {
    if rows != [] {
      var init, last := rows[..|rows| - 1], rows[|rows| - 1];
      assert WithoutRow(rows, serverId)[..|rows| - 1] == WithoutRow(init, serverId);
      PickWithout(init, serverId, role);
      if !last.deleted && last.role == role {
        assert Pick(rows, role)[..|Pick(rows, role)| - 1] == Pick(init, role);
      } else {
        assert Pick(rows, role) == Pick(init, role) + [] == Pick(init, role);
      }
    }
  }

  lemma {:induction false} DropAbsent(s: seq<ServerRow>, serverId: int)
    requires forall i :: 0 <= i < |s| ==> s[i].serverId != serverId
    ensures Drop(s, serverId) == s
    decreases |s|
  {
    if s != [] { DropAbsent(s[..|s| - 1], serverId); }
  }

  lemma DropYoungest(s: seq<ServerRow>)
    requires StrictlyAscending(s) && s != []
    ensures Drop(s, s[|s| - 1].serverId) == s[..|s| - 1]
  {
    DropAbsent(s[..|s| - 1], s[|s| - 1].serverId);
  }

  function Reversed(s: seq<ServerRow>): (r: seq<ServerRow>)
    ensures |r| == |s| && forall i :: 0 <= i < |s| ==> r[i] == s[|s| - 1 - i]
  {
    seq(|s|, i requires 0 <= i < |s| => s[|s| - 1 - i])
  }

  lemma {:induction false} DescendingReverses(s: seq<ServerRow>)
    requires StrictlyAscending(s)
    ensures Descending(s) == Reversed(s)
    decreases |s|
  {
    if s != [] {
      var init := s[..|s| - 1];
      DescendingReverses(init);
      assert Reversed(s) == [s[|s| - 1]] + Reversed(init);
    }
  }

  lemma {:induction false} InsertLargest(r: ServerRow, s: seq<ServerRow>)
    requires forall i :: 0 <= i < |s| ==> s[i].serverId < r.serverId
    ensures InsertAscending(r, s) == s + [r]
    decreases |s|
  {
    if s != [] { InsertLargest(r, s[1..]); }
  }

  lemma {:induction false} AscendingKeeps(s: seq<ServerRow>)
    requires StrictlyAscending(s)
    ensures Ascending(s) == s
    decreases |s|
  {
    if s != [] {
      AscendingKeeps(s[..|s| - 1]);
      InsertLargest(s[|s| - 1], s[..|s| - 1]);
    }
  }

  lemma {:induction false} RankIsIndex(s: seq<ServerRow>, i: nat)
    requires StrictlyAscending(s) && i < |s|
    ensures IndexOf(s, s[i].serverId) == i
    decreases i
  {
    if i > 0 {
      assert s[i] in s;
      RankIsIndex(s[1..], i - 1);
    }
  }

  /** The youngest of ascending workers, youngest first. */
  lemma YoungestOf(ws: seq<ServerRow>, count: nat)
    requires StrictlyAscending(ws)
    ensures var doomed, c := Youngest(ws, count), Min(count, |ws|);
            |doomed| == c && YoungestFirst(ws, doomed)
  {
    DescendingReverses(ws);
  }

  // ------------------------------------------------------------- draining what is deleted

  /**
    In a named cluster every scale-in target pairs a server with that very
    server's hostname, and the targets are the workers of highest index.
   */
  lemma TargetsMatchHostnames(w: World, count: nat)
    requires Named(w) && forall r :: r in w.servers ==> r.serverId in w.cloud.issued
    ensures var ws := Workers(w);
            var targets := TargetsOf(w.row.name, ws, Youngest(ws, count));
            && |targets| == Min(count, |ws|)
            && forall i :: 0 <= i < |targets| ==>
                 && targets[i].id in w.cloud.live && w.cloud.live[targets[i].id] == targets[i].node
                 && targets[i].node == WorkerName(w.row.name, |ws| - 1 - i)
  {
    hide Pick, Youngest, Ascending, IndexOf;
    var ws := Workers(w);
    YoungestOf(ws, count);
    AscendingKeeps(ws);
    var doomed := Youngest(ws, count);
    forall i | 0 <= i < |doomed|
      ensures TargetOf(w.row.name, ws, doomed[i]) == Target(ws[|ws| - 1 - i].serverId, WorkerName(w.row.name, |ws| - 1 - i))
    {
      RankIsIndex(ws, |ws| - 1 - i);
    }
  }

  /** The next index is free: no live server of a named, orphan-free cluster has it. */
  lemma NextIndexIsFree(b: map<ServerId, Host>, w: World, i: ServerId, k: nat)
    requires Inv(b, w) && Named(w) && w.row.status.Ready?
    requires i in w.cloud.live && i !in b && k >= |Workers(w)|
    ensures w.cloud.live[i] != WorkerName(w.row.name, k)
  {
    assert i !in Orphans(b, w);
    assert i in RowIds(w.servers);
    var r :| r in w.servers && !r.deleted && r.serverId == i;
    PickMembers(w.servers, r.role, r);
    if r.role.Worker? {
      var j :| 0 <= j < |Workers(w)| && Workers(w)[j] == r;
    } else {
      var cps := Pick(w.servers, ControlPlane);
      assert cps[0] == r;
    }
  }

  // ------------------------------------------------------------------ what runs keep

  /** History only accumulates, and nothing but provisioning first makes a cluster Ready. */
  ghost predicate Later(w: World, v: World) {
    && w.swallowed <= v.swallowed && (w.stalled ==> v.stalled)
    && v.row.name == w.row.name && v.cloud.monotone == w.cloud.monotone
  }

  /** The state a scale-out reaches when it ends Ready without having stalled. */
  ghost predicate Widened(w: World, v: World, views: seq<View>, ids: seq<ServerId>) {
    && ViewsOf(views, ids)
    && v.servers == w.servers + RowsOf(views, Worker)
    && (forall j :: 0 <= j < |ids| ==>
          && ids[j] in v.cloud.live && v.cloud.live[ids[j]] == WorkerName(w.row.name, |Workers(w)| + j)
          && ids[j] <= I64_MAX && (w.cloud.monotone ==> w.cloud.ceiling <= ids[j]))
    && (w.cloud.monotone ==> forall i, j :: 0 <= i < j < |ids| ==> ids[i] < ids[j])
    && (forall i :: i in w.cloud.live ==> i in v.cloud.live && v.cloud.live[i] == w.cloud.live[i])
    && v.row.name == w.row.name
  }

  lemma WidenedLists(w: World, v: World, views: seq<View>)
    requires v.servers == w.servers + RowsOf(views, Worker)
    ensures Workers(v) == Workers(w) + RowsOf(views, Worker)
    ensures Pick(v.servers, ControlPlane) == Pick(w.servers, ControlPlane)
  {
    var more := RowsOf(views, Worker);
    PickAppend(w.servers, more, Worker);
    PickAppend(w.servers, more, ControlPlane);
    PickOfViews(views, Worker, Worker);
    PickOfViews(views, Worker, ControlPlane);
  }

  lemma WorkersBelowCeiling(b: map<ServerId, Host>, w: World)
    requires Inv(b, w)
    ensures forall i :: 0 <= i < |Workers(w)| ==> Workers(w)[i].serverId < w.cloud.ceiling
  {
    forall i | 0 <= i < |Workers(w)| ensures Workers(w)[i].serverId < w.cloud.ceiling {
      PickMembers(w.servers, Worker, Workers(w)[i]);
    }
  }

  lemma WidenedIsNamed(b: map<ServerId, Host>, w: World, v: World, views: seq<View>, ids: seq<ServerId>)
    requires Inv(b, w) && Named(w) && w.cloud.monotone && Widened(w, v, views, ids)
    ensures Named(v) && |Workers(v)| == |Workers(w)| + |views|
  {
    hide Inv, Pick;
    WorkersBelowCeiling(b, w);
    WidenedLists(w, v, views);
    var more, ws := RowsOf(views, Worker), Workers(w);
    RowsCarryIds(views, ids);
    JoinAscending(ws, more, w.cloud.ceiling);
    JoinNames(w.row.name, ws, more, w.cloud.live, v.cloud.live);
  }

  lemma RowsCarryIds(views: seq<View>, ids: seq<ServerId>)
    requires ViewsOf(views, ids) && forall j :: 0 <= j < |ids| ==> ids[j] <= I64_MAX
    ensures forall j :: 0 <= j < |ids| ==> RowsOf(views, Worker)[j].serverId == ids[j]
    ensures (forall i, j :: 0 <= i < j < |ids| ==> ids[i] < ids[j]) ==> StrictlyAscending(RowsOf(views, Worker))
  {
    var more := RowsOf(views, Worker);
    assert forall j :: 0 <= j < |ids| ==> more[j] == RowOf(views[j], Worker) && views[j].id == ids[j];
  }

  lemma JoinNames(name: string, a: seq<ServerRow>, b: seq<ServerRow>, old_: map<ServerId, Host>, new_: map<ServerId, Host>)
    requires forall i :: 0 <= i < |a| ==> a[i].serverId in old_ && old_[a[i].serverId] == WorkerName(name, i)
    requires forall i :: i in old_ ==> i in new_ && new_[i] == old_[i]
    requires forall j :: 0 <= j < |b| ==> b[j].serverId in new_ && new_[b[j].serverId] == WorkerName(name, |a| + j)
    ensures forall i :: 0 <= i < |a + b| ==> (a + b)[i].serverId in new_ && new_[(a + b)[i].serverId] == WorkerName(name, i)
  {
    forall i | 0 <= i < |a + b|
      ensures (a + b)[i].serverId in new_ && new_[(a + b)[i].serverId] == WorkerName(name, i)
    {
      if i >= |a| { assert (a + b)[i] == b[i - |a|]; } else { assert (a + b)[i] == a[i]; }
    }
  }

  lemma JoinAscending(a: seq<ServerRow>, b: seq<ServerRow>, bar: int)
    requires StrictlyAscending(a) && StrictlyAscending(b)
    requires forall i :: 0 <= i < |a| ==> a[i].serverId < bar
    requires forall i :: 0 <= i < |b| ==> bar <= b[i].serverId
    ensures StrictlyAscending(a + b)
  {
  }

  lemma StartsScaling(w: World)
    requires w.row.status.Ready?
    ensures var begun := BeginScaling(w);
            && begun.w == w.(faults := begun.w.faults, row := begun.w.row, stalled := begun.w.stalled)
            && (begun.ok ==> begun.w.row == w.row.(status := Scaling) && begun.w.stalled == w.stalled)
            && (!begun.ok && begun.w.row.status.Ready? ==> begun.w.stalled && begun.w.row == w.row)
  {
  }

  lemma EndsReady(u: World)
    ensures !MarkFailed(u).row.status.Ready? || u.row.status.Ready?
    ensures MarkReady(u).w == u.(faults := MarkReady(u).w.faults, events := MarkReady(u).w.events, row := MarkReady(u).w.row)
    ensures MarkReady(u).w.row == u.row.(status := MarkReady(u).w.row.status)
    ensures MarkReady(u).ok ==> MarkReady(u).w.row.status.Ready?
    ensures MarkFailed(u) == u.(faults := MarkFailed(u).faults, events := MarkFailed(u).events, row := u.row.(status := MarkFailed(u).row.status))
  {
  }

  /** What a scale-out in flight leaves alone. */
  predicate Framed(u: World, v: World) {
    v == u.(faults := v.faults, events := v.events, calls := v.calls, nodes := v.nodes, cloud := v.cloud, servers := v.servers)
    && v.cloud.monotone == u.cloud.monotone
  }

  lemma ScaleOutRecordsAll(b: map<ServerId, Host>, w: World, u: World, v: World, views: seq<View>, ids: seq<ServerId>)
    requires Inv(b, w) && u.cloud == w.cloud && u.servers == w.servers && u.row.name == w.row.name
    requires ViewsOf(views, ids) && Made(u, v, |Workers(w)|, ids)
    ensures var recorded := RecordServers(v, views, Worker);
            Framed(v, recorded.w) && recorded.w.cloud == v.cloud
            && (recorded.ok ==> Widened(w, recorded.w, views, ids))
  {
    FitsWorkers(b, w, u, v, |Workers(w)|, views, ids);
    var k := RecordServersAppend(v, views, Worker);
    if RecordServers(v, views, Worker).ok {
      assert views[..k] == views;
      assert forall j :: 0 <= j < |ids| ==> ids[j] in v.cloud.issued;
    }
  }

  /** From the scaling announcement on. */
  lemma ScaleOutTail(b: map<ServerId, Host>, w: World, u: World, count: nat)
    requires Inv(b, w) && u.cloud == w.cloud && u.servers == w.servers && u.row.name == w.row.name
    ensures var added := ScaleOut(u, |Workers(w)|, count);
            && Framed(u, added.w)
            && (added.value.Some? ==>
                  var recorded := RecordServers(added.w, added.value.value, Worker);
                  && Framed(u, recorded.w) && |added.value.value| == count
                  && (recorded.ok ==> exists ids :: Widened(w, recorded.w, added.value.value, ids)))
  {
    AddWorkersMake(u, |Workers(w)|, count);
    var inner := AddWorkers(u, |Workers(w)|, count);
    var added := ScaleOut(u, |Workers(w)|, count);
    GrewSame(u, inner.w, added.w);
    if added.value.Some? {
      var ids :| ViewsOf(inner.value.value, ids) && Made(u, inner.w, |Workers(w)|, ids);
      MadeSame(u, inner.w, added.w, |Workers(w)|, ids);
      ScaleOutRecordsAll(b, w, u, added.w, added.value.value, ids);
    }
  }

  /** How a scale-out can end Ready: it stalled, or it widened the fleet by `count`. */
  ghost predicate WidenedBy(w: World, v: World, count: nat) {
    exists views, ids :: |views| == count && Widened(w, v, views, ids)
  }

  lemma AddAndRecordEnds(b: map<ServerId, Host>, w: World, u: World, count: nat)
    requires Inv(b, w) && u.cloud == w.cloud && u.servers == w.servers && u.row == w.row.(status := Scaling)
    ensures var v := AddAndRecord(u, |Workers(w)|, count).w;
            && v.swallowed == u.swallowed && v.stalled == u.stalled && v.cloud.monotone == u.cloud.monotone
            && v.row == u.row.(status := v.row.status)
            && (v.row.status.Ready? ==> WidenedBy(w, v, count))
  {
    ScaleOutTail(b, w, u, count);
    var added := ScaleOut(u, |Workers(w)|, count);
    EndsReady(added.w);
    if added.value.Some? {
      var recorded := RecordServers(added.w, added.value.value, Worker);
      EndsReady(recorded.w);
      if recorded.ok {
        var ids :| Widened(w, recorded.w, added.value.value, ids);
        WidenedThrough(w, recorded.w, MarkReady(recorded.w).w, added.value.value, ids);
      }
    }
  }

  lemma WidenedThrough(w: World, u: World, v: World, views: seq<View>, ids: seq<ServerId>)
    requires Widened(w, u, views, ids) && v.cloud == u.cloud && v.servers == u.servers && v.row.name == u.row.name
    ensures WidenedBy(w, v, |views|)
  {
    assert Widened(w, v, views, ids);
  }

  ghost predicate ScaleOutOutcome(w: World, v: World, count: nat) {
    && Later(w, v) && v.swallowed == w.swallowed && v.row == w.row.(status := v.row.status)
    && (v.row.status.Ready? ==>
          || (v.stalled && v.servers == w.servers && v.cloud == w.cloud)
          || (v.stalled == w.stalled && WidenedBy(w, v, count)))
  }

  lemma ScaleOutEndsNamed(b: map<ServerId, Host>, w: World, count: nat)
    requires Inv(b, w) && w.row.status.Ready?
    ensures ScaleOutOutcome(w, RunScaleOut(w, count).w, count)
  {
    StartsScaling(w);
    var begun := BeginScaling(w);
    if begun.ok {
      AddAndRecordEnds(b, w, Attempt(Attempt(begun.w).w).w, count);
    }
  }

  // ------------------------------------------------------------------------- scale-in

  lemma {:induction false} DropBound(s: seq<ServerRow>, serverId: int)
    requires StrictlyAscending(s)
    ensures |Drop(s, serverId)| >= |s| - 1 && StrictlyAscending(Drop(s, serverId))
    ensures forall i :: 0 <= i < |Drop(s, serverId)| ==> Drop(s, serverId)[i] in s
    decreases |s|
  {
    if s != [] {
      var init, last := s[..|s| - 1], s[|s| - 1];
      DropBound(init, serverId);
      if last.serverId == serverId {
        DropAbsent(init, serverId);
      } else {
        var d := Drop(init, serverId);
        forall i | 0 <= i < |d| ensures d[i].serverId < last.serverId {
          assert d[i] in init;
        }
      }
    }
  }

  /** Forgetting `rows` shortens the list by at most that many, by fewer if one was swallowed. */
  lemma {:induction false} ForgetBound(w: World, rows: seq<ServerRow>)
    requires StrictlyAscending(Workers(w))
    ensures var v := ForgetServers(w, rows);
            && v == w.(faults := v.faults, servers := v.servers, swallowed := v.swallowed)
            && w.swallowed <= v.swallowed
            && |Workers(v)| >= |Workers(w)| - |rows|
            && (v.swallowed != w.swallowed ==> |Workers(v)| > |Workers(w)| - |rows|)
    decreases |rows|
  {
    if rows != [] {
      PickWithout(w.servers, rows[0].serverId, Worker);
      DropBound(Workers(w), rows[0].serverId);
      ForgetBound(ForgetServer(w, rows[0].serverId), rows[1..]);
    }
  }

  /** No control plane row shares a server with a worker row. */
  ghost predicate RolesApart(w: World) {
    forall c, r :: c in Pick(w.servers, ControlPlane) && r in Workers(w) ==> c.serverId != r.serverId
  }

  lemma ForgetOne(w: World, serverId: int)
    requires Workers(w) != [] && StrictlyAscending(Workers(w)) && RolesApart(w)
    requires serverId == Workers(w)[|Workers(w)| - 1].serverId && !Next(w).reply.Refused?
    ensures var u := ForgetServer(w, serverId);
            && Workers(u) == Workers(w)[..|Workers(w)| - 1]
            && Pick(u.servers, ControlPlane) == Pick(w.servers, ControlPlane) && RolesApart(u)
  {
    hide Pick, Drop, StrictlyAscending;
    var ws, cps := Workers(w), Pick(w.servers, ControlPlane);
    PickWithout(w.servers, serverId, Worker);
    PickWithout(w.servers, serverId, ControlPlane);
    DropYoungest(ws);
    assert ws[|ws| - 1] in ws;
    assert forall i :: 0 <= i < |cps| ==> cps[i] in cps;
    DropAbsent(cps, serverId);
    assert forall r :: r in ws[..|ws| - 1] ==> r in ws;
  }

  predicate YoungestFirst(ws: seq<ServerRow>, rows: seq<ServerRow>) {
    |rows| <= |ws| && forall i :: 0 <= i < |rows| ==> rows[i] == ws[|ws| - 1 - i]
  }

  lemma YoungestFirstRest(ws: seq<ServerRow>, rows: seq<ServerRow>)
    requires StrictlyAscending(ws) && YoungestFirst(ws, rows) && rows != []
    ensures rows[0] == ws[|ws| - 1]
    ensures StrictlyAscending(ws[..|ws| - 1]) && YoungestFirst(ws[..|ws| - 1], rows[1..])
    ensures ws[..|ws| - 1][..|ws| - 1 - |rows[1..]|] == ws[..|ws| - |rows|]
  {
    var init := ws[..|ws| - 1];
    forall i | 0 <= i < |rows[1..]| ensures rows[1..][i] == init[|init| - 1 - i] {
      assert rows[1..][i] == rows[i + 1];
    }
  }

  /** If nothing is swallowed, forgetting the youngest `|rows|` workers leaves the others. */
  lemma {:induction false} ForgetTrims(w: World, rows: seq<ServerRow>)
    requires StrictlyAscending(Workers(w)) && YoungestFirst(Workers(w), rows) && RolesApart(w)
    requires ForgetServers(w, rows).swallowed == {}
    ensures var v := ForgetServers(w, rows);
            && Workers(v) == Workers(w)[..|Workers(w)| - |rows|]
            && Pick(v.servers, ControlPlane) == Pick(w.servers, ControlPlane)
    decreases |rows|
  {
    hide Pick;
    if rows != [] {
      var u := ForgetServer(w, rows[0].serverId);
      YoungestFirstRest(Workers(w), rows);
      SwallowedGrows(u, rows[1..]);
      ForgetOne(w, rows[0].serverId);
      ForgetTrims(u, rows[1..]);
    }
  }

  lemma {:induction false} SwallowedGrows(w: World, rows: seq<ServerRow>)
    ensures w.swallowed <= ForgetServers(w, rows).swallowed
    decreases |rows|
  {
    if rows != [] { SwallowedGrows(ForgetServer(w, rows[0].serverId), rows[1..]); }
  }

  /** Two live rows of different roles never share a server. */
  lemma RolesDisjoint(b: map<ServerId, Host>, w: World)
    requires RowsOk(b, w)
    ensures RolesApart(w)
  {
    forall c, r | c in Pick(w.servers, ControlPlane) && r in Workers(w) ensures c.serverId != r.serverId {
      PickMembers(w.servers, ControlPlane, c);
      PickMembers(w.servers, Worker, r);
      var x :| 0 <= x < |w.servers| && w.servers[x] == c;
      var y :| 0 <= y < |w.servers| && w.servers[y] == r;
      assert x != y;
    }
  }

  /** What a scale-in that ends Ready has done to a named fleet. */
  ghost predicate Narrowed(w: World, v: World, c: nat) {
    && |Workers(v)| >= |Workers(w)| - c
    && (v.swallowed != {} ==> |Workers(v)| > |Workers(w)| - c)
    && (v.swallowed == {} ==> Named(v) && |Workers(v)| == |Workers(w)| - c)
  }

  /** Dropping the youngest servers and rows keeps the names of the rest. */
  lemma TrimmedIsNamed(w: World, v: World, gone: set<ServerId>, n: nat)
    requires Named(w) && RolesApart(w) && n <= |Workers(w)| && v.row.name == w.row.name
    requires v.cloud.live == w.cloud.live - gone
    requires forall i :: i in gone ==> exists j :: n <= j < |Workers(w)| && Workers(w)[j].serverId == i
    requires Workers(v) == Workers(w)[..n] && Pick(v.servers, ControlPlane) == Pick(w.servers, ControlPlane)
    ensures Named(v)
  {
    var ws, cps := Workers(w), Pick(w.servers, ControlPlane);
    assert forall i :: 0 <= i < n ==> Workers(v)[i] == ws[i];
    assert forall i :: 0 <= i < n ==> ws[i].serverId !in gone;
    assert cps[0] in cps && forall j :: 0 <= j < |ws| ==> ws[j] in ws;
    assert cps[0].serverId !in gone;
  }

  lemma NarrowedNames(b: map<ServerId, Host>, w: World, u: World, v: World, doomed: seq<ServerRow>, targets: seq<Target>)
    requires Inv(b, w) && Named(w) && w.swallowed == {} && YoungestFirst(Workers(w), doomed)
    requires |targets| == |doomed| && forall i :: 0 <= i < |doomed| ==> targets[i].id == doomed[i].serverId
    requires u.servers == w.servers && u.swallowed == {} && u.row.name == w.row.name
    requires u.cloud.live == w.cloud.live - Members(IdsOf(targets))
    requires v == ForgetServers(u, doomed)
    ensures Narrowed(w, v, |doomed|)
  {
    var ws := Workers(w);
    ForgetBound(u, doomed);
    if v.swallowed == {} {
      RolesDisjoint(b, w);
      ForgetTrims(u, doomed);
      TargetsAreYoungest(ws, doomed, targets);
      TrimmedIsNamed(w, v, Members(IdsOf(targets)), |ws| - |doomed|);
    }
  }

  lemma TargetsAreYoungest(ws: seq<ServerRow>, doomed: seq<ServerRow>, targets: seq<Target>)
    requires YoungestFirst(ws, doomed)
    requires |targets| == |doomed| && forall i :: 0 <= i < |doomed| ==> targets[i].id == doomed[i].serverId
    ensures forall i :: i in Members(IdsOf(targets)) ==>
              exists j :: |ws| - |doomed| <= j < |ws| && ws[j].serverId == i
  {
    forall i | i in Members(IdsOf(targets))
      ensures exists j :: |ws| - |doomed| <= j < |ws| && ws[j].serverId == i
    {
      var k :| 0 <= k < |targets| && targets[k].id == i;
      assert ws[|ws| - 1 - k].serverId == i;
    }
  }

  lemma RemoveAndForgetEnds(b: map<ServerId, Host>, w: World, u: World, count: nat)
    requires Inv(b, w) && Named(w) && w.swallowed == {}
    requires u.cloud == w.cloud && u.servers == w.servers && u.row == w.row.(status := Scaling) && u.swallowed == {}
    ensures var ws := Workers(w);
            var doomed := Youngest(ws, count);
            var v := RemoveAndForget(u, TargetsOf(w.row.name, ws, doomed), doomed).w;
            && v.row.status.Ready? ==> Narrowed(w, v, Min(count, |ws|))
  {
    var ws := Workers(w);
    var doomed := Youngest(ws, count);
    YoungestOf(ws, count);
    var targets := TargetsOf(w.row.name, ws, doomed);
    forall i | 0 <= i < |doomed| ensures targets[i].id == doomed[i].serverId {
      assert ws[|ws| - 1 - i].serverId in w.cloud.live;
    }
    var gone := ScaleInRemovesPrefix(u, targets);
    var scaled := ScaleIn(u, targets);
    EndsReady(scaled.w);
    if scaled.ok {
      var f := ForgetServers(scaled.w, doomed);
      EndsReady(f);
      NarrowedNames(b, w, scaled.w, f, doomed, targets);
      NarrowedThrough(w, f, MarkReady(f).w, |doomed|);
    }
  }

  lemma NarrowedThrough(w: World, u: World, v: World, c: nat)
    requires Narrowed(w, u, c) && v.cloud == u.cloud && v.servers == u.servers && v.swallowed == u.swallowed
    requires v.row.name == u.row.name
    ensures Narrowed(w, v, c)
  {
  }

  lemma RemoveAndForgetFrame(w: World, targets: seq<Target>, doomed: seq<ServerRow>)
    ensures var v := RemoveAndForget(w, targets, doomed).w;
            && w.swallowed <= v.swallowed && v.stalled == w.stalled && v.row == w.row.(status := v.row.status)
            && v.cloud.monotone == w.cloud.monotone
  {
    var gone := ScaleInRemovesPrefix(w, targets);
    var scaled := ScaleIn(w, targets);
    EndsReady(scaled.w);
    SwallowedGrows(scaled.w, doomed);
    ForgetFrame(scaled.w, doomed);
    EndsReady(ForgetServers(scaled.w, doomed));
  }

  lemma {:induction false} ForgetFrame(w: World, rows: seq<ServerRow>)
    ensures var v := ForgetServers(w, rows);
            v == w.(faults := v.faults, servers := v.servers, swallowed := v.swallowed)
    decreases |rows|
  {
    if rows != [] { ForgetFrame(ForgetServer(w, rows[0].serverId), rows[1..]); }
  }

  lemma ScaleInLater(w: World, count: nat)
    requires w.row.status.Ready?
    ensures var v := RunScaleIn(w, count).w;
            Later(w, v) && v.row == w.row.(status := v.row.status)
  {
    StartsScaling(w);
    var begun := BeginScaling(w);
    if begun.ok {
      var listed := Attempt(begun.w);
      var staged := Attempt(Attempt(GetCluster(listed.w).w).w);
      var doomed := Youngest(Workers(listed.w), count);
      RemoveAndForgetFrame(staged.w, TargetsOf(w.row.name, Workers(listed.w), doomed), doomed);
    }
  }

  /** How a scale-in of a named fleet can end. */
  ghost predicate ScaleInOutcome(w: World, v: World, count: nat) {
    && Later(w, v) && v.row == w.row.(status := v.row.status)
    && (v.row.status.Ready? ==>
          || (v.stalled && v.servers == w.servers && v.cloud == w.cloud && v.swallowed == w.swallowed)
          || (v.stalled == w.stalled && Narrowed(w, v, Min(count, |Workers(w)|))))
  }

  lemma ScaleInEndsNamed(b: map<ServerId, Host>, w: World, count: nat)
    requires Inv(b, w) && w.row.status.Ready? && Named(w) && w.swallowed == {}
    ensures ScaleInOutcome(w, RunScaleIn(w, count).w, count)
  {
    ScaleInLater(w, count);
    StartsScaling(w);
    var begun := BeginScaling(w);
    if begun.ok {
      var listed := Attempt(begun.w);
      var staged := Attempt(Attempt(GetCluster(listed.w).w).w);
      var doomed := Youngest(Workers(w), count);
      RemoveAndForgetEnds(b, w, staged.w, count);
      RemoveAndForgetFrame(staged.w, TargetsOf(w.row.name, Workers(w), doomed), doomed);
    }
  }
}
