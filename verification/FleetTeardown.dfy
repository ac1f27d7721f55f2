/**
  Scale-in at the level of the workflow: the order of its calls, what a failed
  attempt leaves behind, and that trying again reaches the state of a clean run.
 */
module FleetTeardown {
  import opened FleetModel
  import opened FleetRuns
  import opened FleetInvariant

  function DrainCalls(nodes: seq<Host>): (calls: seq<Call>)
    ensures |calls| == |nodes| && forall i :: 0 <= i < |nodes| ==> calls[i] == Drain(nodes[i])
  {
    seq(|nodes|, i requires 0 <= i < |nodes| => Drain(nodes[i]))
  }

  function NodeCalls(nodes: seq<Host>): (calls: seq<Call>)
    ensures |calls| == |nodes| && forall i :: 0 <= i < |nodes| ==> calls[i] == DeleteNode(nodes[i])
  {
    seq(|nodes|, i requires 0 <= i < |nodes| => DeleteNode(nodes[i]))
  }

  /** All drains, then all node deletions, then all server deletions. */
  function Plan(targets: seq<Target>): seq<Call> {
    DrainCalls(NodesOf(targets)) + NodeCalls(NodesOf(targets)) + ServerCalls(IdsOf(targets))
  }

  function Drained(nodes: map<Host, bool>, names: seq<Host>): map<Host, bool> {
    map n | n in nodes :: nodes[n] || n in names
  }

  // ------------------------------------------------------------------ the three phases

  lemma DrainCons(nodes: map<Host, bool>, calls: seq<Call>, names: seq<Host>, k: nat, tried: nat)
    requires names != [] && k < |names| && tried < |names|
    ensures calls + [Drain(names[0])] + DrainCalls(names[1..][..tried]) == calls + DrainCalls(names[..tried + 1])
    ensures Drained(Drained(nodes, [names[0]]), names[1..][..k]) == Drained(nodes, names[..k + 1])
  {
    assert names[..k + 1] == [names[0]] + names[1..][..k];
    assert [Drain(names[0])] + DrainCalls(names[1..][..tried]) == DrainCalls(names[..tried + 1]);
  }

  lemma DrainNone(nodes: map<Host, bool>, calls: seq<Call>, names: seq<Host>)
    ensures Drained(nodes, names[..0]) == nodes && calls + DrainCalls(names[..0]) == calls
  {
  }

  lemma DrainStep(w: World, node: Host)
    ensures var d := DrainNode(w, node);
            d.w == w.(faults := d.w.faults, calls := w.calls + [Drain(node)],
                      nodes := if Next(w).reply.Refused? then w.nodes else Drained(w.nodes, [node]))
            && (d.ok ==> !Next(w).reply.Refused?)
  {
    assert node in w.nodes ==> w.nodes[node := true] == Drained(w.nodes, [node]);
    assert node !in w.nodes ==> w.nodes == Drained(w.nodes, [node]);
  }

  lemma {:induction false} DrainNodesPrefix(w: World, names: seq<Host>) returns (k: nat, tried: nat)
    ensures var d := DrainNodes(w, names);
            && k <= tried <= |names| && (d.ok ==> k == |names|) && (!d.ok ==> tried > 0)
            && d.w == w.(faults := d.w.faults, calls := w.calls + DrainCalls(names[..tried]),
                         nodes := Drained(w.nodes, names[..k]))
    decreases |names|
  {
    k, tried := 0, 0;
    DrainNone(w.nodes, w.calls, names);
    if names != [] {
      DrainStep(w, names[0]);
      var d := DrainNode(w, names[0]);
      if d.ok {
        k, tried := DrainNodesPrefix(d.w, names[1..]);
        DrainCons(w.nodes, w.calls, names, k, tried);
        k, tried := k + 1, tried + 1;
      } else {
        DrainCons(w.nodes, w.calls, names, 0, 0);
        DrainNone(Drained(w.nodes, [names[0]]), w.calls + [Drain(names[0])], names[1..]);
        k, tried := if Next(w).reply.Refused? then 0 else 1, 1;
      }
    }
  }

  lemma RemoveCons(nodes: map<Host, bool>, calls: seq<Call>, names: seq<Host>, k: nat, tried: nat)
    requires names != [] && k < |names| && tried < |names|
    ensures calls + [DeleteNode(names[0])] + NodeCalls(names[1..][..tried]) == calls + NodeCalls(names[..tried + 1])
    ensures nodes - {names[0]} - Members(names[1..][..k]) == nodes - Members(names[..k + 1])
  {
    assert names[..k + 1] == [names[0]] + names[1..][..k];
    assert Members(names[..k + 1]) == {names[0]} + Members(names[1..][..k]);
    assert [DeleteNode(names[0])] + NodeCalls(names[1..][..tried]) == NodeCalls(names[..tried + 1]);
  }

  lemma RemoveNone(nodes: map<Host, bool>, calls: seq<Call>, names: seq<Host>)
    ensures nodes - Members(names[..0]) == nodes && calls + NodeCalls(names[..0]) == calls
  {
  }

  lemma {:induction false} RemoveNodesPrefix(w: World, names: seq<Host>) returns (k: nat, tried: nat)
    ensures var d := RemoveNodes(w, names);
            && k <= tried <= |names| && (d.ok ==> k == |names|) && (!d.ok ==> tried > 0)
            && d.w == w.(faults := d.w.faults, calls := w.calls + NodeCalls(names[..tried]),
                         nodes := w.nodes - Members(names[..k]))
    decreases |names|
  {
    k, tried := 0, 0;
    RemoveNone(w.nodes, w.calls, names);
    if names != [] {
      var d := RemoveNode(w, names[0]);
      if d.ok {
        k, tried := RemoveNodesPrefix(d.w, names[1..]);
        RemoveCons(w.nodes, w.calls, names, k, tried);
        k, tried := k + 1, tried + 1;
      } else {
        RemoveCons(w.nodes, w.calls, names, 0, 0);
        RemoveNone(w.nodes - {names[0]}, w.calls + [DeleteNode(names[0])], names[1..]);
        k, tried := if Next(w).reply.Refused? then 0 else 1, 1;
      }
    }
  }

  // --------------------------------------------------------------------- whole attempt

  /** What a scale-in may have changed so far. */
  ghost predicate Partial(w: World, v: World, targets: seq<Target>) {
    var ids, names := Members(IdsOf(targets)), Members(NodesOf(targets));
    && v == w.(faults := v.faults, events := v.events, calls := v.calls, nodes := v.nodes,
               cloud := w.cloud.(live := v.cloud.live))
    && v.cloud.live - ids == w.cloud.live - ids && v.cloud.live.Keys <= w.cloud.live.Keys
    && (forall i :: i in v.cloud.live ==> v.cloud.live[i] == w.cloud.live[i])
    && v.nodes - names == w.nodes - names && v.nodes.Keys <= w.nodes.Keys
  }

  /** Exactly the targets are gone, as servers and as nodes. */
  ghost predicate Done(w: World, v: World, targets: seq<Target>) {
    && Partial(w, v, targets)
    && v.cloud.live == w.cloud.live - Members(IdsOf(targets))
    && v.nodes == w.nodes - Members(NodesOf(targets))
  }

  lemma PartialTrans(a: World, b: World, c: World, targets: seq<Target>)
    requires Partial(a, b, targets) && Partial(b, c, targets)
    ensures Partial(a, c, targets)
    ensures Done(b, c, targets) ==> Done(a, c, targets)
  {
  }

  lemma DrainPartial(w: World, v: World, targets: seq<Target>, k: nat)
    requires k <= |targets|
    requires v == w.(faults := v.faults, calls := v.calls, events := v.events,
                     nodes := Drained(w.nodes, NodesOf(targets)[..k]))
    ensures Partial(w, v, targets)
  {
    var names := Members(NodesOf(targets));
    assert forall n :: n in NodesOf(targets)[..k] ==> n in names;
    assert v.nodes - names == w.nodes - names;
  }

  lemma RemovePartial(w: World, v: World, targets: seq<Target>, k: nat)
    requires k <= |targets|
    requires v == w.(faults := v.faults, calls := v.calls, events := v.events,
                     nodes := w.nodes - Members(NodesOf(targets)[..k]))
    ensures Partial(w, v, targets)
  {
    var names := Members(NodesOf(targets));
    assert forall n :: n in NodesOf(targets)[..k] ==> n in names;
    assert v.nodes - names == w.nodes - names;
  }

  lemma DeletePartial(w: World, v: World, targets: seq<Target>, k: nat)
    requires k <= |targets|
    requires v == w.(faults := v.faults, calls := v.calls, events := v.events,
                     cloud := w.cloud.(live := w.cloud.live - Members(IdsOf(targets)[..k])))
    ensures Partial(w, v, targets)
  {
    var ids := Members(IdsOf(targets));
    assert forall i :: i in IdsOf(targets)[..k] ==> i in ids;
    assert v.cloud.live - ids == w.cloud.live - ids;
  }

  /**
    How far an attempt got: `gone` servers are deleted, the first ones of the
    list, and none before every node was drained and removed. A reported success
    removed exactly the targets. Nothing that is not a target is ever touched.
   */
  lemma ScaleInRemovesPrefix(w: World, targets: seq<Target>) returns (gone: nat)
    ensures var r := ScaleIn(w, targets);
            && gone <= |targets|
            && Partial(w, r.w, targets)
            && r.w.cloud.live == w.cloud.live - Members(IdsOf(targets)[..gone])
            && (gone > 0 ==> r.w.nodes == w.nodes - Members(NodesOf(targets)))
            && (r.ok ==> Done(w, r.w, targets))
  {
    var names, ids := NodesOf(targets), IdsOf(targets);
    gone := 0;
    assert w.cloud.live - Members(ids[..0]) == w.cloud.live;
    var w1 := Publish(w, Step(DrainingNodes));
    var k1, t1 := DrainNodesPrefix(w1, names);
    var drained := DrainNodes(w1, names);
    DrainPartial(w, drained.w, targets, k1);
    if drained.ok {
      var k2, t2 := RemoveNodesPrefix(Publish(drained.w, Step(DeletingNodes)), names);
      var removed := RemoveNodes(Publish(drained.w, Step(DeletingNodes)), names);
      RemovePartial(drained.w, removed.w, targets, k2);
      PartialTrans(w, drained.w, removed.w, targets);
      if removed.ok {
        assert names[..k2] == names;
        assert removed.w.nodes == w.nodes - Members(names);
        gone := DeleteTail(w, removed.w, targets);
      }
    }
  }

  lemma DeleteTail(w: World, u: World, targets: seq<Target>) returns (gone: nat)
    requires Partial(w, u, targets) && u.cloud == w.cloud && u.nodes == w.nodes - Members(NodesOf(targets))
    ensures var d := DeleteServers(Publish(u, Step(DestroyingServers)), IdsOf(targets));
            && gone <= |targets| && Partial(w, d.w, targets)
            && d.w.cloud.live == w.cloud.live - Members(IdsOf(targets)[..gone])
            && d.w.nodes == u.nodes
            && (d.ok ==> Done(w, d.w, targets) && Done(w, Publish(d.w, Step(Finished)), targets))
  {
    var w3 := Publish(u, Step(DestroyingServers));
    var k, tried := DeleteServersPrefix(w3, IdsOf(targets));
    var d := DeleteServers(w3, IdsOf(targets));
    DeletePartial(u, d.w, targets, k);
    PartialTrans(w, u, d.w, targets);
    gone := k;
    if d.ok {
      assert IdsOf(targets)[..k] == IdsOf(targets);
    }
  }

  lemma DrainPhase(w: World, targets: seq<Target>) returns (t: nat)
    ensures var d := DrainNodes(w, NodesOf(targets));
            t <= |targets| && d.w.calls == w.calls + Plan(targets)[..t] && (if d.ok then t == |targets| else t > 0)
  {
    var k, tried := DrainNodesPrefix(w, NodesOf(targets));
    t := tried;
    assert DrainCalls(NodesOf(targets)[..t]) == Plan(targets)[..t];
  }

  lemma Assoc(a: seq<Call>, b: seq<Call>, c: seq<Call>)
    ensures a + b + c == a + (b + c)
  {
  }

  lemma PlanRemoves(targets: seq<Target>, t: nat)
    requires t <= |targets|
    ensures Plan(targets)[..|targets|] + NodeCalls(NodesOf(targets)[..t]) == Plan(targets)[..|targets| + t]
  {
  }

  lemma PlanDeletes(targets: seq<Target>, t: nat)
    requires t <= |targets|
    ensures Plan(targets)[..2 * |targets|] + ServerCalls(IdsOf(targets)[..t]) == Plan(targets)[..2 * |targets| + t]
  {
  }

  lemma RemovePhase(base: seq<Call>, w: World, targets: seq<Target>) returns (t: nat)
    requires w.calls == base + Plan(targets)[..|targets|]
    ensures var d := RemoveNodes(w, NodesOf(targets));
            |targets| <= t <= 2 * |targets| && d.w.calls == base + Plan(targets)[..t]
            && (if d.ok then t == 2 * |targets| else t > |targets|)
  {
    var k, tried := RemoveNodesPrefix(w, NodesOf(targets));
    t := |targets| + tried;
    PlanRemoves(targets, tried);
    Assoc(base, Plan(targets)[..|targets|], NodeCalls(NodesOf(targets)[..tried]));
  }

  lemma DeletePhase(base: seq<Call>, w: World, targets: seq<Target>) returns (t: nat)
    requires w.calls == base + Plan(targets)[..2 * |targets|]
    ensures var d := DeleteServers(w, IdsOf(targets));
            2 * |targets| <= t <= |Plan(targets)| && d.w.calls == base + Plan(targets)[..t]
            && (if d.ok then t == |Plan(targets)| else t > 2 * |targets|)
  {
    var k, tried := DeleteServersPrefix(w, IdsOf(targets));
    t := 2 * |targets| + tried;
    PlanDeletes(targets, tried);
    Assoc(base, Plan(targets)[..2 * |targets|], ServerCalls(IdsOf(targets)[..tried]));
  }

  /** The calls of every attempt are a first part of the plan; of a successful one, all of it. */
  lemma ScaleInFollowsPlan(w: World, targets: seq<Target>) returns (tried: nat)
    ensures var r := ScaleIn(w, targets);
            && tried <= |Plan(targets)|
            && r.w.calls == w.calls + Plan(targets)[..tried]
            && (if r.ok then tried == |Plan(targets)| else tried > 0)
  {
    var w1 := Publish(w, Step(DrainingNodes));
    tried := DrainPhase(w1, targets);
    var drained := DrainNodes(w1, NodesOf(targets));
    if drained.ok {
      var w2 := Publish(drained.w, Step(DeletingNodes));
      tried := RemovePhase(w.calls, w2, targets);
      var removed := RemoveNodes(w2, NodesOf(targets));
      if removed.ok {
        tried := DeletePhase(w.calls, Publish(removed.w, Step(DestroyingServers)), targets);
      }
    }
  }

  function Attempts(w: World, targets: seq<Target>, n: nat): Out
    requires n > 0
  {
    if n == 1 then ScaleIn(w, targets) else ScaleIn(Attempts(w, targets, n - 1).w, targets)
  }

  /** However many attempts failed before, the first success ends where a clean run ends. */
  lemma {:induction false} RetriedScaleInConverges(w: World, targets: seq<Target>, n: nat)
    requires n > 0
    ensures Partial(w, Attempts(w, targets, n).w, targets)
    ensures Attempts(w, targets, n).ok ==>
              var v, clean := Attempts(w, targets, n).w, ScaleIn(w.(faults := []), targets);
              clean.ok && v.cloud == clean.w.cloud && v.nodes == clean.w.nodes
              && v.row == clean.w.row && v.servers == clean.w.servers
  {
    var gone := ScaleInRemovesPrefix(if n == 1 then w else Attempts(w, targets, n - 1).w, targets);
    if n > 1 {
      RetriedScaleInConverges(w, targets, n - 1);
      PartialTrans(w, Attempts(w, targets, n - 1).w, Attempts(w, targets, n).w, targets);
    }
    CleanScaleIn(w.(faults := []), targets);
    var _ := ScaleInRemovesPrefix(w.(faults := []), targets);
  }

  lemma CleanScaleIn(w: World, targets: seq<Target>)
    requires w.faults == []
    ensures ScaleIn(w, targets).ok
  {
    var w1 := Publish(w, Step(DrainingNodes));
    CleanDrain(w1, NodesOf(targets));
    var w2 := Publish(DrainNodes(w1, NodesOf(targets)).w, Step(DeletingNodes));
    CleanRemove(w2, NodesOf(targets));
    CleanDelete(Publish(RemoveNodes(w2, NodesOf(targets)).w, Step(DestroyingServers)), IdsOf(targets));
  }

  lemma {:induction false} CleanDrain(w: World, names: seq<Host>)
    requires w.faults == []
    ensures DrainNodes(w, names).ok && DrainNodes(w, names).w.faults == []
    decreases |names|
  {
    if names != [] { CleanDrain(DrainNode(w, names[0]).w, names[1..]); }
  }

  lemma {:induction false} CleanRemove(w: World, names: seq<Host>)
    requires w.faults == []
    ensures RemoveNodes(w, names).ok && RemoveNodes(w, names).w.faults == []
    decreases |names|
  {
    if names != [] { CleanRemove(RemoveNode(w, names[0]).w, names[1..]); }
  }

  lemma {:induction false} CleanDelete(w: World, ids: seq<ServerId>)
    requires w.faults == []
    ensures DeleteServers(w, ids).ok && DeleteServers(w, ids).w.faults == []
    decreases |ids|
  {
    if ids != [] { CleanDelete(DeleteServerIdempotent(w, ids[0]).w, ids[1..]); }
  }
}
