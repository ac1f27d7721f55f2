/**
  A run as a browser sees it: from the events a run publishes, through the hub
  and a receiver, to the frames of one connection.
 */
module FleetStream {
  import opened FleetModel
  import opened FleetEvents
  import opened EventHub

  function Delivery(events: seq<Event>): (items: seq<Item>)
    ensures |items| == |events| && forall i :: 0 <= i < |events| ==> items[i] == Delivered(events[i])
  {
    seq(|events|, i requires 0 <= i < |events| => Delivered(events[i]))
  }

  function FramesOf(events: seq<Event>): seq<Frame> { Frames(Delivery(events)) }

  /** The receiver has been handed every event sent so far, and never a lag. */
  ghost predicate CaughtUp(h: Hub, cluster: Id, receiver: Id)
    requires cluster in h && receiver in h[cluster].receivers
  {
    var r := h[cluster].receivers[receiver];
    r.next == |h[cluster].sent| && forall i :: 0 <= i < |r.seen| ==> r.seen[i].Delivered?
  }

  // --------------------------------------------------------------- what was delivered

  lemma {:induction false} PublishedAppend(a: seq<Op>, b: seq<Op>, cluster: Id)
    ensures PublishedTo(a + b, cluster) == PublishedTo(a, cluster) + PublishedTo(b, cluster)
    decreases |b|
  {
    if b == [] {
      assert a + b == a;
    } else {
      var rest, last := b[..|b| - 1], b[|b| - 1];
      assert a + b == (a + rest) + [last] && b == rest + [last];
      PublishedAppend(a, rest, cluster);
      hide PublishedTo;
      PublishedSnoc(a + rest, last, cluster);
      PublishedSnoc(rest, last, cluster);
    }
  }

  /** A receiver that kept up was handed exactly what its cluster published since it subscribed. */
  lemma CaughtUpSawAll(ops: seq<Op>, a: nat, cluster: Id, receiver: Id)
    requires OpenSince(ops, a, cluster, receiver)
    requires cluster in After(ops) && receiver in After(ops)[cluster].receivers && CaughtUp(After(ops), cluster, receiver)
    ensures After(ops)[cluster].receivers[receiver].seen == Delivery(PublishedTo(ops[a + 1..], cluster))
  {
    hide After, PublishedTo, Covers;
    ChannelHoldsAll(ops, a, cluster, receiver);
    var handled := ReceiverSeesItsCluster(ops, a, cluster, receiver);
    var published := PublishedTo(ops[a + 1..], cluster);
    assert handled == |published| && published[..handled] == published;
    WithoutLagNothingIsMissed(After(ops)[cluster].receivers[receiver].seen, published);
  }

  // ------------------------------------------------------------------- what is sent

  lemma {:induction false} NothingCut(frames: seq<Frame>)
    requires forall i :: 0 <= i < |frames| - 1 ==> !IsTerminal(frames[i])
    ensures CutAfterTerminal(frames) == frames
    decreases |frames|
  {
    if frames != [] {
      assert frames == [frames[0]] + frames[1..];
      if |frames| > 1 {
        assert !IsTerminal(frames[0]);
        NothingCut(frames[1..]);
      }
    }
  }

  /** Only the last event of a run can be terminal. */
  ghost predicate EndsOnce(told: seq<Event>) { forall i :: 0 <= i < |told| - 1 ==> told[i].Step? }

  lemma CutOfBoth(earlier: seq<Event>, told: seq<Event>)
    requires EndsOnce(told)
    ensures CutAfterTerminal(FramesOf(earlier + told)) ==
      if HasTerminal(FramesOf(earlier)) then CutAfterTerminal(FramesOf(earlier)) else FramesOf(earlier + told)
  {
    var frames, n := FramesOf(earlier + told), |earlier|;
    assert frames[..n] == FramesOf(earlier);
    if HasTerminal(FramesOf(earlier)) {
      CutStays(frames, n);
    } else {
      forall i | 0 <= i < |frames| - 1 ensures !IsTerminal(frames[i]) {
        if i < n { assert frames[i] == FramesOf(earlier)[i]; } else { assert (earlier + told)[i] == told[i - n]; }
      }
      NothingCut(frames);
    }
  }

  /** A cut that ends at an earlier terminal leaves something out whenever something follows it. */
  lemma CutIsShorter(earlier: seq<Event>, told: seq<Event>)
    requires told != []
    ensures CutAfterTerminal(FramesOf(earlier)) != FramesOf(earlier + told)
  {
    CutIs(FramesOf(earlier));
    assert |CutAfterTerminal(FramesOf(earlier))| <= |earlier| < |FramesOf(earlier + told)|;
  }

  // ------------------------------------------------------------------------- the run

  /** What a run published between two states. */
  ghost predicate Publishes(w: World, v: World, told: seq<Event>) { v.events == w.events + told }

  lemma StoryEndsOnce(w: World, v: World, steps: seq<StepName>, goal: Status, told: seq<Event>)
    requires Story(w, v, steps, goal) && Publishes(w, v, told)
    ensures EndsOnce(told)
  {
    hide StepEvents;
    var k, tail := StoryTail(w, v, steps, goal);
    var all := StepEvents(steps[..k]) + tail;
    assert w.events + StepEvents(steps[..k]) + tail == w.events + all;
    SameTail(w.events, told, all);
    forall i | 0 <= i < |told| - 1 ensures told[i].Step? { assert told[i] == StepEvents(steps[..k])[i]; }
  }

  lemma SameTail(base: seq<Event>, a: seq<Event>, b: seq<Event>)
    requires base + a == base + b
    ensures a == b
  {
    assert a == (base + a)[|base|..] && b == (base + b)[|base|..];
  }

  lemma StoryTail(w: World, v: World, steps: seq<StepName>, goal: Status) returns (k: nat, tail: seq<Event>)
    requires Story(w, v, steps, goal)
    ensures k <= |steps| && |tail| <= 1 && v.events == w.events + StepEvents(steps[..k]) + tail
  {
    hide StepEvents;
    k :| k <= |steps| && (
      || v.events == w.events + StepEvents(steps[..k])
      || v.events == w.events + StepEvents(steps[..k]) + [Terminal(Failed)]
      || (k == |steps| && v.events == w.events + StepEvents(steps[..k]) + [Terminal(goal)] && v.row.status == goal));
    var told := w.events + StepEvents(steps[..k]);
    tail := if v.events == told then [] else [v.events[|v.events| - 1]];
    assert told + [] == told;
  }

  /**
    A connection that subscribed at operation `a`, kept up, and saw a run whose
    events are published from operation `b` on. It is sent everything since it
    subscribed, the whole run included, if and only if no terminal event was
    published to the cluster between the subscription and the run. Otherwise it
    ends at that earlier terminal event and is sent nothing of the run.
   */
  lemma RunIsShownIff(ops: seq<Op>, a: nat, b: nat, cluster: Id, receiver: Id,
                      w: World, v: World, steps: seq<StepName>, goal: Status)
    requires OpenSince(ops, a, cluster, receiver) && a < b <= |ops|
    requires cluster in After(ops) && receiver in After(ops)[cluster].receivers && CaughtUp(After(ops), cluster, receiver)
    requires Story(w, v, steps, goal) && Publishes(w, v, PublishedTo(ops[b..], cluster)) && PublishedTo(ops[b..], cluster) != []
    ensures var earlier, told := PublishedTo(ops[a + 1..b], cluster), PublishedTo(ops[b..], cluster);
            var stream := StreamOf(After(ops)[cluster].receivers[receiver].seen);
            && (stream == [Connected] + FramesOf(earlier + told) <==> !HasTerminal(FramesOf(earlier)))
            && (HasTerminal(FramesOf(earlier)) ==> stream == [Connected] + CutAfterTerminal(FramesOf(earlier)))
  {
    hide After, PublishedTo, OpenSince, Story, Publishes, EndsOnce, CaughtUp, Frames, Delivery, CutAfterTerminal, HasTerminal;
    var earlier, told := PublishedTo(ops[a + 1..b], cluster), PublishedTo(ops[b..], cluster);
    CaughtUpSawAll(ops, a, cluster, receiver);
    assert ops[a + 1..] == ops[a + 1..b] + ops[b..];
    PublishedAppend(ops[a + 1..b], ops[b..], cluster);
    StoryEndsOnce(w, v, steps, goal, told);
    CutOfBoth(earlier, told);
    CutIsShorter(earlier, told);
    SameAfterConnected(CutAfterTerminal(FramesOf(earlier)), FramesOf(earlier + told));
  }

  lemma SameAfterConnected(a: seq<Frame>, b: seq<Frame>)
    ensures [Connected] + a == [Connected] + b <==> a == b
  {
    assert a == ([Connected] + a)[1..] && b == ([Connected] + b)[1..];
  }

  // -------------------------------------------------------------- two runs in a row

  lemma AfterSnoc(ops: seq<Op>, op: Op)
    ensures After(ops + [op]) == HubStep(After(ops), op)
  {
    hide HubStep;
    assert (ops + [op])[..|ops|] == ops;
  }

  function TwoRuns(c: Id, r: Id, status: Status, next: Event): seq<Op> {
    [Subscribe(c, r), Publish(c, Terminal(status)), Publish(c, next), Receive(c, r), Receive(c, r)]
  }

  /** The end of one run and the first event of the next, on one connection: the second is received and not sent. */
  lemma NextRunIsHidden(c: Id, r: Id, status: Status, next: Event)
    ensures var h := After(TwoRuns(c, r, status, next));
            && c in h && r in h[c].receivers && CaughtUp(h, c, r)
            && h[c].receivers[r].seen == [Delivered(Terminal(status)), Delivered(next)]
            && StreamOf(h[c].receivers[r].seen) == [Connected, Sent(Terminal(status))]
  {
    var first := Terminal(status);
    var sent := [first, next];
    FirstThree(c, r, first, next);
    var three := [Subscribe(c, r), Publish(c, first), Publish(c, next)];
    AfterSnoc(three, Receive(c, r));
    AfterSnoc(three + [Receive(c, r)], Receive(c, r));
    assert three + [Receive(c, r)] + [Receive(c, r)] == TwoRuns(c, r, status, next);
    hide After;
    ReceiveTwice(c, r, first, next);
    var items := [Delivered(first), Delivered(next)];
    assert Frames(items) == [Sent(first), Sent(next)];
    assert CutAfterTerminal([Sent(first), Sent(next)]) == [Sent(first)];
  }

  lemma FirstThree(c: Id, r: Id, first: Event, next: Event)
    ensures After([Subscribe(c, r), Publish(c, first), Publish(c, next)]) == Listening(c, r, Receiver(0, 0, []), [first, next])
  {
    AfterSnoc([], Subscribe(c, r));
    AfterSnoc([Subscribe(c, r)], Publish(c, first));
    AfterSnoc([Subscribe(c, r), Publish(c, first)], Publish(c, next));
    assert [] + [Subscribe(c, r)] == [Subscribe(c, r)];
    assert [Subscribe(c, r)] + [Publish(c, first)] == [Subscribe(c, r), Publish(c, first)];
    assert [Subscribe(c, r), Publish(c, first)] + [Publish(c, next)] == [Subscribe(c, r), Publish(c, first), Publish(c, next)];
    assert After([]) == map[];
    hide After;
    assert HubStep(map[], Subscribe(c, r)) == Listening(c, r, Receiver(0, 0, []), []);
    PublishOne(c, r, Receiver(0, 0, []), [], first);
    PublishOne(c, r, Receiver(0, 0, []), [first], next);
    assert [] + [first] == [first] && [first] + [next] == [first, next];
  }

  /** A hub with one channel and one receiver. */
  function Listening(c: Id, r: Id, receiver: Receiver, sent: seq<Event>): Hub {
    map[c := Channel(sent, map[r := receiver])]
  }

  lemma PublishOne(c: Id, r: Id, receiver: Receiver, sent: seq<Event>, e: Event)
    ensures HubStep(Listening(c, r, receiver, sent), Publish(c, e)) == Listening(c, r, receiver, sent + [e])
  {
    var receivers: map<Id, Receiver> := map[r := receiver];
    assert r in receivers;
  }

  lemma ReceiveTwice(c: Id, r: Id, first: Event, next: Event)
    ensures var sent := [first, next];
            HubStep(HubStep(Listening(c, r, Receiver(0, 0, []), sent), Receive(c, r)), Receive(c, r)) ==
              Listening(c, r, Receiver(0, 2, [Delivered(first), Delivered(next)]), sent)
  {
    var sent := [first, next];
    var one, two := Receiver(0, 1, [Delivered(first)]), Receiver(0, 2, [Delivered(first), Delivered(next)]);
    assert ReceiveOne(Receiver(0, 0, []), sent) == one;
    assert ReceiveOne(one, sent) == two;
    ReceiveStep(c, r, Receiver(0, 0, []), one, sent);
    ReceiveStep(c, r, one, two, sent);
  }

  lemma ReceiveStep(c: Id, r: Id, before: Receiver, after: Receiver, sent: seq<Event>)
    requires before.next <= |sent| && ReceiveOne(before, sent) == after
    ensures HubStep(Listening(c, r, before, sent), Receive(c, r)) == Listening(c, r, after, sent)
  {
    hide ReceiveOne;
    var receivers: map<Id, Receiver> := map[r := before];
    assert receivers[r := after] == map[r := after];
  }
}
