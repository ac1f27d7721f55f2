/**
  The event hub and the server-sent stream. A channel exists per cluster; it is
  dropped when a publish finds nobody listening. A receiver that falls more than
  the capacity behind is told how many events it missed.
 */
module EventHub {
  import opened FleetModel

  type Id = nat

  const CAPACITY: nat := 64

  /** What a receiver is handed. */
  datatype Item = Delivered(event: Event) | Lagged(missed: nat)

  /** `start` and `next` are positions in the channel; `seen` is all that was handed out so far. */
  datatype Receiver = Receiver(start: nat, next: nat, seen: seq<Item>)

  datatype Channel = Channel(sent: seq<Event>, receivers: map<Id, Receiver>)

  type Hub = map<Id, Channel>

  datatype Op =
    | Subscribe(cluster: Id, receiver: Id)
    | Publish(cluster: Id, event: Event)
    | Receive(cluster: Id, receiver: Id)
    | Close(cluster: Id, receiver: Id)

  function NewReceiver(c: Channel, receiver: Id): Channel {
    if receiver in c.receivers then c
    else c.(receivers := c.receivers[receiver := Receiver(|c.sent|, |c.sent|, [])])
  }

  function SubscribeTo(h: Hub, cluster: Id, receiver: Id): Hub {
    h[cluster := NewReceiver(if cluster in h then h[cluster] else Channel([], map[]), receiver)]
  }

  /** Sending fails exactly when there is no receiver; then the entry goes. */
  function PublishTo(h: Hub, cluster: Id, event: Event): Hub {
    if cluster !in h then h
    else if h[cluster].receivers == map[] then h - {cluster}
    else h[cluster := h[cluster].(sent := h[cluster].sent + [event])]
  }

  function ReceiveOne(r: Receiver, sent: seq<Event>): Receiver
    requires r.next <= |sent|
  {
    if r.next == |sent| then r
    else if |sent| - r.next > CAPACITY then
      r.(next := |sent| - CAPACITY, seen := r.seen + [Lagged(|sent| - CAPACITY - r.next)])
    else r.(next := r.next + 1, seen := r.seen + [Delivered(sent[r.next])])
  }

  function ReceiveFrom(h: Hub, cluster: Id, receiver: Id): Hub {
    if cluster !in h || receiver !in h[cluster].receivers then h
    else
      var c := h[cluster];
      var r := c.receivers[receiver];
      if r.next > |c.sent| then h
      else h[cluster := c.(receivers := c.receivers[receiver := ReceiveOne(r, c.sent)])]
  }

  function CloseOne(h: Hub, cluster: Id, receiver: Id): Hub {
    if cluster !in h then h else h[cluster := h[cluster].(receivers := h[cluster].receivers - {receiver})]
  }

  function HubStep(h: Hub, op: Op): Hub {
    match op
    case Subscribe(cluster, receiver) => SubscribeTo(h, cluster, receiver)
    case Publish(cluster, event) => PublishTo(h, cluster, event)
    case Receive(cluster, receiver) => ReceiveFrom(h, cluster, receiver)
    case Close(cluster, receiver) => CloseOne(h, cluster, receiver)
  }

  function After(ops: seq<Op>): Hub
    decreases |ops|
  {
    if ops == [] then map[] else HubStep(After(ops[..|ops| - 1]), ops[|ops| - 1])
  }

  class ClusterEventHub {
    var inner: Hub

    constructor ()
      ensures inner == map[]
    {
      inner := map[];
    }

    /** Returns how many receivers the event went to. */
    method PublishEvent(cluster: Id, event: Event) returns (observers: nat)
      modifies this
      ensures inner == PublishTo(old(inner), cluster, event)
      ensures observers == if cluster in old(inner) then |old(inner)[cluster].receivers| else 0
    {
      if cluster !in inner { return 0; }
      var sender := inner[cluster];
      if sender.receivers != map[] {
        inner := inner[cluster := sender.(sent := sender.sent + [event])];
        observers := |sender.receivers|;
      } else {
        inner := inner - {cluster};
        observers := 0;
      }
    }

    method SubscribeReceiver(cluster: Id, receiver: Id)
      modifies this
      ensures inner == SubscribeTo(old(inner), cluster, receiver)
    {
      if cluster !in inner {
        inner := inner[cluster := Channel([], map[])];
      }
      inner := inner[cluster := NewReceiver(inner[cluster], receiver)];
    }
  }

  // -------------------------------------------------------------------- delivery

  /** The items account for exactly these events in order; a lag stands for the events it missed. */
  ghost predicate Covers(items: seq<Item>, events: seq<Event>)
    decreases |items|
  {
    if items == [] then events == []
    else
      var rest := items[..|items| - 1];
      match items[|items| - 1]
      case Delivered(e) => events != [] && events[|events| - 1] == e && Covers(rest, events[..|events| - 1])
      case Lagged(n) => 0 < n <= |events| && Covers(rest, events[..|events| - n])
  }

  ghost predicate ReceiverOk(r: Receiver, sent: seq<Event>) {
    r.start <= r.next <= |sent| && Covers(r.seen, sent[r.start..r.next])
  }

  ghost predicate HubOk(h: Hub) {
    forall c, r :: c in h && r in h[c].receivers ==> ReceiverOk(h[c].receivers[r], h[c].sent)
  }

  lemma CoversOneMore(items: seq<Item>, events: seq<Event>, e: Event)
    requires Covers(items, events)
    ensures Covers(items + [Delivered(e)], events + [e])
  {
    assert (items + [Delivered(e)])[..|items|] == items;
    assert (events + [e])[..|events|] == events;
  }

  lemma CoversLag(items: seq<Item>, events: seq<Event>, missed: seq<Event>)
    requires Covers(items, events) && missed != []
    ensures Covers(items + [Lagged(|missed|)], events + missed)
  {
    assert (items + [Lagged(|missed|)])[..|items|] == items;
    assert (events + missed)[..|events|] == events;
  }

  lemma SliceMore(s: seq<Event>, a: nat, b: nat, c: nat)
    requires a <= b <= c <= |s|
    ensures s[a..b] + s[b..c] == s[a..c]
  {
  }

  lemma SliceOne(s: seq<Event>, b: nat)
    requires b < |s|
    ensures s[b..b + 1] == [s[b]]
  {
  }

  lemma ReceiveKeeps(r: Receiver, sent: seq<Event>)
    requires ReceiverOk(r, sent)
    ensures ReceiverOk(ReceiveOne(r, sent), sent) && ReceiveOne(r, sent).start == r.start
  {
    hide Covers;
    var s, events := ReceiveOne(r, sent), sent[r.start..r.next];
    if r.next == |sent| {
    } else if |sent| - r.next > CAPACITY {
      var missed := sent[r.next..s.next];
      CoversLag(r.seen, events, missed);
      SliceMore(sent, r.start, r.next, s.next);
    } else {
      CoversOneMore(r.seen, events, sent[r.next]);
      SliceMore(sent, r.start, r.next, r.next + 1);
      SliceOne(sent, r.next);
    }
  }

  lemma SendKeeps(r: Receiver, sent: seq<Event>, e: Event)
    requires ReceiverOk(r, sent)
    ensures ReceiverOk(r, sent + [e])
  {
    assert (sent + [e])[r.start..r.next] == sent[r.start..r.next];
  }

  lemma StepKeeps(h: Hub, op: Op)
    requires HubOk(h)
    ensures HubOk(HubStep(h, op))
  {
    hide ReceiverOk;
    var g := HubStep(h, op);
    forall c, r | c in g && r in g[c].receivers ensures ReceiverOk(g[c].receivers[r], g[c].sent) {
      if c == op.cluster && c in h && r in h[c].receivers {
        ReceiverStep(h[c], c, r, h, op);
      } else if c == op.cluster {
        FreshReceiver(g[c].sent);
      }
    }
  }

  lemma FreshReceiver(sent: seq<Event>)
    ensures ReceiverOk(Receiver(|sent|, |sent|, []), sent)
  {
  }

  lemma ReceiverStep(ch: Channel, c: Id, r: Id, h: Hub, op: Op)
    requires c in h && h[c] == ch && r in ch.receivers && ReceiverOk(ch.receivers[r], ch.sent) && op.cluster == c
    requires c in HubStep(h, op) && r in HubStep(h, op)[c].receivers
    ensures ReceiverOk(HubStep(h, op)[c].receivers[r], HubStep(h, op)[c].sent)
  {
    hide Covers;
    if op.Publish? { SendKeeps(ch.receivers[r], ch.sent, op.event); }
    if op.Receive? && op.receiver == r { ReceiveKeeps(ch.receivers[r], ch.sent); }
  }

  lemma {:induction false} AfterOk(ops: seq<Op>)
    ensures HubOk(After(ops))
    decreases |ops|
  {
    hide HubOk, HubStep;
    if ops == [] {
      EmptyOk();
    } else {
      AfterOk(ops[..|ops| - 1]);
      StepKeeps(After(ops[..|ops| - 1]), ops[|ops| - 1]);
    }
  }

  lemma EmptyOk()
    ensures HubOk(map[])
  {
  }

  /** The events published to one cluster by these operations. */
  function PublishedTo(ops: seq<Op>, cluster: Id): seq<Event> {
    if ops == [] then []
    else
      var last := ops[|ops| - 1];
      PublishedTo(ops[..|ops| - 1], cluster)
        + if last.Publish? && last.cluster == cluster then [last.event] else []
  }

  /** The receiver was opened by operation `a` and has not been closed since. */
  ghost predicate OpenSince(ops: seq<Op>, a: nat, cluster: Id, receiver: Id) {
    && a < |ops| && ops[a] == Subscribe(cluster, receiver)
    && (cluster in After(ops[..a]) ==> receiver !in After(ops[..a])[cluster].receivers)
    && forall k :: a < k < |ops| ==> ops[k] != Close(cluster, receiver)
  }

  /** A channel with a receiver is never dropped, and holds all that was published since the receiver came. */
  lemma {:induction false} ChannelHoldsAll(ops: seq<Op>, a: nat, cluster: Id, receiver: Id)
    requires OpenSince(ops, a, cluster, receiver)
    ensures cluster in After(ops) && receiver in After(ops)[cluster].receivers
    ensures HoldsAll(After(ops)[cluster], receiver, PublishedTo(ops[a + 1..], cluster))
    decreases |ops|
  {
    hide HubStep, HoldsAll, PublishedTo, After, OpenSince;
    var n := |ops| - 1;
    AfterLast(ops);
    OpenSinceBefore(ops, a, cluster, receiver);
    if a == n {
      assert ops[a + 1..] == [];
      NothingPublished(cluster);
      Opened(After(ops[..n]), cluster, receiver);
    } else {
      var rest := ops[..n];
      ChannelHoldsAll(rest, a, cluster, receiver);
      PublishedSnoc(rest[a + 1..], ops[n], cluster);
      assert ops[a + 1..] == rest[a + 1..] + [ops[n]];
      StillOpen(After(rest), ops[n], cluster, receiver, PublishedTo(rest[a + 1..], cluster));
    }
  }

  lemma AfterLast(ops: seq<Op>)
    ensures ops != [] ==> After(ops) == HubStep(After(ops[..|ops| - 1]), ops[|ops| - 1])
  {
    hide HubStep;
  }

  lemma OpenSinceBefore(ops: seq<Op>, a: nat, cluster: Id, receiver: Id)
    requires OpenSince(ops, a, cluster, receiver)
    ensures a < |ops|
    ensures var n := |ops| - 1;
            if a == n then
              && ops[n] == Subscribe(cluster, receiver)
              && (cluster in After(ops[..n]) ==> receiver !in After(ops[..n])[cluster].receivers)
            else OpenSince(ops[..n], a, cluster, receiver) && ops[n] != Close(cluster, receiver)
  {
    hide After;
    assert a < |ops| - 1 ==> ops[..|ops| - 1][..a] == ops[..a];
  }

  ghost predicate HoldsAll(ch: Channel, receiver: Id, published: seq<Event>)
    requires receiver in ch.receivers
  {
    ch.receivers[receiver].start <= |ch.sent| && ch.sent[ch.receivers[receiver].start..] == published
  }

  lemma NothingPublished(cluster: Id)
    ensures PublishedTo([], cluster) == []
  {
  }

  lemma PublishedSnoc(ops: seq<Op>, op: Op, cluster: Id)
    ensures PublishedTo(ops + [op], cluster) ==
      if op.Publish? && op.cluster == cluster then PublishedTo(ops, cluster) + [op.event] else PublishedTo(ops, cluster)
  {
    assert (ops + [op])[..|ops|] == ops;
  }

  lemma Opened(h: Hub, cluster: Id, receiver: Id)
    requires cluster in h ==> receiver !in h[cluster].receivers
    ensures var g := HubStep(h, Subscribe(cluster, receiver));
            cluster in g && receiver in g[cluster].receivers && HoldsAll(g[cluster], receiver, [])
  {
  }

  lemma StillOpen(h: Hub, op: Op, cluster: Id, receiver: Id, published: seq<Event>)
    requires cluster in h && receiver in h[cluster].receivers && op != Close(cluster, receiver)
    requires HoldsAll(h[cluster], receiver, published)
    ensures var g := HubStep(h, op);
            && cluster in g && receiver in g[cluster].receivers
            && HoldsAll(g[cluster], receiver, if op.Publish? && op.cluster == cluster then published + [op.event] else published)
  {
    hide ReceiveOne;
    var r := h[cluster].receivers[receiver];
    if op.Receive? && r.next <= |h[cluster].sent| { StartStays(r, h[cluster].sent); }
  }

  lemma StartStays(r: Receiver, sent: seq<Event>)
    requires r.next <= |sent|
    ensures ReceiveOne(r, sent).start == r.start
  {
  }

  /**
    What a receiver has been handed accounts, in order, for a prefix of exactly
    the events published to its own cluster since it subscribed; what it has not
    been handed yet is the rest.
   */
  lemma ReceiverSeesItsCluster(ops: seq<Op>, a: nat, cluster: Id, receiver: Id) returns (handled: nat)
    requires OpenSince(ops, a, cluster, receiver)
    ensures cluster in After(ops) && receiver in After(ops)[cluster].receivers
    ensures var r := After(ops)[cluster].receivers[receiver];
            var published := PublishedTo(ops[a + 1..], cluster);
            handled == r.next - r.start && handled <= |published| && Covers(r.seen, published[..handled])
  {
    hide HubStep, After, PublishedTo, Covers, OpenSince;
    ChannelHoldsAll(ops, a, cluster, receiver);
    AfterOk(ops);
    var ch := After(ops)[cluster];
    var r := ch.receivers[receiver];
    assert ReceiverOk(r, ch.sent);
    handled := r.next - r.start;
    assert ch.sent[r.start..][..handled] == ch.sent[r.start..r.next];
  }

  /** A receiver that never lagged saw the events themselves. */
  lemma {:induction false} WithoutLagNothingIsMissed(items: seq<Item>, events: seq<Event>)
    requires Covers(items, events) && forall i :: 0 <= i < |items| ==> items[i].Delivered?
    ensures |items| == |events| && forall i :: 0 <= i < |items| ==> items[i] == Delivered(events[i])
    decreases |items|
  {
    if items != [] {
      assert items[|items| - 1].Delivered?;
      WithoutLagNothingIsMissed(items[..|items| - 1], events[..|events| - 1]);
    }
  }

  /** What one receive hands out, from what is waiting. */
  function Handed(waiting: seq<Event>): seq<Item> {
    if waiting == [] then [] else if |waiting| <= 64 then [Delivered(waiting[0])] else [Lagged(|waiting| - 64)]
  }

  lemma ReceiveOneIs(r: Receiver, sent: seq<Event>)
    requires r.next <= |sent|
    ensures ReceiveOne(r, sent).seen == r.seen + Handed(sent[r.next..])
  {
  }

  /**
    A receive hands out the oldest event not yet handed out while at most 64 are
    waiting; beyond that it reports exactly how many it passes over to be left with
    64, and with none waiting it hands out nothing.
   */
  lemma ReceiveHandsOut(ops: seq<Op>, cluster: Id, receiver: Id)
    requires cluster in After(ops) && receiver in After(ops)[cluster].receivers
    ensures var before, after := After(ops)[cluster], After(ops + [Receive(cluster, receiver)]);
            var r := before.receivers[receiver];
            && r.next <= |before.sent| && cluster in after && receiver in after[cluster].receivers
            && after[cluster].receivers[receiver].seen == r.seen + Handed(before.sent[r.next..])
  {
    hide ReceiveOne, Handed;
    var op, h := Receive(cluster, receiver), After(ops);
    NextIsInside(ops, cluster, receiver);
    ReceiveOneIs(h[cluster].receivers[receiver], h[cluster].sent);
    assert (ops + [op])[..|ops|] == ops;
    assert After(ops + [op]) == HubStep(h, op);
    hide After;
  }

  lemma NextIsInside(ops: seq<Op>, cluster: Id, receiver: Id)
    requires cluster in After(ops) && receiver in After(ops)[cluster].receivers
    ensures After(ops)[cluster].receivers[receiver].next <= |After(ops)[cluster].sent|
  {
    hide Covers, After;
    AfterOk(ops);
    assert ReceiverOk(After(ops)[cluster].receivers[receiver], After(ops)[cluster].sent);
  }

  /** A publish leaves a channel behind exactly when somebody listens: unheard channels do not pile up. */
  lemma PublishKeepsHeardChannels(ops: seq<Op>, cluster: Id, event: Event)
    ensures var h, after := After(ops), After(ops + [Publish(cluster, event)]);
            && (cluster in after <==> cluster in h && h[cluster].receivers != map[])
            && forall c :: c != cluster ==> (c in after <==> c in h) && (c in h ==> after[c] == h[c])
  {
    var op, h := Publish(cluster, event), After(ops);
    assert (ops + [op])[..|ops|] == ops;
    assert After(ops + [op]) == HubStep(h, op);
    hide After;
  }

  // ----------------------------------------------------------------------- stream

  /** One frame of the stream; a lag becomes a sentinel step. */
  datatype Frame = Connected | Sent(event: Event) | LagMarker

  function FrameOf(item: Item): Frame {
    match item
    case Delivered(e) => Sent(e)
    case Lagged(_) => LagMarker
  }

  predicate IsTerminal(f: Frame) { f.Sent? && f.event.Terminal? }

  predicate HasTerminal(frames: seq<Frame>) { exists i :: 0 <= i < |frames| && IsTerminal(frames[i]) }

  /** Everything up to and including the first terminal frame. */
  function CutAfterTerminal(frames: seq<Frame>): seq<Frame> {
    if frames == [] then []
    else if IsTerminal(frames[0]) then [frames[0]]
    else [frames[0]] + CutAfterTerminal(frames[1..])
  }

  /** All frames a connection is sent for the items it was handed. */
  function StreamOf(items: seq<Item>): seq<Frame> { [Connected] + CutAfterTerminal(Frames(items)) }

  /** The stream handler on the items that arrived so far: what it sent, and whether it ended the stream. */
  method StreamEvents(items: seq<Item>) returns (sent: seq<Frame>, ended: bool)
    ensures sent == StreamOf(items)
    ensures ended <==> |items| > 0 && HasTerminal(Frames(items)[..|items| - 1])
  {
    hide IsTerminal, FrameOf;
    var body: seq<Frame> := [];
    var terminalSeen := false;
    ghost var frames := Frames(items);
    for i := 0 to |items|
      invariant body == CutAfterTerminal(frames[..i])
      invariant terminalSeen <==> HasTerminal(frames[..i])
      invariant terminalSeen ==> i > 0 && !HasTerminal(frames[..i - 1])
    {
      if terminalSeen {
        CutStays(frames, i);
        TerminalStays(frames, i, |items| - 1);
        return [Connected] + body, true;
      }
      var frame := FrameOf(items[i]);
      CutSnoc(frames[..i], frame);
      TerminalSnoc(frames[..i], frame);
      assert frames[..i + 1] == frames[..i] + [frame];
      if IsTerminal(frame) { terminalSeen := true; }
      body := body + [frame];
    }
    assert frames[..|items|] == frames;
    sent, ended := [Connected] + body, false;
    if |items| > 0 && !terminalSeen { TerminalStaysOut(frames, |items| - 1); }
  }

  function Frames(items: seq<Item>): (frames: seq<Frame>)
    ensures |frames| == |items| && forall i :: 0 <= i < |items| ==> frames[i] == FrameOf(items[i])
  {
    seq(|items|, i requires 0 <= i < |items| => FrameOf(items[i]))
  }

  lemma {:induction false} CutSnoc(frames: seq<Frame>, f: Frame)
    requires !HasTerminal(frames)
    ensures CutAfterTerminal(frames) == frames && CutAfterTerminal(frames + [f]) == frames + [f]
    decreases |frames|
  {
    if frames != [] {
      assert !IsTerminal(frames[0]);
      NoneInTail(frames);
      CutSnoc(frames[1..], f);
      assert (frames + [f])[1..] == frames[1..] + [f];
    }
  }

  lemma NoneInTail(frames: seq<Frame>)
    requires frames != [] && !HasTerminal(frames)
    ensures !HasTerminal(frames[1..])
  {
    forall i | 0 <= i < |frames| - 1 ensures !IsTerminal(frames[1..][i]) { assert frames[1..][i] == frames[i + 1]; }
  }

  lemma TerminalSnoc(frames: seq<Frame>, f: Frame)
    ensures HasTerminal(frames + [f]) <==> HasTerminal(frames) || IsTerminal(f)
  {
    if HasTerminal(frames) {
      var i :| 0 <= i < |frames| && IsTerminal(frames[i]);
      assert (frames + [f])[i] == frames[i];
    }
    assert (frames + [f])[|frames|] == f;
  }

  lemma TerminalStays(frames: seq<Frame>, i: nat, j: nat)
    requires i <= j <= |frames| && HasTerminal(frames[..i])
    ensures HasTerminal(frames[..j])
  {
    var k :| 0 <= k < i && IsTerminal(frames[..i][k]);
    assert frames[..j][k] == frames[..i][k];
  }

  lemma TerminalStaysOut(frames: seq<Frame>, j: nat)
    requires j <= |frames| && !HasTerminal(frames)
    ensures !HasTerminal(frames[..j])
  {
    forall k | 0 <= k < j ensures !IsTerminal(frames[..j][k]) { assert frames[..j][k] == frames[k]; }
  }

  lemma {:induction false} CutStays(frames: seq<Frame>, i: nat)
    requires i <= |frames| && HasTerminal(frames[..i])
    ensures CutAfterTerminal(frames) == CutAfterTerminal(frames[..i])
    decreases |frames|
  {
    if !IsTerminal(frames[0]) {
      assert frames[..i][1..] == frames[1..][..i - 1];
      var k :| 0 <= k < i && IsTerminal(frames[..i][k]);
      assert frames[1..][..i - 1][k - 1] == frames[..i][k];
      CutStays(frames[1..], i - 1);
    }
  }

  /** What is sent ends at the first terminal event: at most one, in last place, nothing before it dropped. */
  lemma {:induction false} CutIs(frames: seq<Frame>)
    ensures var cut := CutAfterTerminal(frames);
            && cut <= frames
            && (forall i :: 0 <= i < |cut| - 1 ==> !IsTerminal(cut[i]))
            && (HasTerminal(frames) ==> cut != [] && IsTerminal(cut[|cut| - 1]))
            && (!HasTerminal(frames) ==> cut == frames)
    decreases |frames|
  {
    if frames != [] {
      var rest := frames[1..];
      CutIs(rest);
      if HasTerminal(frames) && !IsTerminal(frames[0]) {
        var i :| 0 <= i < |frames| && IsTerminal(frames[i]);
        assert rest[i - 1] == frames[i];
      }
      if !HasTerminal(frames) { NoneInTail(frames); }
      assert frames == [frames[0]] + rest;
    }
  }

  /**
    A connection is greeted once, and then sent one frame for each item handed out,
    in order: an event as itself, a lag as a marker; it stops early only behind a
    terminal event.
   */
  lemma StreamMirrorsItems(items: seq<Item>)
    ensures var sent := StreamOf(items);
            && sent != [] && sent[0] == Connected && |sent| <= |items| + 1
            && (forall i :: 1 <= i < |sent| ==>
                  match items[i - 1]
                  case Delivered(e) => sent[i] == Sent(e)
                  case Lagged(_) => sent[i] == LagMarker)
            && (|sent| <= |items| ==> sent[|sent| - 1].Sent? && sent[|sent| - 1].event.Terminal?)
  {
    hide CutAfterTerminal;
    CutIs(Frames(items));
  }
}
