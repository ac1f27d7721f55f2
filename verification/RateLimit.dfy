/**
  The sliding-window limiter: a queue of admission times per key, pruned from
  the front on every call. It is compared with a limiter that never forgets.
 */
module RateLimit {
  import opened Environment

  type Key = nat

  datatype Call = Call(key: Key, now: int)

  /** `origin` is the earliest instant the clock can represent. */
  datatype Limits = Limits(max: nat, window: nat, origin: int)

  type Queues = map<Key, seq<int>>

  function QueueOf(state: Queues, key: Key): seq<int> {
    if key in state then state[key] else []
  }

  predicate Representable(l: Limits, now: int) { now - l.window >= l.origin }

  /** `now.checked_sub(window).unwrap_or(now)`. */
  function Cutoff(l: Limits, now: int): int {
    if Representable(l, now) then now - l.window else now
  }

  function Prune(q: seq<int>, cutoff: int): seq<int> {
    if q != [] && q[0] < cutoff then Prune(q[1..], cutoff) else q
  }

  datatype Verdict = Verdict(admitted: bool, state: Queues)

  function Check(l: Limits, state: Queues, c: Call): Verdict {
    var q := Prune(QueueOf(state, c.key), Cutoff(l, c.now));
    if |q| >= l.max then Verdict(false, state[c.key := q]) else Verdict(true, state[c.key := q + [c.now]])
  }

  datatype Outcome = Outcome(verdicts: seq<bool>, state: Queues)

  /** Calls one after another, from an empty limiter. */
  function Run(l: Limits, calls: seq<Call>): (o: Outcome)
    ensures |o.verdicts| == |calls|
    decreases |calls|
  {
    if calls == [] then Outcome([], map[])
    else
      var before := Run(l, calls[..|calls| - 1]);
      var v := Check(l, before.state, calls[|calls| - 1]);
      Outcome(before.verdicts + [v.admitted], v.state)
  }

  lemma RunSnoc(l: Limits, calls: seq<Call>, c: Call)
    ensures var v := Check(l, Run(l, calls).state, c);
            Run(l, calls + [c]) == Outcome(Run(l, calls).verdicts + [v.admitted], v.state)
  {
    hide Check;
    assert (calls + [c])[..|calls|] == calls;
  }

  class RateLimiter {
    const limits: Limits
    var state: Queues

    constructor (limits: Limits)
      ensures this.limits == limits && state == map[]
    {
      this.limits := limits;
      state := map[];
    }

    method CheckAt(key: Key, now: int) returns (admitted: bool)
      modifies this
      ensures Verdict(admitted, state) == Check(limits, old(state), Call(key, now))
    {
      var entry := if key in state then state[key] else [];
      var cutoff := if now - limits.window >= limits.origin then now - limits.window else now;
      while entry != [] && entry[0] < cutoff
        invariant Prune(QueueOf(old(state), key), cutoff) == Prune(entry, cutoff)
        decreases |entry|
      {
        entry := entry[1..];
      }
      if |entry| >= limits.max {
        state := state[key := entry];
        return false;
      }
      state := state[key := entry + [now]];
      admitted := true;
    }
  }

  // ------------------------------------------------------------ the full history

  /** Admission times of one key. */
  function Admitted(calls: seq<Call>, verdicts: seq<bool>, key: Key): seq<int>
    requires |calls| == |verdicts|
  {
    if calls == [] then []
    else
      var n := |calls| - 1;
      Admitted(calls[..n], verdicts[..n], key) + if verdicts[n] && calls[n].key == key then [calls[n].now] else []
  }

  /** How many of the times are at or after `from`. */
  function Recent(times: seq<int>, from: int): nat {
    if times == [] then 0
    else Recent(times[..|times| - 1], from) + if times[|times| - 1] >= from then 1 else 0
  }

  /** How many of the times lie in the closed interval. */
  function Within(times: seq<int>, from: int, to: int): nat {
    if times == [] then 0
    else Within(times[..|times| - 1], from, to) + if from <= times[|times| - 1] <= to then 1 else 0
  }

  /** The limiter with perfect memory: admit while fewer than `max` admissions are in the window. */
  function Reference(l: Limits, calls: seq<Call>): (verdicts: seq<bool>)
    ensures |verdicts| == |calls|
    decreases |calls|
  {
    if calls == [] then []
    else
      var n := |calls| - 1;
      var before := Reference(l, calls[..n]);
      before + [Recent(Admitted(calls[..n], before, calls[n].key), calls[n].now - l.window) < l.max]
  }

  /** Time does not run backwards for a key. */
  ghost predicate Nondecreasing(calls: seq<Call>) {
    forall i, j :: 0 <= i < j < |calls| && calls[i].key == calls[j].key ==> calls[i].now <= calls[j].now
  }

  ghost predicate AllRepresentable(l: Limits, calls: seq<Call>) {
    forall i :: 0 <= i < |calls| ==> Representable(l, calls[i].now)
  }

  ghost predicate Sorted(times: seq<int>) {
    forall i, j :: 0 <= i < j < |times| ==> times[i] <= times[j]
  }

  lemma {:induction false} RecentSplits(a: seq<int>, b: seq<int>, from: int)
    ensures Recent(a + b, from) == Recent(a, from) + Recent(b, from)
    decreases |b|
  {
    if b == [] {
      assert a + b == a;
    } else {
      assert (a + b)[..|a + b| - 1] == a + b[..|b| - 1];
      RecentSplits(a, b[..|b| - 1], from);
    }
  }

  predicate AllBefore(times: seq<int>, t: int) { forall i :: 0 <= i < |times| ==> times[i] < t }

  predicate AllFrom(times: seq<int>, t: int) { forall i :: 0 <= i < |times| ==> times[i] >= t }

  predicate AllUpTo(times: seq<int>, t: int) { forall i :: 0 <= i < |times| ==> times[i] <= t }

  lemma {:induction false} RecentOfOld(times: seq<int>, from: int)
    requires AllBefore(times, from)
    ensures Recent(times, from) == 0
    decreases |times|
  {
    if times != [] { RecentOfOld(times[..|times| - 1], from); }
  }

  lemma {:induction false} RecentOfNew(times: seq<int>, from: int)
    requires AllFrom(times, from)
    ensures Recent(times, from) == |times|
    decreases |times|
  {
    if times != [] { RecentOfNew(times[..|times| - 1], from); }
  }

  /** The times pruning drops. */
  function Dropped(q: seq<int>, cutoff: int): seq<int> {
    if q != [] && q[0] < cutoff then [q[0]] + Dropped(q[1..], cutoff) else []
  }

  lemma {:induction false} DroppedAndKept(q: seq<int>, cutoff: int)
    ensures q == Dropped(q, cutoff) + Prune(q, cutoff)
    decreases |q|
  {
    if q != [] && q[0] < cutoff {
      DroppedAndKept(q[1..], cutoff);
      assert q == [q[0]] + q[1..];
    }
  }

  lemma {:induction false} DroppedAreOld(q: seq<int>, cutoff: int)
    ensures AllBefore(Dropped(q, cutoff), cutoff)
    decreases |q|
  {
    if q != [] && q[0] < cutoff { DroppedAreOld(q[1..], cutoff); }
  }

  lemma {:induction false} KeptAreNew(q: seq<int>, cutoff: int)
    requires Sorted(q)
    ensures AllFrom(Prune(q, cutoff), cutoff)
    decreases |q|
  {
    if q != [] && q[0] < cutoff { KeptAreNew(q[1..], cutoff); }
  }

  /** On a sorted queue pruning drops exactly the times before the cutoff. */
  lemma PruneSplits(q: seq<int>, cutoff: int) returns (gone: seq<int>)
    requires Sorted(q)
    ensures q == gone + Prune(q, cutoff)
    ensures AllBefore(gone, cutoff) && AllFrom(Prune(q, cutoff), cutoff)
  {
    hide Dropped, Prune, AllBefore, AllFrom, Sorted;
    gone := Dropped(q, cutoff);
    DroppedAndKept(q, cutoff);
    DroppedAreOld(q, cutoff);
    KeptAreNew(q, cutoff);
  }

  /** The greatest cutoff a key's calls have used so far. */
  function Horizon(l: Limits, calls: seq<Call>, key: Key): Option<int> {
    if calls == [] then None
    else
      var c, before := calls[|calls| - 1], Horizon(l, calls[..|calls| - 1], key);
      if c.key == key then Some(Later(before, Cutoff(l, c.now))) else before
  }

  function Later(horizon: Option<int>, cutoff: int): int {
    if horizon.Some? && horizon.value > cutoff then horizon.value else cutoff
  }

  /** The greatest cutoff up to and including call `c` that follows `calls`. */
  function HorizonAt(l: Limits, calls: seq<Call>, c: Call): int { Later(Horizon(l, calls, c.key), Cutoff(l, c.now)) }

  /** A key's admissions: those before the horizon, which are forgotten, then its queue. */
  ghost predicate Held(gone: seq<int>, q: seq<int>, horizon: Option<int>, now: int) {
    && Sorted(gone + q) && AllUpTo(gone + q, now)
    && (horizon.None? ==> gone == [] && q == [])
    && (horizon.Some? ==> horizon.value <= now && AllBefore(gone, horizon.value) && AllFrom(q, horizon.value))
  }

  /** One call counts the admissions from the new horizon on, and leaves the rest behind it. */
  lemma CheckCounts(l: Limits, gone: seq<int>, q: seq<int>, horizon: Option<int>, now: int) returns (more: seq<int>)
    requires Held(gone, q, horizon, now)
    ensures var p, h := Prune(q, Cutoff(l, now)), Later(horizon, Cutoff(l, now));
            && more + p == gone + q && |p| == Recent(gone + q, h)
            && Held(more, p, Some(h), now) && Held(more, p + [now], Some(h), now)
  {
    hide Recent, Prune;
    var cutoff, h := Cutoff(l, now), Later(horizon, Cutoff(l, now));
    SuffixSorted(gone, q);
    var k := PruneSplits(q, cutoff);
    var p := Prune(q, cutoff);
    more := gone + k;
    assert gone + (k + p) == more + p;
    KeptStays(k, p, horizon, cutoff);
    RecentSplits(more, p, h);
    RecentOfOld(more, h);
    RecentOfNew(p, h);
    OneMore(more, p, now);
  }

  lemma KeptStays(k: seq<int>, p: seq<int>, horizon: Option<int>, cutoff: int)
    requires AllFrom(p, cutoff) && (horizon.Some? ==> AllFrom(k + p, horizon.value))
    ensures AllFrom(p, Later(horizon, cutoff))
  {
    forall i | 0 <= i < |p| ensures p[i] >= Later(horizon, cutoff) { assert p[i] == (k + p)[|k| + i]; }
  }

  lemma SuffixSorted(a: seq<int>, b: seq<int>)
    requires Sorted(a + b)
    ensures Sorted(b)
  {
    forall i, j | 0 <= i < j < |b| ensures b[i] <= b[j] {
      assert (a + b)[|a| + i] == b[i] && (a + b)[|a| + j] == b[j];
    }
  }

  lemma OneMore(a: seq<int>, b: seq<int>, now: int)
    requires Sorted(a + b) && AllUpTo(a + b, now)
    ensures Sorted(a + (b + [now])) && AllUpTo(a + (b + [now]), now)
  {
    assert a + (b + [now]) == (a + b) + [now];
  }

  lemma ReferenceSnoc(l: Limits, calls: seq<Call>, c: Call)
    ensures var before := Reference(l, calls);
            Reference(l, calls + [c]) == before + [Recent(Admitted(calls, before, c.key), c.now - l.window) < l.max]
  {
    hide Recent, Admitted;
    assert (calls + [c])[..|calls|] == calls;
  }

  lemma AdmittedSnoc(calls: seq<Call>, verdicts: seq<bool>, c: Call, v: bool, key: Key)
    requires |calls| == |verdicts|
    ensures Admitted(calls + [c], verdicts + [v], key) ==
              if v && c.key == key then Admitted(calls, verdicts, key) + [c.now] else Admitted(calls, verdicts, key)
  {
    assert (calls + [c])[..|calls|] == calls && (verdicts + [v])[..|calls|] == verdicts;
  }

  lemma HorizonSnoc(l: Limits, calls: seq<Call>, c: Call, key: Key)
    ensures Horizon(l, calls + [c], key) == if c.key == key then Some(HorizonAt(l, calls, c)) else Horizon(l, calls, key)
  {
    hide Cutoff;
    assert (calls + [c])[..|calls|] == calls;
  }

  /** No call of the key is later than `now`. */
  ghost predicate KeyUpTo(calls: seq<Call>, key: Key, now: int) {
    forall i :: 0 <= i < |calls| && calls[i].key == key ==> calls[i].now <= now
  }

  /** The queue of a key is what it admitted from the horizon on. */
  ghost predicate QueueIs(l: Limits, calls: seq<Call>, key: Key, gone: seq<int>, now: int) {
    && Admitted(calls, Run(l, calls).verdicts, key) == gone + QueueOf(Run(l, calls).state, key)
    && Held(gone, QueueOf(Run(l, calls).state, key), Horizon(l, calls, key), now)
  }

  lemma OwnCall(l: Limits, calls: seq<Call>, c: Call, gone: seq<int>) returns (more: seq<int>)
    requires QueueIs(l, calls, c.key, gone, c.now)
    ensures QueueIs(l, calls + [c], c.key, more, c.now)
    ensures Run(l, calls + [c]).verdicts == Run(l, calls).verdicts
              + [Recent(Admitted(calls, Run(l, calls).verdicts, c.key), HorizonAt(l, calls, c)) < l.max]
  {
    hide Held, Prune, Recent, Cutoff, Run, Admitted, Horizon;
    var q, verdicts := QueueOf(Run(l, calls).state, c.key), Run(l, calls).verdicts;
    more := CheckCounts(l, gone, q, Horizon(l, calls, c.key), c.now);
    RunSnoc(l, calls, c);
    HorizonSnoc(l, calls, c, c.key);
    AdmittedSnoc(calls, verdicts, c, Check(l, Run(l, calls).state, c).admitted, c.key);
    var p := Prune(q, Cutoff(l, c.now));
    assert gone + q + [c.now] == more + (p + [c.now]);
  }

  lemma OtherCall(l: Limits, calls: seq<Call>, c: Call, key: Key, gone: seq<int>, now: int)
    requires QueueIs(l, calls, key, gone, now) && c.key != key
    ensures QueueIs(l, calls + [c], key, gone, now)
  {
    hide Held, Prune, Cutoff, Run, Admitted, Horizon;
    RunSnoc(l, calls, c);
    HorizonSnoc(l, calls, c, key);
    AdmittedSnoc(calls, Run(l, calls).verdicts, c, Check(l, Run(l, calls).state, c).admitted, key);
  }

  lemma QueueIsLater(l: Limits, calls: seq<Call>, key: Key, gone: seq<int>, now: int, later: int)
    requires QueueIs(l, calls, key, gone, now) && now <= later
    ensures QueueIs(l, calls, key, gone, later)
  {
    hide Run, Admitted, Horizon;
  }

  lemma NothingHeld(l: Limits, key: Key, now: int)
    ensures QueueIs(l, [], key, [], now)
  {
  }

  lemma PrefixInOrder(calls: seq<Call>)
    requires Nondecreasing(calls) && calls != []
    ensures var n := |calls| - 1;
            Nondecreasing(calls[..n]) && KeyUpTo(calls[..n], calls[n].key, calls[n].now)
  {
  }

  lemma {:induction false} RunHolds(l: Limits, calls: seq<Call>, key: Key, now: int) returns (gone: seq<int>)
    requires Nondecreasing(calls) && KeyUpTo(calls, key, now)
    ensures QueueIs(l, calls, key, gone, now)
    decreases |calls|
  {
    hide QueueIs, Nondecreasing;
    if calls == [] {
      gone := [];
      NothingHeld(l, key, now);
    } else {
      var n := |calls| - 1;
      var rest, c := calls[..n], calls[n];
      assert calls == rest + [c];
      PrefixInOrder(calls);
      if c.key == key {
        var own := RunHolds(l, rest, key, c.now);
        gone := OwnCall(l, rest, c, own);
        QueueIsLater(l, calls, key, gone, c.now, now);
      } else {
        gone := RunHolds(l, rest, key, now);
        OtherCall(l, rest, c, key, gone, now);
      }
    }
  }

  /** What the limiter decides: it counts its own admissions of the key since the horizon. */
  lemma VerdictIs(l: Limits, calls: seq<Call>)
    requires Nondecreasing(calls) && calls != []
    ensures var rest, c := calls[..|calls| - 1], calls[|calls| - 1];
            Run(l, calls).verdicts == Run(l, rest).verdicts
              + [Recent(Admitted(rest, Run(l, rest).verdicts, c.key), HorizonAt(l, rest, c)) < l.max]
  {
    hide Run, Admitted, QueueIs, HorizonAt, Recent;
    var rest, c := calls[..|calls| - 1], calls[|calls| - 1];
    assert calls == rest + [c];
    PrefixInOrder(calls);
    var gone := RunHolds(l, rest, c.key, c.now);
    var _ := OwnCall(l, rest, c, gone);
  }

  // --------------------------------------------------------- when that is the window

  /** Call `c` after `calls`: the window is not full, or is full with what the limiter still counts. */
  ghost predicate Counts(l: Limits, calls: seq<Call>, c: Call) {
    var history := Admitted(calls, Reference(l, calls), c.key);
    Recent(history, c.now - l.window) < l.max || Recent(history, HorizonAt(l, calls, c)) >= l.max
  }

  ghost predicate AllCount(l: Limits, calls: seq<Call>) {
    forall i :: 0 <= i < |calls| ==> Counts(l, calls[..i], calls[i])
  }

  lemma AllCountSnoc(l: Limits, calls: seq<Call>)
    requires calls != []
    ensures var n := |calls| - 1; AllCount(l, calls) <==> AllCount(l, calls[..n]) && Counts(l, calls[..n], calls[n])
  {
    hide Counts;
    var n := |calls| - 1;
    forall i | 0 <= i < n ensures calls[..n][..i] == calls[..i] && calls[..n][i] == calls[i] {}
    if AllCount(l, calls) {
      forall i | 0 <= i < n ensures Counts(l, calls[..n][..i], calls[..n][i]) {
        assert Counts(l, calls[..i], calls[i]);
      }
    }
    if AllCount(l, calls[..n]) && Counts(l, calls[..n], calls[n]) {
      forall i | 0 <= i < |calls| ensures Counts(l, calls[..i], calls[i]) {
        if i < n { assert Counts(l, calls[..n][..i], calls[..n][i]); }
      }
    }
  }

  lemma {:induction false} RecentShrinks(times: seq<int>, from: int, later: int)
    requires from <= later
    ensures Recent(times, later) <= Recent(times, from)
    decreases |times|
  {
    if times != [] { RecentShrinks(times[..|times| - 1], from, later); }
  }

  lemma HorizonIsNotBeforeTheWindow(l: Limits, calls: seq<Call>, c: Call)
    ensures HorizonAt(l, calls, c) >= c.now - l.window
  {
    hide Horizon;
  }

  /**
    For times that do not run backwards, the limiter decides every call as one
    that remembers all admissions if and only if, at every call, the window is
    not full or the admissions since the greatest cutoff so far already fill it.
   */
  lemma {:induction false} ExactIff(l: Limits, calls: seq<Call>)
    requires Nondecreasing(calls)
    ensures Run(l, calls).verdicts == Reference(l, calls) <==> AllCount(l, calls)
    decreases |calls|
  {
    hide Nondecreasing, Run, Reference, AllCount, Counts;
    if calls == [] {
      NoCallCounts(l);
    } else {
      var n := |calls| - 1;
      PrefixInOrder(calls);
      ExactIff(l, calls[..n]);
      AllCountSnoc(l, calls);
      ExactStep(l, calls);
    }
  }

  /** One call more: equal so far, and the last call counts right. */
  lemma ExactStep(l: Limits, calls: seq<Call>)
    requires Nondecreasing(calls) && calls != []
    ensures var n := |calls| - 1;
            Run(l, calls).verdicts == Reference(l, calls) <==>
              Run(l, calls[..n]).verdicts == Reference(l, calls[..n]) && Counts(l, calls[..n], calls[n])
  {
    hide Nondecreasing, Recent, Admitted, HorizonAt, Run, Reference;
    var n := |calls| - 1;
    var rest, c := calls[..n], calls[n];
    assert calls == rest + [c];
    VerdictIs(l, calls);
    ReferenceSnoc(l, rest, c);
    var ran, ref := Run(l, rest).verdicts, Reference(l, rest);
    var own, history := Admitted(rest, ran, c.key), Admitted(rest, ref, c.key);
    SameIffSameParts(ran, ref, Recent(own, HorizonAt(l, rest, c)) < l.max, Recent(history, c.now - l.window) < l.max);
    HorizonIsNotBeforeTheWindow(l, rest, c);
    RecentShrinks(history, c.now - l.window, HorizonAt(l, rest, c));
  }

  lemma SameIffSameParts(a: seq<bool>, b: seq<bool>, x: bool, y: bool)
    requires |a| == |b|
    ensures a + [x] == b + [y] <==> a == b && x == y
  {
    if a + [x] == b + [y] {
      assert a == (a + [x])[..|a|] && b == (b + [y])[..|b|];
      assert (a + [x])[|a|] == x && (b + [y])[|b|] == y;
    }
  }

  lemma {:induction false} RepresentableHorizon(l: Limits, calls: seq<Call>, key: Key, now: int)
    requires AllRepresentable(l, calls) && KeyUpTo(calls, key, now)
    ensures Horizon(l, calls, key).Some? ==> Horizon(l, calls, key).value <= now - l.window
    decreases |calls|
  {
    if calls != [] { RepresentableHorizon(l, calls[..|calls| - 1], key, now); }
  }

  lemma {:induction false} RepresentableCounts(l: Limits, calls: seq<Call>)
    requires Nondecreasing(calls) && AllRepresentable(l, calls)
    ensures AllCount(l, calls)
    decreases |calls|
  {
    hide Recent, Admitted, Horizon, Reference, AllCount, Nondecreasing;
    if calls == [] {
      NoCallCounts(l);
    } else {
      var n := |calls| - 1;
      PrefixInOrder(calls);
      RepresentableCounts(l, calls[..n]);
      RepresentableHorizon(l, calls[..n], calls[n].key, calls[n].now);
      AllCountSnoc(l, calls);
    }
  }

  lemma NoCallCounts(l: Limits)
    ensures AllCount(l, []) && Run(l, []).verdicts == Reference(l, [])
  {
  }

  /** So with a representable cutoff at every call the pruned queues decide exactly as the full history. */
  lemma LimiterIsExact(l: Limits, calls: seq<Call>)
    requires Nondecreasing(calls) && AllRepresentable(l, calls)
    ensures Run(l, calls).verdicts == Reference(l, calls)
  {
    hide Run, Reference, AllCount;
    RepresentableCounts(l, calls);
    ExactIff(l, calls);
  }

  // ----------------------------------------------------------------- consequences

  lemma {:induction false} WithinIsRecent(times: seq<int>, from: int, to: int, since: int)
    requires since <= from
    ensures Within(times, from, to) <= Recent(times, since)
    decreases |times|
  {
    if times != [] { WithinIsRecent(times[..|times| - 1], from, to, since); }
  }

  lemma {:induction false} ReferenceBound(l: Limits, calls: seq<Call>, key: Key, from: int)
    ensures Within(Admitted(calls, Reference(l, calls), key), from, from + l.window) <= l.max
    decreases |calls|
  {
    if calls != [] {
      var n := |calls| - 1;
      var before, all := Admitted(calls[..n], Reference(l, calls[..n]), key), Admitted(calls, Reference(l, calls), key);
      ReferenceBound(l, calls[..n], key, from);
      assert Reference(l, calls)[..n] == Reference(l, calls[..n]);
      if all != before {
        assert all == before + [calls[n].now] && all[..|all| - 1] == before;
        if calls[n].now <= from + l.window {
          WithinIsRecent(before, from, from + l.window, calls[n].now - l.window);
        }
      }
    }
  }

  /** No closed interval of the window's length holds more than `max` admitted calls of a key. */
  lemma NoWindowOverflows(l: Limits, calls: seq<Call>, key: Key, from: int)
    requires Nondecreasing(calls) && AllCount(l, calls)
    ensures Within(Admitted(calls, Run(l, calls).verdicts, key), from, from + l.window) <= l.max
  {
    hide Within, Admitted, Run, Reference, AllCount;
    ExactIff(l, calls);
    ReferenceBound(l, calls, key, from);
  }

  /** The calls of one key. */
  function Only(calls: seq<Call>, key: Key): seq<Call> {
    if calls == [] then []
    else
      var n := |calls| - 1;
      Only(calls[..n], key) + if calls[n].key == key then [calls[n]] else []
  }

  function VerdictsOf(calls: seq<Call>, verdicts: seq<bool>, key: Key): seq<bool>
    requires |calls| == |verdicts|
  {
    if calls == [] then []
    else
      var n := |calls| - 1;
      VerdictsOf(calls[..n], verdicts[..n], key) + if calls[n].key == key then [verdicts[n]] else []
  }

  lemma CheckReadsItsQueue(l: Limits, a: Queues, b: Queues, c: Call)
    requires QueueOf(a, c.key) == QueueOf(b, c.key)
    ensures Check(l, a, c).admitted == Check(l, b, c).admitted
    ensures QueueOf(Check(l, a, c).state, c.key) == QueueOf(Check(l, b, c).state, c.key)
    ensures forall k :: k != c.key ==> QueueOf(Check(l, a, c).state, k) == QueueOf(a, k)
  {
    hide Prune, Cutoff;
  }

  lemma SelectionSnoc(calls: seq<Call>, verdicts: seq<bool>, c: Call, v: bool, key: Key)
    requires |calls| == |verdicts|
    ensures VerdictsOf(calls + [c], verdicts + [v], key) ==
              if c.key == key then VerdictsOf(calls, verdicts, key) + [v] else VerdictsOf(calls, verdicts, key)
    ensures Only(calls + [c], key) == if c.key == key then Only(calls, key) + [c] else Only(calls, key)
  {
    assert (calls + [c])[..|calls|] == calls && (verdicts + [v])[..|calls|] == verdicts;
  }

  /** A key is treated as if it were the only one, whatever the times. */
  lemma {:induction false} KeysAreIndependent(l: Limits, calls: seq<Call>, key: Key)
    ensures VerdictsOf(calls, Run(l, calls).verdicts, key) == Run(l, Only(calls, key)).verdicts
    ensures QueueOf(Run(l, calls).state, key) == QueueOf(Run(l, Only(calls, key)).state, key)
    decreases |calls|
  {
    if calls != [] {
      var n := |calls| - 1;
      var rest, c := calls[..n], calls[n];
      assert calls == rest + [c];
      KeysAreIndependent(l, rest, key);
      hide Check, Run, VerdictsOf, QueueOf, Only;
      RunSnoc(l, rest, c);
      SelectionSnoc(rest, Run(l, rest).verdicts, c, Check(l, Run(l, rest).state, c).admitted, key);
      if c.key == key {
        RunSnoc(l, Only(rest, key), c);
        CheckReadsItsQueue(l, Run(l, rest).state, Run(l, Only(rest, key)).state, c);
      } else {
        CheckReadsItsQueue(l, Run(l, rest).state, Run(l, rest).state, c);
      }
    }
  }

  // ---------------------------------------------- a window longer than the clock

  /**
    One call: when `now - window` is before the clock's origin, the limiter
    forgets every admission before `now`. From a queue that still holds the whole
    history its verdict is right exactly when the window was not full anyway, or
    is full with admissions at this very instant.
   */
  lemma UnrepresentableCutoff(l: Limits, history: seq<int>, now: int)
    requires Sorted(history) && AllUpTo(history, now) && AllFrom(history, l.origin) && !Representable(l, now)
    ensures (|Prune(history, Cutoff(l, now))| < l.max) == (Recent(history, now - l.window) < l.max) <==>
              |history| < l.max || Recent(history, now) >= l.max
  {
    hide Recent, Prune;
    var gone := PruneSplits(history, now);
    var kept := Prune(history, now);
    RecentSplits(gone, kept, now);
    RecentOfOld(gone, now);
    RecentOfNew(kept, now);
    RecentOfNew(history, now - l.window);
  }

  function Burst(key: Key, at: int, n: nat): (calls: seq<Call>)
    ensures |calls| == n && forall i :: 0 <= i < n ==> calls[i] == Call(key, at)
  {
    seq(n, _ => Call(key, at))
  }

  function Repeat(t: int, n: nat): (times: seq<int>)
    ensures |times| == n && forall i :: 0 <= i < n ==> times[i] == t
  {
    seq(n, _ => t)
  }

  lemma RepeatSnoc(t: int, n: nat)
    requires n > 0
    ensures Repeat(t, n) == Repeat(t, n - 1) + [t]
  {
  }

  lemma {:induction false} BurstFills(l: Limits, key: Key, n: nat)
    requires n <= l.max
    ensures var calls := Burst(key, l.origin, n);
            && QueueOf(Run(l, calls).state, key) == Repeat(l.origin, n)
            && Admitted(calls, Run(l, calls).verdicts, key) == Repeat(l.origin, n)
    decreases n
  {
    hide Repeat, Burst;
    if n > 0 {
      var burst, c := Burst(key, l.origin, n - 1), Call(key, l.origin);
      assert Burst(key, l.origin, n) == burst + [c];
      BurstFills(l, key, n - 1);
      RepeatSnoc(l.origin, n);
      RunSnoc(l, burst, c);
      AdmittedSnoc(burst, Run(l, burst).verdicts, c, true, key);
      assert Prune(Repeat(l.origin, n - 1), Cutoff(l, l.origin)) == Repeat(l.origin, n - 1);
      hide Run, Admitted;
    }
  }

  lemma {:induction false} WithinAll(n: nat, t: int, to: int)
    requires t <= to
    ensures Within(Repeat(t, n), t, to) == n
  {
    if n > 0 {
      RepeatSnoc(t, n);
      assert Repeat(t, n)[..n - 1] == Repeat(t, n - 1);
      WithinAll(n - 1, t, to);
    }
  }

  lemma BurstIsOrdered(l: Limits, key: Key)
    ensures Nondecreasing(Burst(key, l.origin, l.max) + [Call(key, l.origin + 1)])
  {
  }

  /** A full burst at the origin and one call a tick later: one admission too many, for every limit and longer window. */
  lemma OverAdmitsNearTheOrigin(l: Limits, key: Key)
    requires l.max > 0 && l.window > 1
    ensures var calls := Burst(key, l.origin, l.max) + [Call(key, l.origin + 1)];
            && Nondecreasing(calls)
            && Within(Admitted(calls, Run(l, calls).verdicts, key), l.origin, l.origin + l.window) == l.max + 1
  {
    hide Run, Admitted, Prune, Nondecreasing, Repeat, Burst;
    var burst, last, times := Burst(key, l.origin, l.max), Call(key, l.origin + 1), Repeat(l.origin, l.max);
    BurstIsOrdered(l, key);
    BurstFills(l, key, l.max);
    ForgetAll(times, l.origin + 1);
    RunSnoc(l, burst, last);
    WithinAll(l.max, l.origin, l.origin + l.window);
    var before := Run(l, burst);
    assert Check(l, before.state, last).admitted;
    AdmittedSnoc(burst, before.verdicts, last, true, key);
    var admitted := times + [l.origin + 1];
    assert admitted[..l.max] == times;
  }

  lemma {:induction false} ForgetAll(q: seq<int>, cutoff: int)
    requires AllBefore(q, cutoff)
    ensures Prune(q, cutoff) == []
    decreases |q|
  {
    if q != [] { ForgetAll(q[1..], cutoff); }
  }

  /** What such a call drops is missing later: the third call here is representable, and one too many. */
  lemma ForgottenAdmissionsMatterLater(key: Key)
    ensures var l, calls := Limits(2, 100, 0), Three(key);
            && Nondecreasing(calls) && Representable(l, 101)
            && Run(l, calls).verdicts == [true, true, true]
            && Within(Admitted(calls, Run(l, calls).verdicts, key), 1, 101) == 3
  {
    hide Run, Admitted, Within;
    RunOfThree(key);
    AdmittedOfThree(key);
    WithinOfThree();
  }

  function Three(key: Key): seq<Call> { [Call(key, 1), Call(key, 2), Call(key, 101)] }

  lemma RunOfThree(key: Key)
    ensures Run(Limits(2, 100, 0), Three(key)).verdicts == [true, true, true]
  {
    hide Run, Prune;
    var l, a, b, c := Limits(2, 100, 0), Call(key, 1), Call(key, 2), Call(key, 101);
    var m0: Queues, m1: Queues, m2: Queues, m3: Queues := map[], map[key := [1]], map[key := [2]], map[key := [2, 101]];
    assert [] + [1] == [1] && [] + [2] == [2] && [2] + [101] == [2, 101];
    assert m0[key := [1]] == m1 && m1[key := [2]] == m2 && m2[key := [2, 101]] == m3;
    RunOfNone(l);
    CheckFrom(l, m0, key, 1, [], []);
    AdmitOne(l, [], a, [], m0, m1);
    assert [] + [a] == [a] && [] + [true] == [true];
    CheckFrom(l, m1, key, 2, [1], []);
    AdmitOne(l, [a], b, [true], m1, m2);
    assert [a] + [b] == [a, b] && [true] + [true] == [true, true];
    CheckFrom(l, m2, key, 101, [2], [2]);
    AdmitOne(l, [a, b], c, [true, true], m2, m3);
    assert [a, b] + [c] == Three(key) && [true, true] + [true] == [true, true, true];
  }

  lemma RunOfNone(l: Limits)
    ensures Run(l, []) == Outcome([], map[])
  {
  }

  lemma AdmitOne(l: Limits, calls: seq<Call>, c: Call, verdicts: seq<bool>, before: Queues, after: Queues)
    requires Run(l, calls) == Outcome(verdicts, before) && Check(l, before, c) == Verdict(true, after)
    ensures Run(l, calls + [c]) == Outcome(verdicts + [true], after)
  {
    hide Run, Check;
    RunSnoc(l, calls, c);
  }

  lemma AdmittedOfThree(key: Key)
    ensures Admitted(Three(key), [true, true, true], key) == [1, 2, 101]
  {
    hide Admitted;
    var a, b, c := Call(key, 1), Call(key, 2), Call(key, 101);
    AdmittedSnoc([], [], a, true, key);
    AdmittedSnoc([a], [true], b, true, key);
    AdmittedSnoc([a, b], [true, true], c, true, key);
    AdmittedOfNone(key);
    assert [] + [a] == [a] && [a] + [b] == [a, b] && [a, b] + [c] == Three(key);
    assert [] + [true] == [true] && [true] + [true] == [true, true] && [true, true] + [true] == [true, true, true];
    assert [] + [1] == [1] && [1] + [2] == [1, 2] && [1, 2] + [101] == [1, 2, 101];
  }

  lemma AdmittedOfNone(key: Key)
    ensures Admitted([], [], key) == []
  {
  }

  lemma WithinOfThree()
    ensures Within([1, 2, 101], 1, 101) == 3
  {
    WithinSnoc([], 1, 1, 101);
    WithinSnoc([1], 2, 1, 101);
    WithinSnoc([1, 2], 101, 1, 101);
    assert [1] + [2] == [1, 2] && [1, 2] + [101] == [1, 2, 101];
  }

  /** A call that admits: `q` before, `kept` of it after pruning. */
  lemma CheckFrom(l: Limits, state: Queues, key: Key, now: int, q: seq<int>, kept: seq<int>)
    requires QueueOf(state, key) == q && |kept| < l.max
    requires if kept == [] then AllBefore(q, Cutoff(l, now)) else kept == q && q[0] >= Cutoff(l, now)
    ensures Check(l, state, Call(key, now)) == Verdict(true, state[key := kept + [now]])
  {
    if kept == [] { ForgetAll(q, Cutoff(l, now)); }
  }

  lemma WithinSnoc(times: seq<int>, t: int, from: int, to: int)
    ensures Within(times + [t], from, to) == Within(times, from, to) + if from <= t <= to then 1 else 0
  {
    assert (times + [t])[..|times|] == times;
  }
}
