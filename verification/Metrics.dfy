/**
  The two metrics stores: the in-memory one that filters samples, and the one
  that writes text lines to a backend and reads them through a selector. The
  backend keeps label sets; a label it does not have counts as empty there.
 */
module Metrics {
  import opened Environment
  import opened Numerals
  import opened Text
  import opened Uuids
  import opened MetricsText

  const NAME: string := "__name__"
  const ORG: string := "organization_id"

  datatype Query = Query(metric: string, matchers: seq<Label>, start: int, end: int)

  // --------------------------------------------------------------------- in memory

  predicate Has(labels: seq<Label>, l: Label) { exists i :: 0 <= i < |labels| && labels[i] == l }

  /** The value of the first label with this name. */
  function First(labels: seq<Label>, name: string): Option<string> {
    if labels == [] then None
    else if labels[0].name == name then Some(labels[0].value)
    else First(labels[1..], name)
  }

  predicate SampleMatches(s: Sample, q: Query) {
    && q.start <= s.timestamp <= q.end
    && First(s.labels, NAME) == Some(q.metric)
    && forall i :: 0 <= i < |q.matchers| ==> Has(s.labels, q.matchers[i])
  }

  function Select(samples: seq<Sample>, q: Query): seq<Sample> {
    if samples == [] then []
    else
      var rest := Select(samples[1..], q);
      if SampleMatches(samples[0], q) then [samples[0]] + rest else rest
  }

  class InMemoryMetricsStore {
    var inner: map<Uuid, seq<Sample>>

    constructor ()
      ensures inner == map[]
    {
      inner := map[];
    }

    function Tenant(org: Uuid): seq<Sample>
      reads this
    {
      if org in inner then inner[org] else []
    }

    method Ingest(org: Uuid, samples: seq<Sample>) returns (n: nat)
      modifies this
      ensures n == |samples|
      ensures Tenant(org) == old(Tenant(org)) + samples
      ensures forall o :: o != org ==> Tenant(o) == old(Tenant(o))
    {
      n := |samples|;
      inner := inner[org := Tenant(org) + samples];
    }

    method QueryRange(org: Uuid, q: Query) returns (matched: seq<Sample>)
      ensures matched == Select(Tenant(org), q)
    {
      matched := [];
      if org !in inner { return; }
      var samples := inner[org];
      for i := 0 to |samples|
        invariant Select(samples, q) == matched + Select(samples[i..], q)
      {
        assert samples[i..][1..] == samples[i + 1..];
        if SampleMatches(samples[i], q) { matched := matched + [samples[i]]; }
      }
    }

    /** `handle_write`: the claimed tenant must be the authenticated one. */
    method HandleWrite(actor: Uuid, claimed: Uuid, samples: seq<Sample>) returns (accepted: Option<nat>)
      modifies this
      ensures accepted == if actor == claimed then Some(|samples|) else None
      ensures Tenant(actor) == if actor == claimed then old(Tenant(actor)) + samples else old(Tenant(actor))
      ensures forall o :: o != actor ==> Tenant(o) == old(Tenant(o))
    {
      if actor != claimed { return None; }
      var n := Ingest(actor, samples);
      accepted := Some(n);
    }
  }

  // ------------------------------------------------------------------- text to write

  /** The labels of a line: all but the name and any claimed tenant. */
  function Others(labels: seq<Label>): seq<Label> {
    if labels == [] then []
    else
      var rest := Others(labels[1..]);
      if labels[0].name != NAME && labels[0].name != ORG then [labels[0]] + rest else rest
  }

  function Stamp(org: Uuid): string { ORG + ['=', '"'] + UuidText(org) + ['"'] }

  function MetricName(s: Sample): string {
    var name := First(s.labels, NAME);
    if name.None? then "unknown" else name.value
  }

  function Line(org: Uuid, s: Sample): string {
    MetricName(s) + (['{'] + (Join(Pairs(Others(s.labels)) + [Stamp(org)], ',') + (['}', '\t'] + Numbers(s))))
  }

  function Numbers(s: Sample): string { s.value + ([' '] + (ShowI64(s.timestamp) + ['\n'])) }

  function PromText(org: Uuid, samples: seq<Sample>): string {
    if samples == [] then [] else Line(org, samples[0]) + PromText(org, samples[1..])
  }

  method ToPromText(org: Uuid, samples: seq<Sample>) returns (out: string)
    ensures out == PromText(org, samples)
  {
    hide Line;
    out := "";
    for i := 0 to |samples|
      invariant PromText(org, samples) == out + PromText(org, samples[i..])
    {
      assert samples[i..][1..] == samples[i + 1..];
      out := out + Line(org, samples[i]);
    }
  }

  function SelectorLabels(org: Uuid, q: Query): seq<Label> {
    [Label(NAME, q.metric), Label(ORG, UuidText(org))] + q.matchers
  }

  /** `{__name__="…",organization_id="…",…}`. */
  function Selector(org: Uuid, q: Query): string {
    ['{'] + (Join([Pair(Label(NAME, q.metric)), Stamp(org)] + Pairs(q.matchers), ',') + ['}'])
  }

  // --------------------------------------------------------------------- the backend

  datatype Stored = Stored(labels: map<string, string>, value: string, timestamp: int)

  function LabelMap(labels: seq<Label>): map<string, string> {
    if labels == [] then map[] else LabelMap(labels[1..])[labels[0].name := labels[0].value]
  }

  function ReadLine(s: string): (p: Parsed<Stored>)
    ensures p.Ok? ==> |p.rest| < |s|
  {
    var (name, t) := ReadName(s);
    if name == [] || !StartsWith(t, '{') then Fail
    else
      var pairs := ReadPairs(t[1..]);
      if pairs.Fail? || |pairs.rest| < 2 || pairs.rest[0] != '}' || pairs.rest[1] != '\t' then Fail
      else
        var value := FirstPiece(pairs.rest[2..], ' ');
        var time := FirstPiece(value.1, '\n');
        if !value.2 || !time.2 || ParseI64(time.0).None? then Fail
        else Ok(Stored(LabelMap(pairs.value)[NAME := name], value.0, ParseI64(time.0).value), time.1)
  }

  function ReadLines(s: string): Option<seq<Stored>>
    decreases |s|
  {
    if s == [] then Some([])
    else
      var line := ReadLine(s);
      if line.Fail? then None
      else
        var more := ReadLines(line.rest);
        if more.None? then None else Some([line.value] + more.value)
  }

  /** One selector in braces. */
  function ReadSelector(s: string): (p: Parsed<seq<Label>>)
    ensures p.Ok? ==> |p.rest| < |s|
  {
    if !StartsWith(s, '{') then Fail
    else
      var pairs := ReadPairs(s[1..]);
      if pairs.Fail? || !StartsWith(pairs.rest, '}') then Fail else Ok(pairs.value, pairs.rest[1..])
  }

  const OR := [' ', 'o', 'r', ' ']

  /** A query: one selector, or several joined by `or`. */
  function ReadQuery(s: string): Option<seq<seq<Label>>>
    decreases |s|
  {
    var first := ReadSelector(s);
    if first.Fail? then None
    else if first.rest == [] then Some([first.value])
    else if !(OR <= first.rest) then None
    else
      var more := ReadQuery(first.rest[4..]);
      if more.None? then None else Some([first.value] + more.value)
  }

  function Lookup(labels: map<string, string>, name: string): string { if name in labels then labels[name] else "" }

  predicate Satisfies(s: Stored, matchers: seq<Label>) {
    forall i :: 0 <= i < |matchers| ==> Lookup(s.labels, matchers[i].name) == matchers[i].value
  }

  /** What `or` selects. */
  predicate SatisfiesAny(s: Stored, selectors: seq<seq<Label>>) {
    exists i :: 0 <= i < |selectors| && Satisfies(s, selectors[i])
  }

  /** Import of a batch; text the backend cannot read is refused. */
  function Import(stored: seq<Stored>, text: string): seq<Stored> {
    var lines := ReadLines(text);
    if lines.None? then stored else stored + lines.value
  }

  /** What a query returns: the tenant label is taken off again. */
  datatype Answer = Answer(labels: map<string, string>, value: string, timestamp: int)

  function AnswerOf(s: Stored): Answer { Answer(s.labels - {ORG}, s.value, s.timestamp) }

  function Fetch(stored: seq<Stored>, selectors: seq<seq<Label>>, start: int, end: int): seq<Answer> {
    if stored == [] then []
    else
      var rest := Fetch(stored[1..], selectors, start, end);
      if start <= stored[0].timestamp <= end && SatisfiesAny(stored[0], selectors) then [AnswerOf(stored[0])] + rest else rest
  }

  function BackendQuery(stored: seq<Stored>, org: Uuid, q: Query): seq<Answer> {
    var selectors := ReadQuery(Selector(org, q));
    if selectors.None? then [] else Fetch(stored, selectors.value, q.start, q.end)
  }
}
