/** The text round trip, equality of the two stores, and isolation of tenants. */
module MetricsProofs {
  import opened Environment
  import opened Numerals
  import opened Text
  import opened Uuids
  import opened MetricsText
  import opened Metrics

  // ------------------------------------------------------------- what is well formed

  ghost predicate DistinctNames(labels: seq<Label>) {
    forall i, j :: 0 <= i < j < |labels| ==> labels[i].name != labels[j].name
  }

  /** The names that go into a line are names the backend can read. */
  ghost predicate NamesFine(s: Sample) { NameOk(MetricName(s)) && NamesOk(Others(s.labels)) }

  ghost predicate AllNamesFine(samples: seq<Sample>) { forall i :: 0 <= i < |samples| ==> NamesFine(samples[i]) }

  /** Besides: each label once, a metric name, and no claimed tenant. */
  ghost predicate SampleOk(s: Sample) {
    NamesFine(s) && DistinctNames(s.labels) && First(s.labels, NAME).Some? && First(s.labels, ORG).None?
  }

  ghost predicate SamplesOk(samples: seq<Sample>) { forall i :: 0 <= i < |samples| ==> SampleOk(samples[i]) }

  lemma FixedNames()
    ensures NameOk(NAME) && NameOk(ORG) && NAME != ORG
  {
    assert NAME[0] != ORG[0];
  }

  // --------------------------------------------------------------------- the stamp

  predicate Plain(s: string) { forall i :: 0 <= i < |s| ==> s[i] != '\\' && s[i] != '"' && s[i] != '\n' }

  lemma {:induction false} PlainNeedsNoEscape(s: string)
    requires Plain(s)
    ensures EscapeAll(s) == s
    decreases |s|
  {
    if s != [] {
      PlainNeedsNoEscape(s[1..]);
      assert s == [s[0]] + s[1..];
    }
  }

  /** The tenant id is written without escaping, which it does not need. */
  lemma StampIsPair(org: Uuid)
    ensures Stamp(org) == Pair(Label(ORG, UuidText(org)))
  {
    hide UuidText, PromEscape, EscapeAll;
    UuidTextChars(org);
    PlainNeedsNoEscape(UuidText(org));
    PromEscapeIsSimultaneous(UuidText(org));
  }

  function LineLabels(org: Uuid, s: Sample): seq<Label> { Others(s.labels) + [Label(ORG, UuidText(org))] }

  lemma LinePairs(org: Uuid, s: Sample)
    ensures Pairs(Others(s.labels)) + [Stamp(org)] == Pairs(LineLabels(org, s))
  {
    hide Pair, Others, UuidText, Stamp;
    StampIsPair(org);
  }

  lemma SelectorPairs(org: Uuid, q: Query)
    ensures [Pair(Label(NAME, q.metric)), Stamp(org)] + Pairs(q.matchers) == Pairs(SelectorLabels(org, q))
  {
    hide Pair, UuidText, Stamp;
    StampIsPair(org);
  }

  // ------------------------------------------------------------------------ lookups

  lemma {:induction false} LabelMapIs(labels: seq<Label>, name: string)
    ensures First(labels, name) == if name in LabelMap(labels) then Some(LabelMap(labels)[name]) else None
    decreases |labels|
  {
    if labels != [] { LabelMapIs(labels[1..], name); }
  }

  lemma {:induction false} HasIs(labels: seq<Label>, l: Label)
    requires DistinctNames(labels)
    ensures Has(labels, l) <==> First(labels, l.name) == Some(l.value)
    decreases |labels|
  {
    if labels != [] {
      var rest := labels[1..];
      HasIs(rest, l);
      HasUnfold(labels, l);
      if labels[0].name == l.name {
        forall i | 0 <= i < |rest| ensures rest[i].name != l.name { assert rest[i] == labels[i + 1]; }
      }
    }
  }

  lemma HasUnfold(labels: seq<Label>, l: Label)
    requires labels != []
    ensures Has(labels, l) <==> labels[0] == l || Has(labels[1..], l)
  {
    if Has(labels, l) {
      var i :| 0 <= i < |labels| && labels[i] == l;
      if i > 0 { assert labels[1..][i - 1] == l; }
    }
    if Has(labels[1..], l) {
      var i :| 0 <= i < |labels[1..]| && labels[1..][i] == l;
      assert labels[i + 1] == l;
    }
  }

  lemma {:induction false} LineLookup(labels: seq<Label>, tag: Label, name: string)
    requires tag.name == ORG && NAME != ORG
    ensures First(Others(labels) + [tag], name) ==
      if name == NAME then None else if name == ORG then Some(tag.value) else First(labels, name)
    decreases |labels|
  {
    if labels == [] {
      assert Others(labels) + [tag] == [tag];
      assert [tag][1..] == [];
    } else {
      LineLookup(labels[1..], tag, name);
      var rest := Others(labels[1..]);
      if Others(labels) != rest {
        assert (Others(labels) + [tag])[1..] == rest + [tag];
        assert (Others(labels) + [tag])[0] == labels[0];
      }
    }
  }

  /** What the backend keeps of a sample. */
  function StoredOf(org: Uuid, s: Sample): Stored {
    Stored(LabelMap(LineLabels(org, s))[NAME := MetricName(s)], s.value, s.timestamp)
  }

  lemma StoredLookup(org: Uuid, s: Sample, name: string)
    ensures var m := StoredOf(org, s).labels;
            (if name in m then Some(m[name]) else None) ==
              if name == ORG then Some(UuidText(org)) else if name == NAME then Some(MetricName(s)) else First(s.labels, name)
  {
    hide LabelMap, Others, UuidText, NameOk, MetricName;
    FixedNames();
    LabelMapIs(LineLabels(org, s), name);
    LineLookup(s.labels, Label(ORG, UuidText(org)), name);
  }

  function AnswerOfSample(s: Sample): Answer { Answer(LabelMap(s.labels), s.value, s.timestamp) }

  lemma AnswersAgree(org: Uuid, s: Sample)
    requires SampleOk(s)
    ensures AnswerOf(StoredOf(org, s)) == AnswerOfSample(s)
  {
    var m, n := StoredOf(org, s).labels - {ORG}, LabelMap(s.labels);
    LabelMapIs(s.labels, ORG);
    forall name ensures (if name in m then Some(m[name]) else None) == (if name in n then Some(n[name]) else None) {
      StoredLookup(org, s, name);
      LabelMapIs(s.labels, name);
    }
    hide LabelMap, StoredOf;
    SameMap(m, n);
  }

  lemma SameMap(m: map<string, string>, n: map<string, string>)
    requires forall k :: (if k in m then Some(m[k]) else None) == (if k in n then Some(n[k]) else None)
    ensures m == n
  {
    assert forall k :: k in m <==> k in n;
  }

  // ------------------------------------------------------------------- text round trip

  lemma LineLabelsOk(org: Uuid, s: Sample)
    requires NamesOk(Others(s.labels))
    ensures NamesOk(LineLabels(org, s))
  {
    hide NameOk, Others;
    FixedNames();
  }

  lemma NumbersReadBack(s: Sample, rest: string)
    ensures var value := FirstPiece(Numbers(s) + rest, ' ');
            var time := FirstPiece(value.1, '\n');
            value.2 && time.2 && value.0 == s.value && ParseI64(time.0) == Some(s.timestamp) && time.1 == rest
  {
    hide FirstPiece, ShowI64, ParseI64;
    var show := ShowI64(s.timestamp);
    ShowChars(s.timestamp);
    ParseShow(s.timestamp);
    assert Numbers(s) + rest == s.value + [' '] + (show + ['\n'] + rest);
    FirstPieceOf(s.value, ' ', show + ['\n'] + rest);
    FirstPieceOf(show, '\n', rest);
  }

  lemma ReadLineOf(org: Uuid, s: Sample, rest: string)
    requires NamesFine(s)
    ensures ReadLine(Line(org, s) + rest) == Ok(StoredOf(org, s), rest)
  {
    hide First, NameOk, ReadName, ReadPairs, Others, LabelMap, Join, Pairs, Stamp, UuidText, FirstPiece, ParseI64, Numbers;
    var labels := LineLabels(org, s);
    LinePairs(org, s);
    LineLabelsOk(org, s);
    var joined := Join(Pairs(labels), ',');
    var w := Numbers(s) + rest;
    var v := ['}', '\t'] + w;
    var t := ['{'] + (joined + v);
    assert Line(org, s) + rest == MetricName(s) + t;
    NameOkOpens(MetricName(s));
    ReadNameOf(MetricName(s), t);
    ReadPairsOf(labels, v);
    assert t[1..] == joined + v && v[2..] == w;
    NumbersReadBack(s, rest);
  }

  lemma NameOkOpens(name: string)
    requires NameOk(name)
    ensures name != [] && forall i :: 0 <= i < |name| ==> NameChar(name[i])
  {
  }

  function StoredAll(org: Uuid, samples: seq<Sample>): seq<Stored> {
    if samples == [] then [] else [StoredOf(org, samples[0])] + StoredAll(org, samples[1..])
  }

  /** A batch of well-formed samples arrives at the backend as it was sent, under its own tenant. */
  lemma {:induction false} TextReadsBack(org: Uuid, samples: seq<Sample>)
    requires AllNamesFine(samples)
    ensures ReadLines(PromText(org, samples)) == Some(StoredAll(org, samples))
    decreases |samples|
  {
    hide NamesFine, StoredOf, ReadLine, Line;
    if samples != [] {
      var rest := PromText(org, samples[1..]);
      ReadLineOf(org, samples[0], rest);
      LineIsNotEmpty(org, samples[0]);
      TextReadsBack(org, samples[1..]);
    }
  }

  lemma LineIsNotEmpty(org: Uuid, s: Sample)
    ensures Line(org, s) != []
  {
  }

  lemma ReadLineNames(s: string)
    requires ReadLine(s).Ok?
    ensures var m := ReadLine(s).value.labels; NAME in m && NameOk(m[NAME]) && forall k :: k in m ==> NameOk(k)
  {
    hide ReadName, ReadPairs, FirstPiece, ParseI64, LabelMap;
    FixedNames();
    ReadNameChars(s);
    var t := ReadName(s).1;
    ReadPairsNames(t[1..]);
    LabelMapKeys(ReadPairs(t[1..]).value);
  }

  lemma {:induction false} LabelMapKeys(labels: seq<Label>)
    ensures NamesOk(labels) <==> forall k :: k in LabelMap(labels) ==> NameOk(k)
    decreases |labels|
  {
    hide NameOk;
    if labels != [] {
      LabelMapKeys(labels[1..]);
      NamesOkUnfold(labels);
    }
  }

  lemma NamesOkUnfold(labels: seq<Label>)
    requires labels != []
    ensures NamesOk(labels) <==> NameOk(labels[0].name) && NamesOk(labels[1..])
  {
    hide NameOk;
    if NameOk(labels[0].name) && NamesOk(labels[1..]) {
      forall i | 0 <= i < |labels| ensures NameOk(labels[i].name) { if i > 0 { assert labels[i] == labels[1..][i - 1]; } }
    }
  }

  ghost predicate KeysOk(s: Stored) { NAME in s.labels && NameOk(s.labels[NAME]) && forall k :: k in s.labels ==> NameOk(k) }

  lemma {:induction false} ReadLinesNames(s: string, i: nat)
    requires ReadLines(s).Some? && i < |ReadLines(s).value|
    ensures KeysOk(ReadLines(s).value[i])
    decreases |s|
  {
    hide ReadLine, NameOk;
    if i == 0 {
      ReadLineNames(s);
    } else {
      ReadLinesNames(ReadLine(s).rest, i - 1);
    }
  }

  lemma StoredNamesAre(org: Uuid, s: Sample)
    ensures KeysOk(StoredOf(org, s)) <==> NamesFine(s)
  {
    hide NameOk, LabelMap, Others, MetricName, UuidText;
    FixedNames();
    var labels := LineLabels(org, s);
    LabelMapKeys(labels);
    LineLabelsAre(org, s);
    var m := LabelMap(labels);
    assert forall k :: k in m[NAME := MetricName(s)] <==> k in m || k == NAME;
  }

  lemma LineLabelsAre(org: Uuid, s: Sample)
    ensures NamesOk(LineLabels(org, s)) <==> NamesOk(Others(s.labels))
  {
    hide NameOk, Others, UuidText;
    FixedNames();
    if NamesOk(LineLabels(org, s)) {
      forall i | 0 <= i < |Others(s.labels)| ensures NameOk(Others(s.labels)[i].name) {
        assert LineLabels(org, s)[i] == Others(s.labels)[i];
      }
    }
  }

  lemma {:induction false} StoredAllIs(org: Uuid, samples: seq<Sample>, i: nat)
    requires i < |samples|
    ensures |StoredAll(org, samples)| == |samples| && StoredAll(org, samples)[i] == StoredOf(org, samples[i])
    decreases |samples|
  {
    hide StoredOf;
    if |samples| > 1 { StoredAllIs(org, samples[1..], if i == 0 then 0 else i - 1); }
  }

  /** The backend stores a batch as it was sent, under its own tenant, if and only if all its names are well formed. */
  lemma TextReadsBackIff(org: Uuid, samples: seq<Sample>)
    ensures ReadLines(PromText(org, samples)) == Some(StoredAll(org, samples)) <==> AllNamesFine(samples)
  {
    hide ReadLines, PromText, StoredAll, StoredOf, NamesFine, KeysOk;
    if AllNamesFine(samples) { TextReadsBack(org, samples); }
    if ReadLines(PromText(org, samples)) == Some(StoredAll(org, samples)) {
      forall i | 0 <= i < |samples| ensures NamesFine(samples[i]) {
        StoredAllIs(org, samples, i);
        ReadLinesNames(PromText(org, samples), i);
        StoredNamesAre(org, samples[i]);
      }
    }
  }

  lemma {:induction false} FirstIs(labels: seq<Label>, name: string, k: nat)
    requires k <= |labels| && (forall i :: 0 <= i < k ==> labels[i].name != name) && (k < |labels| ==> labels[k].name == name)
    ensures First(labels, name) == if k < |labels| then Some(labels[k].value) else None
    decreases k
  {
    if k > 0 { FirstIs(labels[1..], name, k - 1); }
  }

  /** A sample is stored under the value of its first `__name__` label, and under `unknown` when it has none. */
  lemma StoredNameIs(org: Uuid, s: Sample, k: nat)
    requires k <= |s.labels| && (forall i :: 0 <= i < k ==> s.labels[i].name != NAME) && (k < |s.labels| ==> s.labels[k].name == NAME)
    requires AllNamesFine([s])
    ensures var lines := ReadLines(PromText(org, [s]));
            && lines.Some? && |lines.value| == 1
            && Lookup(lines.value[0].labels, "__name__") == if k < |s.labels| then s.labels[k].value else "unknown"
  {
    hide ReadLines, PromText, Others, LabelMap, AllNamesFine;
    TextReadsBackIff(org, [s]);
    FirstIs(s.labels, NAME, k);
  }

  /** So with well-formed names every line that is stored carries the writer's tenant, whatever the labels claim. */
  lemma WritesStayOwn(org: Uuid, samples: seq<Sample>, i: nat)
    requires AllNamesFine(samples) && i < |samples|
    ensures var lines := ReadLines(PromText(org, samples));
            lines.Some? && |lines.value| == |samples| && Lookup(lines.value[i].labels, ORG) == UuidText(org)
  {
    hide ReadLines, PromText, StoredAll, StoredOf, NamesFine, UuidText;
    TextReadsBack(org, samples);
    StoredAllIs(org, samples, i);
    OwnLabels(org, samples[i], org, []);
  }

  /** The selector text of a list of labels. */
  function Braced(labels: seq<Label>): string { ['{'] + (Join(Pairs(labels), ',') + ['}']) }

  lemma ReadBraced(labels: seq<Label>, rest: string)
    requires labels != [] && NamesOk(labels)
    ensures ReadSelector(Braced(labels) + rest) == Ok(labels, rest)
  {
    hide NameOk, ReadPairs, Join, Pairs;
    var inner := Join(Pairs(labels), ',') + (['}'] + rest);
    ReadPairsOf(labels, ['}'] + rest);
    assert Braced(labels) + rest == ['{'] + inner && (['{'] + inner)[1..] == inner;
    assert (['}'] + rest)[1..] == rest;
  }

  lemma SelectorIsBraced(org: Uuid, q: Query)
    ensures Selector(org, q) == Braced(SelectorLabels(org, q))
  {
    hide Join, Pairs, Stamp, UuidText, Pair;
    SelectorPairs(org, q);
  }

  /** The selector text says exactly the query's matchers and the tenant. */
  lemma SelectorReadsBack(org: Uuid, q: Query)
    requires NamesOk(q.matchers)
    ensures ReadQuery(Selector(org, q)) == Some([SelectorLabels(org, q)])
  {
    hide NameOk, ReadSelector, UuidText, Selector, Braced;
    FixedNames();
    var labels := SelectorLabels(org, q);
    assert NamesOk(labels);
    SelectorIsBraced(org, q);
    ReadBraced(labels, []);
    assert Braced(labels) + [] == Braced(labels);
  }

  lemma ReadSelectorNames(s: string)
    ensures ReadSelector(s).Ok? ==> NamesOk(ReadSelector(s).value)
  {
    hide ReadPairs, NamesOk;
    if StartsWith(s, '{') { ReadPairsNames(s[1..]); }
  }

  /** The backend is asked what the caller asked, for the caller's tenant, if and only if all matcher names are well formed. */
  lemma SelectorReadsBackIff(org: Uuid, q: Query)
    ensures ReadQuery(Selector(org, q)) == Some([SelectorLabels(org, q)]) <==> NamesOk(q.matchers)
  {
    hide NameOk, ReadSelector, UuidText, Selector;
    if NamesOk(q.matchers) { SelectorReadsBack(org, q); }
    ReadSelectorNames(Selector(org, q));
    if ReadQuery(Selector(org, q)) == Some([SelectorLabels(org, q)]) {
      var labels := SelectorLabels(org, q);
      assert ReadSelector(Selector(org, q)).value == [labels][0];
      forall i | 0 <= i < |q.matchers| ensures NameOk(q.matchers[i].name) { assert labels[i + 2] == q.matchers[i]; }
    }
  }

  // ------------------------------------------------------------------ the two stores

  /** On one sample a matcher means the same in both stores, unless it asks for an empty value of a missing label. */
  lemma MatcherAgreesIff(org: Uuid, s: Sample, l: Label)
    requires SampleOk(s) && l.name != ORG
    ensures (Lookup(StoredOf(org, s).labels, l.name) == l.value <==> Has(s.labels, l)) <==>
              l.value != "" || First(s.labels, l.name).Some?
  {
    hide StoredOf, First, NameOk;
    StoredLookup(org, s, l.name);
    HasIs(s.labels, l);
  }

  ghost predicate QueryOk(q: Query) {
    NamesOk(q.matchers) && forall i :: 0 <= i < |q.matchers| ==> q.matchers[i].name != ORG && q.matchers[i].value != ""
  }

  lemma OwnLabels(org: Uuid, s: Sample, asker: Uuid, metric: string)
    ensures Lookup(StoredOf(org, s).labels, ORG) == UuidText(asker) <==> org == asker
    ensures Lookup(StoredOf(org, s).labels, NAME) == metric <==> MetricName(s) == metric
  {
    hide StoredOf, MetricName, NameOk, UuidText;
    FixedNames();
    StoredLookup(org, s, ORG);
    StoredLookup(org, s, NAME);
    if UuidText(org) == UuidText(asker) { UuidTextIsInjective(org, asker); }
  }

  lemma FirstIsMetricName(s: Sample)
    requires SampleOk(s)
    ensures First(s.labels, NAME) == Some(MetricName(s))
  {
    hide NamesFine, DistinctNames, First;
  }

  lemma SatisfiesIff(org: Uuid, s: Sample, asker: Uuid, q: Query)
    requires SampleOk(s) && QueryOk(q)
    ensures Satisfies(StoredOf(org, s), SelectorLabels(asker, q)) <==>
              (&& org == asker && First(s.labels, NAME) == Some(q.metric)
               && forall i :: 0 <= i < |q.matchers| ==> Has(s.labels, q.matchers[i]))
  {
    hide StoredOf, First, Has, SampleOk, UuidText, Lookup, NameOk;
    var labels := SelectorLabels(asker, q);
    OwnLabels(org, s, asker, q.metric);
    FirstIsMetricName(s);
    forall i | 0 <= i < |q.matchers|
      ensures labels[i + 2] == q.matchers[i]
      ensures Lookup(StoredOf(org, s).labels, q.matchers[i].name) == q.matchers[i].value <==> Has(s.labels, q.matchers[i])
    {
      MatcherAgreesIff(org, s, q.matchers[i]);
    }
    assert forall i :: 2 <= i < |labels| ==> labels[i] == q.matchers[i - 2];
    assert labels[0] == Label(NAME, q.metric) && labels[1] == Label(ORG, UuidText(asker));
  }

  function Answers(samples: seq<Sample>): seq<Answer> {
    if samples == [] then [] else [AnswerOfSample(samples[0])] + Answers(samples[1..])
  }

  /** A single selector selects what satisfies it. */
  lemma OneSelector(stored: Stored, labels: seq<Label>)
    ensures SatisfiesAny(stored, [labels]) <==> Satisfies(stored, labels)
  {
    hide Satisfies;
    assert [labels][0] == labels;
  }

  lemma {:induction false} FetchBatch(org: Uuid, samples: seq<Sample>, asker: Uuid, q: Query)
    requires SamplesOk(samples) && QueryOk(q)
    ensures Fetch(StoredAll(org, samples), [SelectorLabels(asker, q)], q.start, q.end) ==
              if org == asker then Answers(Select(samples, q)) else []
    decreases |samples|
  {
    hide SampleOk, SatisfiesAny, Satisfies, AnswerOf, AnswerOfSample, SelectorLabels, QueryOk;
    if samples != [] {
      SatisfiesIff(org, samples[0], asker, q);
      OneSelector(StoredOf(org, samples[0]), SelectorLabels(asker, q));
      AnswersAgree(org, samples[0]);
      FetchBatch(org, samples[1..], asker, q);
      assert StoredOf(org, samples[0]).timestamp == samples[0].timestamp;
      assert StoredAll(org, samples)[1..] == StoredAll(org, samples[1..]);
    }
  }

  lemma {:induction false} FetchAppend(a: seq<Stored>, b: seq<Stored>, selectors: seq<seq<Label>>, start: int, end: int)
    ensures Fetch(a + b, selectors, start, end) == Fetch(a, selectors, start, end) + Fetch(b, selectors, start, end)
    decreases |a|
  {
    hide SatisfiesAny, AnswerOf;
    if a == [] {
      assert a + b == b;
    } else {
      assert (a + b)[1..] == a[1..] + b;
      FetchAppend(a[1..], b, selectors, start, end);
    }
  }

  lemma {:induction false} SelectAppend(a: seq<Sample>, b: seq<Sample>, q: Query)
    ensures Select(a + b, q) == Select(a, q) + Select(b, q)
    decreases |a|
  {
    hide SampleMatches;
    if a == [] {
      assert a + b == b;
    } else {
      assert (a + b)[1..] == a[1..] + b;
      SelectAppend(a[1..], b, q);
    }
  }

  lemma {:induction false} AnswersAppend(a: seq<Sample>, b: seq<Sample>)
    ensures Answers(a + b) == Answers(a) + Answers(b)
    decreases |a|
  {
    hide AnswerOfSample;
    if a == [] {
      assert a + b == b;
    } else {
      assert (a + b)[1..] == a[1..] + b;
      AnswersAppend(a[1..], b);
    }
  }

  // ---------------------------------------------------------------------- histories

  datatype Batch = Batch(org: Uuid, samples: seq<Sample>)

  /** The backend after all batches were written. */
  function Backend(batches: seq<Batch>): seq<Stored> {
    if batches == [] then []
    else
      var last := batches[|batches| - 1];
      Import(Backend(batches[..|batches| - 1]), PromText(last.org, last.samples))
  }

  /** What the in-memory store holds for a tenant after the same batches. */
  function Held(batches: seq<Batch>, org: Uuid): seq<Sample> {
    if batches == [] then []
    else
      var last := batches[|batches| - 1];
      Held(batches[..|batches| - 1], org) + if last.org == org then last.samples else []
  }

  ghost predicate BatchesOk(batches: seq<Batch>) { forall i :: 0 <= i < |batches| ==> SamplesOk(batches[i].samples) }

  lemma OkIsFine(samples: seq<Sample>)
    requires SamplesOk(samples)
    ensures AllNamesFine(samples)
  {
    hide NamesFine;
  }

  /** After any writes by any tenants, a query returns from the backend what the in-memory store would select. */
  lemma {:induction false} StoresAgree(batches: seq<Batch>, org: Uuid, q: Query)
    requires BatchesOk(batches) && QueryOk(q)
    ensures BackendQuery(Backend(batches), org, q) == Answers(Select(Held(batches, org), q))
    decreases |batches|
  {
    hide SamplesOk, AllNamesFine, PromText, Fetch, Select, Answers, SelectorLabels, NamesOk, ReadQuery, Selector, ReadLines;
    assert NamesOk(q.matchers);
    SelectorReadsBack(org, q);
    var sel := [SelectorLabels(org, q)];
    NothingFetched(sel, q);
    if batches != [] {
      var n := |batches| - 1;
      var before, last := batches[..n], batches[n];
      StoresAgree(before, org, q);
      OkIsFine(last.samples);
      TextReadsBack(last.org, last.samples);
      FetchAppend(Backend(before), StoredAll(last.org, last.samples), sel, q.start, q.end);
      FetchBatch(last.org, last.samples, org, q);
      var more := if last.org == org then last.samples else [];
      SelectAppend(Held(before, org), more, q);
      AnswersAppend(Select(Held(before, org), q), Select(more, q));
    }
  }

  lemma NothingFetched(selectors: seq<seq<Label>>, q: Query)
    ensures Fetch([], selectors, q.start, q.end) == [] && Select([], q) == [] && Answers([]) == []
  {
  }

  // ---------------------------------------------------------------------- isolation

  /** Only lines stamped with the asking tenant satisfy its selector, whatever else the matchers say. */
  lemma SelectorIsScoped(stored: Stored, org: Uuid, q: Query)
    requires Satisfies(stored, SelectorLabels(org, q))
    ensures Lookup(stored.labels, ORG) == UuidText(org)
  {
    hide UuidText;
    assert SelectorLabels(org, q)[1] == Label(ORG, UuidText(org));
  }

  lemma {:induction false} NothingForOthers(org: Uuid, samples: seq<Sample>, asker: Uuid, q: Query)
    requires org != asker
    ensures Fetch(StoredAll(org, samples), [SelectorLabels(asker, q)], q.start, q.end) == []
    decreases |samples|
  {
    hide SatisfiesAny, Satisfies, AnswerOf, SelectorLabels, StoredOf;
    if samples != [] {
      OwnLabels(org, samples[0], asker, q.metric);
      OneSelector(StoredOf(org, samples[0]), SelectorLabels(asker, q));
      if Satisfies(StoredOf(org, samples[0]), SelectorLabels(asker, q)) {
        SelectorIsScoped(StoredOf(org, samples[0]), asker, q);
      }
      NothingForOthers(org, samples[1..], asker, q);
      assert StoredAll(org, samples)[1..] == StoredAll(org, samples[1..]);
    }
  }

  /** The batches one tenant wrote. */
  function OnlyOf(batches: seq<Batch>, org: Uuid): seq<Batch> {
    if batches == [] then []
    else
      var n := |batches| - 1;
      if batches[n].org == org then OnlyOf(batches[..n], org) + [batches[n]] else OnlyOf(batches[..n], org)
  }

  lemma BackendSnoc(batches: seq<Batch>, last: Batch)
    requires AllNamesFine(last.samples)
    ensures Backend(batches + [last]) == Backend(batches) + StoredAll(last.org, last.samples)
  {
    hide PromText, AllNamesFine, ReadLines;
    assert (batches + [last])[..|batches|] == batches;
    TextReadsBack(last.org, last.samples);
  }

  ghost predicate BatchesFine(batches: seq<Batch>) { forall i :: 0 <= i < |batches| ==> AllNamesFine(batches[i].samples) }

  /** With well-formed names on both sides, a tenant's answers depend on nothing any other tenant wrote. */
  lemma {:induction false} OtherTenantsAreInvisible(batches: seq<Batch>, asker: Uuid, q: Query)
    requires BatchesFine(batches) && NamesOk(q.matchers)
    ensures BackendQuery(Backend(batches), asker, q) == BackendQuery(Backend(OnlyOf(batches, asker)), asker, q)
    decreases |batches|
  {
    SelectorReadsBack(asker, q);
    hide AllNamesFine, Fetch, SelectorLabels, NamesOk, ReadQuery, Selector, Backend, StoredAll;
    if batches != [] {
      var n := |batches| - 1;
      var before, last := batches[..n], batches[n];
      var sel, own := [SelectorLabels(asker, q)], OnlyOf(before, asker);
      assert batches == before + [last];
      OtherTenantsAreInvisible(before, asker, q);
      BackendSnoc(before, last);
      FetchAppend(Backend(before), StoredAll(last.org, last.samples), sel, q.start, q.end);
      if last.org == asker {
        BackendSnoc(own, last);
        FetchAppend(Backend(own), StoredAll(last.org, last.samples), sel, q.start, q.end);
      } else {
        NothingForOthers(last.org, last.samples, asker, q);
      }
    }
  }

  // ------------------------------------------------------ names that are not well formed

  /**
    A metric name that spells a whole line of another tenant and then a name is
    stored as that line under the other tenant, and a line of the writer's own.
   */
  lemma NameCanCarryALine(writer: Uuid, other: Uuid, m: Sample, name: string, t: Millis, value: Number)
    requires NamesFine(m) && NameOk(name)
    ensures var carrier := Sample([Label(NAME, Line(other, m) + name)], t, value);
            var plain := Sample([Label(NAME, name)], t, value);
            && ReadLines(PromText(writer, [carrier])) == Some([StoredOf(other, m), StoredOf(writer, plain)])
            && Lookup(StoredOf(other, m).labels, ORG) == UuidText(other)
  {
    hide Line, StoredOf, ReadLine, UuidText, Lookup, NameOk;
    var plain := Sample([Label(NAME, name)], t, value);
    CarrierLine(writer, other, m, name, t, value);
    assert NamesFine(plain) by { PlainIsFine(name, t, value); }
    ReadLineOf(other, m, Line(writer, plain));
    assert Line(writer, plain) + [] == Line(writer, plain);
    ReadLineOf(writer, plain, []);
    LineIsNotEmpty(other, m);
    LineIsNotEmpty(writer, plain);
    assert ReadLines([]) == Some([]);
    ReadLinesCons(Line(writer, plain), StoredOf(writer, plain), [], []);
    ReadLinesCons(Line(other, m) + Line(writer, plain), StoredOf(other, m), Line(writer, plain), [StoredOf(writer, plain)] + []);
    assert [StoredOf(other, m)] + ([StoredOf(writer, plain)] + []) == [StoredOf(other, m), StoredOf(writer, plain)];
    OwnLabels(other, m, other, name);
  }

  lemma ReadLinesCons(s: string, line: Stored, rest: string, more: seq<Stored>)
    requires s != [] && ReadLine(s) == Ok(line, rest) && ReadLines(rest) == Some(more)
    ensures ReadLines(s) == Some([line] + more)
  {
    hide ReadLine;
  }

  lemma PlainIsFine(name: string, t: Millis, value: Number)
    requires NameOk(name)
    ensures NamesFine(Sample([Label(NAME, name)], t, value))
  {
    hide NameOk;
    var labels := [Label(NAME, name)];
    assert labels[1..] == [];
    assert Others(labels) == [];
  }

  lemma CarrierLine(writer: Uuid, other: Uuid, m: Sample, name: string, t: Millis, value: Number)
    ensures PromText(writer, [Sample([Label(NAME, Line(other, m) + name)], t, value)]) ==
              Line(other, m) + Line(writer, Sample([Label(NAME, name)], t, value))
  {
    var line := Line(other, m);
    hide Stamp, Join, ShowI64;
    var carrier, plain := Sample([Label(NAME, line + name)], t, value), Sample([Label(NAME, name)], t, value);
    OneLabel(line + name);
    OneLabel(name);
    assert MetricName(carrier) == line + name && MetricName(plain) == name;
    var tail := ['{'] + (Join(Pairs([]) + [Stamp(writer)], ',') + (['}', '\t'] + Numbers(plain)));
    assert Numbers(carrier) == Numbers(plain);
    assert Line(writer, carrier) == (line + name) + tail && Line(writer, plain) == name + tail;
    assert (line + name) + tail == line + (name + tail);
    assert [carrier][1..] == [];
    assert PromText(writer, [carrier]) == Line(writer, carrier) + [];
  }

  lemma OneLabel(value: string)
    ensures Others([Label(NAME, value)]) == [] && First([Label(NAME, value)], NAME) == Some(value)
  {
    var labels := [Label(NAME, value)];
    assert labels[1..] == [];
  }

  /** A matcher name that closes the selector and opens another one. */
  function ClosingName(extra: Label): string { Pair(extra) + ['}'] + OR + ['{'] + ORG }

  /** The query then has a second half that names any tenant. */
  lemma MatcherCanNameATenant(asker: Uuid, other: Uuid, extra: Label, metric: string, start: int, end: int)
    requires NameOk(extra.name)
    ensures var q := Query(metric, [Label(ClosingName(extra), UuidText(other))], start, end);
            ReadQuery(Selector(asker, q)) ==
              Some([[Label(NAME, metric), Label(ORG, UuidText(asker)), extra], [Label(ORG, UuidText(other))]])
  {
    var q := Query(metric, [Label(ClosingName(extra), UuidText(other))], start, end);
    var first, second := [Label(NAME, metric), Label(ORG, UuidText(asker)), extra], [Label(ORG, UuidText(other))];
    ClosingText(asker, other, extra, metric, start, end);
    FixedNames();
    hide NameOk, Selector, Braced, ReadSelector, UuidText, ClosingName;
    var tail := OR + Braced(second);
    ReadBraced(first, tail);
    assert Braced(first) + tail == Braced(first) + OR + Braced(second);
    assert tail[4..] == Braced(second) && OR <= tail;
    ReadBraced(second, []);
    assert Braced(second) + [] == Braced(second);
    assert ReadQuery(Braced(second)) == Some([second]);
    assert [first] + [second] == [first, second];
  }

  lemma JoinThree(a: string, b: string, c: string)
    ensures Join([a, b, c], ',') == a + [','] + (b + [','] + c)
  {
    assert [a, b, c][1..] == [b, c] && [b, c][1..] == [c];
    assert Join([c], ',') == c && Join([b, c], ',') == b + [','] + c;
  }

  lemma ClosingText(asker: Uuid, other: Uuid, extra: Label, metric: string, start: int, end: int)
    ensures Selector(asker, Query(metric, [Label(ClosingName(extra), UuidText(other))], start, end)) ==
              Braced([Label(NAME, metric), Label(ORG, UuidText(asker)), extra]) + OR + Braced([Label(ORG, UuidText(other))])
  {
    var q := Query(metric, [Label(ClosingName(extra), UuidText(other))], start, end);
    var first, second := [Label(NAME, metric), Label(ORG, UuidText(asker)), extra], [Label(ORG, UuidText(other))];
    SelectorIsBraced(asker, q);
    hide UuidText, PromEscape, Selector;
    var a, b := Pair(Label(NAME, metric)), Pair(Label(ORG, UuidText(asker)));
    var c, d := Pair(extra), Pair(Label(ORG, UuidText(other)));
    ClosingPair(extra, UuidText(other));
    var long := Pair(Label(ClosingName(extra), UuidText(other)));
    hide Pair, ClosingName;
    assert long == c + ['}'] + OR + ['{'] + d;
    assert Pairs(SelectorLabels(asker, q)) == [a, b, long] && Pairs(first) == [a, b, c] && Pairs(second) == [d];
    JoinThree(a, b, long);
    JoinThree(a, b, c);
    assert Join([d], ',') == d;
  }

  lemma ClosingPair(extra: Label, value: string)
    ensures Pair(Label(ClosingName(extra), value)) == Pair(extra) + ['}'] + OR + ['{'] + Pair(Label(ORG, value))
  {
    hide PromEscape;
  }

  lemma NamedTenantIsReturned(stored: Stored, other: Uuid, first: seq<Label>, start: int, end: int)
    requires Lookup(stored.labels, ORG) == UuidText(other) && start <= stored.timestamp <= end
    ensures Fetch([stored], [first, [Label(ORG, UuidText(other))]], start, end) == [AnswerOf(stored)]
  {
    hide UuidText, AnswerOf;
    var selectors := [first, [Label(ORG, UuidText(other))]];
    assert Satisfies(stored, selectors[1]);
    assert [stored][1..] == [];
  }

  /**
    So the asker is answered with what another tenant wrote, and would be
    answered with nothing had the other tenant not written.
   */
  lemma MatcherCanReadATenant(asker: Uuid, other: Uuid, s: Sample, extra: Label, metric: string, start: int, end: int)
    requires asker != other && NamesFine(s) && NameOk(extra.name) && start <= s.timestamp <= end
    ensures var q := Query(metric, [Label(ClosingName(extra), UuidText(other))], start, end);
            var batches := [Batch(other, [s])];
            && BackendQuery(Backend(batches), asker, q) == [AnswerOf(StoredOf(other, s))]
            && BackendQuery(Backend(OnlyOf(batches, asker)), asker, q) == []
  {
    hide NamesFine, UuidText, ClosingName, Selector, ReadQuery, Fetch, AnswerOf, StoredOf, NameOk;
    var q := Query(metric, [Label(ClosingName(extra), UuidText(other))], start, end);
    var batch := Batch(other, [s]);
    MatcherCanNameATenant(asker, other, extra, metric, start, end);
    OneBatch(batch, asker);
    OwnLabels(other, s, other, metric);
    StoredKeepsNumbers(other, s);
    NamedTenantIsReturned(StoredOf(other, s), other, [Label(NAME, metric), Label(ORG, UuidText(asker)), extra], start, end);
    NothingFetched([[Label(NAME, metric), Label(ORG, UuidText(asker)), extra], [Label(ORG, UuidText(other))]], q);
  }

  lemma StoredKeepsNumbers(org: Uuid, s: Sample)
    ensures StoredOf(org, s).timestamp == s.timestamp && StoredOf(org, s).value == s.value
  {
    hide LabelMap, LineLabels;
  }

  lemma OneBatch(batch: Batch, asker: Uuid)
    requires |batch.samples| == 1 && NamesFine(batch.samples[0]) && batch.org != asker
    ensures Backend([batch]) == [StoredOf(batch.org, batch.samples[0])] && Backend(OnlyOf([batch], asker)) == []
  {
    hide StoredOf, NamesFine, PromText, ReadLines;
    var samples := batch.samples;
    BackendSnoc([], batch);
    assert [] + [batch] == [batch];
    assert Backend([]) == [];
    assert samples[1..] == [];
    assert StoredAll(batch.org, samples) == [StoredOf(batch.org, samples[0])] + [];
    assert [batch][..0] == [];
  }
}
