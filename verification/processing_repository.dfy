/** The processing repository: the calls that obtain upload URLs, upload a
    chunk, complete an upload and retrieve the processed results, and the
    extraction of time series and rates from the retrieved JSON object.

    The network call each of them makes is represented by its result, an
    input. `URL(string:)` validity, JSON encoding and decoding of the request
    and response models, and `Double(key)` are abstract inputs as well. */
module ProcessingRepository {
  import opened Wrappers
  import opened Json
  import opened Numeric
  import opened NetworkErrors
  import Network

  // ----- Time series -----

  /** A `(time, value)` pair of a series. */
  datatype Sample = Sample(time: real, value: real)

  /** A `(time, (value, confidence))` entry of a rate with confidence. */
  datatype Scored = Scored(time: real, value: real, confidence: real)

  function TimeOf(s: Sample): real { s.time }

  function ScoredTimeOf(s: Scored): real { s.time }

  /** Non-decreasing in the given key. */
  predicate SortedBy<T>(xs: seq<T>, key: T -> real) {
    forall i, j :: 0 <= i < j < |xs| ==> key(xs[i]) <= key(xs[j])
  }

  /** How many elements of `xs` are mapped to `Some(y)` by `f`. */
  function Occurrences<A, B(==)>(xs: seq<A>, f: A -> Option<B>, y: B): nat {
    if xs == [] then 0
    else (if f(xs[0]) == Some(y) then 1 else 0) + Occurrences(xs[1..], f, y)
  }

  /** `compactMap`: the defined results of `f`, in the order of `xs`; each
      value occurs as often as elements of `xs` are mapped to it. */
  function CompactMap<A, B(==,!new)>(xs: seq<A>, f: A -> Option<B>): (r: seq<B>)
    ensures |r| <= |xs|
    ensures forall y :: multiset(r)[y] == Occurrences(xs, f, y)
    ensures forall i :: 0 <= i < |xs| && f(xs[i]).Some? ==> f(xs[i]).value in r
    ensures forall y :: y in r ==> exists i :: 0 <= i < |xs| && f(xs[i]) == Some(y)
  {
    if xs == [] then []
    else
      var rest := CompactMap(xs[1..], f);
      assert forall i :: 1 <= i < |xs| ==> xs[i] == xs[1..][i - 1];
      match f(xs[0])
      case Some(y) => [y] + rest
      case None => rest
  }

  /** Counting over a concatenation adds the counts of its parts. */
  lemma {:induction false} OccurrencesAppend<A, B>(xs: seq<A>, ys: seq<A>, f: A -> Option<B>, y: B)
    ensures Occurrences(xs + ys, f, y) == Occurrences(xs, f, y) + Occurrences(ys, f, y)
  {
    if xs == [] {
      assert xs + ys == ys;
    } else {
      assert (xs + ys)[0] == xs[0];
      assert (xs + ys)[1..] == xs[1..] + ys;
      OccurrencesAppend(xs[1..], ys, f, y);
    }
  }

  /** Removing the element at `k` removes exactly its own contribution. */
  lemma OccurrencesRemove<A, B>(ys: seq<A>, k: nat, f: A -> Option<B>, y: B)
    requires k < |ys|
    ensures Occurrences(ys, f, y)
            == (if f(ys[k]) == Some(y) then 1 else 0) + Occurrences(ys[..k] + ys[k + 1..], f, y)
  {
    assert ys == ys[..k] + [ys[k]] + ys[k + 1..];
    OccurrencesAppend(ys[..k] + [ys[k]], ys[k + 1..], f, y);
    OccurrencesAppend(ys[..k], [ys[k]], f, y);
    OccurrencesAppend(ys[..k], ys[k + 1..], f, y);
    assert [ys[k]][1..] == [];
  }

  /** The multiset of a sequence without its element at `k`. */
  lemma MultisetRemove<A>(ys: seq<A>, k: nat)
    requires k < |ys|
    ensures multiset(ys[..k] + ys[k + 1..]) == multiset(ys) - multiset{ys[k]}
  {
    assert ys == ys[..k] + [ys[k]] + ys[k + 1..];
    assert multiset(ys) == multiset(ys[..k]) + multiset{ys[k]} + multiset(ys[k + 1..]);
  }

  /** The count does not depend on the order of the elements. */
  lemma {:induction false} OccurrencesOrderFree<A, B>(xs: seq<A>, ys: seq<A>, f: A -> Option<B>, y: B)
    requires multiset(xs) == multiset(ys)
    ensures Occurrences(xs, f, y) == Occurrences(ys, f, y)
    decreases |xs|
  {
    if xs == [] {
      assert |ys| == |multiset(ys)| == 0;
    } else {
      var x := xs[0];
      assert x in multiset(ys);
      var k :| 0 <= k < |ys| && ys[k] == x;
      MultisetRemove(xs, 0);
      MultisetRemove(ys, k);
      assert xs[..0] + xs[1..] == xs[1..];
      OccurrencesOrderFree(xs[1..], ys[..k] + ys[k + 1..], f, y);
      OccurrencesRemove(ys, k, f, y);
    }
  }

  /** Entries given in another order yield the same values, as often. */
  lemma CompactMapOrderFree<A, B(!new)>(xs: seq<A>, ys: seq<A>, f: A -> Option<B>)
    requires multiset(xs) == multiset(ys)
    ensures multiset(CompactMap(xs, f)) == multiset(CompactMap(ys, f))
  {
    forall y
      ensures multiset(CompactMap(xs, f))[y] == multiset(CompactMap(ys, f))[y]
    {
      OccurrencesOrderFree(xs, ys, f, y);
    }
  }

  /** Places `x` in a sorted sequence, before the first element with a
      greater-or-equal key. */
  function InsertBy<T>(x: T, xs: seq<T>, key: T -> real): (r: seq<T>)
    requires SortedBy(xs, key)
    ensures SortedBy(r, key)
    ensures multiset(r) == multiset(xs) + multiset{x}
    ensures |r| == |xs| + 1 && (r[0] == x || (xs != [] && r[0] == xs[0]))
  {
    if xs == [] then [x]
    else if key(x) <= key(xs[0]) then
      SortedCons(x, xs, key);
      [x] + xs
    else
      var rest := InsertBy(x, xs[1..], key);
      ConsMultiset(xs, x, rest);
      SortedCons(xs[0], rest, key);
      [xs[0]] + rest
  }

  /** Putting back the head of `xs` in front of `rest` restores the multiset
      of `xs`. */
  lemma ConsMultiset<T>(xs: seq<T>, x: T, rest: seq<T>)
    requires xs != [] && multiset(rest) == multiset(xs[1..]) + multiset{x}
    ensures multiset([xs[0]] + rest) == multiset(xs) + multiset{x}
  {
    assert xs == [xs[0]] + xs[1..];
  }

  /** A head no greater than the first of a sorted sequence keeps it sorted. */
  lemma SortedCons<T>(h: T, xs: seq<T>, key: T -> real)
    requires SortedBy(xs, key) && (xs != [] ==> key(h) <= key(xs[0]))
    ensures SortedBy([h] + xs, key)
  {
    var r := [h] + xs;
    forall i, j | 0 <= i < j < |r|
      ensures key(r[i]) <= key(r[j])
    {
      if i > 0 {
        assert r[i] == xs[i - 1] && r[j] == xs[j - 1];
      } else {
        assert r[j] == xs[j - 1];
      }
    }
  }

  /** `sorted(by: { key($0) < key($1) })`: ascending by key, a permutation of
      the input. Swift does not promise the order of equal keys; the model
      fixes one. */
  function SortBy<T>(xs: seq<T>, key: T -> real): (r: seq<T>)
    ensures SortedBy(r, key)
    ensures multiset(r) == multiset(xs)
  {
    if xs == [] then []
    else
      assert xs == [xs[0]] + xs[1..];
      InsertBy(xs[0], SortBy(xs[1..], key), key)
  }

  /** Sequences with the same multiset have the same elements and length. */
  lemma SameElements<T>(a: seq<T>, b: seq<T>)
    requires multiset(a) == multiset(b)
    ensures |a| == |b|
    ensures forall x :: x in a <==> x in b
  {
    assert |a| == |multiset(a)|;
    forall x
      ensures x in a <==> x in b
    {
      assert x in a <==> x in multiset(a);
    }
  }

  /** The sample of one entry of a `[String: [String: Double]]` table: present
      when the key reads as a time and the entry has a `value`. */
  function SampleOf(parseTime: string -> Option<real>, entry: (string, seq<(string, real)>)): Option<Sample> {
    match (parseTime(entry.0), Get(entry.1, "value"))
    case (Some(t), Some(v)) => Some(Sample(t, v))
    case _ => None
  }

  /** The entry with both a `value` and a `confidence`, keyed by a time. */
  function ScoredOf(parseTime: string -> Option<real>, entry: (string, seq<(string, real)>)): Option<Scored> {
    match (parseTime(entry.0), Get(entry.1, "value"), Get(entry.1, "confidence"))
    case (Some(t), Some(v), Some(c)) => Some(Scored(t, v, c))
    case _ => None
  }

  /** `SampleOf` for a given time parser. */
  function SampleParser(parseTime: string -> Option<real>): ((string, seq<(string, real)>)) -> Option<Sample> {
    e => SampleOf(parseTime, e)
  }

  /** `ScoredOf` for a given time parser. */
  function ScoredParser(parseTime: string -> Option<real>): ((string, seq<(string, real)>)) -> Option<Scored> {
    e => ScoredOf(parseTime, e)
  }

  /** A series (`hr_trace`, `hrv`, `rr_trace`, `rrl`, `apnea`, `ie`,
      `amplitude`, `baseline`, `phasic`): exactly the samples of the entries
      whose key is a time and that carry a value, each as often as entries
      give it, ascending by time. */
  function Series(parseTime: string -> Option<real>, table: seq<(string, seq<(string, real)>)>): (r: seq<Sample>)
    ensures SortedBy(r, TimeOf)
    ensures |r| <= |table|
    ensures forall s :: multiset(r)[s] == Occurrences(table, SampleParser(parseTime), s)
    ensures forall s :: s in r <==> exists i :: 0 <= i < |table| && SampleOf(parseTime, table[i]) == Some(s)
  {
    var kept := CompactMap(table, SampleParser(parseTime));
    var r := SortBy(kept, TimeOf);
    SameElements(r, kept);
    r
  }

  /** The entries of a rate with confidence (`pulse.hr`, `breath.rr`) that
      carry both fields and a time key, each as often as entries give it,
      ascending by time. */
  function ScoredSeries(parseTime: string -> Option<real>, table: seq<(string, seq<(string, real)>)>): (r: seq<Scored>)
    ensures SortedBy(r, ScoredTimeOf)
    ensures |r| <= |table|
    ensures forall s :: multiset(r)[s] == Occurrences(table, ScoredParser(parseTime), s)
    ensures forall s :: s in r <==> exists i :: 0 <= i < |table| && ScoredOf(parseTime, table[i]) == Some(s)
  {
    var kept := CompactMap(table, ScoredParser(parseTime));
    var r := SortBy(kept, ScoredTimeOf);
    SameElements(r, kept);
    r
  }

  /** `map { ($0.time, $0.valueWithConfidence.value) }` */
  function ValuesOf(xs: seq<Scored>): (r: seq<Sample>)
    ensures |r| == |xs|
    ensures forall i :: 0 <= i < |xs| ==> r[i] == Sample(xs[i].time, xs[i].value)
  {
    if xs == [] then [] else [Sample(xs[0].time, xs[0].value)] + ValuesOf(xs[1..])
  }

  /** `map { ($0.time, $0.valueWithConfidence.confidence) }` */
  function ConfidencesOf(xs: seq<Scored>): (r: seq<Sample>)
    ensures |r| == |xs|
    ensures forall i :: 0 <= i < |xs| ==> r[i] == Sample(xs[i].time, xs[i].confidence)
  {
    if xs == [] then [] else [Sample(xs[0].time, xs[0].confidence)] + ConfidencesOf(xs[1..])
  }

  /** The values and the confidences of one rate are taken from the same
      sorted list: same length, same times, and both sorted. */
  lemma {:induction false} ValuesAndConfidencesAligned(xs: seq<Scored>)
    requires SortedBy(xs, ScoredTimeOf)
    ensures |ValuesOf(xs)| == |ConfidencesOf(xs)|
    ensures forall i :: 0 <= i < |xs| ==> ValuesOf(xs)[i].time == ConfidencesOf(xs)[i].time
    ensures SortedBy(ValuesOf(xs), TimeOf) && SortedBy(ConfidencesOf(xs), TimeOf)
  {
    assert forall i :: 0 <= i < |xs| ==> TimeOf(ValuesOf(xs)[i]) == ScoredTimeOf(xs[i]);
    assert forall i :: 0 <= i < |xs| ==> TimeOf(ConfidencesOf(xs)[i]) == ScoredTimeOf(xs[i]);
  }

  // ----- Rates -----

  /** `$0["value"] as? Double` */
  function ValueField(entry: (string, seq<(string, Json)>)): Option<real> {
    match Get(entry.1, "value")
    case Some(j) => AsDouble(j)
    case None => None
  }

  /** `values.map { $0["value"] as? Double }.compactMap { $0 }`: every numeric
      `value` of the table, whatever its key. */
  function RateValues(table: seq<(string, seq<(string, Json)>)>): (r: seq<real>)
    ensures |r| <= |table|
    ensures forall v :: multiset(r)[v] == Occurrences(table, ValueField, v)
    ensures forall i :: 0 <= i < |table| && ValueField(table[i]).Some? ==> ValueField(table[i]).value in r
    ensures forall v :: v in r ==> exists i :: 0 <= i < |table| && ValueField(table[i]) == Some(v)
  {
    CompactMap(table, ValueField)
  }

  /** The strict rate: the mean of the values, computed only when there is at
      least one of them. */
  function StrictRate(values: seq<real>): (r: Option<real>)
    ensures r.Some? <==> |values| > 0
    ensures r.Some? ==> r.value * (|values| as real) == Sum(values)
  {
    if |values| > 0 then Some(Mean(values)) else None
  }

  /** A strict rate lies within the range of the values it averages. */
  lemma StrictRateBounded(values: seq<real>, lo: real, hi: real)
    requires forall i :: 0 <= i < |values| ==> lo <= values[i] <= hi
    ensures StrictRate(values).Some? ==> lo <= StrictRate(values).value <= hi
  {
    if |values| > 0 {
      MeanBounded(values, lo, hi);
    }
  }

  /** Averaging does not depend on the order of the values. */
  lemma StrictRateOfPermutation(xs: seq<real>, ys: seq<real>)
    requires multiset(xs) == multiset(ys)
    ensures StrictRate(xs) == StrictRate(ys)
  {
    assert |xs| == |multiset(xs)| == |multiset(ys)| == |ys|;
    SumOfPermutation(xs, ys);
  }

  /** The strict rate does not depend on the order in which the dictionary
      gives its entries. */
  lemma StrictRateOrderFree(table: seq<(string, seq<(string, Json)>)>, reordered: seq<(string, seq<(string, Json)>)>)
    requires multiset(table) == multiset(reordered)
    ensures StrictRate(RateValues(table)) == StrictRate(RateValues(reordered))
  {
    CompactMapOrderFree(table, reordered, ValueField);
    StrictRateOfPermutation(RateValues(table), RateValues(reordered));
  }

  function OrZero(r: Option<real>): real {
    match r
    case Some(v) => v
    case None => 0.0
  }

  // ----- The retrieved JSON object -----

  /** `json[name] as? [String: [String: Any]]` */
  function Section(json: seq<(string, Json)>, name: string): Option<seq<(string, seq<(string, Json)>)>> {
    match Get(json, name)
    case Some(j) => AsObjectOfObjects(j)
    case None => None
  }

  /** `section?[name] as? [String: [String: Any]]` */
  function SubSection(section: Option<seq<(string, seq<(string, Json)>)>>, name: string)
    : Option<seq<(string, seq<(string, Json)>)>>
  {
    match section
    case Some(s) => (match Get(s, name) case Some(inner) => ObjectsOf(inner) case None => None)
    case None => None
  }

  /** `section?[name] as? [String: [String: Double]]` */
  function Table(section: Option<seq<(string, seq<(string, Json)>)>>, name: string)
    : Option<seq<(string, seq<(string, real)>)>>
  {
    match section
    case Some(s) => (match Get(s, name) case Some(inner) => NumberTableOf(inner) case None => None)
    case None => None
  }

  function SeriesAt(parseTime: string -> Option<real>, section: Option<seq<(string, seq<(string, Json)>)>>, name: string)
    : (r: Option<seq<Sample>>)
    ensures SortedSeries(r)
    ensures r.Some? <==> Table(section, name).Some?
  {
    match Table(section, name)
    case Some(t) => Some(Series(parseTime, t))
    case None => None
  }

  function ScoredAt(parseTime: string -> Option<real>, section: Option<seq<(string, seq<(string, Json)>)>>, name: string)
    : Option<seq<Scored>>
  {
    match Table(section, name)
    case Some(t) => Some(ScoredSeries(parseTime, t))
    case None => None
  }

  function RateAt(section: Option<seq<(string, seq<(string, Json)>)>>, name: string): (r: Option<real>)
    ensures r.Some? ==> SubSection(section, name).Some?
  {
    match SubSection(section, name)
    case Some(t) => StrictRate(RateValues(t))
    case None => None
  }

  function StringAt(json: seq<(string, Json)>, name: string): Option<string> {
    match Get(json, name)
    case Some(j) => AsString(j)
    case None => None
  }

  /** Everything the retrieval publishes to the shared data store. `None` for
      a series or a strict rate means it is not written; the three strings are
      always written, possibly as nil. */
  datatype Metrics = Metrics(
    jsonMetrics: seq<(string, Json)>,
    pulsePleth: Option<seq<Sample>>,
    hrv: Option<seq<Sample>>,
    hrValues: Option<seq<Sample>>,
    hrConfidence: Option<seq<Sample>>,
    strictPulseRate: Option<real>,
    breathingPleth: Option<seq<Sample>>,
    rrValues: Option<seq<Sample>>,
    rrConfidence: Option<seq<Sample>>,
    rrl: Option<seq<Sample>>,
    apnea: Option<seq<Sample>>,
    ie: Option<seq<Sample>>,
    amplitude: Option<seq<Sample>>,
    baseline: Option<seq<Sample>>,
    phasic: Option<seq<Sample>>,
    strictBreathingRate: Option<real>,
    uploadDate: Option<string>,
    version: Option<string>,
    userID: Option<string>)

  predicate SortedSeries(s: Option<seq<Sample>>) {
    s.Some? ==> SortedBy(s.value, TimeOf)
  }

  /** Values and confidences of one rate: written together, with equal
      lengths and the same times. */
  predicate Aligned(values: Option<seq<Sample>>, confidences: Option<seq<Sample>>) {
    (values.Some? <==> confidences.Some?) &&
    (values.Some? ==>
       |values.value| == |confidences.value| &&
       forall i :: 0 <= i < |values.value| ==> values.value[i].time == confidences.value[i].time)
  }

  /** The `hrValues`/`hrConfidence` (or `rrValues`/`rrConfidence`) pair
      made from one sorted list of entries with confidence. */
  function SplitScored(scored: Option<seq<Scored>>): (r: (Option<seq<Sample>>, Option<seq<Sample>>))
    requires scored.Some? ==> SortedBy(scored.value, ScoredTimeOf)
    ensures Aligned(r.0, r.1) && SortedSeries(r.0) && SortedSeries(r.1)
    ensures r.0.Some? <==> scored.Some?
    ensures scored.Some? ==> r.0 == Some(ValuesOf(scored.value)) && r.1 == Some(ConfidencesOf(scored.value))
  {
    match scored
    case Some(xs) =>
      ValuesAndConfidencesAligned(xs);
      (Some(ValuesOf(xs)), Some(ConfidencesOf(xs)))
    case None => (None, None)
  }

  /** Extraction of the metrics from the top-level object. */
  function Extract(parseTime: string -> Option<real>, json: seq<(string, Json)>): (m: Metrics)
    ensures m.jsonMetrics == json && m.userID == StringAt(json, "id")
    ensures m.uploadDate == StringAt(json, "upload_date") && m.version == StringAt(json, "version")
    ensures m.pulsePleth == SeriesAt(parseTime, Section(json, "pulse"), "hr_trace")
    ensures m.hrv == SeriesAt(parseTime, Section(json, "pulse"), "hrv")
    ensures m.breathingPleth == SeriesAt(parseTime, Section(json, "breath"), "rr_trace")
    ensures m.rrl == SeriesAt(parseTime, Section(json, "breath"), "rrl")
    ensures m.apnea == SeriesAt(parseTime, Section(json, "breath"), "apnea")
    ensures m.ie == SeriesAt(parseTime, Section(json, "breath"), "ie")
    ensures m.amplitude == SeriesAt(parseTime, Section(json, "breath"), "amplitude")
    ensures m.baseline == SeriesAt(parseTime, Section(json, "breath"), "baseline")
    ensures m.phasic == SeriesAt(parseTime, Section(json, "pressure"), "phasic")
    ensures (m.hrValues, m.hrConfidence) == SplitScored(ScoredAt(parseTime, Section(json, "pulse"), "hr"))
    ensures (m.rrValues, m.rrConfidence) == SplitScored(ScoredAt(parseTime, Section(json, "breath"), "rr"))
    ensures SortedSeries(m.pulsePleth) && SortedSeries(m.hrv) && SortedSeries(m.breathingPleth)
    ensures SortedSeries(m.rrl) && SortedSeries(m.apnea) && SortedSeries(m.ie)
    ensures SortedSeries(m.amplitude) && SortedSeries(m.baseline) && SortedSeries(m.phasic)
    ensures SortedSeries(m.hrValues) && SortedSeries(m.hrConfidence)
    ensures SortedSeries(m.rrValues) && SortedSeries(m.rrConfidence)
    ensures Aligned(m.hrValues, m.hrConfidence) && Aligned(m.rrValues, m.rrConfidence)
    ensures m.strictPulseRate ==
              match SubSection(Section(json, "pulse"), "hr")
              case Some(t) => StrictRate(RateValues(t))
              case None => None
    ensures m.strictBreathingRate ==
              match SubSection(Section(json, "breath"), "rr")
              case Some(t) => StrictRate(RateValues(t))
              case None => None
  {
    var pulse := Section(json, "pulse");
    var breath := Section(json, "breath");
    var pressure := Section(json, "pressure");
    var (hrValues, hrConfidence) := SplitScored(ScoredAt(parseTime, pulse, "hr"));
    var (rrValues, rrConfidence) := SplitScored(ScoredAt(parseTime, breath, "rr"));
    Metrics(
      json,
      SeriesAt(parseTime, pulse, "hr_trace"),
      SeriesAt(parseTime, pulse, "hrv"),
      hrValues,
      hrConfidence,
      RateAt(pulse, "hr"),
      SeriesAt(parseTime, breath, "rr_trace"),
      rrValues,
      rrConfidence,
      SeriesAt(parseTime, breath, "rrl"),
      SeriesAt(parseTime, breath, "apnea"),
      SeriesAt(parseTime, breath, "ie"),
      SeriesAt(parseTime, breath, "amplitude"),
      SeriesAt(parseTime, breath, "baseline"),
      SeriesAt(parseTime, pressure, "phasic"),
      RateAt(breath, "rr"),
      StringAt(json, "upload_date"),
      StringAt(json, "version"),
      StringAt(json, "id"))
  }

  // ----- The repository calls -----

  /** The record returned by a successful retrieval. */
  datatype ProcessedData = ProcessedData(id: string, hr: real, rr: real, strictPulseRate: real, strictBreathingRate: real)

  /** Failures of the repository calls: those of the network layer, and the
      decoding error of a response model. */
  datatype RepoError = Network(e: NetworkError) | Decoding

  /** `retrieveData`. `routeValid` and `encodes` say whether the route URL
      could be formed and the request body encoded; `ownerAlive` whether the
      repository still exists when the POST completes; `reply` is the POST's
      result; `parseJson` is `JSONSerialization.jsonObject`, `None` when it
      throws. Besides the completion's fate, the method returns what is
      published to the shared store. */
  method RetrieveData(routeValid: bool, encodes: bool, ownerAlive: bool,
                      reply: Result<Network.Bytes, NetworkError>,
                      parseJson: Network.Bytes -> Option<Json>,
                      parseTime: string -> Option<real>)
    returns (completion: Completion<Result<Option<ProcessedData>, NetworkError>>, published: Option<Metrics>)
    ensures !routeValid || !encodes || !ownerAlive ==> completion.NeverCalled? && published.None?
    ensures routeValid && encodes && ownerAlive && reply.Failure? ==>
              completion == Called(Failure(reply.error)) && published.None?
    ensures routeValid && encodes && ownerAlive && reply == Success([]) ==>
              completion == Called(Success(None)) && published.None?
    ensures routeValid && encodes && ownerAlive && reply.Success? && reply.value != [] &&
            (parseJson(reply.value).None? || !parseJson(reply.value).value.JObject?) ==>
              completion == Called(Failure(EmptyData)) && published.None?
    ensures published.Some? <==>
              routeValid && encodes && ownerAlive && reply.Success? && reply.value != [] &&
              parseJson(reply.value).Some? && parseJson(reply.value).value.JObject?
    ensures published.Some? ==>
              published.value == Extract(parseTime, parseJson(reply.value).value.fields) &&
              (published.value.userID.None? <==> completion == Called(Failure(EmptyData)))
    ensures completion.Called? && completion.result.Success? && completion.result.value.Some? ==>
              published.Some? && published.value.userID == Some(completion.result.value.value.id)
    ensures completion.Called? && completion.result.Success? && completion.result.value.Some? ==>
              var d := completion.result.value.value;
              d.hr == 0.0 && d.rr == 0.0 &&
              d.strictPulseRate == OrZero(published.value.strictPulseRate) &&
              d.strictBreathingRate == OrZero(published.value.strictBreathingRate)
  {
    completion := NeverCalled;
    published := None;
    if !routeValid || !encodes {
      return;
    }
    var hrValue := 0.0;
    var rrValue := 0.0;
    if !ownerAlive {
      return;
    }
    match reply {
      case Failure(e) =>
        completion := Called(Failure(e));
      case Success(body) =>
        if body == [] {
          completion := Called(Success(None));
          return;
        }
        var parsed := parseJson(body);
        if parsed.None? || !parsed.value.JObject? {
          completion := Called(Failure(EmptyData));
          return;
        }
        var m := Extract(parseTime, parsed.value.fields);
        published := Some(m);
        var strictPulseRate := m.strictPulseRate;
        var strictBreathingRate := m.strictBreathingRate;
        match m.userID {
          case Some(id) =>
            completion := Called(Success(Some(ProcessedData(id, hrValue, rrValue,
                                   OrZero(strictPulseRate), OrZero(strictBreathingRate)))));
          case None =>
            completion := Called(Failure(EmptyData));
        }
    }
  }

  /** `generateUploadUrls`: the decoded response model on success, the
      decoding error or the network error otherwise. */
  method GenerateUploadUrls<U>(routeValid: bool, encodes: bool, reply: Result<Network.Bytes, NetworkError>,
                               decode: Network.Bytes -> Option<U>)
    returns (completion: Completion<Result<U, RepoError>>)
    ensures !routeValid || !encodes ==> completion.NeverCalled?
    ensures routeValid && encodes && reply.Failure? ==> completion == Called(Failure(Network(reply.error)))
    ensures routeValid && encodes && reply.Success? ==>
              completion == Called(match decode(reply.value)
                                   case Some(u) => Success(u)
                                   case None => Failure(Decoding))
  {
    if !routeValid || !encodes {
      return NeverCalled;
    }
    match reply {
      case Failure(e) => completion := Called(Failure(Network(e)));
      case Success(bytes) =>
        match decode(bytes) {
          case Some(u) => completion := Called(Success(u));
          case None => completion := Called(Failure(Decoding));
        }
    }
  }

  /** `multiPartUpload`: an invalid chunk URL returns without completing;
      otherwise the upload's ETag or error is passed on. A missing ETag stops
      the process inside the network layer. */
  method MultiPartUpload(urlValid: bool, reply: Guarded<Result<string, NetworkError>>)
    returns (outcome: Guarded<Completion<Result<string, NetworkError>>>)
    ensures !urlValid ==> outcome == Completes(NeverCalled)
    ensures urlValid && reply.Traps? ==> outcome.Traps?
    ensures urlValid && reply.Completes? ==> outcome == Completes(Called(reply.value))
  {
    if !urlValid {
      return Completes(NeverCalled);
    }
    match reply {
      case Traps => outcome := Traps;
      case Completes(r) =>
        match r {
          case Success(etag) => outcome := Completes(Called(Success(etag)));
          case Failure(e) => outcome := Completes(Called(Failure(e)));
        }
    }
  }

  /** `completeDataUpload`: posts the object `{id, upload_id, parts}` and
      reports `true` on any successful POST. The chunk number and count are
      not used. `body` is the object posted, `None` when nothing is sent. */
  method CompleteDataUpload(routeValid: bool, serializes: bool, num: int, urlsCount: int,
                            vidId: string, uploadId: string, parts: seq<seq<(string, Json)>>,
                            reply: Result<Network.Bytes, NetworkError>)
    returns (body: Option<Json>, completion: Completion<Result<bool, NetworkError>>)
    ensures !routeValid || !serializes ==> body.None? && completion.NeverCalled?
    ensures routeValid && serializes ==> body.Some? && body.value.JObject?
    ensures body.Some? ==> |body.value.fields| == 3
    ensures body.Some? ==> Get(body.value.fields, "id") == Some(JString(vidId))
    ensures body.Some? ==> Get(body.value.fields, "upload_id") == Some(JString(uploadId))
    ensures body.Some? ==> Get(body.value.fields, "parts").Some?
    ensures body.Some? ==> forall k :: k !in {"id", "upload_id", "parts"} ==> Get(body.value.fields, k).None?
    ensures body.Some? ==> var ps := Get(body.value.fields, "parts").value;
              ps.JArray? && |ps.items| == |parts| &&
              forall i :: 0 <= i < |parts| ==> ps.items[i] == JObject(parts[i])
    ensures routeValid && serializes ==>
              completion == Called(if reply.Success? then Success(true) else Failure(reply.error))
  {
    if !routeValid || !serializes {
      return None, NeverCalled;
    }
    var items: seq<Json> := [];
    var i := 0;
    while i < |parts|
      invariant 0 <= i <= |parts| && |items| == i
      invariant forall k :: 0 <= k < i ==> items[k] == JObject(parts[k])
    {
      items := items + [JObject(parts[i])];
      i := i + 1;
    }
    var json := [("id", JString(vidId)), ("upload_id", JString(uploadId)), ("parts", JArray(items))];
    assert Get(json, "parts") == Some(JArray(items)) by {
      assert json[1..][1..] == [("parts", JArray(items))];
      assert Get(json[1..][1..], "parts") == Some(JArray(items));
      assert "upload_id" != "parts" && "id" != "parts";
      assert Get(json[1..], "parts") == Get(json[1..][1..], "parts");
    }
    assert Get(json, "upload_id") == Some(JString(uploadId));
    forall k | k !in {"id", "upload_id", "parts"}
      ensures Get(json, k).None?
    {
      GetSpec(json, k);
    }
    body := Some(JObject(json));
    match reply {
      case Success(_) => completion := Called(Success(true));
      case Failure(e) => completion := Called(Failure(e));
    }
  }
}
