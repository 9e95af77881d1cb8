/**
 * Post-processing of the trend endpoint: the popularity buckets, the normalisation of each trend
 * dictionary the model returns, and the per-city accumulation of `get_trends`. Search and model
 * calls are inputs: one reply (or exception text) per city.
 */
module Trends {
  import opened Wrappers
  import opened Text
  import opened Json
  import opened TrendParsing

  // ---------------------------------------------------------------------------------------------
  // Popularity buckets
  // ---------------------------------------------------------------------------------------------

  const HighLabel: string := "High \U{1F525}"
  const MediumLabel: string := "Medium \U{26A1}"
  const LowLabel: string := "Low \U{2744}\U{FE0F}"

  datatype Popularity = Popularity(level: string, score: int)

  /** The bucket of a percentage given in tenths; the lower edge of each bucket is inclusive. */
  function Bucket(pct: int): (b: Popularity)
    ensures pct >= 350 ==> b == Popularity(HighLabel, 85)
    ensures 150 <= pct < 350 ==> b == Popularity(MediumLabel, 55)
    ensures pct < 150 ==> b == Popularity(LowLabel, 20)
  {
    if pct >= 350 then Popularity(HighLabel, 85)
    else if pct >= 150 then Popularity(MediumLabel, 55)
    else Popularity(LowLabel, 20)
  }

  /** A higher percentage never gets a lower score, and the level label alone determines the score. */
  lemma BucketOrdered(p: int, q: int)
    ensures p <= q ==> Bucket(p).score <= Bucket(q).score
    ensures Bucket(p).level == Bucket(q).level <==> Bucket(p).score == Bucket(q).score
  {
  }

  /** `round(random.uniform(3.0, 65.0), 1)` in tenths: any value the caller draws in [3.0, 65.0]. */
  type Roll = x: int | 30 <= x <= 650 witness 30

  /** assign_random_metrics: the drawn percentage with its bucket. */
  function RandomMetrics(roll: Roll): (r: (int, Popularity))
    ensures 30 <= r.0 <= 650 && r.1 == Bucket(r.0)
  {
    (roll, Bucket(roll))
  }

  // ---------------------------------------------------------------------------------------------
  // One trend dictionary
  // ---------------------------------------------------------------------------------------------

  const ListKeys: seq<string> := ["features", "competitors", "local_hotspots", "tips"]

  /** The percentage the model supplied in `change_pct`, if that key is present and holds a number. */
  function ModelPct(trend: Fields): (r: Option<int>)
    ensures r.Some? ==> HasKey(trend, "change_pct")
  {
    if HasKey(trend, "change_pct") then ExtractTenths(Str(GetOr(trend, "change_pct", VNull))) else None
  }

  /** A list value stays; a missing key or any other value becomes the empty list. */
  function ListOrEmpty(v: Option<Value>): Value {
    match v
    case Some(VList(xs)) => VList(xs)
    case _ => VList([])
  }

  function EnsureList(trend: Fields, key: string): Fields {
    match Get(trend, key)
    case Some(VList(_)) => trend
    case _ => Put(trend, key, VList([]))
  }

  function EnsureLists(trend: Fields, keys: seq<string>): Fields
    decreases |keys|
  {
    if keys == [] then trend else EnsureLists(EnsureList(trend, keys[0]), keys[1..])
  }

  lemma {:induction false} EnsureListsGet(trend: Fields, keys: seq<string>, k: string)
    ensures Get(EnsureLists(trend, keys), k) == if k in keys then Some(ListOrEmpty(Get(trend, k))) else Get(trend, k)
    decreases |keys|
  {
    if keys != [] {
      EnsureListsGet(EnsureList(trend, keys[0]), keys[1..], k);
    }
  }

  /** The four values the endpoint assigns: `pct_change`, `change_pct`, `popularity_score` and the default label. */
  datatype Metrics = Metrics(pctChange: Value, changePct: Value, score: Value, defaultLevel: Value)

  /** The values assigned for percentage `pct` (in tenths). */
  function MetricsFor(pct: int): Metrics {
    var b := Bucket(pct);
    Metrics(VFloat(pct, 1), VStr(RenderPct(pct)), VInt(b.score), VStr(b.level))
  }

  /** The four assignments of the numeric fields. */
  function AttachMetrics(trend: Fields, m: Metrics): Fields {
    var t3 := Put(Put(Put(trend, "pct_change", m.pctChange), "change_pct", m.changePct), "popularity_score", m.score);
    Put(t3, "popularity", GetOr(t3, "popularity", m.defaultLevel))
  }

  /** The dictionary after the metrics are attached and the list keys fixed. */
  function Normalized(trend: Fields, m: Metrics): Fields {
    EnsureLists(AttachMetrics(trend, m), ListKeys)
  }

  /** The dictionary after the numeric fields are attached for percentage `pct` and the list keys fixed. */
  function NormalizedTrend(trend: Fields, pct: int): Fields {
    Normalized(trend, MetricsFor(pct))
  }

  predicate IsManagedKey(k: string) {
    k in ["pct_change", "change_pct", "popularity_score", "popularity"] || k in ListKeys
  }

  /** The value a dictionary normalised with metrics m holds under key k. */
  function NormalizedValue(trend: Fields, m: Metrics, k: string): Option<Value> {
    if k == "pct_change" then Some(m.pctChange)
    else if k == "change_pct" then Some(m.changePct)
    else if k == "popularity_score" then Some(m.score)
    else if k == "popularity" then Some(GetOr(trend, "popularity", m.defaultLevel))
    else if k in ListKeys then Some(ListOrEmpty(Get(trend, k)))
    else Get(trend, k)
  }

  lemma AttachMetricsGet(trend: Fields, m: Metrics, k: string)
    ensures Get(AttachMetrics(trend, m), k) ==
      if k == "pct_change" then Some(m.pctChange)
      else if k == "change_pct" then Some(m.changePct)
      else if k == "popularity_score" then Some(m.score)
      else if k == "popularity" then Some(GetOr(trend, "popularity", m.defaultLevel))
      else Get(trend, k)
  {
    var t3 := Put(Put(Put(trend, "pct_change", m.pctChange), "change_pct", m.changePct), "popularity_score", m.score);
    assert Get(t3, "popularity") == Get(trend, "popularity");
  }

  lemma NormalizedListGet(trend: Fields, m: Metrics, k: string)
    requires k in ListKeys
    ensures Get(Normalized(trend, m), k) == Some(ListOrEmpty(Get(trend, k)))
  {
    var t4 := AttachMetrics(trend, m);
    assert !(k in ["pct_change", "change_pct", "popularity_score", "popularity"]);
    AttachMetricsGet(trend, m, k);
    assert Get(t4, k) == Get(trend, k);
    EnsureListsGet(t4, ListKeys, k);
  }

  lemma NormalizedOtherGet(trend: Fields, m: Metrics, k: string)
    requires k !in ListKeys
    ensures Get(Normalized(trend, m), k) == NormalizedValue(trend, m, k)
  {
    var t4 := AttachMetrics(trend, m);
    EnsureListsGet(t4, ListKeys, k);
    AttachMetricsGet(trend, m, k);
  }

  lemma ListKeyValue(trend: Fields, m: Metrics, k: string)
    requires k in ListKeys
    ensures NormalizedValue(trend, m, k) == Some(ListOrEmpty(Get(trend, k)))
  {
    assert !(k in ["pct_change", "change_pct", "popularity_score", "popularity"]);
  }

  lemma NormalizedGet(trend: Fields, m: Metrics, k: string)
    ensures Get(Normalized(trend, m), k) == NormalizedValue(trend, m, k)
  {
    if k in ListKeys {
      NormalizedListGet(trend, m, k);
      ListKeyValue(trend, m, k);
    } else {
      NormalizedOtherGet(trend, m, k);
    }
  }

  /** The per-key facts, for any dictionary holding the normalised values. */
  lemma MetricsOfNormalized(trend: Fields, m: Metrics, t: Fields)
    requires forall k :: Get(t, k) == NormalizedValue(trend, m, k)
    ensures Get(t, "pct_change") == Some(m.pctChange)
    ensures Get(t, "change_pct") == Some(m.changePct)
    ensures Get(t, "popularity_score") == Some(m.score)
    ensures Get(t, "popularity") == Some(GetOr(trend, "popularity", m.defaultLevel))
  {
    assert Get(t, "pct_change") == NormalizedValue(trend, m, "pct_change");
    assert Get(t, "change_pct") == NormalizedValue(trend, m, "change_pct");
    assert Get(t, "popularity_score") == NormalizedValue(trend, m, "popularity_score");
    assert Get(t, "popularity") == NormalizedValue(trend, m, "popularity");
  }

  lemma ListsOfNormalized(trend: Fields, m: Metrics, t: Fields)
    requires forall k :: Get(t, k) == NormalizedValue(trend, m, k)
    ensures forall k | k in ListKeys :: Get(t, k) == Some(ListOrEmpty(Get(trend, k)))
  {
  }

  lemma OthersOfNormalized(trend: Fields, m: Metrics, t: Fields)
    requires forall k :: Get(t, k) == NormalizedValue(trend, m, k)
    ensures forall k | !IsManagedKey(k) :: Get(t, k) == Get(trend, k)
  {
  }

  /** What a normalised dictionary holds under every key: the metrics, the kept label, the lists, the rest untouched. */
  lemma NormalizedFields(trend: Fields, m: Metrics)
    ensures var t := Normalized(trend, m);
      && Get(t, "pct_change") == Some(m.pctChange)
      && Get(t, "change_pct") == Some(m.changePct)
      && Get(t, "popularity_score") == Some(m.score)
      && Get(t, "popularity") == Some(GetOr(trend, "popularity", m.defaultLevel))
      && (forall k | k in ListKeys :: Get(t, k) == Some(ListOrEmpty(Get(trend, k))))
      && (forall k | !IsManagedKey(k) :: Get(t, k) == Get(trend, k))
  {
    var t := Normalized(trend, m);
    forall k ensures Get(t, k) == NormalizedValue(trend, m, k) {
      NormalizedGet(trend, m, k);
    }
    MetricsOfNormalized(trend, m, t);
    ListsOfNormalized(trend, m, t);
    OthersOfNormalized(trend, m, t);
  }

  /** The same for the values assigned for `pct`: the percentage in both forms and its bucket. */
  lemma NormalizedTrendFields(trend: Fields, pct: int)
    ensures var t := NormalizedTrend(trend, pct);
      && Get(t, "pct_change") == Some(VFloat(pct, 1))
      && Get(t, "change_pct") == Some(VStr(RenderPct(pct)))
      && Get(t, "popularity_score") == Some(VInt(Bucket(pct).score))
      && Get(t, "popularity") == Some(GetOr(trend, "popularity", VStr(Bucket(pct).level)))
      && (forall k | k in ListKeys :: Get(t, k) == Some(ListOrEmpty(Get(trend, k))))
      && (forall k | !IsManagedKey(k) :: Get(t, k) == Get(trend, k))
  {
    NormalizedFields(trend, MetricsFor(pct));
  }

  /** A normalised trend keeps its percentage when read again: `change_pct` yields `pct` back. */
  lemma NormalizedTrendRereads(trend: Fields, pct: int)
    ensures ModelPct(NormalizedTrend(trend, pct)) == Some(pct)
  {
    var t := NormalizedTrend(trend, pct);
    NormalizedFields(trend, MetricsFor(pct));
    assert Get(t, "change_pct") == Some(VStr(RenderPct(pct)));
    ExtractRenderedPct(pct);
  }

  /** The per-trend body of the loop in get_trends, updating the dictionary key by key. */
  method NormalizeTrend(trend: Fields, roll: Roll) returns (out: Fields, rolled: bool)
    ensures rolled <==> ModelPct(trend).None?
    ensures out == NormalizedTrend(trend, ModelPct(trend).GetOr(roll))
  {
    var extracted: Option<int> := None;
    if HasKey(trend, "change_pct") {
      extracted := ExtractTenths(Str(GetOr(trend, "change_pct", VNull)));
    }
    var pct: int;
    var bucket: Popularity;
    if extracted.None? {
      var metrics := RandomMetrics(roll);
      pct, bucket := metrics.0, metrics.1;
      rolled := true;
    } else {
      pct := extracted.value;
      bucket := Bucket(pct);
      rolled := false;
    }
    assert pct == ModelPct(trend).GetOr(roll) && bucket == Bucket(pct);
    out := Put(trend, "pct_change", VFloat(pct, 1));
    out := Put(out, "change_pct", VStr(RenderPct(pct)));
    out := Put(out, "popularity_score", VInt(bucket.score));
    out := Put(out, "popularity", GetOr(out, "popularity", VStr(bucket.level)));
    assert out == AttachMetrics(trend, MetricsFor(pct));
    out := EnsureListKeys(out);
  }

  /** The loop `for key in [...]: if not isinstance(trend.get(key), list): trend[key] = []`. */
  method EnsureListKeys(trend: Fields) returns (out: Fields)
    ensures out == EnsureLists(trend, ListKeys)
  {
    out := trend;
    var i := 0;
    while i < |ListKeys|
      invariant 0 <= i <= |ListKeys|
      invariant EnsureLists(out, ListKeys[i..]) == EnsureLists(trend, ListKeys)
    {
      var key := ListKeys[i];
      assert ListKeys[i..][0] == key && ListKeys[i..][1..] == ListKeys[i + 1..];
      match Get(out, key) {
        case Some(VList(_)) =>
        case _ => out := Put(out, key, VList([]));
      }
      i := i + 1;
    }
  }

  // ---------------------------------------------------------------------------------------------
  // The parsed array of one city
  // ---------------------------------------------------------------------------------------------

  /** The TypeError that item assignment or `in` raises on an array element that is not a dictionary. */
  function ElementTypeError(v: Value): string {
    match v
    case VStr(_) => "'str' object does not support item assignment"
    case VList(_) => "list indices must be integers or slices, not str"
    case _ => "argument of type '" + TypeName(v) + "' is not iterable"
  }

  /** A string or list element passes the `in` test, so a random draw is taken before it fails. */
  predicate DrawsBeforeFailing(v: Value) { v.VStr? || v.VList? }

  /** The outcome of processing a parsed array, and how many random draws have been taken so far. */
  datatype Batch = Batch(result: Result<seq<Value>, string>, drawn: nat)

  /** `t` is `f` normalised with the model's percentage, or with a drawn one when it has none. */
  ghost predicate NormalizationOf(f: Fields, t: Value) {
    exists pct: int ::
      && t == VObj(NormalizedTrend(f, pct))
      && (ModelPct(f).Some? ==> pct == ModelPct(f).value)
      && (ModelPct(f).None? ==> 30 <= pct <= 650)
  }

  /** What a run over a prefix that succeeded contributes in front of the run over the rest. */
  function Prefixed(done: seq<Value>, rest: Batch): Batch {
    match rest.result
    case Ok(ts) => Batch(Ok(done + ts), rest.drawn)
    case Err(_) => rest
  }

  lemma NormalizationOfIntro(f: Fields, pct: int, roll: Roll)
    requires pct == ModelPct(f).GetOr(roll)
    ensures NormalizationOf(f, VObj(NormalizedTrend(f, pct)))
  {
  }

  /** The loop over the parsed trends, as a function; `roll(n)` is the n-th random draw of the request. */
  function ProcessElements(elems: seq<Value>, roll: nat -> Roll, drawn: nat): (b: Batch)
    ensures b.drawn >= drawn
    decreases |elems|
  {
    if elems == [] then Batch(Ok([]), drawn)
    else
      match elems[0]
      case VObj(f) =>
        var pct := ModelPct(f).GetOr(roll(drawn));
        var drawn' := if ModelPct(f).None? then drawn + 1 else drawn;
        Prefixed([VObj(NormalizedTrend(f, pct))], ProcessElements(elems[1..], roll, drawn'))
      case other =>
        Batch(Err(ElementTypeError(other)), if DrawsBeforeFailing(other) then drawn + 1 else drawn)
  }

  lemma AllObjectsCons(elems: seq<Value>)
    requires elems != []
    ensures AllObjects(elems) <==> elems[0].VObj? && AllObjects(elems[1..])
  {
    if elems[0].VObj? && AllObjects(elems[1..]) {
      forall k | 0 <= k < |elems| ensures elems[k].VObj? {
        if k > 0 { assert elems[k] == elems[1..][k - 1]; }
      }
    }
  }

  /** The loop succeeds exactly when every element is a dictionary, and then yields one trend per element. */
  lemma {:induction false} ProcessElementsOk(elems: seq<Value>, roll: nat -> Roll, drawn: nat)
    ensures ProcessElements(elems, roll, drawn).result.Ok? <==> AllObjects(elems)
    ensures ProcessElements(elems, roll, drawn).result.Ok? ==> |ProcessElements(elems, roll, drawn).result.value| == |elems|
    decreases |elems|
  {
    if elems != [] {
      AllObjectsCons(elems);
      if elems[0].VObj? {
        var f := elems[0].fields;
        var drawn' := if ModelPct(f).None? then drawn + 1 else drawn;
        ProcessElementsOk(elems[1..], roll, drawn');
      }
    }
  }

  /** Each trend the loop yields is the corresponding element normalised, in order. */
  lemma {:induction false} ProcessElementsNormalizes(elems: seq<Value>, roll: nat -> Roll, drawn: nat)
    requires ProcessElements(elems, roll, drawn).result.Ok?
    ensures var ts := ProcessElements(elems, roll, drawn).result.value;
      forall k | 0 <= k < |elems| && k < |ts| :: elems[k].VObj? && NormalizationOf(elems[k].fields, ts[k])
    decreases |elems|
  {
    if elems != [] {
      var f := elems[0].fields;
      var pct := ModelPct(f).GetOr(roll(drawn));
      var drawn' := if ModelPct(f).None? then drawn + 1 else drawn;
      var rest := ProcessElements(elems[1..], roll, drawn');
      ProcessElementsNormalizes(elems[1..], roll, drawn');
      var ts := [VObj(NormalizedTrend(f, pct))] + rest.result.value;
      assert ProcessElements(elems, roll, drawn).result.value == ts;
      NormalizationOfIntro(f, pct, roll(drawn));
      forall k | 0 <= k < |elems| && k < |ts| ensures elems[k].VObj? && NormalizationOf(elems[k].fields, ts[k]) {
        if k > 0 {
          assert elems[k] == elems[1..][k - 1] && ts[k] == rest.result.value[k - 1];
        }
      }
    }
  }

  // ---------------------------------------------------------------------------------------------
  // The loop over cities
  // ---------------------------------------------------------------------------------------------

  /** What the search and model calls for one city produced: the reply text, or the exception text. */
  datatype CityReply = ReplyFailed(error: string) | Replied(text: string)

  /** `{"city": city, "error": str(e)}` */
  function ErrorRecord(city: string, error: string): Value {
    VObj([("city", VStr(city)), ("error", VStr(error))])
  }

  /** Entries appended to `all_trends` so far, and the random draws taken so far. */
  datatype Run = Run(entries: seq<Value>, drawn: nat)

  /**
   * One city's contribution. `parse` stands for `json.loads` on the cleaned span; since that span
   * always begins with `[`, a successful parse is an array, given here as its elements.
   */
  function CityEntries(city: string, reply: CityReply, parse: string -> Result<seq<Value>, string>,
                       roll: nat -> Roll, drawn: nat): (r: Run)
    ensures r.drawn >= drawn
  {
    match reply
    case ReplyFailed(e) => Run([ErrorRecord(city, e)], drawn)
    case Replied(text) =>
      match parse(CleanJsonResponse(text))
      case Err(e) => Run([ErrorRecord(city, e)], drawn)
      case Ok(elems) =>
        var b := ProcessElements(elems, roll, drawn);
        match b.result
        case Ok(ts) => Run(ts, b.drawn)
        case Err(e) => Run([ErrorRecord(city, e)], b.drawn)
  }

  /** get_trends over the cities in request order, as a function. */
  function TrendsRun(cities: seq<string>, replies: seq<CityReply>, parse: string -> Result<seq<Value>, string>,
                     roll: nat -> Roll, drawn: nat): (r: Run)
    requires |replies| == |cities|
    ensures r.drawn >= drawn
  {
    if cities == [] then Run([], drawn)
    else
      var c := CityEntries(cities[0], replies[0], parse, roll, drawn);
      var rest := TrendsRun(cities[1..], replies[1..], parse, roll, c.drawn);
      Run(c.entries + rest.entries, rest.drawn)
  }

  /** The reply text parsed, after cleaning, to an array whose every element is a dictionary. */
  predicate ParsesToObjects(reply: CityReply, parse: string -> Result<seq<Value>, string>) {
    && reply.Replied?
    && parse(CleanJsonResponse(reply.text)).Ok?
    && AllObjects(parse(CleanJsonResponse(reply.text)).value)
  }

  /**
   * Each city contributes either all of its parsed trends, normalised and in order, or, when the
   * calls failed, the text did not parse or some element is not a dictionary, exactly one error record.
   */
  lemma CityContribution(city: string, reply: CityReply, parse: string -> Result<seq<Value>, string>,
                         roll: nat -> Roll, drawn: nat)
    ensures var c := CityEntries(city, reply, parse, roll, drawn);
      ParsesToObjects(reply, parse) ==>
        var elems := parse(CleanJsonResponse(reply.text)).value;
        && |c.entries| == |elems|
        && forall k | 0 <= k < |elems| :: NormalizationOf(elems[k].fields, c.entries[k])
    ensures !ParsesToObjects(reply, parse) ==>
      exists e :: CityEntries(city, reply, parse, roll, drawn).entries == [ErrorRecord(city, e)]
    ensures reply.ReplyFailed? ==> CityEntries(city, reply, parse, roll, drawn).entries == [ErrorRecord(city, reply.error)]
  {
    if reply.Replied? && parse(CleanJsonResponse(reply.text)).Ok? {
      var elems := parse(CleanJsonResponse(reply.text)).value;
      ProcessElementsOk(elems, roll, drawn);
      var b := ProcessElements(elems, roll, drawn);
      if AllObjects(elems) {
        ProcessElementsNormalizes(elems, roll, drawn);
      } else {
        assert CityEntries(city, reply, parse, roll, drawn).entries == [ErrorRecord(city, b.result.error)];
      }
    } else if reply.Replied? {
      var e := parse(CleanJsonResponse(reply.text)).error;
      assert CityEntries(city, reply, parse, roll, drawn).entries == [ErrorRecord(city, e)];
    } else {
      assert CityEntries(city, reply, parse, roll, drawn).entries == [ErrorRecord(city, reply.error)];
    }
  }

  /** A reply with no bracketed span yields no trend and no error record. */
  lemma NoSpanNoEntries(city: string, text: string, parse: string -> Result<seq<Value>, string>,
                        roll: nat -> Roll, drawn: nat)
    requires parse("[]") == Ok([])
    requires !HasBracketSpan(text)
    ensures CityEntries(city, Replied(text), parse, roll, drawn) == Run([], drawn)
  {
  }

  /**
   * Failure isolation: the cities after a prefix are processed as if they came alone; the prefix
   * (whatever failed in it) is felt only through the number of random draws already taken.
   */
  lemma {:induction false} TrendsRunSplit(cities: seq<string>, replies: seq<CityReply>, n: nat,
                                          parse: string -> Result<seq<Value>, string>, roll: nat -> Roll, drawn: nat)
    requires |replies| == |cities| && n <= |cities|
    ensures var front := TrendsRun(cities[..n], replies[..n], parse, roll, drawn);
      var back := TrendsRun(cities[n..], replies[n..], parse, roll, front.drawn);
      TrendsRun(cities, replies, parse, roll, drawn) == Run(front.entries + back.entries, back.drawn)
  {
    if n == 0 {
      assert cities[..0] == [] && replies[..0] == [];
      assert cities[0..] == cities && replies[0..] == replies;
    } else {
      var c := CityEntries(cities[0], replies[0], parse, roll, drawn);
      TrendsRunSplit(cities[1..], replies[1..], n - 1, parse, roll, c.drawn);
      SplitSlices(cities, n);
      SplitSlices(replies, n);
      var front' := TrendsRun(cities[1..][..n - 1], replies[1..][..n - 1], parse, roll, c.drawn);
      var back := TrendsRun(cities[n..], replies[n..], parse, roll, front'.drawn);
      AppendAssoc(c.entries, front'.entries, back.entries);
    }
  }

  lemma SplitSlices<T>(s: seq<T>, n: nat)
    requires 1 <= n <= |s|
    ensures s[..n] != [] && s[..n][0] == s[0]
    ensures s[..n][1..] == s[1..][..n - 1] && s[1..][n - 1..] == s[n..]
  {
  }

  lemma AppendAssoc<T>(a: seq<T>, b: seq<T>, c: seq<T>)
    ensures a + (b + c) == (a + b) + c
  {
  }

  lemma PrefixedEmpty(rest: Batch)
    ensures Prefixed([], rest) == rest
  {
    if rest.result.Ok? {
      assert [] + rest.result.value == rest.result.value;
    }
  }

  lemma PrefixedAppend(done: seq<Value>, x: Value, rest: Batch)
    ensures Prefixed(done, Prefixed([x], rest)) == Prefixed(done + [x], rest)
  {
    if rest.result.Ok? {
      assert done + ([x] + rest.result.value) == (done + [x]) + rest.result.value;
    }
  }

  lemma UpdatedPrefix(s: seq<Value>, j: nat, x: Value)
    requires j < |s|
    ensures s[j := x][..j + 1] == s[..j] + [x]
    ensures s[j := x][j + 1..] == s[j + 1..]
  {
  }

  lemma PrefixedWhole(parsed: seq<Value>, j: nat, elems: seq<Value>, roll: nat -> Roll, drawn: nat)
    requires j == |parsed| == |elems|
    ensures Prefixed(parsed[..j], ProcessElements(elems[j..], roll, drawn)) == Batch(Ok(parsed), drawn)
  {
    assert parsed[..j] == parsed && elems[j..] == [];
    assert parsed + [] == parsed;
  }

  /** The run from element j on: element j decides, then the run from j + 1 on. */
  lemma ProcessElementsAt(elems: seq<Value>, j: nat, roll: nat -> Roll, drawn: nat)
    requires j < |elems|
    ensures elems[j].VObj? ==>
      var f := elems[j].fields;
      ProcessElements(elems[j..], roll, drawn) ==
        Prefixed([VObj(NormalizedTrend(f, ModelPct(f).GetOr(roll(drawn))))],
                 ProcessElements(elems[j + 1..], roll, if ModelPct(f).None? then drawn + 1 else drawn))
    ensures !elems[j].VObj? ==>
      ProcessElements(elems[j..], roll, drawn) ==
        Batch(Err(ElementTypeError(elems[j])), if DrawsBeforeFailing(elems[j]) then drawn + 1 else drawn)
  {
    assert elems[j..][0] == elems[j] && elems[j..][1..] == elems[j + 1..];
  }

  /** The body of step 4 for the first of the remaining elements: normalise it, or raise. */
  method NormalizeFirst(rest: seq<Value>, roll: nat -> Roll, drawn0: nat)
    returns (result: Result<Value, string>, drawn: nat)
    requires rest != []
    ensures result.Ok? ==> ProcessElements(rest, roll, drawn0) == Prefixed([result.value], ProcessElements(rest[1..], roll, drawn))
    ensures result.Err? ==> ProcessElements(rest, roll, drawn0) == Batch(Err(result.error), drawn)
  {
    drawn := drawn0;
    var element := rest[0];
    ProcessElementsAt(rest, 0, roll, drawn0);
    assert rest[0..] == rest;
    if element.VObj? {
      var out, rolled := NormalizeTrend(element.fields, roll(drawn));
      if rolled { drawn := drawn + 1; }
      result := Ok(VObj(out));
    } else {
      if DrawsBeforeFailing(element) { drawn := drawn + 1; }
      result := Err(ElementTypeError(element));
    }
  }

  /**
   * Step 4 of get_trends: the loop that updates each parsed trend in place. A non-dictionary
   * element raises, which ends the loop; the dictionaries before it have already been updated.
   */
  method NormalizeElements(elems: seq<Value>, roll: nat -> Roll, drawn0: nat)
    returns (result: Result<seq<Value>, string>, drawn: nat)
    ensures Batch(result, drawn) == ProcessElements(elems, roll, drawn0)
  {
    var parsed := elems;
    var failure: Option<string> := None;
    drawn := drawn0;
    var j := 0;
    assert elems[0..] == elems && parsed[..0] == [];
    PrefixedEmpty(ProcessElements(elems, roll, drawn));
    while j < |parsed| && failure.None?
      invariant 0 <= j <= |parsed| == |elems|
      invariant parsed[j..] == elems[j..]
      invariant failure.None? ==>
        ProcessElements(elems, roll, drawn0) == Prefixed(parsed[..j], ProcessElements(elems[j..], roll, drawn))
      invariant failure.Some? ==>
        ProcessElements(elems, roll, drawn0) == Batch(Err(failure.value), drawn)
      decreases |parsed| - j, if failure.None? then 1 else 0
    {
      var r, d := NormalizeFirst(parsed[j..], roll, drawn);
      assert parsed[j..][1..] == elems[j + 1..];
      match r {
        case Ok(t) =>
          PrefixedAppend(parsed[..j], t, ProcessElements(elems[j + 1..], roll, d));
          UpdatedPrefix(parsed, j, t);
          parsed := parsed[j := t];
          j := j + 1;
        case Err(e) =>
          failure := Some(e);
      }
      drawn := d;
    }
    if failure.Some? {
      result := Err(failure.value);
    } else {
      PrefixedWhole(parsed, j, elems, roll, drawn);
      result := Ok(parsed);
    }
  }

  /** One iteration of the loop over cities: the entries it appends and the draws it takes. */
  method CityStep(city: string, reply: CityReply, parse: string -> Result<seq<Value>, string>,
                  roll: nat -> Roll, drawn0: nat) returns (contribution: seq<Value>, drawn: nat)
    ensures Run(contribution, drawn) == CityEntries(city, reply, parse, roll, drawn0)
  {
    drawn := drawn0;
    match reply {
      case ReplyFailed(e) =>
        contribution := [ErrorRecord(city, e)];
      case Replied(text) =>
        var cleaned := CleanJsonResponse(text);
        match parse(cleaned) {
          case Err(e) =>
            contribution := [ErrorRecord(city, e)];
          case Ok(elems) =>
            var result;
            result, drawn := NormalizeElements(elems, roll, drawn0);
            match result {
              case Ok(ts) => contribution := ts;
              case Err(e) => contribution := [ErrorRecord(city, e)];
            }
        }
    }
  }

  /** get_trends: the loop over cities, extending `all_trends` with each city's entries. */
  method GetTrends(cities: seq<string>, replies: seq<CityReply>, parse: string -> Result<seq<Value>, string>,
                   roll: nat -> Roll) returns (allTrends: seq<Value>)
    requires |replies| == |cities|
    ensures allTrends == TrendsRun(cities, replies, parse, roll, 0).entries
  {
    allTrends := [];
    var drawn: nat := 0;
    var i := 0;
    while i < |cities|
      invariant 0 <= i <= |cities|
      invariant var rest := TrendsRun(cities[i..], replies[i..], parse, roll, drawn);
        TrendsRun(cities, replies, parse, roll, 0) == Run(allTrends + rest.entries, rest.drawn)
    {
      ghost var start := drawn;
      var contribution;
      contribution, drawn := CityStep(cities[i], replies[i], parse, roll, drawn);
      assert cities[i..][0] == cities[i] && replies[i..][0] == replies[i];
      assert cities[i..][1..] == cities[i + 1..] && replies[i..][1..] == replies[i + 1..];
      ghost var rest := TrendsRun(cities[i + 1..], replies[i + 1..], parse, roll, drawn);
      assert allTrends + (contribution + rest.entries) == (allTrends + contribution) + rest.entries;
      allTrends := allTrends + contribution;
      i := i + 1;
    }
  }
}
