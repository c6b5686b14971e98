/**
 * The monitoring-metrics filter: it builds the time-series query filter
 * from the resources, indexes the fetched time series by their metric key
 * (last one wins), annotates every resource with the series that
 * correlates to it under `c7n.metrics["<name>.<aligner>.<reducer>"]`, and
 * keeps the resources whose observed value passes `op(observed, value)`.
 */
module Metrics {
  import opened Outcomes
  import opened Json
  import opened Text
  import opened Comprehension
  import opened Resources

  const DefaultDays := 14
  const DefaultAligner := "ALIGN_NONE"
  const DefaultReducer := "REDUCE_NONE"
  const DefaultMissingValue := 0

  /** The `less-than` operator, the one used when the policy names none. */
  function LessThan(observed: int, threshold: int): bool {
    observed < threshold
  }

  /** The filter's policy entry; options read with `.get` are optional, the others are not. */
  datatype Config = Config(
    name: string,
    resourceKey: Option<Path>,
    metricKey: Option<Path>,
    days: Option<int>,
    aligner: Option<string>,
    reducer: Option<string>,
    groupByFields: Option<seq<string>>,
    missingValue: Option<int>,
    op: Option<(int, int) -> bool>,
    value: int)

  /** The fetched time series by metric key; a key that did not resolve is the None key. */
  type Index = map<Option<string>, Json>

  // ---------------------------------------------------------------- query filter

  function QueryPrefix(metric: string): string {
    "metric.type = \"" + metric + "\" AND "
  }

  /** Python's `'{}'.format(key)`: an unresolved key prints as `None`. */
  function Show(key: Option<string>): string {
    match key
    case Some(s) => s
    case None => "None"
  }

  function KeyClause(metricKey: string, key: Option<string>): string {
    metricKey + " = \"" + Show(key) + "\""
  }

  /** One clause per resource, in resource order. */
  function Clauses(metricKey: string, resourceKey: Path, rs: seq<Resource>): seq<string> {
    seq(|rs|, i requires 0 <= i < |rs| => KeyClause(metricKey, resourceKey.eval(rs[i].data)))
  }

  /**
   * The query filter: the metric-type prefix followed by the resources'
   * clauses joined by " OR ". With no resources it is what `rsplit` leaves
   * of the bare prefix (see EmptyQueryIsPrefix).
   */
  function QueryFilter(metric: string, metricKey: string, resourceKey: Path, rs: seq<Resource>): string {
    if |rs| == 0 then RSplitHead(QueryPrefix(metric), Separator)
    else QueryPrefix(metric) + Join(Clauses(metricKey, resourceKey, rs), Separator)
  }

  /** With no resources the filter is the prefix with its dangling " AND ", unless the metric name holds " OR ". */
  lemma {:induction false} EmptyQueryIsPrefix(metric: string, metricKey: string, resourceKey: Path)
    requires !Contains(metric, Separator)
    ensures QueryFilter(metric, metricKey, resourceKey, []) == QueryPrefix(metric)
  {
    var p := QueryPrefix(metric);
    var a, b := "metric.type = \"", "\" AND ";
    assert p == a + metric + b;
    var n := |metric|;
    forall j | 0 <= j <= |p|
      ensures !OccursAt(p, Separator, j)
    {
      if j + 4 <= |p| {
        if j + 1 < |a| {
          assert p[j + 1] == a[j + 1];
          assert 'O' !in a;
          assert p[j..j + 4][1] != Separator[1];
        } else if j + 1 >= |a| + n {
          assert p[j + 1] == b[j + 1 - |a| - n];
          assert 'O' !in b;
          assert p[j..j + 4][1] != Separator[1];
        } else if j < |a| {
          assert p[j] == a[|a| - 1];
          assert p[j..j + 4][0] != Separator[0];
        } else if j + 3 >= |a| + n {
          assert p[|a| + n] == b[0];
          assert p[j..j + 4][|a| + n - j] != Separator[|a| + n - j];
        } else {
          OccursInside(a, metric, b, Separator, j);
          assert !OccursAt(metric, Separator, j - |a|);
        }
      }
    }
    RSplitWithoutSeparator(p, Separator);
  }

  /**
   * With at least one resource the filter starts with the prefix and ends
   * with the last resource's clause, so no " OR " is left dangling.
   */
  lemma QueryEndsWithLastClause(metric: string, metricKey: string, resourceKey: Path, rs: seq<Resource>)
    requires |rs| > 0
    ensures var q, p := QueryFilter(metric, metricKey, resourceKey, rs), QueryPrefix(metric);
            var last := KeyClause(metricKey, resourceKey.eval(rs[|rs| - 1].data));
            && |q| >= |p| + |last|
            && q[..|p|] == p
            && q[|q| - |last|..] == last
            && q[|q| - 1] == '"'
  {
    var cs := Clauses(metricKey, resourceKey, rs);
    JoinEnds(cs, Separator);
    var j := Join(cs, Separator);
    var q := QueryPrefix(metric) + j;
    assert q[|q| - |cs[|cs| - 1]|..] == j[|j| - |cs[|cs| - 1]|..];
  }

  /** With one resource, rsplit removes exactly the trailing " OR ". */
  lemma OneResourceQuery(metric: string, metricKey: string, resourceKey: Path, r: Resource)
    ensures QueryFilter(metric, metricKey, resourceKey, [r])
         == QueryPrefix(metric) + KeyClause(metricKey, resourceKey.eval(r.data))
  {
    assert Clauses(metricKey, resourceKey, [r]) == [KeyClause(metricKey, resourceKey.eval(r.data))];
  }

  // ---------------------------------------------------------------- index

  /** `index[key(t)] = t` for each series in turn. */
  function IndexSeries(index: Index, series: seq<Json>, metricKey: Path): Index
    decreases |series|
  {
    if |series| == 0 then index
    else
      var n := |series| - 1;
      IndexSeries(index, series[..n], metricKey)[metricKey.eval(series[n]) := series[n]]
  }

  /** The position of the last series whose key is `k`, or -1 when none has it. */
  function LastWithKey(series: seq<Json>, metricKey: Path, k: Option<string>): (j: int)
    ensures -1 <= j < |series|
    ensures j >= 0 ==> metricKey.eval(series[j]) == k
    ensures forall i :: j < i < |series| ==> metricKey.eval(series[i]) != k
    decreases |series|
  {
    if |series| == 0 then -1
    else
      var n := |series| - 1;
      if metricKey.eval(series[n]) == k then n else LastWithKey(series[..n], metricKey, k)
  }

  /** Indexing adds exactly the series' keys: a key is present afterwards iff it was before or some series has it. */
  lemma {:induction false} IndexKeys(index: Index, series: seq<Json>, metricKey: Path)
    ensures forall k :: k in IndexSeries(index, series, metricKey) <==> k in index || LastWithKey(series, metricKey, k) >= 0
    ensures forall i :: 0 <= i < |series| ==> metricKey.eval(series[i]) in IndexSeries(index, series, metricKey)
    decreases |series|
  {
    if |series| > 0 {
      var n := |series| - 1;
      IndexKeys(index, series[..n], metricKey);
      assert forall i :: 0 <= i < n ==> series[..n][i] == series[i];
    }
  }

  /** Each key holds the last series with that key; keys no series has keep their earlier value. */
  lemma {:induction false} IndexKeepsLast(index: Index, series: seq<Json>, metricKey: Path)
    ensures forall k :: k in IndexSeries(index, series, metricKey) ==>
              if LastWithKey(series, metricKey, k) >= 0
              then IndexSeries(index, series, metricKey)[k] == series[LastWithKey(series, metricKey, k)]
              else k in index && IndexSeries(index, series, metricKey)[k] == index[k]
    decreases |series|
  {
    if |series| > 0 {
      var n := |series| - 1;
      IndexKeepsLast(index, series[..n], metricKey);
    }
  }

  // ---------------------------------------------------------------- one resource

  /** `resource_metric_dict.get(key)`: the correlated series, or None (JNull). */
  function Correlate(index: Index, key: Option<string>): Json {
    if key in index then index[key] else JNull
  }

  /** `float(list(m["points"][0]["value"].values())[0])`. */
  function FirstPointValue(m: Json, parse: string -> Option<int>): Result<int> {
    var points :- Field(m, "points");
    var first :- Item(points, 0);
    var value :- Field(first, "value");
    var v :- FirstValue(value);
    AsNumber(v, parse)
  }

  /** The value compared against the threshold: `missing-value` when no series correlates or it is falsy. */
  function ObservedValue(metric: Json, missingValue: int, parse: string -> Option<int>): Result<int> {
    if !Truthy(metric) then Ok(missingValue) else FirstPointValue(metric, parse)
  }

  /**
   * A series whose `points` holds at least one point with a non-empty
   * `value` object is observed as the number of that object's first entry,
   * wherever `points` and `value` sit among their siblings.
   */
  lemma ObservedValueIsFirstPoint(fields: seq<(string, Json)>, points: seq<Json>, pointFields: seq<(string, Json)>,
                                  valueFields: seq<(string, Json)>, missingValue: int, parse: string -> Option<int>)
    requires Get(fields, "points") == Some(JArr(points)) && |points| > 0
    requires points[0] == JObj(pointFields) && Get(pointFields, "value") == Some(JObj(valueFields))
    requires |valueFields| > 0
    ensures ObservedValue(JObj(fields), missingValue, parse) == AsNumber(valueFields[0].1, parse)
    ensures valueFields[0].1.JNum? ==> ObservedValue(JObj(fields), missingValue, parse) == Ok(valueFields[0].1.n)
    ensures valueFields[0].1.JStr? && parse(valueFields[0].1.s).Some? ==>
              ObservedValue(JObj(fields), missingValue, parse) == Ok(parse(valueFields[0].1.s).value)
  {
    assert |fields| > 0;
  }

  /**
   * A truthy series without `points`, with an empty `points` list or with a
   * first point lacking `value` raises, so the comparison never sees it.
   */
  lemma MalformedSeriesRaises(fields: seq<(string, Json)>, points: seq<Json>, pointFields: seq<(string, Json)>,
                              missingValue: int, parse: string -> Option<int>)
    requires |fields| > 0
    ensures Get(fields, "points").None? ==>
              ObservedValue(JObj(fields), missingValue, parse) == Err(KeyError("points"))
    ensures Get(fields, "points") == Some(JArr([])) ==>
              ObservedValue(JObj(fields), missingValue, parse) == Err(IndexError)
    ensures Get(fields, "points") == Some(JArr(points)) && |points| > 0 && points[0] == JObj(pointFields)
            && Get(pointFields, "value").None? ==>
              ObservedValue(JObj(fields), missingValue, parse) == Err(KeyError("value"))
  {
  }

  /** Documentation examples: no series or `{}` gives `missing-value`; `{"points": []}` raises. */
  lemma ObservedValueCases(metric: Json, missingValue: int, parse: string -> Option<int>, rest: seq<(string, Json)>)
    ensures metric == JNull ==> ObservedValue(metric, missingValue, parse) == Ok(missingValue)
    ensures metric == JObj([]) ==> ObservedValue(metric, missingValue, parse) == Ok(missingValue)
    ensures metric == JObj([("points", JArr([]))] + rest) ==> ObservedValue(metric, missingValue, parse) == Err(IndexError)
  {
  }

  /** The annotation key: the metric name, aligner and reducer, dot-separated. */
  function CompositeKey(metric: string, aligner: string, reducer: string): string {
    metric + "." + aligner + "." + reducer
  }

  /** `c7n.metrics` after `setdefault` and the assignment of `record` under `key`. */
  function Annotate(before: Option<map<string, Json>>, key: string, record: Json): map<string, Json> {
    before.GetOr(map[])[key := record]
  }

  /**
   * The annotation creates `c7n.metrics` when absent, sets the one key to
   * the record and leaves every other key as it was.
   */
  lemma AnnotateSetsOneKey(before: Option<map<string, Json>>, key: string, record: Json)
    ensures Annotate(before, key, record).Keys == before.GetOr(map[]).Keys + {key}
    ensures Annotate(before, key, record)[key] == record
    ensures forall k :: k in before.GetOr(map[]) && k != key ==>
              Annotate(before, key, record)[k] == before.GetOr(map[])[k]
  {
  }

  /** Annotating again with the same configuration rewrites the same single key. */
  lemma AnnotateTwice(before: Option<map<string, Json>>, key: string, record: Json)
    ensures Annotate(Some(Annotate(before, key, record)), key, record) == Annotate(before, key, record)
  {
  }

  /** What `process_resource` returns for a resource with record `data`. */
  function Verdict(data: Json, index: Index, resourceKey: Path, missingValue: int,
                   op: (int, int) -> bool, value: int, parse: string -> Option<int>): Result<bool>
  {
    var observed :- ObservedValue(Correlate(index, resourceKey.eval(data)), missingValue, parse);
    Ok(op(observed, value))
  }

  /** A resource with no correlated series, or a falsy one, is judged on `missing-value`. */
  lemma UncorrelatedUsesMissingValue(data: Json, index: Index, resourceKey: Path, missingValue: int,
                                     op: (int, int) -> bool, value: int, parse: string -> Option<int>)
    requires resourceKey.eval(data) !in index || !Truthy(index[resourceKey.eval(data)])
    ensures Verdict(data, index, resourceKey, missingValue, op, value, parse) == Ok(op(missingValue, value))
  {
  }

  function Verdicts(rs: seq<Resource>, index: Index, resourceKey: Path, missingValue: int,
                    op: (int, int) -> bool, value: int, parse: string -> Option<int>): seq<Result<bool>>
  {
    seq(|rs|, i requires 0 <= i < |rs| => Verdict(rs[i].data, index, resourceKey, missingValue, op, value, parse))
  }

  /** The `c7n.metrics` entry of resource `r` once every resource in `done` has been annotated. */
  function AnnotatedIn(r: Resource, before: Option<map<string, Json>>, done: seq<Resource>,
                       key: string, index: Index, resourceKey: Path): Option<map<string, Json>>
  {
    if r in done then Some(Annotate(before, key, Correlate(index, resourceKey.eval(r.data)))) else before
  }

  /**
   * The `c7n.metrics` entry of resource `r` once the comprehension over `rs`
   * has processed the resources before position `k` and, when `k < |rs|`,
   * raised on `rs[k]` after its `setdefault`.
   */
  function MetricsAfter(r: Resource, before: Option<map<string, Json>>, rs: seq<Resource>, k: nat,
                        key: string, index: Index, resourceKey: Path): Option<map<string, Json>>
    requires k <= |rs|
  {
    if k < |rs| && r == rs[k] && r !in rs[..k] then Some(before.GetOr(map[]))
    else AnnotatedIn(r, before, rs[..k], key, index, resourceKey)
  }

  /** When no resource raises, every resource is annotated, whether or not it is kept. */
  lemma EveryResourceAnnotated(r: Resource, before: Option<map<string, Json>>, rs: seq<Resource>,
                               key: string, index: Index, resourceKey: Path)
    requires r in rs
    ensures MetricsAfter(r, before, rs, |rs|, key, index, resourceKey)
         == Some(Annotate(before, key, Correlate(index, resourceKey.eval(r.data))))
  {
    assert rs[..|rs|] == rs;
  }

  /** Annotating `r` after `done` annotates `r`, and no other resource; annotating again changes nothing. */
  lemma AnnotatedStep(x: Resource, before: Option<map<string, Json>>, done: seq<Resource>, r: Resource,
                      key: string, index: Index, resourceKey: Path)
    ensures AnnotatedIn(x, before, done + [r], key, index, resourceKey)
         == if x == r then Some(Annotate(AnnotatedIn(x, before, done, key, index, resourceKey), key, Correlate(index, resourceKey.eval(r.data))))
            else AnnotatedIn(x, before, done, key, index, resourceKey)
  {
    assert x in done + [r] <==> x in done || x == r;
    if x == r && x in done {
      AnnotateTwice(before, key, Correlate(index, resourceKey.eval(r.data)));
    }
  }

  /** `AnnotatedStep` for the prefix `rs[..i]` grown by `rs[i]`. */
  lemma AnnotatedNext(x: Resource, before: Option<map<string, Json>>, rs: seq<Resource>, i: nat,
                      key: string, index: Index, resourceKey: Path)
    requires i < |rs|
    ensures AnnotatedIn(x, before, rs[..i + 1], key, index, resourceKey)
         == if x == rs[i] then Some(Annotate(AnnotatedIn(x, before, rs[..i], key, index, resourceKey), key, Correlate(index, resourceKey.eval(rs[i].data))))
            else AnnotatedIn(x, before, rs[..i], key, index, resourceKey)
  {
    assert rs[..i + 1] == rs[..i] + [rs[i]];
    AnnotatedStep(x, before, rs[..i], rs[i], key, index, resourceKey);
  }

  /** When `rs[k]` raises, it keeps only the `setdefault` it made before raising. */
  lemma RaisedAt(x: Resource, before: Option<map<string, Json>>, rs: seq<Resource>, k: nat,
                 key: string, index: Index, resourceKey: Path)
    requires k < |rs|
    ensures MetricsAfter(x, before, rs, k, key, index, resourceKey)
         == if x == rs[k] then Some(AnnotatedIn(x, before, rs[..k], key, index, resourceKey).GetOr(map[]))
            else AnnotatedIn(x, before, rs[..k], key, index, resourceKey)
  {
  }

  // ---------------------------------------------------------------- the filter

  class MetricsFilter {
    const data: Config
    /** Python's `float()` of a numeric string, abstract. */
    const parseNumber: string -> Option<int>
    var metric: string
    var resourceKey: Path
    var metricKey: Path
    var aligner: string
    var reducer: string
    var groupByFields: seq<string>
    var missingValue: int
    var resourceMetricDict: Index
    var op: (int, int) -> bool
    var value: int

    constructor (data: Config, parseNumber: string -> Option<int>)
      ensures this.data == data && this.parseNumber == parseNumber && resourceMetricDict == map[]
    {
      this.data := data;
      this.parseNumber := parseNumber;
      metric := data.name;
      resourceKey := Path("", (j: Json) => None);
      metricKey := Path("", (j: Json) => None);
      aligner := DefaultAligner;
      reducer := DefaultReducer;
      groupByFields := [];
      missingValue := DefaultMissingValue;
      resourceMetricDict := map[];
      op := LessThan;
      value := data.value;
    }

    /** Appends one clause per resource followed by " OR ", then trims the last " OR " with rsplit. */
    method GetQueryFilter(resources: seq<Resource>) returns (filter: string)
      ensures filter == QueryFilter(metric, metricKey.text, resourceKey, resources)
    {
      var prefix := QueryPrefix(metric);
      filter := prefix;
      for i := 0 to |resources|
        invariant filter == prefix + Terminated(Clauses(metricKey.text, resourceKey, resources[..i]), Separator)
      {
        var clause := KeyClause(metricKey.text, resourceKey.eval(resources[i].data));
        ghost var done := Clauses(metricKey.text, resourceKey, resources[..i]);
        assert Clauses(metricKey.text, resourceKey, resources[..i + 1]) == done + [clause];
        assert (done + [clause])[..i] == done;
        filter := filter + clause + Separator;
      }
      assert resources[..|resources|] == resources;
      if |resources| > 0 {
        var joined := Join(Clauses(metricKey.text, resourceKey, resources), Separator);
        TerminatedIsJoined(Clauses(metricKey.text, resourceKey, resources), Separator);
        assert filter == (prefix + joined) + Separator;
        RSplitDropsTrailing(prefix + joined, Separator);
      }
      filter := RSplitHead(filter, Separator);
    }

    /** Stores each series under its metric key; a later series with the same key replaces an earlier one. */
    method SplitByResource(metricList: seq<Json>)
      modifies this`resourceMetricDict
      ensures resourceMetricDict == IndexSeries(old(resourceMetricDict), metricList, metricKey)
    {
      for i := 0 to |metricList|
        invariant resourceMetricDict == IndexSeries(old(resourceMetricDict), metricList[..i], metricKey)
      {
        assert metricList[..i + 1][..i] == metricList[..i];
        resourceMetricDict := resourceMetricDict[metricKey.eval(metricList[i]) := metricList[i]];
      }
      assert metricList[..|metricList|] == metricList;
    }

    /**
     * Creates `c7n.metrics` if absent, reads the observed value, stores the
     * correlated series (or None) under the composite key, and compares.
     * A malformed series raises after the `setdefault` and before the store.
     */
    method ProcessResource(resource: Resource) returns (matched: Result<bool>)
      modifies resource`metrics
      ensures matched == Verdict(resource.data, resourceMetricDict, resourceKey, missingValue, op, value, parseNumber)
      ensures resource.metrics
           == if matched.Ok?
              then Some(Annotate(old(resource.metrics), CompositeKey(metric, aligner, reducer),
                                 Correlate(resourceMetricDict, resourceKey.eval(resource.data))))
              else Some(old(resource.metrics).GetOr(map[]))
    {
      var resourceMetric := resource.metrics.GetOr(map[]);
      resource.metrics := Some(resourceMetric);
      var resourceName := resourceKey.eval(resource.data);
      var series := Correlate(resourceMetricDict, resourceName);
      var observed := ObservedValue(series, missingValue, parseNumber);
      if observed.Err? {
        return Err(observed.error);
      }
      var key := CompositeKey(metric, aligner, reducer);
      resource.metrics := Some(resourceMetric[key := series]);
      matched := Ok(op(observed.value, value));
    }

    /**
     * One step of the comprehension: processes `resources[i]`, which either
     * annotates it (a resource already annotated stays as it is) or raises
     * after its `setdefault`.
     */
    method ProcessNext(resources: seq<Resource>, i: nat, ghost before: seq<Option<map<string, Json>>>)
      returns (ok: Result<bool>)
      requires i < |resources| == |before|
      requires forall j :: 0 <= j < |resources| ==>
                 resources[j].metrics
                 == AnnotatedIn(resources[j], before[j], resources[..i], CompositeKey(metric, aligner, reducer), resourceMetricDict, resourceKey)
      modifies {resources[i]}`metrics
      ensures ok == Verdict(resources[i].data, resourceMetricDict, resourceKey, missingValue, op, value, parseNumber)
      ensures ok.Ok? ==> forall j :: 0 <= j < |resources| ==>
                resources[j].metrics
                == AnnotatedIn(resources[j], before[j], resources[..i + 1], CompositeKey(metric, aligner, reducer), resourceMetricDict, resourceKey)
      ensures ok.Err? ==> forall j :: 0 <= j < |resources| ==>
                resources[j].metrics
                == MetricsAfter(resources[j], before[j], resources, i, CompositeKey(metric, aligner, reducer), resourceMetricDict, resourceKey)
    {
      ghost var key := CompositeKey(metric, aligner, reducer);
      ok := ProcessResource(resources[i]);
      if ok.Err? {
        forall j | 0 <= j < |resources|
          ensures resources[j].metrics == MetricsAfter(resources[j], before[j], resources, i, key, resourceMetricDict, resourceKey)
        {
          RaisedAt(resources[j], before[j], resources, i, key, resourceMetricDict, resourceKey);
        }
      } else {
        forall j | 0 <= j < |resources|
          ensures resources[j].metrics == AnnotatedIn(resources[j], before[j], resources[..i + 1], key, resourceMetricDict, resourceKey)
        {
          AnnotatedNext(resources[j], before[j], resources, i, key, resourceMetricDict, resourceKey);
        }
      }
    }

    /** `[r for r in resources if self.process_resource(r)]`. */
    method FilterResources(resources: seq<Resource>) returns (res: Result<seq<Resource>>)
      modifies resources`metrics
      ensures res == Keep(resources, Verdicts(resources, resourceMetricDict, resourceKey, missingValue, op, value, parseNumber))
      ensures forall i :: 0 <= i < |resources| ==>
                resources[i].metrics
                == MetricsAfter(resources[i], old(resources[i].metrics), resources,
                                FirstFailure(Verdicts(resources, resourceMetricDict, resourceKey, missingValue, op, value, parseNumber)),
                                CompositeKey(metric, aligner, reducer), resourceMetricDict, resourceKey)
    {
      ghost var vs := Verdicts(resources, resourceMetricDict, resourceKey, missingValue, op, value, parseNumber);
      ghost var before := seq(|resources|, j reads resources requires 0 <= j < |resources| => resources[j].metrics);
      var matched: seq<Resource> := [];
      var i := 0;
      while i < |resources|
        invariant 0 <= i <= |resources|
        invariant Keep(resources[..i], vs[..i]) == Ok(matched)
        invariant forall j :: 0 <= j < |resources| ==>
                    resources[j].metrics
                    == AnnotatedIn(resources[j], before[j], resources[..i], CompositeKey(metric, aligner, reducer), resourceMetricDict, resourceKey)
      {
        var ok := ProcessNext(resources, i, before);
        if ok.Err? {
          KeepFailsAt(resources, vs, i, matched);
          return Err(ok.error);
        }
        KeepStep(resources, vs, i, matched);
        if ok.value {
          matched := matched + [resources[i]];
        }
        i := i + 1;
      }
      KeepAll(resources, vs, matched);
      res := Ok(matched);
    }

    /** Both keys are configured and every option holds its policy value or its default. */
    ghost predicate OptionsRead()
      reads this
    {
      && data.resourceKey.Some? && data.metricKey.Some?
      && resourceKey == data.resourceKey.value
      && metricKey == data.metricKey.value
      && aligner == data.aligner.GetOr(DefaultAligner)
      && reducer == data.reducer.GetOr(DefaultReducer)
      && groupByFields == data.groupByFields.GetOr([])
      && missingValue == data.missingValue.GetOr(DefaultMissingValue)
      && op == data.op.GetOr(LessThan)
      && value == data.value
    }

    /**
     * A missing `resource-key` or `metric-key` raises before the options
     * after it are stored: those, and the index, keep their earlier values.
     */
    twostate predicate OptionsKept()
      reads this
    {
      && (data.resourceKey.None? ==> resourceKey == old(resourceKey))
      && metricKey == old(metricKey)
      && aligner == old(aligner)
      && reducer == old(reducer)
      && groupByFields == old(groupByFields)
      && missingValue == old(missingValue)
      && resourceMetricDict == old(resourceMetricDict)
      && op == old(op)
      && value == old(value)
    }

    /**
     * The configuration reads at the start of `process`, with their defaults;
     * `resource-key` and `metric-key` are indexed, so a missing one raises.
     * `days` is a local of `process` that only sizes the time window.
     */
    method Configure() returns (days: int, status: Outcome)
      modifies this
      ensures days == data.days.GetOr(DefaultDays) && metric == data.name
      ensures data.resourceKey.None? ==> status == Fail(KeyError("resource-key"))
      ensures data.resourceKey.Some? && data.metricKey.None? ==> status == Fail(KeyError("metric-key"))
      ensures data.resourceKey.None? || data.metricKey.None? ==> OptionsKept()
      ensures data.resourceKey.Some? ==> resourceKey == data.resourceKey.value
      ensures data.resourceKey.Some? && data.metricKey.Some? ==>
                status == Pass && OptionsRead() && resourceMetricDict == map[]
    {
      days := data.days.GetOr(DefaultDays);
      metric := data.name;
      if data.resourceKey.None? {
        status := Fail(KeyError("resource-key"));
        return;
      }
      resourceKey := data.resourceKey.value;
      if data.metricKey.None? {
        status := Fail(KeyError("metric-key"));
        return;
      }
      metricKey := data.metricKey.value;
      ReadOptions();
      status := Pass;
    }

    /** The options read with `.get`, each with its default; the index is reset. */
    method ReadOptions()
      modifies this`aligner, this`reducer, this`groupByFields, this`missingValue, this`resourceMetricDict, this`op, this`value
      ensures && aligner == data.aligner.GetOr(DefaultAligner)
              && reducer == data.reducer.GetOr(DefaultReducer)
              && groupByFields == data.groupByFields.GetOr([])
              && missingValue == data.missingValue.GetOr(DefaultMissingValue)
              && resourceMetricDict == map[]
              && op == data.op.GetOr(LessThan)
              && value == data.value
    {
      aligner := data.aligner.GetOr(DefaultAligner);
      reducer := data.reducer.GetOr(DefaultReducer);
      groupByFields := data.groupByFields.GetOr([]);
      missingValue := data.missingValue.GetOr(DefaultMissingValue);
      resourceMetricDict := map[];
      op := data.op.GetOr(LessThan);
      value := data.value;
    }

    /**
     * Reads the configuration, resets the index, builds the query filter,
     * indexes the fetched series (the list under `timeSeries`, None when the
     * response has no such key) and filters the resources.
     */
    method Process(resources: seq<Resource>, timeSeries: Option<seq<Json>>)
      returns (query: Option<string>, res: Result<seq<Resource>>)
      modifies this, resources`metrics
      ensures metric == data.name
      ensures data.resourceKey.None? ==> query == None && res == Err(KeyError("resource-key"))
      ensures data.resourceKey.Some? && data.metricKey.None? ==> query == None && res == Err(KeyError("metric-key"))
      ensures data.resourceKey.None? || data.metricKey.None? ==> OptionsKept()
      ensures data.resourceKey.Some? ==> resourceKey == data.resourceKey.value
      ensures data.resourceKey.Some? && data.metricKey.Some? ==>
                OptionsRead() && query == Some(QueryFilter(metric, metricKey.text, resourceKey, resources))
      ensures query.Some? && timeSeries.None? ==>
                res == Err(KeyError("timeSeries")) && resourceMetricDict == map[]
      ensures query.None? || timeSeries.None? ==>
                forall i :: 0 <= i < |resources| ==> resources[i].metrics == old(resources[i].metrics)
      ensures query.Some? && timeSeries.Some? ==>
                && resourceMetricDict == IndexSeries(map[], timeSeries.value, metricKey)
                && res == Keep(resources, Verdicts(resources, resourceMetricDict, resourceKey, missingValue, op, value, parseNumber))
                && forall i :: 0 <= i < |resources| ==>
                     resources[i].metrics
                     == MetricsAfter(resources[i], old(resources[i].metrics), resources,
                                     FirstFailure(Verdicts(resources, resourceMetricDict, resourceKey, missingValue, op, value, parseNumber)),
                                     CompositeKey(metric, aligner, reducer), resourceMetricDict, resourceKey)
    {
      var days, status := Configure();
      if status.Fail? {
        return None, Err(status.error);
      }
      var filter := GetQueryFilter(resources);
      query := Some(filter);
      if timeSeries.None? {
        return query, Err(KeyError("timeSeries"));
      }
      SplitByResource(timeSeries.value);
      res := FilterResources(resources);
    }
  }
}
