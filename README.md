# GCP metrics and Security Command Center findings filters

A Dafny model of two Cloud Custodian filters for Google Cloud resources.
Both filters follow the same pattern:

1. build a server-side query filter string from the resource list;
2. group the fetched remote records in a dictionary by a correlation key;
3. annotate every resource in place;
4. keep the resources that pass a test, in input order.

- **`metrics`** (`GCPMetricsFilter`, module `Metrics`):
  - Builds `metric.type = "<name>" AND k = "v1" OR k = "v2" ...`. It appends one clause and one `" OR "` per resource, then trims the last `" OR "` with `rsplit`.
  - Indexes the fetched time series by their `metric-key`. If two series share a key, the last one wins.
  - Stores the correlated series under `c7n.metrics["<name>.<aligner>.<reducer>"]`.
  - Keeps a resource when `op(observed, value)` holds. The observed value is the first value of the first point, or `missing-value` when nothing correlates.
- **`scc-findings`** (`SecurityComandCenterFindingsFilter`, module `SccFindings`):
  - Builds `resourceName:"a" OR resourceName:"b" ...` with a list that it appends to, pops and joins.
  - Groups the findings by the last `/` segment of `finding.resourceName`, in fetch order.
  - Extends every resource's `c7n.findings` with its group.
  - Without a `key`, keeps a resource exactly when its group is non-empty. With a `key`, it applies the inherited value match to the group.

Modules:

- `Outcomes`: Option, Result, and the Python exceptions (`KeyError`, `IndexError`, `TypeError`, `AttributeError`, `ValueError`) that the code can raise. Each exception becomes an `Err`.
- `Json`: decoded records and the Python operations applied to them: truthiness, `d[k]`, `l[0]`, `list(d.values())[0]` and `float(x)`.
- `Text`: `sep.join`, `rsplit(sep, 1)[0]`, `''.join` and `split('/')[-1]`.
- `Comprehension`: `[r for r in resources if test(r)]` when `test` may raise.
- `Resources`:
  - A `class Resource` with a constant record.
  - Two mutable annotation fields, `c7n.metrics` and `c7n.findings`.
- `Metrics`, `SccFindings`: a class per filter.
  - Each class has the fields its methods update, and methods with loops.
  - Each method is proved against a specification function.
  - Lemmas state the properties of those functions.

The same resource object may occur in the list more than once, and the model keeps that aliasing:

- A second metrics annotation rewrites the same key (`AnnotateTwice`).
- A findings entry is extended once for each occurrence (`Count`).

How the query filters behave at their boundaries:

- **One resource:** the metrics query filter is well formed. `rsplit` works from the right, so it removes exactly the one trailing `" OR "` (`OneResourceQuery`).
- **Zero resources, metrics:** the filter is the bare prefix with its dangling `" AND "` (`EmptyQueryIsPrefix`). The exception is a metric name that itself contains `" OR "`: then `rsplit` cuts inside the name.
- **Zero resources, findings:** building the filter raises `IndexError` from `pop` on an empty list.

## Model

| member | source | states |
|---|---|---|
| Metrics.MetricsFilter.GetQueryFilter | tools/c7n_gcp/c7n_gcp/filters/metrics.py:138-145 | The append-then-`rsplit` loop yields `QueryFilter`: the prefix followed by the clauses joined by " OR " (any number of resources ≥ 1), or what `rsplit` leaves of the prefix |
| Metrics.QueryEndsWithLastClause | tools/c7n_gcp/c7n_gcp/filters/metrics.py:138-145 | With at least one resource, the filter starts with `metric.type = "<name>" AND ` and ends with the last resource's clause, so no " OR " dangles |
| Metrics.OneResourceQuery | tools/c7n_gcp/c7n_gcp/filters/metrics.py:139-144 | With one resource, the filter is the prefix followed by that resource's clause |
| Metrics.EmptyQueryIsPrefix | tools/c7n_gcp/c7n_gcp/filters/metrics.py:139-144 | With zero resources, and a metric name without " OR ", the filter is the bare prefix with its trailing " AND " |
| Metrics.MetricsFilter.SplitByResource | tools/c7n_gcp/c7n_gcp/filters/metrics.py:147-150 | The loop stores each series under its key: the index becomes `IndexSeries` of the old index and the series |
| Metrics.LastWithKey | tools/c7n_gcp/c7n_gcp/filters/metrics.py:147-150 | The position of the last series with a key, or -1, and no later series has that key |
| Metrics.IndexKeys | tools/c7n_gcp/c7n_gcp/filters/metrics.py:147-150 | A key is in the index afterwards iff it was before or some series has it; every series' key is present |
| Metrics.IndexKeepsLast | tools/c7n_gcp/c7n_gcp/filters/metrics.py:147-150 | Each key maps to the last series in input order with that key; other keys keep their earlier value (last write wins) |
| Metrics.MetricsFilter.ProcessResource | tools/c7n_gcp/c7n_gcp/filters/metrics.py:152-166 | Returns `Verdict`. On success `c7n.metrics` is created if absent and the composite key is set to the correlated series (JNull when none). A malformed series raises after `setdefault`, which leaves `{}` or the old map |
| Metrics.ObservedValueIsFirstPoint | tools/c7n_gcp/c7n_gcp/filters/metrics.py:156-160 | For any series whose `points` list is non-empty and whose first point has a non-empty `value` object, wherever those keys sit, the observed value is `float()` of that object's first entry: the number itself, or the parsed numeric string |
| Metrics.MalformedSeriesRaises | tools/c7n_gcp/c7n_gcp/filters/metrics.py:157-160 | A truthy series without `points` raises KeyError('points'); an empty `points` raises IndexError; a first point without `value` raises KeyError('value') |
| Metrics.ObservedValueCases | tools/c7n_gcp/c7n_gcp/filters/metrics.py:156-160 | Examples: no series or `{}` gives `missing-value`; `{"points": []}` followed by any entries raises IndexError |
| Metrics.UncorrelatedUsesMissingValue | tools/c7n_gcp/c7n_gcp/filters/metrics.py:156-158 | A resource with no correlated series, or a falsy one, is judged as `op(missing-value, value)` |
| Metrics.AnnotateSetsOneKey | tools/c7n_gcp/c7n_gcp/filters/metrics.py:153-163 | The annotation's key set is the old keys plus the composite key; that key holds the record; every other key is unchanged |
| Metrics.AnnotateTwice | tools/c7n_gcp/c7n_gcp/filters/metrics.py:162-163 | Annotating again with the same configuration overwrites the one key and changes nothing else |
| Metrics.AnnotatedStep | tools/c7n_gcp/c7n_gcp/filters/metrics.py:134 | Processing one more resource annotates that resource and leaves every other resource as it was |
| Metrics.RaisedAt | tools/c7n_gcp/c7n_gcp/filters/metrics.py:134-160 | When resource k raises, it keeps only its `setdefault`; all others hold what the earlier resources left |
| Metrics.EveryResourceAnnotated | tools/c7n_gcp/c7n_gcp/filters/metrics.py:134-163 | When nothing raises, every input resource is annotated, whether or not it is kept |
| Metrics.MetricsFilter.FilterResources | tools/c7n_gcp/c7n_gcp/filters/metrics.py:134 | The comprehension returns `Keep` of the resources and their verdicts (order-preserving, first exception wins); each resource's `c7n.metrics` is `MetricsAfter` the first failure |
| Metrics.MetricsFilter.ProcessNext | tools/c7n_gcp/c7n_gcp/filters/metrics.py:134 | One step of the comprehension extends the annotated prefix by one resource, or leaves the raising resource with only its `setdefault` |
| Metrics.MetricsFilter.Configure | tools/c7n_gcp/c7n_gcp/filters/metrics.py:101-116 | Configuration reads: days defaults to 14; a missing `resource-key` or `metric-key` raises KeyError; defaults are `ALIGN_NONE`, `REDUCE_NONE`, `[]`, 0 and less-than; the index is reset. On a KeyError the options after it and the index keep their earlier values (`OptionsKept`); a configured `resource-key` is stored even when `metric-key` then raises |
| Metrics.MetricsFilter.ReadOptions | tools/c7n_gcp/c7n_gcp/filters/metrics.py:107-116 | The `.get` options take their defaults when absent, and the index is reset to empty |
| Metrics.MetricsFilter.Process | tools/c7n_gcp/c7n_gcp/filters/metrics.py:100-136 | Only `c7n.metrics` of the resources may change. A configuration KeyError keeps the later options and the index as they were, and a configured `resource-key` is stored either way. Configuration errors or a response without `timeSeries` leave every resource's `c7n.metrics` untouched. Otherwise the index is exactly `IndexSeries(map[], series)`, so nothing carries over from an earlier run, and the result and annotations are those of `FilterResources` |
| Comprehension.KeepRaisesFirst | tools/c7n_gcp/c7n_gcp/filters/metrics.py:134 | The comprehension succeeds exactly when no test raises, and otherwise raises the first test's exception |
| Comprehension.KeepSelects | tools/c7n_gcp/c7n_gcp/filters/sccfindings.py:51 | A successful comprehension is the subsequence of the input, in order, at exactly the positions whose test returned true |
| Comprehension.FirstFailure | tools/c7n_gcp/c7n_gcp/filters/sccfindings.py:51 | The first position whose test raised, or the length; every earlier test succeeded |
| Comprehension.Passing | tools/c7n_gcp/c7n_gcp/filters/metrics.py:134 | The ascending positions whose test returned true, and all of them |
| Comprehension.KeepFailsAt | tools/c7n_gcp/c7n_gcp/filters/sccfindings.py:51 | A test that raises after a successful prefix ends the whole comprehension with its exception |
| Text.TerminatedIsJoined | tools/c7n_gcp/c7n_gcp/filters/metrics.py:141-143 | Appending `item + sep` for every item gives the join followed by one trailing separator |
| Text.RSplitDropsTrailing | tools/c7n_gcp/c7n_gcp/filters/metrics.py:144 | `rsplit(sep, 1)[0]` removes exactly a trailing separator |
| Text.RSplitWithoutSeparator | tools/c7n_gcp/c7n_gcp/filters/metrics.py:144 | Without a separator in it, `rsplit(sep, 1)[0]` returns the text unchanged |
| Text.LastOccurrence | tools/c7n_gcp/c7n_gcp/filters/metrics.py:144 | The right-most occurrence of the separator at or before a position, and none lies after it |
| Text.JoinEnds | tools/c7n_gcp/c7n_gcp/filters/sccfindings.py:60-62 | A join starts with the first item and ends with the last: there is no leading or trailing separator |
| Text.ConcatSeparated | tools/c7n_gcp/c7n_gcp/filters/sccfindings.py:57-59 | The append loop's list has two entries per resource, and joining it gives every item followed by the separator |
| Text.PoppedSeparatedIsJoined | tools/c7n_gcp/c7n_gcp/filters/sccfindings.py:60-62 | Popping the last separator and concatenating gives the items joined by the separator |
| Text.LastSegmentIsSuffix | tools/c7n_gcp/c7n_gcp/filters/sccfindings.py:66 | `split('/')[-1]` is the longest suffix without '/', and a '/' precedes it unless it is the whole string |
| Json.GetFinds | tools/c7n_gcp/c7n_gcp/filters/sccfindings.py:66 | A dict lookup finds the first entry with the key, and finds nothing exactly when no entry has it |
| SccFindings.NameClauses | tools/c7n_gcp/c7n_gcp/filters/sccfindings.py:57-58 | One clause per resource, in order, iff every resource has the name field; otherwise KeyError of the name field |
| SccFindings.FindingsFilter.GetResourceFilter | tools/c7n_gcp/c7n_gcp/filters/sccfindings.py:55-62 | The append/pop/join loop yields `ResourceFilter`: the clauses joined by " OR ", KeyError for a resource without a name, IndexError for no resources |
| SccFindings.FilterFromClauses | tools/c7n_gcp/c7n_gcp/filters/sccfindings.py:56-62 | Popping the last " OR " and joining gives the filter, and an empty list gives IndexError |
| SccFindings.FilterRaisesAt | tools/c7n_gcp/c7n_gcp/filters/sccfindings.py:58 | A resource without the name field makes building the filter raise KeyError |
| SccFindings.FilterEndsWithLastClause | tools/c7n_gcp/c7n_gcp/filters/sccfindings.py:55-62 | A filter that builds has at least one resource, starts with the first clause and ends with the last one |
| SccFindings.OneResourceFilter | tools/c7n_gcp/c7n_gcp/filters/sccfindings.py:55-62 | With one resource, the filter is exactly its clause |
| SccFindings.GroupInto | tools/c7n_gcp/c7n_gcp/filters/sccfindings.py:64-69 | Grouping succeeds iff every finding's key can be read |
| SccFindings.FindingsFilter.SplitByResource | tools/c7n_gcp/c7n_gcp/filters/sccfindings.py:64-69 | The loop appends each finding to its key's group: it passes iff `GroupInto` succeeds, with `GroupInto`'s groups or its exception; on failure the index holds the groups of the findings before the first one whose key cannot be read |
| SccFindings.GroupRaisesAt | tools/c7n_gcp/c7n_gcp/filters/sccfindings.py:66 | A finding whose key cannot be read makes grouping raise its exception, whatever follows |
| SccFindings.GroupKeepsFetchOrder | tools/c7n_gcp/c7n_gcp/filters/sccfindings.py:64-69 | Each group is its earlier contents followed by the findings with that key, in fetch order |
| SccFindings.GroupKeys | tools/c7n_gcp/c7n_gcp/filters/sccfindings.py:64-69 | After grouping, the keys are exactly the earlier keys and the findings' keys |
| SccFindings.GroupCountsEveryFinding | tools/c7n_gcp/c7n_gcp/filters/sccfindings.py:64-69 | Over distinct keys covering every finding, the group lengths grow by exactly the number of findings: none is lost or duplicated |
| SccFindings.TotalOverAdd | tools/c7n_gcp/c7n_gcp/filters/sccfindings.py:67-69 | Appending one finding under a key grows the total over the keys by one exactly when the key is among them |
| SccFindings.NoFindingsKeepsNone | tools/c7n_gcp/c7n_gcp/filters/sccfindings.py:46-77 | A missing or empty result list groups to `{}`, every named resource correlates to `[]` and, without a `key`, is dropped |
| SccFindings.ExistenceTest | tools/c7n_gcp/c7n_gcp/filters/sccfindings.py:76-77 | Without a `key`, a named resource is kept exactly when its group is non-empty |
| SccFindings.FindingsFilter.ProcessResource | tools/c7n_gcp/c7n_gcp/filters/sccfindings.py:71-79 | Returns `Verdict`. On success `c7n.findings` is created if absent and extended by the group (`[]` when none); a resource without the name field raises KeyError before any change |
| SccFindings.ExtendedKeepsEarlier | tools/c7n_gcp/c7n_gcp/filters/sccfindings.py:74 | Extending keeps the earlier entries in place and the new length is the old length plus the group's length for each extension |
| SccFindings.ExtendOnce | tools/c7n_gcp/c7n_gcp/filters/sccfindings.py:74 | One more `extend` appends the group once more |
| SccFindings.ExtendedByStep | tools/c7n_gcp/c7n_gcp/filters/sccfindings.py:51-74 | Processing one more resource extends that resource's entry by its group and no other resource's |
| SccFindings.CountPositive | tools/c7n_gcp/c7n_gcp/filters/sccfindings.py:51 | A resource in the list occurs at least once |
| SccFindings.EveryResourceExtended | tools/c7n_gcp/c7n_gcp/filters/sccfindings.py:51-74 | When nothing raises, every resource's entry exists, keeps its earlier findings in place and grows by its group once per occurrence, whether or not it is kept |
| SccFindings.FindingsFilter.ProcessNext | tools/c7n_gcp/c7n_gcp/filters/sccfindings.py:51 | One step of the comprehension extends the processed prefix by one resource, or changes nothing when it raises |
| SccFindings.FindingsFilter.FilterResources | tools/c7n_gcp/c7n_gcp/filters/sccfindings.py:51 | The comprehension returns `Keep` of the resources and their verdicts; each resource's `c7n.findings` is `FindingsAfter` the first failure |
| SccFindings.FindingsFilter.Process | tools/c7n_gcp/c7n_gcp/filters/sccfindings.py:33-53 | The groups are reset and the query filter is `ResourceFilter`. A filter or grouping error leaves every resource untouched; after a grouping error the groups are those of the findings before the first bad one. Otherwise the groups are exactly `GroupInto({}, Normalised(results))`, and the result and annotations are those of `FilterResources` |

## Left out

- API sessions, clients, the project lookup and `execute_query`:
  - These are network I/O.
  - The query filter is returned.
  - The fetched list (`timeSeries` / `listFindingsResults`) is a parameter, with None when the response lacks the key.
- Metrics.MetricsFilter.Configure: the clock reads and the time window (`end`, `start`, `period`) are not modelled; only `days` is returned.
- Metrics.FirstPointValue: metric values are integers, not IEEE floats. Python's reading of a numeric string is an abstract `parseNumber` given to the filter: a string it reads gives its number, and any other string raises ValueError. A point value with a fractional part is outside the model.
- jmespath, and the resource type's name field:
  - Both are an abstract path with its text and an evaluation `record -> Option<string>`.
  - Paths are evaluated on the resource's fetched record. The metrics filter evaluates `resource-key` after `setdefault('c7n.metrics')`, so a path that reads the annotation itself would see it. The model does not capture that.
- `OPERATORS[op]` is an abstract binary predicate on integers, defaulting to less-than. An unknown operator name is rejected by the schema, which is not modelled.
- `ValueFilter.match` is inherited code that is not part of this model. It is an abstract predicate on a resource's findings, and `key` only decides whether it is used.
- The schema declarations, the aligner and reducer enum lists, and the registry subscription are host-side validation and wiring.
- `self.data['org']` only forms the request's parent path (I/O).
- Metrics.MetricsFilter.Process: a required `name` or `value` that is missing is not modelled, because the model's configuration always has both.
- JSON objects with duplicate keys: Python's `json.loads` keeps the last of them, but the model's lookup finds the first entry. So records with duplicate keys are not modelled faithfully.
- Json.Item: on an object, Python raises KeyError with the integer key 0; the model's KeyError carries the text "0".
