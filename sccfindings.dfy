/**
 * The Security Command Center findings filter: it builds the
 * `resourceName:"..."` query filter from the resources, groups the fetched
 * findings by the last segment of their resource name (fetch order kept
 * within each group), extends every resource's `c7n.findings` with its
 * group, and keeps the resources whose group is non-empty (or that pass
 * the configured match when a `key` is set).
 */
module SccFindings {
  import opened Outcomes
  import opened Json
  import opened Text
  import opened Comprehension
  import opened Resources

  /**
   * The filter's policy entry as far as this filter reads it: `key` (absent,
   * or empty, means an existence test) and the inherited value match,
   * abstracted as a predicate on a resource's findings.
   */
  datatype Config = Config(key: Option<string>, matcher: seq<Json> -> bool)

  /** Findings by short resource name. */
  type Groups = map<string, seq<Json>>

  // ---------------------------------------------------------------- query filter

  function ResourceClause(name: string): string {
    "resourceName:\"" + name + "\""
  }

  /** One clause per resource, in order, or the KeyError of a resource without the name field. */
  function NameClauses(rs: seq<Resource>, nameField: Path): (r: Result<seq<string>>)
    ensures r.Ok? <==> forall i :: 0 <= i < |rs| ==> nameField.eval(rs[i].data).Some?
    ensures r.Ok? ==> |r.value| == |rs|
    ensures r.Ok? ==> forall i :: 0 <= i < |rs| ==> r.value[i] == ResourceClause(nameField.eval(rs[i].data).value)
    ensures r.Err? ==> r.error == KeyError(nameField.text)
    decreases |rs|
  {
    if |rs| == 0 then Ok([])
    else
      var n := |rs| - 1;
      var init :- NameClauses(rs[..n], nameField);
      match nameField.eval(rs[n].data)
      case None => Err(KeyError(nameField.text))
      case Some(name) => Ok(init + [ResourceClause(name)])
  }

  /**
   * The query filter: the resources' clauses joined by " OR ". A resource
   * without the name field raises KeyError; no resources at all raise
   * IndexError (the `pop` of an empty list).
   */
  function ResourceFilter(rs: seq<Resource>, nameField: Path): Result<string> {
    var clauses :- NameClauses(rs, nameField);
    if |clauses| == 0 then Err(IndexError) else Ok(Join(clauses, Separator))
  }

  /** One more resource through the append loop of the filter. */
  lemma ClausesStep(rs: seq<Resource>, nameField: Path, i: nat, clauses: seq<string>, sep: string)
    requires i < |rs| && nameField.eval(rs[i].data).Some?
    requires NameClauses(rs[..i], nameField) == Ok(clauses)
    ensures NameClauses(rs[..i + 1], nameField) == Ok(clauses + [ResourceClause(nameField.eval(rs[i].data).value)])
    ensures Separated(clauses + [ResourceClause(nameField.eval(rs[i].data).value)], sep)
         == Separated(clauses, sep) + [ResourceClause(nameField.eval(rs[i].data).value), sep]
  {
    assert rs[..i + 1][..i] == rs[..i];
    var c := ResourceClause(nameField.eval(rs[i].data).value);
    assert (clauses + [c])[..|clauses|] == clauses;
  }

  /** A resource without the name field makes the filter raise KeyError. */
  lemma FilterRaisesAt(rs: seq<Resource>, nameField: Path, i: nat)
    requires i < |rs| && nameField.eval(rs[i].data).None?
    ensures ResourceFilter(rs, nameField) == Err(KeyError(nameField.text))
  {
    assert NameClauses(rs, nameField).Err?;
  }

  /** Popping the last separator off the appended list and joining gives the filter, or IndexError when empty. */
  lemma FilterFromClauses(rs: seq<Resource>, nameField: Path, clauses: seq<string>)
    requires NameClauses(rs[..|rs|], nameField) == Ok(clauses)
    ensures |Separated(clauses, Separator)| == 2 * |clauses|
    ensures |clauses| == 0 ==> ResourceFilter(rs, nameField) == Err(IndexError)
    ensures |clauses| > 0 ==>
              ResourceFilter(rs, nameField) == Ok(Concat(Separated(clauses, Separator)[..2 * |clauses| - 1]))
  {
    assert rs[..|rs|] == rs;
    ConcatSeparated(clauses, Separator);
    if |clauses| > 0 {
      PoppedSeparatedIsJoined(clauses, Separator);
    }
  }

  /**
   * A filter that builds is the first resource's clause through the last
   * one's: `pop` leaves no trailing " OR ".
   */
  lemma FilterEndsWithLastClause(rs: seq<Resource>, nameField: Path)
    requires ResourceFilter(rs, nameField).Ok?
    ensures |rs| > 0
    ensures var f := ResourceFilter(rs, nameField).value;
            var first := ResourceClause(nameField.eval(rs[0].data).value);
            var last := ResourceClause(nameField.eval(rs[|rs| - 1].data).value);
            && |f| >= |first| && f[..|first|] == first
            && |f| >= |last| && f[|f| - |last|..] == last
  {
    JoinEnds(NameClauses(rs, nameField).value, Separator);
  }

  /** With one resource the filter is exactly its clause. */
  lemma OneResourceFilter(r: Resource, nameField: Path)
    requires nameField.eval(r.data).Some?
    ensures ResourceFilter([r], nameField) == Ok(ResourceClause(nameField.eval(r.data).value))
  {
  }

  // ---------------------------------------------------------------- grouping

  /** `f["finding"]["resourceName"].split('/')[-1]`. */
  function FindingKey(f: Json): Result<string> {
    var finding :- Field(f, "finding");
    var name :- Field(finding, "resourceName");
    if name.JStr? then Ok(LastSegment(name.s)) else Err(AttributeError)
  }

  /** `groups.get(k, [])`. */
  function Lookup(groups: Groups, k: string): seq<Json> {
    if k in groups then groups[k] else []
  }

  function AddFinding(groups: Groups, k: string, f: Json): Groups {
    groups[k := Lookup(groups, k) + [f]]
  }

  /**
   * Appends each finding, in fetch order, to the group of its key under
   * `keyOf`; the first finding whose key raises makes the grouping raise.
   */
  function GroupInto(groups: Groups, findings: seq<Json>, keyOf: Json -> Result<string>): (r: Result<Groups>)
    ensures r.Ok? <==> forall i :: 0 <= i < |findings| ==> keyOf(findings[i]).Ok?
    decreases |findings|
  {
    if |findings| == 0 then Ok(groups)
    else
      var n := |findings| - 1;
      assert forall i :: 0 <= i < n ==> findings[..n][i] == findings[i];
      var g :- GroupInto(groups, findings[..n], keyOf);
      var k :- keyOf(findings[n]);
      Ok(AddFinding(g, k, findings[n]))
  }

  /** The last finding goes to the end of its key's group. */
  lemma GroupStep(groups: Groups, findings: seq<Json>, keyOf: Json -> Result<string>)
    requires |findings| > 0 && GroupInto(groups, findings, keyOf).Ok?
    ensures GroupInto(groups, findings[..|findings| - 1], keyOf).Ok?
    ensures keyOf(findings[|findings| - 1]).Ok?
    ensures GroupInto(groups, findings, keyOf).value
         == AddFinding(GroupInto(groups, findings[..|findings| - 1], keyOf).value,
                       keyOf(findings[|findings| - 1]).value, findings[|findings| - 1])
  {
  }

  /** Adding a finding under `key` appends it to the group of `k` exactly when the keys agree. */
  lemma LookupAdded(groups: Groups, key: string, f: Json, k: string, earlier: seq<Json>, fetched: seq<Json>)
    requires Lookup(groups, k) == earlier + fetched
    ensures Lookup(AddFinding(groups, key, f), k) == earlier + (fetched + if key == k then [f] else [])
  {
    assert earlier + fetched + [f] == earlier + (fetched + [f]);
  }

  /** Reference: the findings whose key is `k`, in fetch order. */
  function OfKey(findings: seq<Json>, k: string, keyOf: Json -> Result<string>): seq<Json>
    decreases |findings|
  {
    if |findings| == 0 then []
    else
      var n := |findings| - 1;
      OfKey(findings[..n], k, keyOf) + (if keyOf(findings[n]) == Ok(k) then [findings[n]] else [])
  }

  /** When a finding raises, grouping raises its exception, whatever follows it. */
  lemma {:induction false} GroupRaisesAt(groups: Groups, findings: seq<Json>, keyOf: Json -> Result<string>, i: nat)
    requires i < |findings|
    requires GroupInto(groups, findings[..i], keyOf).Ok? && keyOf(findings[i]).Err?
    ensures GroupInto(groups, findings, keyOf) == Err(keyOf(findings[i]).error)
    decreases |findings|
  {
    var n := |findings| - 1;
    if i < n {
      assert findings[..n][..i] == findings[..i];
      assert findings[..n][i] == findings[i];
      GroupRaisesAt(groups, findings[..n], keyOf, i);
    } else {
      assert findings[..n] == findings[..i];
    }
  }

  /** Each group is the earlier group followed by the findings with its key, in fetch order. */
  lemma {:induction false} GroupKeepsFetchOrder(groups: Groups, findings: seq<Json>, keyOf: Json -> Result<string>, k: string)
    requires GroupInto(groups, findings, keyOf).Ok?
    ensures Lookup(GroupInto(groups, findings, keyOf).value, k) == Lookup(groups, k) + OfKey(findings, k, keyOf)
    decreases |findings|
  {
    if |findings| > 0 {
      var n := |findings| - 1;
      var init, f := findings[..n], findings[n];
      GroupStep(groups, findings, keyOf);
      GroupKeepsFetchOrder(groups, init, keyOf, k);
      var g, key := GroupInto(groups, init, keyOf).value, keyOf(f).value;
      LookupAdded(g, key, f, k, Lookup(groups, k), OfKey(init, k, keyOf));
      assert OfKey(findings, k, keyOf) == OfKey(init, k, keyOf) + if key == k then [f] else [];
    }
  }

  /** Some finding has key `k`. */
  predicate KeyOccurs(findings: seq<Json>, keyOf: Json -> Result<string>, k: string) {
    exists i :: 0 <= i < |findings| && keyOf(findings[i]) == Ok(k)
  }

  lemma KeyOccursSplit(findings: seq<Json>, keyOf: Json -> Result<string>, k: string)
    requires |findings| > 0
    ensures KeyOccurs(findings, keyOf, k)
        <==> KeyOccurs(findings[..|findings| - 1], keyOf, k) || keyOf(findings[|findings| - 1]) == Ok(k)
  {
    var n := |findings| - 1;
    var init := findings[..n];
    if KeyOccurs(findings, keyOf, k) {
      var i :| 0 <= i < |findings| && keyOf(findings[i]) == Ok(k);
      if i < n {
        assert init[i] == findings[i];
      }
    }
    if KeyOccurs(init, keyOf, k) {
      var i :| 0 <= i < n && keyOf(init[i]) == Ok(k);
      assert init[i] == findings[i];
    }
  }

  /** The keys after grouping are the earlier keys and the keys of the findings, and no others. */
  lemma {:induction false} GroupKeys(groups: Groups, findings: seq<Json>, keyOf: Json -> Result<string>)
    requires GroupInto(groups, findings, keyOf).Ok?
    ensures forall k :: k in GroupInto(groups, findings, keyOf).value <==> k in groups || KeyOccurs(findings, keyOf, k)
    decreases |findings|
  {
    if |findings| > 0 {
      GroupKeys(groups, findings[..|findings| - 1], keyOf);
      forall k {
        KeyOccursSplit(findings, keyOf, k);
      }
    }
  }

  /** The summed lengths of the groups of the keys `ks`. */
  function TotalOver(groups: Groups, ks: seq<string>): nat
    decreases |ks|
  {
    if |ks| == 0 then 0
    else TotalOver(groups, ks[..|ks| - 1]) + |Lookup(groups, ks[|ks| - 1])|
  }

  predicate Distinct(ks: seq<string>) {
    forall i, j :: 0 <= i < j < |ks| ==> ks[i] != ks[j]
  }

  /** Adding a finding under `k` grows the total over `ks` by one exactly when `k` is among them. */
  lemma {:induction false} TotalOverAdd(groups: Groups, ks: seq<string>, k: string, f: Json)
    requires Distinct(ks)
    ensures TotalOver(AddFinding(groups, k, f), ks) == TotalOver(groups, ks) + (if k in ks then 1 else 0)
    decreases |ks|
  {
    if |ks| > 0 {
      var n := |ks| - 1;
      var init := ks[..n];
      assert ks == init + [ks[n]];
      assert k in ks <==> k in init || k == ks[n];
      if k == ks[n] {
        assert k !in init by {
          forall i | 0 <= i < n
            ensures init[i] != k
          {
            assert ks[i] != ks[n];
          }
        }
      }
      TotalOverAdd(groups, init, k, f);
    }
  }

  /**
   * Grouping neither loses nor duplicates a finding: over any duplicate-free
   * list of keys that includes every finding's key, the group lengths grow
   * by exactly the number of findings.
   */
  lemma {:induction false} GroupCountsEveryFinding(groups: Groups, findings: seq<Json>, keyOf: Json -> Result<string>, ks: seq<string>)
    requires GroupInto(groups, findings, keyOf).Ok?
    requires Distinct(ks)
    requires forall i :: 0 <= i < |findings| ==> keyOf(findings[i]).Ok? && keyOf(findings[i]).value in ks
    ensures TotalOver(GroupInto(groups, findings, keyOf).value, ks) == TotalOver(groups, ks) + |findings|
    decreases |findings|
  {
    if |findings| > 0 {
      var n := |findings| - 1;
      assert forall i :: 0 <= i < n ==> findings[..n][i] == findings[i];
      GroupCountsEveryFinding(groups, findings[..n], keyOf, ks);
      TotalOverAdd(GroupInto(groups, findings[..n], keyOf).value, ks, keyOf(findings[n]).value, findings[n]);
    }
  }

  /** `if not findings_list.get('listFindingsResults')`: a missing or empty result list becomes []. */
  function Normalised(results: Option<seq<Json>>): seq<Json> {
    if results.None? || results.value == [] then [] else results.value
  }

  // ---------------------------------------------------------------- one resource

  /** `not self.data.get('key')` is false: a non-empty key is configured. */
  predicate KeyConfigured(cfg: Config) {
    cfg.key.Some? && cfg.key.value != ""
  }

  /** The group of a resource with record `data` ([] when it has none or lacks the name field). */
  function GroupOf(groups: Groups, nameField: Path, data: Json): seq<Json> {
    match nameField.eval(data)
    case Some(name) => Lookup(groups, name)
    case None => []
  }

  /** What `process_resource` returns for a resource with record `data`. */
  function Verdict(data: Json, groups: Groups, nameField: Path, cfg: Config): Result<bool> {
    match nameField.eval(data)
    case None => Err(KeyError(nameField.text))
    case Some(name) =>
      var group := Lookup(groups, name);
      Ok(if !KeyConfigured(cfg) then |group| > 0 else cfg.matcher(group))
  }

  function Verdicts(rs: seq<Resource>, groups: Groups, nameField: Path, cfg: Config): seq<Result<bool>> {
    seq(|rs|, i requires 0 <= i < |rs| => Verdict(rs[i].data, groups, nameField, cfg))
  }

  /** Without a `key`, a named resource is kept exactly when at least one finding correlates to it. */
  lemma ExistenceTest(data: Json, groups: Groups, nameField: Path, cfg: Config)
    requires !KeyConfigured(cfg) && nameField.eval(data).Some?
    ensures Verdict(data, groups, nameField, cfg) == Ok(GroupOf(groups, nameField, data) != [])
  {
  }

  /** With a missing or empty result list, every named resource correlates to [] and, without a `key`, is dropped. */
  lemma NoFindingsKeepsNone(results: Option<seq<Json>>, data: Json, nameField: Path, cfg: Config)
    requires results.None? || results == Some([])
    requires nameField.eval(data).Some? && !KeyConfigured(cfg)
    ensures GroupInto(map[], Normalised(results), FindingKey) == Ok(map[])
    ensures GroupOf(map[], nameField, data) == []
    ensures Verdict(data, map[], nameField, cfg) == Ok(false)
  {
  }

  /** `g` repeated `c` times. */
  function Repeat(g: seq<Json>, c: nat): seq<Json> {
    if c == 0 then [] else Repeat(g, c - 1) + g
  }

  /** The `c7n.findings` entry after `c` extensions by `g`: unchanged when `c` is 0, created when absent. */
  function Extended(before: Option<seq<Json>>, g: seq<Json>, c: nat): Option<seq<Json>> {
    if c == 0 then before else Some(before.GetOr([]) + Repeat(g, c))
  }

  /** Extending keeps the earlier findings in place and grows the list by the group's length each time. */
  lemma {:induction false} ExtendedKeepsEarlier(before: Option<seq<Json>>, g: seq<Json>, c: nat)
    requires c > 0
    ensures Extended(before, g, c).Some?
    ensures |Extended(before, g, c).value| == |before.GetOr([])| + c * |g|
    ensures Extended(before, g, c).value[..|before.GetOr([])|] == before.GetOr([])
  {
    RepeatLength(g, c);
  }

  lemma {:induction false} RepeatLength(g: seq<Json>, c: nat)
    ensures |Repeat(g, c)| == c * |g|
  {
    if c > 0 {
      RepeatLength(g, c - 1);
    }
  }

  lemma ExtendOnce(before: Option<seq<Json>>, g: seq<Json>, c: nat)
    ensures Some(Extended(before, g, c).GetOr([]) + g) == Extended(before, g, c + 1)
  {
    if c == 0 {
      assert Repeat(g, 1) == [] + g == g;
    } else {
      assert before.GetOr([]) + Repeat(g, c) + g == before.GetOr([]) + (Repeat(g, c) + g);
    }
  }

  /** How many times `r` occurs in `rs`. */
  function Count(rs: seq<Resource>, r: Resource): nat
    decreases |rs|
  {
    if |rs| == 0 then 0
    else Count(rs[..|rs| - 1], r) + (if rs[|rs| - 1] == r then 1 else 0)
  }

  lemma {:induction false} CountPositive(rs: seq<Resource>, r: Resource)
    requires r in rs
    ensures Count(rs, r) >= 1
    decreases |rs|
  {
    var n := |rs| - 1;
    if rs[n] != r {
      assert r in rs[..n] by {
        var i :| 0 <= i < |rs| && rs[i] == r;
        assert rs[..n][i] == r;
      }
      CountPositive(rs[..n], r);
    }
  }

  /** The `c7n.findings` entry of `r` once the resources `done` have been processed. */
  function ExtendedBy(r: Resource, before: Option<seq<Json>>, done: seq<Resource>,
                      groups: Groups, nameField: Path): Option<seq<Json>>
  {
    Extended(before, GroupOf(groups, nameField, r.data), Count(done, r))
  }

  /** Processing `r` after `done` extends the entry of `r`, and of no other resource, by the group of `r`. */
  lemma ExtendedByStep(x: Resource, before: Option<seq<Json>>, done: seq<Resource>, r: Resource,
                       groups: Groups, nameField: Path)
    ensures ExtendedBy(x, before, done + [r], groups, nameField)
         == if x == r then Some(ExtendedBy(x, before, done, groups, nameField).GetOr([]) + GroupOf(groups, nameField, r.data))
            else ExtendedBy(x, before, done, groups, nameField)
  {
    assert (done + [r])[..|done|] == done;
    ExtendOnce(before, GroupOf(groups, nameField, x.data), Count(done, x));
  }

  /** `ExtendedByStep` for the prefix `rs[..i]` grown by `rs[i]`. */
  lemma ExtendedByNext(x: Resource, before: Option<seq<Json>>, rs: seq<Resource>, i: nat,
                       groups: Groups, nameField: Path)
    requires i < |rs|
    ensures ExtendedBy(x, before, rs[..i + 1], groups, nameField)
         == if x == rs[i] then Some(ExtendedBy(x, before, rs[..i], groups, nameField).GetOr([]) + GroupOf(groups, nameField, rs[i].data))
            else ExtendedBy(x, before, rs[..i], groups, nameField)
  {
    assert rs[..i + 1] == rs[..i] + [rs[i]];
    ExtendedByStep(x, before, rs[..i], rs[i], groups, nameField);
  }

  /**
   * The `c7n.findings` entry of resource `r` once the comprehension over
   * `rs` has processed the resources before position `k`: extended once
   * for each time `r` occurs among them.
   */
  function FindingsAfter(r: Resource, before: Option<seq<Json>>, rs: seq<Resource>, k: nat,
                         groups: Groups, nameField: Path): Option<seq<Json>>
    requires k <= |rs|
  {
    ExtendedBy(r, before, rs[..k], groups, nameField)
  }

  /**
   * When no resource raises, every resource's `c7n.findings` holds its
   * earlier entries in place, followed by its group once for each time it
   * occurs in the list, whether or not it is kept.
   */
  lemma EveryResourceExtended(r: Resource, before: Option<seq<Json>>, rs: seq<Resource>,
                              groups: Groups, nameField: Path)
    requires r in rs
    ensures FindingsAfter(r, before, rs, |rs|, groups, nameField).Some?
    ensures var after := FindingsAfter(r, before, rs, |rs|, groups, nameField).value;
            && |after| == |before.GetOr([])| + Count(rs, r) * |GroupOf(groups, nameField, r.data)|
            && after[..|before.GetOr([])|] == before.GetOr([])
  {
    assert rs[..|rs|] == rs;
    CountPositive(rs, r);
    ExtendedKeepsEarlier(before, GroupOf(groups, nameField, r.data), Count(rs, r));
  }

  // ---------------------------------------------------------------- the filter

  class FindingsFilter {
    const data: Config
    /** The resource type's name field. */
    const resourceName: Path
    var findingsByResource: Groups

    constructor (data: Config, resourceName: Path)
      ensures this.data == data && this.resourceName == resourceName && findingsByResource == map[]
    {
      this.data := data;
      this.resourceName := resourceName;
      findingsByResource := map[];
    }

    /** Appends each resource's clause and " OR " to a list, pops the last item and joins. */
    method GetResourceFilter(resources: seq<Resource>) returns (filter: Result<string>)
      ensures filter == ResourceFilter(resources, resourceName)
    {
      var parts: seq<string> := [];
      ghost var clauses: seq<string> := [];
      for i := 0 to |resources|
        invariant NameClauses(resources[..i], resourceName) == Ok(clauses)
        invariant parts == Separated(clauses, Separator)
      {
        var name := resourceName.eval(resources[i].data);
        if name.None? {
          FilterRaisesAt(resources, resourceName, i);
          return Err(KeyError(resourceName.text));
        }
        var clause := ResourceClause(name.value);
        ClausesStep(resources, resourceName, i, clauses, Separator);
        parts := parts + [clause, Separator];
        clauses := clauses + [clause];
      }
      FilterFromClauses(resources, resourceName, clauses);
      if |parts| == 0 {
        return Err(IndexError);
      }
      parts := parts[..|parts| - 1];
      filter := Ok(Concat(parts));
    }

    /** Appends each finding to the list of its key in `findingsByResource`. */
    method SplitByResource(findingList: seq<Json>) returns (status: Outcome)
      modifies this`findingsByResource
      ensures status.Pass? <==> GroupInto(old(findingsByResource), findingList, FindingKey).Ok?
      ensures status.Pass? ==> findingsByResource == GroupInto(old(findingsByResource), findingList, FindingKey).value
      ensures status.Fail? ==> status.error == GroupInto(old(findingsByResource), findingList, FindingKey).error
      ensures status.Fail? ==>
                exists i :: 0 <= i < |findingList| && FindingKey(findingList[i]).Err?
                            && GroupInto(old(findingsByResource), findingList[..i], FindingKey) == Ok(findingsByResource)
    {
      for i := 0 to |findingList|
        invariant GroupInto(old(findingsByResource), findingList[..i], FindingKey) == Ok(findingsByResource)
      {
        assert findingList[..i + 1][..i] == findingList[..i];
        var key := FindingKey(findingList[i]);
        if key.Err? {
          GroupRaisesAt(old(findingsByResource), findingList, FindingKey, i);
          return Fail(key.error);
        }
        var resourceFindings := Lookup(findingsByResource, key.value);
        resourceFindings := resourceFindings + [findingList[i]];
        findingsByResource := findingsByResource[key.value := resourceFindings];
      }
      assert findingList[..|findingList|] == findingList;
      status := Pass;
    }

    /** Extends `c7n.findings` with the resource's group, then tests existence or the configured match. */
    method ProcessResource(resource: Resource) returns (matched: Result<bool>)
      modifies resource`findings
      ensures matched == Verdict(resource.data, findingsByResource, resourceName, data)
      ensures resource.findings
           == if matched.Ok?
              then Some(old(resource.findings).GetOr([]) + GroupOf(findingsByResource, resourceName, resource.data))
              else old(resource.findings)
    {
      var name := resourceName.eval(resource.data);
      if name.None? {
        return Err(KeyError(resourceName.text));
      }
      var resourceFindings := Lookup(findingsByResource, name.value);
      resource.findings := Some(resource.findings.GetOr([]) + resourceFindings);
      if !KeyConfigured(data) {
        return Ok(|resourceFindings| > 0);
      }
      matched := Ok(data.matcher(resourceFindings));
    }

    /**
     * One step of the comprehension: processes `resources[i]`, which either
     * extends its entry by its group once more or raises before changing it.
     */
    method ProcessNext(resources: seq<Resource>, i: nat, ghost before: seq<Option<seq<Json>>>)
      returns (ok: Result<bool>)
      requires i < |resources| == |before|
      requires forall j :: 0 <= j < |resources| ==>
                 resources[j].findings == ExtendedBy(resources[j], before[j], resources[..i], findingsByResource, resourceName)
      modifies {resources[i]}`findings
      ensures ok == Verdict(resources[i].data, findingsByResource, resourceName, data)
      ensures forall j :: 0 <= j < |resources| ==>
                resources[j].findings
                == ExtendedBy(resources[j], before[j], resources[..if ok.Ok? then i + 1 else i], findingsByResource, resourceName)
    {
      ok := ProcessResource(resources[i]);
      if ok.Ok? {
        forall j | 0 <= j < |resources|
          ensures resources[j].findings == ExtendedBy(resources[j], before[j], resources[..i + 1], findingsByResource, resourceName)
        {
          ExtendedByNext(resources[j], before[j], resources, i, findingsByResource, resourceName);
        }
      }
    }

    /** `[r for r in resources if self.process_resource(r)]`. */
    method FilterResources(resources: seq<Resource>) returns (res: Result<seq<Resource>>)
      modifies resources`findings
      ensures res == Keep(resources, Verdicts(resources, findingsByResource, resourceName, data))
      ensures forall i :: 0 <= i < |resources| ==>
                resources[i].findings
                == FindingsAfter(resources[i], old(resources[i].findings), resources,
                                 FirstFailure(Verdicts(resources, findingsByResource, resourceName, data)),
                                 findingsByResource, resourceName)
    {
      ghost var vs := Verdicts(resources, findingsByResource, resourceName, data);
      ghost var before := seq(|resources|, j reads resources requires 0 <= j < |resources| => resources[j].findings);
      var matched: seq<Resource> := [];
      var i := 0;
      while i < |resources|
        invariant 0 <= i <= |resources|
        invariant Keep(resources[..i], vs[..i]) == Ok(matched)
        invariant forall j :: 0 <= j < |resources| ==>
                    resources[j].findings == ExtendedBy(resources[j], before[j], resources[..i], findingsByResource, resourceName)
      {
        var ok := ProcessNext(resources, i, before);
        if ok.Err? {
          KeepFailsAt(resources, vs, i, matched);
          return Err(ok.error);
        }
        KeepStep(resources, vs, i, matched);
        if ok.value {
          matched := matched + [resources[i]];
        }
        i := i + 1;
      }
      KeepAll(resources, vs, matched);
      res := Ok(matched);
    }

    /**
     * Resets the groups, builds the query filter, normalises the fetched
     * result list (None when the response has no `listFindingsResults`),
     * groups it and filters the resources.
     */
    method Process(resources: seq<Resource>, listFindingsResults: Option<seq<Json>>)
      returns (query: Result<string>, res: Result<seq<Resource>>)
      modifies this, resources`findings
      ensures query == ResourceFilter(resources, resourceName)
      ensures query.Err? ==> res == Err(query.error) && findingsByResource == map[]
      ensures query.Ok? && GroupInto(map[], Normalised(listFindingsResults), FindingKey).Err? ==>
                && res == Err(GroupInto(map[], Normalised(listFindingsResults), FindingKey).error)
                && exists i :: 0 <= i < |Normalised(listFindingsResults)| && FindingKey(Normalised(listFindingsResults)[i]).Err?
                               && GroupInto(map[], Normalised(listFindingsResults)[..i], FindingKey) == Ok(findingsByResource)
      ensures query.Err? || GroupInto(map[], Normalised(listFindingsResults), FindingKey).Err? ==>
                forall i :: 0 <= i < |resources| ==> resources[i].findings == old(resources[i].findings)
      ensures query.Ok? && GroupInto(map[], Normalised(listFindingsResults), FindingKey).Ok? ==>
                && findingsByResource == GroupInto(map[], Normalised(listFindingsResults), FindingKey).value
                && res == Keep(resources, Verdicts(resources, findingsByResource, resourceName, data))
                && forall i :: 0 <= i < |resources| ==>
                     resources[i].findings
                     == FindingsAfter(resources[i], old(resources[i].findings), resources,
                                      FirstFailure(Verdicts(resources, findingsByResource, resourceName, data)),
                                      findingsByResource, resourceName)
    {
      findingsByResource := map[];
      query := GetResourceFilter(resources);
      if query.Err? {
        return query, Err(query.error);
      }
      var findingsList := listFindingsResults;
      if findingsList.None? || findingsList.value == [] {
        findingsList := Some([]);
      }
      var status := SplitByResource(findingsList.value);
      if status.Fail? {
        return query, Err(status.error);
      }
      res := FilterResources(resources);
    }
  }
}
