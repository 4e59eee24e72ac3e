/**
 * The buckets client (`bucketsApi`): the list and count URLs, the id endpoints, the
 * persona-rule check and the local publish validation that fetches a week's buckets
 * and reports what keeps them from being published.
 */
module BucketsApi {
  import opened Base
  import opened Query
  import opened Params
  import opened HttpClient

  /** `{ min?, max? }` */
  datatype Bounds = Bounds(min: Option<int>, max: Option<int>)

  datatype PersonaRules = PersonaRules(level: Option<Bounds>, mmr: Option<Bounds>, spending: Option<Bounds>)

  /** The fields of a bucket the client reads. */
  datatype Bucket = Bucket(id: int, name: string, personaRules: Option<PersonaRules>, priority: int, eventId: Option<int>)

  /** `BucketQuery`; `sort` keeps the object's entries in insertion order. */
  datatype BucketQuery = BucketQuery(
    seasonId: Option<int>,
    weekId: Option<int>,
    eventId: Option<int>,
    priority: Option<int>,
    searchName: Option<string>,
    searchDescription: Option<string>,
    limit: Option<int>,
    skip: Option<int>,
    sort: Option<seq<(string, string)>>,
    select: Option<seq<string>>)

  const NoQuery := BucketQuery(None, None, None, None, None, None, None, None, None, None)

  predicate FilterKey(k: string)
  {
    k == "seasonId" || k == "weekId" || k == "eventId" || k == "priority" || k == "searchName" || k == "searchDescription"
  }

  /** The six filter fields, in the order both the list and the count append them. */
  function FilterParams(q: BucketQuery): (r: seq<Param>)
    ensures forall p :: p in r ==> FilterKey(p.key)
  {
    NumParam("seasonId", q.seasonId) + NumParam("weekId", q.weekId) + NumParam("eventId", q.eventId)
    + NumParam("priority", q.priority) + StrParam("searchName", q.searchName)
    + StrParam("searchDescription", q.searchDescription)
  }

  /** One `sort[key]=value` pair per entry of the sort object, in order. */
  function SortParams(entries: seq<(string, string)>): (r: seq<Param>)
    ensures |r| == |entries|
    ensures forall i :: 0 <= i < |entries| ==> r[i] == Param("sort[" + entries[i].0 + "]", entries[i].1)
  {
    if entries == [] then [] else [Param("sort[" + entries[0].0 + "]", entries[0].1)] + SortParams(entries[1..])
  }

  /** `getBuckets(query)`: filters, then limit, skip, the sort entries and the select fields. */
  function ListParams(q: BucketQuery): seq<Param>
  {
    FilterParams(q) + NumParam("limit", q.limit) + NumParam("skip", q.skip)
    + (if q.sort.Some? then SortParams(q.sort.value) else []) + Select(q.select)
  }

  function BucketsUrl(q: BucketQuery): string
  {
    WithQuery("/buckets", ListParams(q))
  }

  /** `getBucketsCount(query)`: the filters only. */
  function BucketsCountUrl(q: BucketQuery): string
  {
    WithQuery("/buckets/count", FilterParams(q))
  }

  /** No filter key is a paging, sort or select key. */
  lemma FilterKeysArePlain(k: string)
    requires FilterKey(k)
    ensures k != "limit" && k != "skip" && k != "select" && !StartsWith(k, "sort[")
  {
    assert k[0] != 's' || k[1] == 'e';
  }

  /**
   * The count URL never carries limit, skip, sort or select; the list query starts
   * with the same filter pairs and adds exactly one pair per sort entry and per
   * selected field after limit and skip.
   */
  lemma CountOmitsPaging(q: BucketQuery)
    ensures forall p :: p in FilterParams(q) ==> p.key != "limit" && p.key != "skip" && p.key != "select" && !StartsWith(p.key, "sort[")
    ensures ListParams(q)[..|FilterParams(q)|] == FilterParams(q)
    ensures |ListParams(q)| == |FilterParams(q)| + |NumParam("limit", q.limit)| + |NumParam("skip", q.skip)|
      + (if q.sort.Some? then |q.sort.value| else 0) + (if q.select.Some? then |q.select.value| else 0)
  {
    forall p | p in FilterParams(q)
      ensures p.key != "limit" && p.key != "skip" && p.key != "select" && !StartsWith(p.key, "sort[")
    {
      FilterKeysArePlain(p.key);
    }
  }

  /** Without any field set, both requests go to the bare path. */
  lemma EmptyQueryUrls()
    ensures BucketsUrl(NoQuery) == "/buckets" && BucketsCountUrl(NoQuery) == "/buckets/count"
  {
    WithQueryShape("/buckets", ListParams(NoQuery));
    WithQueryShape("/buckets/count", FilterParams(NoQuery));
  }

  /** `getBucketsBySeasonAndWeek(seasonId, weekId)` */
  function SeasonWeekPath(seasonId: int, weekId: int): string
  {
    IdPath("/buckets/season", seasonId) + IdPath("/week", weekId)
  }

  /** A range counts when it is present with at least one bound defined. */
  predicate HasBounds(b: Option<Bounds>)
  {
    b.Some? && (b.value.min.Some? || b.value.max.Some?)
  }

  /** `hasValidPersonaRules(rules)`: some of level, mmr or spending has a bound. */
  predicate HasValidPersonaRules(rules: Option<PersonaRules>)
  {
    rules.Some? && (HasBounds(rules.value.level) || HasBounds(rules.value.mmr) || HasBounds(rules.value.spending))
  }

  /** A bound of 0 is a bound: only a missing range or one with neither bound fails. */
  lemma ZeroBoundIsValid(rules: PersonaRules)
    requires rules.level == Some(Bounds(Some(0), None))
    ensures HasValidPersonaRules(Some(rules))
  {
  }

  predicate HasEvent(b: Bucket)
  {
    b.eventId.Some? && b.eventId.value != 0
  }

  function NoEventText(name: string): string
  {
    "Bucket \"" + name + "\" has no event attached"
  }

  function NoRulesText(name: string): string
  {
    "Bucket \"" + name + "\" has no valid persona rules defined"
  }

  /** The errors one bucket contributes: no event, then no valid persona rules. */
  function ErrorsOf(b: Bucket): (r: seq<string>)
    ensures |r| == (if HasEvent(b) then 0 else 1) + (if HasValidPersonaRules(b.personaRules) then 0 else 1)
  {
    (if HasEvent(b) then [] else [NoEventText(b.name)])
    + (if HasValidPersonaRules(b.personaRules) then [] else [NoRulesText(b.name)])
  }

  /** The per-bucket errors of the first loop, in bucket order. */
  function BucketErrors(bs: seq<Bucket>): (r: seq<string>)
    ensures |r| == WithoutEvents(bs) + WithEmptyRules(bs)
  {
    if bs == [] then [] else BucketErrors(bs[..|bs| - 1]) + ErrorsOf(bs[|bs| - 1])
  }

  function WithoutEvents(bs: seq<Bucket>): (r: nat)
    ensures r <= |bs|
  {
    if bs == [] then 0 else WithoutEvents(bs[..|bs| - 1]) + (if HasEvent(bs[|bs| - 1]) then 0 else 1)
  }

  function WithEmptyRules(bs: seq<Bucket>): (r: nat)
    ensures r <= |bs|
  {
    if bs == [] then 0 else WithEmptyRules(bs[..|bs| - 1]) + (if HasValidPersonaRules(bs[|bs| - 1].personaRules) then 0 else 1)
  }

  function Priorities(bs: seq<Bucket>): (r: seq<int>)
    ensures |r| == |bs|
    ensures forall i :: 0 <= i < |bs| ==> r[i] == bs[i].priority
  {
    if bs == [] then [] else [bs[0].priority] + Priorities(bs[1..])
  }

  /** The priorities 1..n that no bucket has, in ascending order. */
  function Gaps(ps: seq<int>, n: nat): seq<int>
  {
    if n == 0 then [] else Gaps(ps, n - 1) + (if n in ps then [] else [n])
  }

  /** The gaps are exactly the numbers in 1..n missing from the priorities, ascending. */
  lemma {:induction false} GapsExact(ps: seq<int>, n: nat)
    ensures forall i :: 0 <= i < |Gaps(ps, n)| ==> 1 <= Gaps(ps, n)[i] <= n && Gaps(ps, n)[i] !in ps
    ensures forall k :: 1 <= k <= n && k !in ps ==> k in Gaps(ps, n)
    ensures forall i, j :: 0 <= i < j < |Gaps(ps, n)| ==> Gaps(ps, n)[i] < Gaps(ps, n)[j]
  {
    if n > 0 {
      GapsExact(ps, n - 1);
    }
  }

  function GapText(gap: int): string
  {
    "Priority " + IntToString(gap) + " is missing"
  }

  function GapWarnings(gaps: seq<int>): (r: seq<string>)
    ensures |r| == |gaps|
  {
    if gaps == [] then [] else GapWarnings(gaps[..|gaps| - 1]) + [GapText(gaps[|gaps| - 1])]
  }

  /** One warning per gap, in the same order, naming it. */
  lemma {:induction false} GapWarningsText(gaps: seq<int>, i: int)
    requires 0 <= i < |gaps|
    ensures GapWarnings(gaps)[i] == GapText(gaps[i])
  {
    var init := gaps[..|gaps| - 1];
    var w := GapWarnings(init);
    var last := GapText(gaps[|gaps| - 1]);
    assert GapWarnings(gaps) == w + [last];
    assert |w| == |init| == |gaps| - 1;
    if i < |init| {
      GapWarningsText(init, i);
      assert (w + [last])[i] == w[i];
      assert gaps[i] == init[i];
    } else {
      assert (w + [last])[i] == last;
    }
  }

  /** `new Set(priorities).size !== priorities.length` */
  predicate HasDuplicatePriority(ps: seq<int>)
  {
    |set p | p in ps| != |ps|
  }

  /** The set of a sequence is smaller than it exactly when two positions hold the same value. */
  lemma {:induction false} DuplicateIff(ps: seq<int>)
    ensures HasDuplicatePriority(ps) <==> exists i, j :: 0 <= i < j < |ps| && ps[i] == ps[j]
  {
    if ps != [] {
      var rest := ps[1..];
      DuplicateIff(rest);
      assert (set p | p in ps) == {ps[0]} + (set p | p in rest) by {
        assert forall p :: p in ps <==> p == ps[0] || p in rest;
      }
      SetSize(rest);
      if ps[0] in rest {
        var k :| 0 <= k < |rest| && rest[k] == ps[0];
        assert ps[0] == ps[k + 1];
      } else {
        assert |set p | p in ps| == |set p | p in rest| + 1;
        if exists i, j :: 0 <= i < j < |ps| && ps[i] == ps[j] {
          var i, j :| 0 <= i < j < |ps| && ps[i] == ps[j];
          assert rest[i - 1] == rest[j - 1];
        }
        if exists i, j :: 0 <= i < j < |rest| && rest[i] == rest[j] {
          var i, j :| 0 <= i < j < |rest| && rest[i] == rest[j];
          assert ps[i + 1] == ps[j + 1];
        }
      }
    }
  }

  lemma {:induction false} SetSize(ps: seq<int>)
    ensures |set p | p in ps| <= |ps|
  {
    if ps != [] {
      SetSize(ps[1..]);
      assert (set p | p in ps) == {ps[0]} + (set p | p in ps[1..]) by {
        assert forall p :: p in ps <==> p == ps[0] || p in ps[1..];
      }
    }
  }

  /** `BucketValidationResult` */
  datatype ValidationResult = ValidationResult(
    isValid: bool,
    errors: seq<string>,
    warnings: seq<string>,
    bucketCount: nat,
    bucketsWithoutEvents: nat,
    bucketsWithEmptyRules: nat,
    priorityGaps: seq<int>)

  const DuplicateText := "Duplicate priorities found - each bucket must have a unique priority"

  /** The result for a fetched list, as the two loops and the duplicate test build it. */
  function Validation(bs: seq<Bucket>): ValidationResult
  {
    var ps := Priorities(bs);
    var errors := BucketErrors(bs) + (if HasDuplicatePriority(ps) then [DuplicateText] else []);
    var gaps := Gaps(ps, |bs|);
    ValidationResult(errors == [], errors, GapWarnings(gaps), |bs|, WithoutEvents(bs), WithEmptyRules(bs), gaps)
  }

  /**
   * The error count is the buckets without events, plus those without rules, plus one
   * for duplicates; validity is the absence of errors, so gaps and their warnings
   * never make a list invalid.
   */
  lemma ValidationCounts(bs: seq<Bucket>)
    ensures var v := Validation(bs);
      |v.errors| == v.bucketsWithoutEvents + v.bucketsWithEmptyRules + (if HasDuplicatePriority(Priorities(bs)) then 1 else 0)
      && (v.isValid <==> v.bucketsWithoutEvents == 0 && v.bucketsWithEmptyRules == 0 && !HasDuplicatePriority(Priorities(bs)))
      && |v.warnings| == |v.priorityGaps|
  {
  }

  /** Priorities numbered 1..n leave no gaps and no repeats. */
  lemma NoGapsWhenNumbered(ps: seq<int>)
    requires forall i :: 0 <= i < |ps| ==> ps[i] == i + 1
    ensures Gaps(ps, |ps|) == [] && !HasDuplicatePriority(ps)
  {
    forall k | 1 <= k <= |ps| ensures k in ps { assert ps[k - 1] == k; }
    NoGapsWhenAllPresent(ps, |ps|);
    DistinctNoDuplicate(ps);
  }

  lemma {:induction false} NoGapsWhenAllPresent(ps: seq<int>, n: nat)
    requires forall k :: 1 <= k <= n ==> k in ps
    ensures Gaps(ps, n) == []
  {
    if n > 0 {
      NoGapsWhenAllPresent(ps, n - 1);
    }
  }

  lemma DistinctNoDuplicate(ps: seq<int>)
    requires forall i, j :: 0 <= i < j < |ps| ==> ps[i] != ps[j]
    ensures !HasDuplicatePriority(ps)
  {
    DuplicateIff(ps);
  }

  const FetchFailedText := "Failed to fetch buckets for validation"

  /**
   * `validateBucketsOnPublish(seasonId, weekId)`, the fetch of that week's buckets
   * ending with `fetched`: on failure (or without data) an invalid result with one
   * error; otherwise the result of checking each bucket, the priorities 1..n and
   * duplicates.
   */
  method ValidateBucketsOnPublish(seasonId: int, weekId: int, fetched: ApiResponse<seq<Bucket>>)
    returns (path: string, r: ApiResponse<ValidationResult>)
    ensures path == SeasonWeekPath(seasonId, weekId)
    ensures !fetched.success || fetched.data.None? ==>
      r == ApiResponse(false, Some(ValidationResult(false, [FetchFailedText], [], 0, 0, 0, [])), Some(JStr("Validation failed")), None)
    ensures fetched.success && fetched.data.Some? ==>
      r == ApiResponse(true, Some(Validation(fetched.data.value)), Some(JStr("Validation completed")), None)
  {
    path := SeasonWeekPath(seasonId, weekId);
    if !fetched.success || fetched.data.None? {
      r := ApiResponse(false, Some(ValidationResult(false, [FetchFailedText], [], 0, 0, 0, [])), Some(JStr("Validation failed")), None);
      return;
    }
    var buckets := fetched.data.value;
    var priorities := Priorities(buckets);
    var errors, withoutEvents, emptyRules := CheckBuckets(buckets);
    var gaps, warnings := FindGaps(priorities, |buckets|);
    if HasDuplicatePriority(priorities) {
      errors := errors + [DuplicateText];
    }
    var result := ValidationResult(errors == [], errors, warnings, |buckets|, withoutEvents, emptyRules, gaps);
    assert result == Validation(buckets);
    r := ApiResponse(true, Some(result), Some(JStr("Validation completed")), None);
  }

  /** The first loop: each bucket's missing event and missing rules, counted and reported in order. */
  method CheckBuckets(buckets: seq<Bucket>) returns (errors: seq<string>, withoutEvents: nat, emptyRules: nat)
    ensures errors == BucketErrors(buckets)
    ensures withoutEvents == WithoutEvents(buckets) && emptyRules == WithEmptyRules(buckets)
  {
    errors, withoutEvents, emptyRules := [], 0, 0;
    var i := 0;
    while i < |buckets|
      invariant 0 <= i <= |buckets|
      invariant errors == BucketErrors(buckets[..i])
      invariant withoutEvents == WithoutEvents(buckets[..i])
      invariant emptyRules == WithEmptyRules(buckets[..i])
    {
      var bucket := buckets[i];
      CheckStep(buckets, i);
      var own, missingEvent, missingRules := CheckBucket(bucket);
      errors := errors + own;
      withoutEvents := withoutEvents + missingEvent;
      emptyRules := emptyRules + missingRules;
      i := i + 1;
    }
    assert buckets[..i] == buckets;
  }

  /** The body of the first loop for one bucket: its errors, and whether it lacks an event or rules. */
  method CheckBucket(bucket: Bucket) returns (errors: seq<string>, missingEvent: nat, missingRules: nat)
    ensures errors == ErrorsOf(bucket)
    ensures missingEvent == (if HasEvent(bucket) then 0 else 1)
    ensures missingRules == (if HasValidPersonaRules(bucket.personaRules) then 0 else 1)
  {
    errors, missingEvent, missingRules := [], 0, 0;
    if !HasEvent(bucket) {
      missingEvent := 1;
      errors := errors + [NoEventText(bucket.name)];
    }
    if !HasValidPersonaRules(bucket.personaRules) {
      missingRules := 1;
      errors := errors + [NoRulesText(bucket.name)];
    }
  }

  /** What one more bucket adds to the counts and the errors. */
  lemma CheckStep(bs: seq<Bucket>, i: nat)
    requires i < |bs|
    ensures BucketErrors(bs[..i + 1]) == BucketErrors(bs[..i]) + ErrorsOf(bs[i])
    ensures WithoutEvents(bs[..i + 1]) == WithoutEvents(bs[..i]) + (if HasEvent(bs[i]) then 0 else 1)
    ensures WithEmptyRules(bs[..i + 1]) == WithEmptyRules(bs[..i]) + (if HasValidPersonaRules(bs[i].personaRules) then 0 else 1)
  {
    assert bs[..i + 1][..i] == bs[..i] && bs[..i + 1][i] == bs[i];
  }

  /** The second loop: every expected priority 1..n that is missing, with its warning. */
  method FindGaps(priorities: seq<int>, n: nat) returns (gaps: seq<int>, warnings: seq<string>)
    ensures gaps == Gaps(priorities, n) && warnings == GapWarnings(gaps)
  {
    gaps, warnings := [], [];
    var expected := 1;
    while expected <= n
      invariant 1 <= expected <= n + 1
      invariant gaps == Gaps(priorities, expected - 1)
      invariant warnings == GapWarnings(gaps)
    {
      ghost var before := gaps;
      if expected !in priorities {
        gaps := gaps + [expected];
        warnings := warnings + [GapText(expected)];
        assert gaps[..|gaps| - 1] == before;
      }
      assert gaps == Gaps(priorities, expected);
      expected := expected + 1;
    }
  }
}
