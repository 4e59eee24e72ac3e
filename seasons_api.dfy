/**
 * The seasons client (`seasonsApi`): the list, count and date-range URLs and the
 * id endpoints. Only the URLs are modelled; the requests go through the HTTP
 * client.
 */
module SeasonsApi {
  import opened Base
  import opened Query
  import opened Params

  /** `SeasonQuery`: every field optional. */
  datatype SeasonQuery = SeasonQuery(
    status: Option<string>,
    startDateFrom: Option<string>,
    startDateTo: Option<string>,
    endDateFrom: Option<string>,
    endDateTo: Option<string>,
    search: Option<string>,
    limit: Option<int>,
    skip: Option<int>,
    sort: Option<FieldOrder>,
    select: Option<seq<string>>)

  const NoSeasonQuery := SeasonQuery(None, None, None, None, None, None, None, None, None, None)

  predicate FilterKey(k: string)
  {
    k == "status" || k == "startDateFrom" || k == "startDateTo" || k == "endDateFrom" || k == "endDateTo"
    || k == "search"
  }

  /** The status, date-range and search fields, in the order both list and count append them. */
  function FilterParams(q: SeasonQuery): (r: seq<Param>)
    ensures forall p :: p in r ==> FilterKey(p.key)
  {
    StrParam("status", q.status) + StrParam("startDateFrom", q.startDateFrom)
    + StrParam("startDateTo", q.startDateTo) + StrParam("endDateFrom", q.endDateFrom)
    + StrParam("endDateTo", q.endDateTo) + StrParam("search", q.search)
  }

  /** `getSeasons(query)`: the filters, then limit, skip, the two sort pairs and one pair per selected field. */
  function ListParams(q: SeasonQuery): seq<Param>
  {
    FilterParams(q) + NumParam("limit", q.limit) + NumParam("skip", q.skip)
    + SortFieldOrder(q.sort) + Select(q.select)
  }

  function SeasonsUrl(q: SeasonQuery): string
  {
    WithQuery("/seasons", ListParams(q))
  }

  /** `getSeasonsCount(query)`: the filters only. */
  function SeasonsCountUrl(q: SeasonQuery): string
  {
    WithQuery("/seasons/count", FilterParams(q))
  }

  /** No filter key is a paging, sort or select key. */
  lemma FilterKeysArePlain(k: string)
    requires FilterKey(k)
    ensures k != "limit" && k != "skip" && k != "select" && !StartsWith(k, "sort[")
  {
    assert k[0] != 's' || k[1] == 't' || (k[1] == 'e' && k[2] == 'a');
  }

  /**
   * The count URL never carries limit, skip, sort or select; the list query starts
   * with the same filter pairs and then adds limit and skip when truthy, two pairs
   * for a sort and one per selected field.
   */
  lemma CountOmitsPaging(q: SeasonQuery)
    ensures forall p :: p in FilterParams(q) ==>
              p.key != "limit" && p.key != "skip" && p.key != "select" && !StartsWith(p.key, "sort[")
    ensures ListParams(q)[..|FilterParams(q)|] == FilterParams(q)
    ensures |ListParams(q)| == |FilterParams(q)| + |NumParam("limit", q.limit)| + |NumParam("skip", q.skip)|
      + (if q.sort.Some? then 2 else 0) + (if q.select.Some? then |q.select.value| else 0)
  {
    forall p | p in FilterParams(q)
      ensures p.key != "limit" && p.key != "skip" && p.key != "select" && !StartsWith(p.key, "sort[")
    {
      FilterKeysArePlain(p.key);
    }
  }

  /** With no truthy field, both requests go to the bare path. */
  lemma EmptyQueryUrls()
    ensures SeasonsUrl(NoSeasonQuery) == "/seasons" && SeasonsCountUrl(NoSeasonQuery) == "/seasons/count"
  {
    WithQueryShape("/seasons", ListParams(NoSeasonQuery));
    WithQueryShape("/seasons/count", FilterParams(NoSeasonQuery));
  }

  /** A sort is sent as `sort[field]` then `sort[order]`, right before the selected fields. */
  lemma SortBeforeSelect(q: SeasonQuery)
    requires q.sort.Some?
    ensures var n := |FilterParams(q)| + |NumParam("limit", q.limit)| + |NumParam("skip", q.skip)|;
      ListParams(q)[n] == Param("sort[field]", q.sort.value.field)
      && ListParams(q)[n + 1] == Param("sort[order]", q.sort.value.order)
      && ListParams(q)[n + 2..] == Select(q.select)
  {
  }

  const ActiveSeasonsUrl := "/seasons/active"
  const DraftSeasonsUrl := "/seasons/draft"

  /** `getSeasonsInRange(startDate, endDate)`: both dates always, startDate first. */
  function SeasonsInRangeUrl(startDate: string, endDate: string): string
  {
    AlwaysQueryUrl("/seasons/range", [Param("startDate", startDate), Param("endDate", endDate)])
  }

  /** `getSeason`, `updateSeason` and `deleteSeason`: '/seasons/{id}'. */
  function SeasonUrl(id: int): string
  {
    IdPath("/seasons", id)
  }

  function ValidatePublishUrl(id: int): string
  {
    IdAction("/seasons", id, "validate-publish")
  }

  function PublishUrl(id: int): string
  {
    IdAction("/seasons", id, "publish")
  }

  function WeeksOfSeasonUrl(id: int): string
  {
    IdAction("/seasons", id, "weeks")
  }

  /**
   * The id endpoints: each action path is the season's own path and one more
   * segment, and different seasons never share a path.
   */
  lemma SeasonPaths(id: int, other: int)
    ensures ValidatePublishUrl(id) == SeasonUrl(id) + "/validate-publish"
    ensures PublishUrl(id) == SeasonUrl(id) + "/publish"
    ensures WeeksOfSeasonUrl(id) == SeasonUrl(id) + "/weeks"
    ensures SeasonUrl(id) == SeasonUrl(other) ==> id == other
  {
    if SeasonUrl(id) == SeasonUrl(other) {
      IdPathInjective("/seasons", id, other);
    }
  }
}
