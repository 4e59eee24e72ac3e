/**
 * The weeks client (`weeksApi`): the list, count and date-range URLs and the week
 * and season-week paths. Only the URLs are modelled; the requests go through the
 * HTTP client.
 */
module WeeksApi {
  import opened Base
  import opened Query
  import opened Params

  /** `WeekQuery`: `seasonId` and `weekNumber` may be numbers or strings; `sort` is one string. */
  datatype WeekQuery = WeekQuery(
    limit: Option<int>,
    skip: Option<int>,
    seasonId: Option<Scalar>,
    weekNumber: Option<Scalar>,
    startDate: Option<string>,
    endDate: Option<string>,
    sort: Option<string>)

  const NoWeekQuery := WeekQuery(None, None, None, None, None, None, None)

  /** The filters `getWeeksCount` sends: season, week number and the two dates. */
  function CountParams(q: WeekQuery): (r: seq<Param>)
    ensures forall p :: p in r ==> p.key in ["seasonId", "weekNumber", "startDate", "endDate"]
  {
    ScalarParam("seasonId", q.seasonId) + ScalarParam("weekNumber", q.weekNumber)
    + StrParam("startDate", q.startDate) + StrParam("endDate", q.endDate)
  }

  /** `getWeeks(query)`: limit, skip, the count filters, then the sort as one plain pair. */
  function ListParams(q: WeekQuery): seq<Param>
  {
    NumParam("limit", q.limit) + NumParam("skip", q.skip) + CountParams(q) + StrParam("sort", q.sort)
  }

  function WeeksUrl(q: WeekQuery): string
  {
    WithQuery("/weeks", ListParams(q))
  }

  function WeeksCountUrl(q: WeekQuery): string
  {
    WithQuery("/weeks/count", CountParams(q))
  }

  /** With no truthy field, both requests go to the bare path. */
  lemma EmptyQueryUrls()
    ensures WeeksUrl(NoWeekQuery) == "/weeks" && WeeksCountUrl(NoWeekQuery) == "/weeks/count"
  {
    WithQueryShape("/weeks", ListParams(NoWeekQuery));
    WithQueryShape("/weeks/count", CountParams(NoWeekQuery));
  }

  /**
   * The count carries no limit, skip or sort; the list is the same filters between
   * the paging pairs and a single plain `sort` pair.
   */
  lemma CountOmitsPaging(q: WeekQuery)
    ensures forall p :: p in CountParams(q) ==> p.key != "limit" && p.key != "skip" && p.key != "sort"
    ensures var paging := NumParam("limit", q.limit) + NumParam("skip", q.skip);
      ListParams(q)[|paging|..|paging| + |CountParams(q)|] == CountParams(q)
    ensures q.sort.Some? && q.sort.value != "" ==> ListParams(q)[|ListParams(q)| - 1] == Param("sort", q.sort.value)
  {
  }

  /**
   * `seasonId` is checked for truthiness: the number 0 is dropped, while the string
   * '0' is truthy and sent.
   */
  lemma SeasonIdTruthiness(q: WeekQuery)
    ensures q.seasonId == Some(SNum(0)) ==> CountParams(q) == ScalarParam("weekNumber", q.weekNumber)
                                              + StrParam("startDate", q.startDate) + StrParam("endDate", q.endDate)
    ensures q.seasonId == Some(SStr("0")) ==> CountParams(q)[0] == Param("seasonId", "0")
  {
  }

  /** `getWeeksInRange(startDate, endDate)`: both dates always, startDate first. */
  function WeeksInRangeUrl(startDate: string, endDate: string): string
  {
    AlwaysQueryUrl("/weeks/range", [Param("startDate", startDate), Param("endDate", endDate)])
  }

  /** `getWeek`, `updateWeek` and `deleteWeek`: '/weeks/{id}'. */
  function WeekUrl(id: int): string
  {
    IdPath("/weeks", id)
  }

  /** `getWeeksBySeason(seasonId)` */
  function WeeksOfSeasonUrl(seasonId: int): string
  {
    IdAction("/seasons", seasonId, "weeks")
  }

  /** `getWeekBySeasonAndNumber(seasonId, weekNumber)` */
  function WeekBySeasonAndNumberUrl(seasonId: int, weekNumber: int): string
  {
    "/seasons/" + IntToString(seasonId) + "/weeks/" + IntToString(weekNumber)
  }

  /**
   * A season's week path is its weeks path and the week number; different weeks
   * ids never share a path.
   */
  lemma WeekPaths(seasonId: int, weekNumber: int, id: int, other: int)
    ensures WeekBySeasonAndNumberUrl(seasonId, weekNumber) == IdPath(WeeksOfSeasonUrl(seasonId), weekNumber)
    ensures WeekUrl(id) == WeekUrl(other) ==> id == other
  {
    var a, b := IntToString(seasonId), IntToString(weekNumber);
    assert "/seasons/" == "/seasons" + "/";
    assert "/weeks/" == "/" + "weeks" + "/";
    assert WeekBySeasonAndNumberUrl(seasonId, weekNumber) == "/seasons" + "/" + a + "/" + "weeks" + "/" + b;
    if WeekUrl(id) == WeekUrl(other) {
      IdPathInjective("/weeks", id, other);
    }
  }
}
