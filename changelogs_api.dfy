/**
 * The changelogs client (`changelogsApi`): the list, count, entity-history,
 * user-history and date-range URLs. Only the URLs are modelled; the requests go
 * through the HTTP client.
 */
module ChangelogsApi {
  import opened Base
  import opened Query
  import opened Params

  /** `ChangelogQuery`: every field optional. */
  datatype ChangelogQuery = ChangelogQuery(
    entityId: Option<int>,
    entityType: Option<string>,
    modifiedBy: Option<int>,
    startDate: Option<string>,
    endDate: Option<string>,
    limit: Option<int>,
    offset: Option<int>,
    orderBy: Option<string>,
    order: Option<string>)

  const NoChangelogQuery := ChangelogQuery(None, None, None, None, None, None, None, None, None)

  /** `EntityHistoryQuery` and `UserHistoryQuery`: paging and ordering only. */
  datatype HistoryQuery = HistoryQuery(limit: Option<int>, offset: Option<int>, orderBy: Option<string>, order: Option<string>)

  /** The optional part of `DateRangeQuery`. */
  datatype DateRangeOptions = DateRangeOptions(
    entityType: Option<string>,
    modifiedBy: Option<int>,
    limit: Option<int>,
    offset: Option<int>,
    orderBy: Option<string>,
    order: Option<string>)

  /** limit, offset, orderBy and order, each when truthy: the tail every changelog query shares. */
  function PageParams(limit: Option<int>, offset: Option<int>, orderBy: Option<string>, order: Option<string>)
    : (r: seq<Param>)
    ensures |r| <= 4
  {
    NumParam("limit", limit) + NumParam("offset", offset) + StrParam("orderBy", orderBy) + StrParam("order", order)
  }

  /** The nine pairs of `getChangelogs` and `countChangelogs`, in order. */
  function ChangelogParams(q: ChangelogQuery): seq<Param>
  {
    NumParam("entityId", q.entityId) + StrParam("entityType", q.entityType) + NumParam("modifiedBy", q.modifiedBy)
    + StrParam("startDate", q.startDate) + StrParam("endDate", q.endDate)
    + PageParams(q.limit, q.offset, q.orderBy, q.order)
  }

  const ListPath := "/changelogs"
  const CountPath := "/changelogs/count"

  function ChangelogsUrl(q: ChangelogQuery): string
  {
    WithQuery(ListPath, ChangelogParams(q))
  }

  /** `countChangelogs(query)`: the same nine pairs, paging and ordering included. */
  function ChangelogsCountUrl(q: ChangelogQuery): string
  {
    WithQuery(CountPath, ChangelogParams(q))
  }

  /** With no truthy field, both requests go to the bare path. */
  lemma EmptyQueryUrls()
    ensures ChangelogsUrl(NoChangelogQuery) == "/changelogs"
    ensures ChangelogsCountUrl(NoChangelogQuery) == "/changelogs/count"
  {
    WithQueryShape("/changelogs", ChangelogParams(NoChangelogQuery));
    WithQueryShape("/changelogs/count", ChangelogParams(NoChangelogQuery));
  }

  /**
   * The count URL is the list URL with '/count' added to the path: unlike the other
   * clients' counts, it keeps limit, offset and the ordering.
   */
  lemma CountIsListWithCountPath(q: ChangelogQuery)
    ensures |ChangelogsUrl(q)| >= |ListPath|
    ensures ChangelogsCountUrl(q) == CountPath + ChangelogsUrl(q)[|ListPath|..]
  {
    SameQuery(ListPath, CountPath, ChangelogParams(q));
  }

  /** `getEntityHistory(entityId, entityType, query)` */
  function EntityHistoryUrl(entityId: int, entityType: string, q: HistoryQuery): string
  {
    WithQuery(IdPath("/entities", entityId) + "/" + entityType + "/history",
              PageParams(q.limit, q.offset, q.orderBy, q.order))
  }

  /** `getUserHistory(userId, query)` */
  function UserHistoryUrl(userId: int, q: HistoryQuery): string
  {
    WithQuery(IdAction("/users", userId, "changelog-history"), PageParams(q.limit, q.offset, q.orderBy, q.order))
  }

  /** The history queries carry the same paging and ordering pairs the list query ends with. */
  lemma HistoryIsListTail(q: HistoryQuery, c: ChangelogQuery)
    requires c.limit == q.limit && c.offset == q.offset && c.orderBy == q.orderBy && c.order == q.order
    ensures var page := PageParams(q.limit, q.offset, q.orderBy, q.order);
      |ChangelogParams(c)| >= |page| && ChangelogParams(c)[|ChangelogParams(c)| - |page|..] == page
  {
  }

  /** Without paging or ordering the history requests go to the bare path. */
  lemma HistoryBarePaths(entityId: int, entityType: string, userId: int, q: HistoryQuery)
    requires PageParams(q.limit, q.offset, q.orderBy, q.order) == []
    ensures EntityHistoryUrl(entityId, entityType, q) == IdPath("/entities", entityId) + "/" + entityType + "/history"
    ensures UserHistoryUrl(userId, q) == IdAction("/users", userId, "changelog-history")
  {
    var page := PageParams(q.limit, q.offset, q.orderBy, q.order);
    WithQueryShape(IdPath("/entities", entityId) + "/" + entityType + "/history", page);
    WithQueryShape(IdAction("/users", userId, "changelog-history"), page);
  }

  /** `getChangelogsByDateRange(startDate, endDate, query)`: the two dates first, always. */
  function DateRangeParams(startDate: string, endDate: string, q: DateRangeOptions): (r: seq<Param>)
    ensures |r| >= 2 && r[0] == Param("startDate", startDate) && r[1] == Param("endDate", endDate)
  {
    [Param("startDate", startDate), Param("endDate", endDate)]
    + StrParam("entityType", q.entityType) + NumParam("modifiedBy", q.modifiedBy)
    + PageParams(q.limit, q.offset, q.orderBy, q.order)
  }

  const DateRangePath := "/changelogs/date-range"

  /**
   * The date-range URL always has '?', and its query always splits into the two
   * date pairs first, even when the dates are empty.
   */
  function DateRangeUrl(startDate: string, endDate: string, q: DateRangeOptions): (r: string)
    ensures |r| > |DateRangePath| && r[..|DateRangePath| + 1] == DateRangePath + "?"
    ensures var parts := Split(r[|DateRangePath| + 1..], '&');
      |parts| >= 2 && parts[0] == PairText(Param("startDate", startDate)) && parts[1] == PairText(Param("endDate", endDate))
  {
    AlwaysQueryUrl(DateRangePath, DateRangeParams(startDate, endDate, q))
  }
}
