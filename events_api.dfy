/**
 * The events client (`eventsApi`): the list and count URLs and the id, publish and
 * archive endpoints. Only the URLs are modelled; the requests go through the HTTP
 * client.
 */
module EventsApi {
  import opened Base
  import opened Query
  import opened Params

  /** `EventQuery`: every field optional. */
  datatype EventQuery = EventQuery(
    status: Option<string>,
    startDateFrom: Option<string>,
    startDateTo: Option<string>,
    endDateFrom: Option<string>,
    endDateTo: Option<string>,
    searchName: Option<string>,
    searchDescription: Option<string>,
    limit: Option<int>,
    skip: Option<int>,
    sort: Option<FieldOrder>,
    select: Option<seq<string>>)

  const NoEventQuery := EventQuery(None, None, None, None, None, None, None, None, None, None, None)

  predicate FilterKey(k: string)
  {
    k == "status" || k == "startDateFrom" || k == "startDateTo" || k == "endDateFrom" || k == "endDateTo"
    || k == "searchName" || k == "searchDescription"
  }

  /** The status, date-range and search fields, in the order both list and count append them. */
  function FilterParams(q: EventQuery): (r: seq<Param>)
    ensures forall p :: p in r ==> FilterKey(p.key)
  {
    StrParam("status", q.status) + StrParam("startDateFrom", q.startDateFrom)
    + StrParam("startDateTo", q.startDateTo) + StrParam("endDateFrom", q.endDateFrom)
    + StrParam("endDateTo", q.endDateTo) + StrParam("searchName", q.searchName)
    + StrParam("searchDescription", q.searchDescription)
  }

  /** `getEvents(query)`: the filters, then limit, skip, the two sort pairs and one pair per selected field. */
  function ListParams(q: EventQuery): seq<Param>
  {
    FilterParams(q) + NumParam("limit", q.limit) + NumParam("skip", q.skip)
    + SortFieldOrder(q.sort) + Select(q.select)
  }

  function EventsUrl(q: EventQuery): string
  {
    WithQuery("/events", ListParams(q))
  }

  /** `getEventsCount(query)`: the filters only. */
  function EventsCountUrl(q: EventQuery): string
  {
    WithQuery("/events/count", FilterParams(q))
  }

  /** No filter key is a paging, sort or select key. */
  lemma FilterKeysArePlain(k: string)
    requires FilterKey(k)
    ensures k != "limit" && k != "skip" && k != "select" && !StartsWith(k, "sort[")
  {
    assert k[0] != 's' || k[1] == 't' || (k[1] == 'e' && k[2] == 'a');
  }

  /**
   * The count URL never carries limit, skip, sort or select; the list query starts
   * with the same filter pairs and then adds limit and skip when truthy, two pairs
   * for a sort and one per selected field.
   */
  lemma CountOmitsPaging(q: EventQuery)
    ensures forall p :: p in FilterParams(q) ==>
              p.key != "limit" && p.key != "skip" && p.key != "select" && !StartsWith(p.key, "sort[")
    ensures ListParams(q)[..|FilterParams(q)|] == FilterParams(q)
    ensures |ListParams(q)| == |FilterParams(q)| + |NumParam("limit", q.limit)| + |NumParam("skip", q.skip)|
      + (if q.sort.Some? then 2 else 0) + (if q.select.Some? then |q.select.value| else 0)
  {
    forall p | p in FilterParams(q)
      ensures p.key != "limit" && p.key != "skip" && p.key != "select" && !StartsWith(p.key, "sort[")
    {
      FilterKeysArePlain(p.key);
    }
  }

  /** With no truthy field, both requests go to the bare path. */
  lemma EmptyQueryUrls()
    ensures EventsUrl(NoEventQuery) == "/events" && EventsCountUrl(NoEventQuery) == "/events/count"
  {
    WithQueryShape("/events", ListParams(NoEventQuery));
    WithQueryShape("/events/count", FilterParams(NoEventQuery));
  }

  /** A sort is sent as `sort[field]` then `sort[order]`, right before the selected fields. */
  lemma SortBeforeSelect(q: EventQuery)
    requires q.sort.Some?
    ensures var n := |FilterParams(q)| + |NumParam("limit", q.limit)| + |NumParam("skip", q.skip)|;
      ListParams(q)[n] == Param("sort[field]", q.sort.value.field)
      && ListParams(q)[n + 1] == Param("sort[order]", q.sort.value.order)
      && ListParams(q)[n + 2..] == Select(q.select)
  {
  }

  const PublishedEventsUrl := "/events/published"
  const DraftEventsUrl := "/events/drafts"

  /** `getEvent`, `updateEvent` and `deleteEvent`: '/events/{id}'. */
  function EventUrl(id: int): string
  {
    IdPath("/events", id)
  }

  function PublishUrl(id: int): string
  {
    IdAction("/events", id, "publish")
  }

  function ArchiveUrl(id: int): string
  {
    IdAction("/events", id, "archive")
  }

  /**
   * Publish and archive are the event's own path and one more segment, never the
   * same path, and different events never share a path.
   */
  lemma EventPaths(id: int, other: int)
    ensures PublishUrl(id) == EventUrl(id) + "/publish"
    ensures ArchiveUrl(id) == EventUrl(id) + "/archive"
    ensures PublishUrl(id) != ArchiveUrl(id)
    ensures EventUrl(id) == EventUrl(other) ==> id == other
  {
    var n := |EventUrl(id)| + 1;
    assert PublishUrl(id)[n] == 'p' && ArchiveUrl(id)[n] == 'a';
    if EventUrl(id) == EventUrl(other) {
      IdPathInjective("/events", id, other);
    }
  }
}
