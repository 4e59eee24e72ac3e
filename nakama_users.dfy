/**
 * The game-user table (`useNakamaUsers`): the request parameters for one page,
 * the inputs of its cache key, the paging flags, the chat-role label and colour,
 * and the page state that loading, searching, sorting and filtering update.
 *
 * The fetch (through request tracking, the one-minute cache and the loading
 * wrapper) is a parameter: its outcome is handed in.
 */
module NakamaUsers {
  import opened Base
  import opened Query
  import UsersApi
  import CacheStore
  import UiStore
  import ErrorHandler

  type Value = UsersApi.Value

  // ---------------------------------------------------------------------------
  // Request parameters

  /** `params[key] = value` on a plain object: an existing key keeps its place and takes the value. */
  function Assign(ps: seq<(string, Scalar)>, key: string, v: Scalar): (r: seq<(string, Scalar)>)
    ensures |r| == |ps| || |r| == |ps| + 1
  {
    if ps == [] then [(key, v)]
    else if ps[0].0 == key then [(key, v)] + ps[1..]
    else [ps[0]] + Assign(ps[1..], key, v)
  }

  /** `params[key]`: the value of the first pair with that key. */
  function Lookup(ps: seq<(string, Scalar)>, key: string): Option<Scalar>
  {
    if ps == [] then None
    else if ps[0].0 == key then Some(ps[0].1)
    else Lookup(ps[1..], key)
  }

  /** After `params[key] = v`, the key reads `v` and every other key reads as before. */
  lemma {:induction false} LookupAssign(ps: seq<(string, Scalar)>, key: string, v: Scalar, other: string)
    ensures Lookup(Assign(ps, key, v), key) == Some(v)
    ensures other != key ==> Lookup(Assign(ps, key, v), other) == Lookup(ps, other)
  {
    if ps != [] && ps[0].0 != key {
      LookupAssign(ps[1..], key, v, other);
    }
  }

  /** A filter value is sent unless it is null, undefined or ''. */
  predicate Sent(v: Value)
  {
    UsersApi.Present(v) && v != UsersApi.Prim(SStr(""))
  }

  /** The filters written over `ps`, in the order of `activeFilters`. */
  function AssignFilters(ps: seq<(string, Scalar)>, filters: seq<(string, Value)>): seq<(string, Scalar)>
  {
    if filters == [] then ps
    else
      var last := filters[|filters| - 1];
      var before := AssignFilters(ps, filters[..|filters| - 1]);
      if Sent(last.1) then Assign(before, last.0, SStr(UsersApi.ValueText(last.1))) else before
  }

  /** `{ [sortBy]: sortOrder }` as JSON, then `encodeURIComponent`. */
  function SortParam(sortBy: string, sortOrder: string): string
  {
    EncodeUriComponent(Stringify(JObj([(sortBy, JStr(sortOrder))])))
  }

  /** `limit` and `skip`: 10000 and 0 for "All" (-1), else the page's offset. */
  function PagingPart(page: int, limit: int): (r: seq<(string, Scalar)>)
    ensures |r| == 2
  {
    [("limit", SNum(if limit == -1 then 10000 else limit)),
     ("skip", SNum(if limit == -1 then 0 else (page - 1) * limit))]
  }

  /** `search`: the trimmed term, unless it is blank. */
  function SearchPart(searchTerm: string): (r: seq<(string, Scalar)>)
    ensures |r| <= 1
  {
    if Trim(searchTerm) != "" then [("search", SStr(Trim(searchTerm)))] else []
  }

  /** `sort`: only when both the field and the order are set. */
  function SortPart(sortBy: string, sortOrder: string): (r: seq<(string, Scalar)>)
    ensures |r| <= 1
  {
    if sortBy != "" && sortOrder != "" then [("sort", SStr(SortParam(sortBy, sortOrder)))] else []
  }

  /** The parameters before the filters: paging, then the search, then the sort. */
  function BaseParams(page: int, limit: int, searchTerm: string, sortBy: string, sortOrder: string): seq<(string, Scalar)>
  {
    PagingPart(page, limit) + SearchPart(searchTerm) + SortPart(sortBy, sortOrder)
  }

  /** The paging, search and sort entries `loadUsers` writes before the filters. */
  method BuildBaseParams(page: int, limit: int, searchTerm: string, sortBy: string, sortOrder: string)
    returns (params: seq<(string, Scalar)>)
    ensures params == BaseParams(page, limit, searchTerm, sortBy, sortOrder)
  {
    if limit == -1 {
      params := [("limit", SNum(10000)), ("skip", SNum(0))];
    } else {
      params := [("limit", SNum(limit)), ("skip", SNum((page - 1) * limit))];
    }
    assert params == PagingPart(page, limit);
    ghost var paging := params;
    var term := Trim(searchTerm);
    if term != "" {
      params := params + [("search", SStr(term))];
    }
    assert params == paging + SearchPart(searchTerm);
    ghost var searched := params;
    if sortBy != "" && sortOrder != "" {
      params := params + [("sort", SStr(SortParam(sortBy, sortOrder)))];
    }
    assert params == searched + SortPart(sortBy, sortOrder);
  }

  /**
   * The `params` object `loadUsers` builds: limit and skip (10000 and 0 for "All"),
   * the search when the trimmed term is not blank, the sort when both parts are
   * set, then every filter whose value is sent, as its text.
   */
  method BuildLoadParams(page: int, limit: int, searchTerm: string, sortBy: string, sortOrder: string,
                         filters: seq<(string, Value)>) returns (params: seq<(string, Scalar)>)
    ensures params == AssignFilters(BaseParams(page, limit, searchTerm, sortBy, sortOrder), filters)
  {
    params := BuildBaseParams(page, limit, searchTerm, sortBy, sortOrder);
    ghost var base := params;
    var i := 0;
    while i < |filters|
      invariant 0 <= i <= |filters|
      invariant params == AssignFilters(base, filters[..i])
    {
      assert filters[..i + 1][..i] == filters[..i];
      var (key, value) := filters[i];
      if value != UsersApi.Null && value != UsersApi.Undefined && value != UsersApi.Prim(SStr("")) {
        params := Assign(params, key, SStr(UsersApi.ValueText(value)));
      }
      i := i + 1;
    }
    assert filters[..|filters|] == filters;
  }

  /** `params[key]` on a concatenation: the first part wins when it has the key. */
  lemma {:induction false} LookupAppend(a: seq<(string, Scalar)>, b: seq<(string, Scalar)>, key: string)
    ensures Lookup(a, key).Some? ==> Lookup(a + b, key) == Lookup(a, key)
    ensures Lookup(a, key).None? ==> Lookup(a + b, key) == Lookup(b, key)
  {
    if a != [] {
      assert (a + b)[0] == a[0];
      assert (a + b)[1..] == a[1..] + b;
      LookupAppend(a[1..], b, key);
    } else {
      assert a + b == b;
    }
  }

  /** `params[key]` is undefined when no pair has that key. */
  lemma {:induction false} LookupAbsent(ps: seq<(string, Scalar)>, key: string)
    requires forall i :: 0 <= i < |ps| ==> ps[i].0 != key
    ensures Lookup(ps, key) == None
  {
    if ps != [] {
      LookupAbsent(ps[1..], key);
    }
  }

  /** "All" asks for 10000 users from the start; a page size asks for that page. */
  lemma PagingParams(page: int, limit: int, searchTerm: string, sortBy: string, sortOrder: string)
    ensures limit == -1 ==> Lookup(BaseParams(page, limit, searchTerm, sortBy, sortOrder), "limit") == Some(SNum(10000))
                            && Lookup(BaseParams(page, limit, searchTerm, sortBy, sortOrder), "skip") == Some(SNum(0))
    ensures limit != -1 ==> Lookup(BaseParams(page, limit, searchTerm, sortBy, sortOrder), "limit") == Some(SNum(limit))
                            && Lookup(BaseParams(page, limit, searchTerm, sortBy, sortOrder), "skip") == Some(SNum((page - 1) * limit))
  {
    var paging := PagingPart(page, limit);
    var rest := SearchPart(searchTerm) + SortPart(sortBy, sortOrder);
    assert BaseParams(page, limit, searchTerm, sortBy, sortOrder) == paging + rest;
    assert paging[1..][0] == paging[1];
    LookupAppend(paging, rest, "limit");
    LookupAppend(paging, rest, "skip");
  }

  /** The search is sent, trimmed, exactly when the trimmed term is not blank. */
  lemma SearchParam(page: int, limit: int, searchTerm: string, sortBy: string, sortOrder: string)
    ensures Trim(searchTerm) != "" ==> Lookup(BaseParams(page, limit, searchTerm, sortBy, sortOrder), "search") == Some(SStr(Trim(searchTerm)))
    ensures Trim(searchTerm) == "" ==> Lookup(BaseParams(page, limit, searchTerm, sortBy, sortOrder), "search") == None
  {
    var paging := PagingPart(page, limit);
    var search, sort := SearchPart(searchTerm), SortPart(sortBy, sortOrder);
    assert BaseParams(page, limit, searchTerm, sortBy, sortOrder) == paging + (search + sort);
    assert |paging[0].0| == 5 && |paging[1].0| == 4;
    LookupAbsent(paging, "search");
    LookupAppend(paging, search + sort, "search");
    LookupAppend(search, sort, "search");
    assert forall i :: 0 <= i < |sort| ==> |sort[i].0| == 4;
    LookupAbsent(sort, "search");
    assert search != [] ==> search[0] == ("search", SStr(Trim(searchTerm)));
  }

  /** A blank search term adds nothing between the paging and the sort. */
  lemma BlankSearchNotSent(page: int, limit: int, searchTerm: string, sortBy: string, sortOrder: string)
    requires forall i :: 0 <= i < |searchTerm| ==> IsSpace(searchTerm[i])
    ensures BaseParams(page, limit, searchTerm, sortBy, sortOrder) == PagingPart(page, limit) + SortPart(sortBy, sortOrder)
  {
    TrimEmpty(searchTerm);
    var paging := PagingPart(page, limit);
    assert SearchPart(searchTerm) == [];
    assert paging + [] == paging;
  }

  /** A filter that is null, undefined or '' leaves the parameters as they were. */
  lemma UnsentFilterIgnored(ps: seq<(string, Scalar)>, filters: seq<(string, Value)>, key: string, v: Value)
    requires !Sent(v)
    ensures AssignFilters(ps, filters + [(key, v)]) == AssignFilters(ps, filters)
  {
    assert (filters + [(key, v)])[..|filters|] == filters;
  }

  /** A sent filter reads as its text, and 0 and false are sent. */
  lemma SentFilterRead(ps: seq<(string, Scalar)>, filters: seq<(string, Value)>, key: string, v: Value)
    requires Sent(v)
    ensures Lookup(AssignFilters(ps, filters + [(key, v)]), key) == Some(SStr(UsersApi.ValueText(v)))
    ensures Sent(UsersApi.Prim(SNum(0))) && Sent(UsersApi.Prim(SBool(false)))
  {
    assert (filters + [(key, v)])[..|filters|] == filters;
    LookupAssign(AssignFilters(ps, filters), key, SStr(UsersApi.ValueText(v)), key);
  }

  // ---------------------------------------------------------------------------
  // Cache key

  /** `JSON.stringify` of one filter value; undefined members are dropped. */
  function ValueJson(v: Value): Json
    requires v != UsersApi.Undefined
  {
    match v
    case Null => JNull
    case Prim(SStr(s)) => JStr(s)
    case Prim(SNum(n)) => JNum(n)
    case Prim(SBool(b)) => JBool(b)
    case Obj(j) => j
  }

  function FilterMembers(filters: seq<(string, Value)>): seq<(string, Json)>
  {
    if filters == [] then []
    else (if filters[0].1 == UsersApi.Undefined then [] else [(filters[0].0, ValueJson(filters[0].1))])
         + FilterMembers(filters[1..])
  }

  /** The object handed to `generateKey`, with its values rendered as template literals render them. */
  function CacheKeyParams(page: int, limit: int, searchTerm: string, sortBy: string, sortOrder: string,
                          filters: seq<(string, Value)>): (r: seq<(string, string)>)
    ensures |r| == 6
  {
    [("page", IntToString(page)), ("limit", IntToString(limit)), ("search", searchTerm),
     ("sortBy", sortBy), ("sortOrder", sortOrder), ("filters", Stringify(JObj(FilterMembers(filters))))]
  }

  /** The six keys are distinct, and each reads back the value it was given. */
  lemma CacheKeyParamsRead(page: int, limit: int, searchTerm: string, sortBy: string, sortOrder: string,
                           filters: seq<(string, Value)>)
    ensures var r := CacheKeyParams(page, limit, searchTerm, sortBy, sortOrder, filters);
      && CacheStore.DistinctKeys(r)
      && CacheStore.Lookup(r, "page") == IntToString(page)
      && CacheStore.Lookup(r, "limit") == IntToString(limit)
      && CacheStore.Lookup(r, "search") == searchTerm
      && CacheStore.Lookup(r, "sortBy") == sortBy
      && CacheStore.Lookup(r, "sortOrder") == sortOrder
      && CacheStore.Lookup(r, "filters") == Stringify(JObj(FilterMembers(filters)))
  {
    var r := CacheKeyParams(page, limit, searchTerm, sortBy, sortOrder, filters);
    var keys := ["page", "limit", "search", "sortBy", "sortOrder", "filters"];
    assert forall i :: 0 <= i < 6 ==> r[i].0 == keys[i];
    assert |keys[0]| == 4 && |keys[1]| == 5 && |keys[2]| == 6 && |keys[3]| == 6 && |keys[4]| == 9 && |keys[5]| == 7;
    assert keys[2][1] != keys[3][1];
    assert CacheStore.DistinctKeys(r);
    CacheStore.LookupFinds(r, 0);
    CacheStore.LookupFinds(r, 1);
    CacheStore.LookupFinds(r, 2);
    CacheStore.LookupFinds(r, 3);
    CacheStore.LookupFinds(r, 4);
    CacheStore.LookupFinds(r, 5);
  }

  /** The key under which one page of results is cached. */
  function CacheKey(page: int, limit: int, searchTerm: string, sortBy: string, sortOrder: string,
                    filters: seq<(string, Value)>): string
  {
    CacheStore.GenerateKey("nakama-users", CacheKeyParams(page, limit, searchTerm, sortBy, sortOrder, filters))
  }

  // ---------------------------------------------------------------------------
  // Role label and colour

  /** `getChatRoleColor(role)`; `null` and `undefined` give grey. */
  function ChatRoleColor(role: Option<int>): (r: string)
    ensures r == "grey" <==> role.None? || role.value !in {0, 1, 2}
  {
    if role.None? then "grey"
    else if role.value == 0 then "blue"
    else if role.value == 1 then "orange"
    else if role.value == 2 then "red"
    else "grey"
  }

  /** `getChatRoleLabel(role)` */
  function ChatRoleLabel(role: Option<int>): (r: string)
    ensures r == "Unknown" <==> role.None? || role.value !in {0, 1, 2}
  {
    if role.None? then "Unknown"
    else if role.value == 0 then "User"
    else if role.value == 1 then "Mod"
    else if role.value == 2 then "Admin"
    else "Unknown"
  }

  /** The label and the colour pick the same role: User/blue, Mod/orange, Admin/red, Unknown/grey. */
  lemma LabelMatchesColour(role: Option<int>)
    ensures ChatRoleLabel(role) == "User" <==> ChatRoleColor(role) == "blue"
    ensures ChatRoleLabel(role) == "Mod" <==> ChatRoleColor(role) == "orange"
    ensures ChatRoleLabel(role) == "Admin" <==> ChatRoleColor(role) == "red"
    ensures ChatRoleLabel(role) == "Unknown" <==> ChatRoleColor(role) == "grey"
  {
  }

  // ---------------------------------------------------------------------------
  // Page state

  /** `NAKAMA_ITEMS_PER_PAGE_OPTIONS`: the page sizes the table offers, -1 meaning all. */
  predicate PageSizeOption(n: int)
  {
    n == 10 || n == 25 || n == 50 || n == 100 || n == -1
  }

  /** `totalPages`: 1 for "All", else the number of pages needed for `total`. */
  function TotalPages(total: nat, perPage: int): (r: int)
    requires perPage == -1 || perPage > 0
    ensures perPage == -1 ==> r == 1
    ensures perPage > 0 ==> r >= 0 && (r - 1) * perPage < total <= r * perPage
  {
    if perPage == -1 then 1 else CeilDiv(total, perPage)
  }

  /** A fetched page: its users and the total the server reports. */
  datatype PageData = PageData(users: seq<Json>, total: nat)

  /** What `loadUsers` ends with: the fetched page, or what the request threw. */
  datatype Fetch = Loaded(data: PageData) | Failed(error: ErrorHandler.Thrown)

  /** A notification the table shows: its kind and its text. */
  datatype Notice = Notice(kind: UiStore.Kind, text: string)

  /**
   * The catch of `loadUsers`: `handleApiError(error)` picks the message and
   * `showError` shows it before the error is rethrown.
   */
  function FailureNotice(e: ErrorHandler.Thrown): (r: Notice)
    ensures r.kind == UiStore.Error && r.text == ErrorHandler.ExtractMessage(e)
    ensures e.ObjErr? ==> r.text != ""
    ensures e.StrErr? ==> r.text == e.text
  {
    Notice(UiStore.Error, ErrorHandler.InfoOf(e, 0).message)
  }

  class NakamaUsersTable {
    var currentUsers: seq<Json>
    var currentPage: int
    var itemsPerPage: int
    var totalUsers: nat
    var searchTerm: string
    var searchField: string
    var sortBy: string
    var sortOrder: string
    var activeFilters: seq<(string, Value)>

    predicate Valid()
      reads this
    {
      PageSizeOption(itemsPerPage)
    }

    constructor()
      ensures Valid()
      ensures currentUsers == [] && currentPage == 1 && itemsPerPage == 10 && totalUsers == 0
      ensures searchTerm == "" && searchField == "username" && sortBy == "username" && sortOrder == "asc"
      ensures activeFilters == []
    {
      currentUsers := [];
      currentPage := 1;
      itemsPerPage := 10;
      totalUsers := 0;
      searchTerm := "";
      searchField := "username";
      sortBy := "username";
      sortOrder := "asc";
      activeFilters := [];
    }

    function Pages(): int
      reads this
      requires Valid()
    {
      TotalPages(totalUsers, itemsPerPage)
    }

    /** `hasNextPage` */
    predicate HasNextPage()
      reads this
      requires Valid()
    {
      itemsPerPage != -1 && currentPage < Pages()
    }

    /** `hasPreviousPage` */
    predicate HasPreviousPage()
      reads this
      requires Valid()
    {
      itemsPerPage != -1 && currentPage > 1
    }

    /**
     * `loadPage(page)`: the request for that page under the current search, sort
     * and filters; on success the users, the total and the page are replaced and
     * an info notice names the page; on failure they are kept, the error notice
     * of `loadUsers` is shown and the error is rethrown.
     */
    method LoadPage(page: int, fetched: Fetch) returns (params: seq<(string, Scalar)>, notice: Option<Notice>)
      requires Valid()
      modifies this
      ensures Valid()
      ensures params == AssignFilters(BaseParams(page, old(itemsPerPage), old(searchTerm), old(sortBy), old(sortOrder)), old(activeFilters))
      ensures itemsPerPage == old(itemsPerPage) && searchTerm == old(searchTerm) && searchField == old(searchField)
      ensures sortBy == old(sortBy) && sortOrder == old(sortOrder) && activeFilters == old(activeFilters)
      ensures fetched.Loaded? ==> currentUsers == fetched.data.users && totalUsers == fetched.data.total && currentPage == page
      ensures fetched.Loaded? ==> notice == Some(Notice(UiStore.Info, "Loaded page " + IntToString(page) + " with " + IntToString(|fetched.data.users|) + " users"))
      ensures fetched.Failed? ==> currentUsers == old(currentUsers) && totalUsers == old(totalUsers) && currentPage == old(currentPage)
      ensures fetched.Failed? ==> notice == Some(FailureNotice(fetched.error))
    {
      params := BuildLoadParams(page, itemsPerPage, searchTerm, sortBy, sortOrder, activeFilters);
      notice := StorePage(page, fetched);
    }

    /** After the fetch in `loadPage`: the fetched page replaces the shown one, or the failure is reported. */
    method StorePage(page: int, fetched: Fetch) returns (notice: Option<Notice>)
      modifies this
      ensures itemsPerPage == old(itemsPerPage) && searchTerm == old(searchTerm) && searchField == old(searchField)
      ensures sortBy == old(sortBy) && sortOrder == old(sortOrder) && activeFilters == old(activeFilters)
      ensures fetched.Loaded? ==> currentUsers == fetched.data.users && totalUsers == fetched.data.total && currentPage == page
      ensures fetched.Loaded? ==> notice == Some(Notice(UiStore.Info, "Loaded page " + IntToString(page) + " with " + IntToString(|fetched.data.users|) + " users"))
      ensures fetched.Failed? ==> currentUsers == old(currentUsers) && totalUsers == old(totalUsers) && currentPage == old(currentPage)
      ensures fetched.Failed? ==> notice == Some(FailureNotice(fetched.error))
    {
      if fetched.Loaded? {
        currentUsers := fetched.data.users;
        totalUsers := fetched.data.total;
        currentPage := page;
        notice := Some(Notice(UiStore.Info, "Loaded page " + IntToString(page) + " with " + IntToString(|fetched.data.users|) + " users"));
      } else {
        notice := Some(FailureNotice(fetched.error));
      }
    }

    /**
     * `loadInitialUsers()`: page 1, with a success notice only when some users came
     * back; a failure keeps the page and shows the error notice of `loadUsers`.
     */
    method LoadInitialUsers(fetched: Fetch) returns (params: seq<(string, Scalar)>, notice: Option<Notice>)
      requires Valid()
      modifies this
      ensures Valid()
      ensures params == AssignFilters(BaseParams(1, old(itemsPerPage), old(searchTerm), old(sortBy), old(sortOrder)), old(activeFilters))
      ensures itemsPerPage == old(itemsPerPage) && searchTerm == old(searchTerm) && searchField == old(searchField)
      ensures sortBy == old(sortBy) && sortOrder == old(sortOrder) && activeFilters == old(activeFilters)
      ensures fetched.Loaded? ==> currentUsers == fetched.data.users && totalUsers == fetched.data.total && currentPage == 1
      ensures notice.None? <==> fetched.Loaded? && |fetched.data.users| == 0
      ensures fetched.Loaded? && notice.Some? ==>
        notice.value == Notice(UiStore.Success, "Loaded " + IntToString(|fetched.data.users|) + " users successfully")
      ensures fetched.Failed? ==> currentUsers == old(currentUsers) && totalUsers == old(totalUsers) && currentPage == old(currentPage)
      ensures fetched.Failed? ==> notice == Some(FailureNotice(fetched.error))
    {
      params := BuildLoadParams(1, itemsPerPage, searchTerm, sortBy, sortOrder, activeFilters);
      notice := None;
      if fetched.Loaded? {
        currentUsers := fetched.data.users;
        totalUsers := fetched.data.total;
        currentPage := 1;
        if |fetched.data.users| > 0 {
          notice := Some(Notice(UiStore.Success, "Loaded " + IntToString(|fetched.data.users|) + " users successfully"));
        }
      } else {
        notice := Some(FailureNotice(fetched.error));
      }
    }

    /**
     * `updateItemsPerPage(n)`: the new size, then page 1. The size stays changed
     * when the load fails.
     */
    method UpdateItemsPerPage(n: int, fetched: Fetch) returns (params: seq<(string, Scalar)>, notice: Option<Notice>)
      requires Valid() && PageSizeOption(n)
      modifies this
      ensures Valid() && itemsPerPage == n
      ensures searchTerm == old(searchTerm) && searchField == old(searchField)
      ensures sortBy == old(sortBy) && sortOrder == old(sortOrder) && activeFilters == old(activeFilters)
      ensures params == AssignFilters(BaseParams(1, n, old(searchTerm), old(sortBy), old(sortOrder)), old(activeFilters))
      ensures fetched.Loaded? ==> currentUsers == fetched.data.users && totalUsers == fetched.data.total && currentPage == 1
      ensures fetched.Loaded? ==> notice == Some(Notice(UiStore.Info, "Loaded page " + IntToString(1) + " with " + IntToString(|fetched.data.users|) + " users"))
      ensures fetched.Failed? ==> currentUsers == old(currentUsers) && totalUsers == old(totalUsers) && currentPage == old(currentPage)
      ensures fetched.Failed? ==> notice == Some(FailureNotice(fetched.error))
    {
      itemsPerPage := n;
      assert Valid();
      params, notice := LoadPage(1, fetched);
      assert itemsPerPage == n;
    }

    /** `searchUsers(term, field)`: the new search, then page 1; it stays set when the load fails. */
    method SearchUsers(term: string, field: string, fetched: Fetch) returns (params: seq<(string, Scalar)>, notice: Option<Notice>)
      requires Valid()
      modifies this
      ensures Valid() && searchTerm == term && searchField == field
      ensures itemsPerPage == old(itemsPerPage) && sortBy == old(sortBy) && sortOrder == old(sortOrder)
      ensures activeFilters == old(activeFilters)
      ensures params == AssignFilters(BaseParams(1, old(itemsPerPage), term, old(sortBy), old(sortOrder)), old(activeFilters))
      ensures fetched.Loaded? ==> currentUsers == fetched.data.users && totalUsers == fetched.data.total && currentPage == 1
      ensures fetched.Loaded? ==> notice == Some(Notice(UiStore.Info, "Loaded page " + IntToString(1) + " with " + IntToString(|fetched.data.users|) + " users"))
      ensures fetched.Failed? ==> currentUsers == old(currentUsers) && totalUsers == old(totalUsers) && currentPage == old(currentPage)
      ensures fetched.Failed? ==> notice == Some(FailureNotice(fetched.error))
    {
      searchTerm := term;
      searchField := field;
      assert Valid();
      params, notice := LoadPage(1, fetched);
      assert searchTerm == term && searchField == field;
    }

    /** `sortUsers(field, order)`: the new sort, reloading the current page; it stays set when the load fails. */
    method SortUsers(field: string, order: string, fetched: Fetch) returns (params: seq<(string, Scalar)>, notice: Option<Notice>)
      requires Valid()
      modifies this
      ensures Valid() && sortBy == field && sortOrder == order
      ensures itemsPerPage == old(itemsPerPage) && searchTerm == old(searchTerm) && searchField == old(searchField)
      ensures activeFilters == old(activeFilters)
      ensures params == AssignFilters(BaseParams(old(currentPage), old(itemsPerPage), old(searchTerm), field, order), old(activeFilters))
      ensures currentPage == old(currentPage)
      ensures fetched.Loaded? ==> currentUsers == fetched.data.users && totalUsers == fetched.data.total && currentPage == old(currentPage)
      ensures fetched.Loaded? ==> notice == Some(Notice(UiStore.Info, "Loaded page " + IntToString(old(currentPage)) + " with " + IntToString(|fetched.data.users|) + " users"))
      ensures fetched.Failed? ==> currentUsers == old(currentUsers) && totalUsers == old(totalUsers) && currentPage == old(currentPage)
      ensures fetched.Failed? ==> notice == Some(FailureNotice(fetched.error))
    {
      sortBy := field;
      sortOrder := order;
      assert Valid();
      params, notice := LoadPage(currentPage, fetched);
      assert sortBy == field && sortOrder == order;
    }

    /** `clearSearch()`: an empty term and the username field, then page 1. */
    method ClearSearch(fetched: Fetch) returns (params: seq<(string, Scalar)>, notice: Option<Notice>)
      requires Valid()
      modifies this
      ensures Valid() && searchTerm == "" && searchField == "username"
      ensures itemsPerPage == old(itemsPerPage) && sortBy == old(sortBy) && sortOrder == old(sortOrder)
      ensures activeFilters == old(activeFilters)
      ensures params == AssignFilters(PagingPart(1, old(itemsPerPage)) + SortPart(old(sortBy), old(sortOrder)), old(activeFilters))
      ensures fetched.Loaded? ==> currentUsers == fetched.data.users && totalUsers == fetched.data.total && currentPage == 1
      ensures fetched.Loaded? ==> notice == Some(Notice(UiStore.Info, "Loaded page " + IntToString(1) + " with " + IntToString(|fetched.data.users|) + " users"))
      ensures fetched.Failed? ==> currentUsers == old(currentUsers) && totalUsers == old(totalUsers) && currentPage == old(currentPage)
      ensures fetched.Failed? ==> notice == Some(FailureNotice(fetched.error))
    {
      BlankSearchNotSent(1, itemsPerPage, "", sortBy, sortOrder);
      ghost var sent := AssignFilters(PagingPart(1, itemsPerPage) + SortPart(sortBy, sortOrder), activeFilters);
      searchTerm := "";
      searchField := "username";
      assert Valid();
      params, notice := LoadPage(1, fetched);
      assert params == sent;
      assert searchTerm == "" && searchField == "username";
    }

    /** `applyFilters(filters)`: the new filters, then page 1; they stay set when the load fails. */
    method ApplyFilters(filters: seq<(string, Value)>, fetched: Fetch) returns (params: seq<(string, Scalar)>, notice: Option<Notice>)
      requires Valid()
      modifies this
      ensures Valid() && activeFilters == filters
      ensures itemsPerPage == old(itemsPerPage) && searchTerm == old(searchTerm) && searchField == old(searchField)
      ensures sortBy == old(sortBy) && sortOrder == old(sortOrder)
      ensures params == AssignFilters(BaseParams(1, old(itemsPerPage), old(searchTerm), old(sortBy), old(sortOrder)), filters)
      ensures fetched.Loaded? ==> currentUsers == fetched.data.users && totalUsers == fetched.data.total && currentPage == 1
      ensures fetched.Loaded? ==> notice == Some(Notice(UiStore.Info, "Loaded page " + IntToString(1) + " with " + IntToString(|fetched.data.users|) + " users"))
      ensures fetched.Failed? ==> currentUsers == old(currentUsers) && totalUsers == old(totalUsers) && currentPage == old(currentPage)
      ensures fetched.Failed? ==> notice == Some(FailureNotice(fetched.error))
    {
      activeFilters := filters;
      assert Valid();
      params, notice := LoadPage(1, fetched);
      assert activeFilters == filters;
    }

    /** `clearFilters()`: no filters, then page 1. */
    method ClearFilters(fetched: Fetch) returns (params: seq<(string, Scalar)>, notice: Option<Notice>)
      requires Valid()
      modifies this
      ensures Valid() && activeFilters == []
      ensures itemsPerPage == old(itemsPerPage) && searchTerm == old(searchTerm) && searchField == old(searchField)
      ensures sortBy == old(sortBy) && sortOrder == old(sortOrder)
      ensures params == BaseParams(1, old(itemsPerPage), old(searchTerm), old(sortBy), old(sortOrder))
      ensures fetched.Loaded? ==> currentUsers == fetched.data.users && totalUsers == fetched.data.total && currentPage == 1
      ensures fetched.Loaded? ==> notice == Some(Notice(UiStore.Info, "Loaded page " + IntToString(1) + " with " + IntToString(|fetched.data.users|) + " users"))
      ensures fetched.Failed? ==> currentUsers == old(currentUsers) && totalUsers == old(totalUsers) && currentPage == old(currentPage)
      ensures fetched.Failed? ==> notice == Some(FailureNotice(fetched.error))
    {
      activeFilters := [];
      assert Valid();
      params, notice := LoadPage(1, fetched);
      assert activeFilters == [];
    }
  }

  /** "All" has a single page and neither a next nor a previous one. */
  lemma AllHasOnePage(total: nat, page: int)
    ensures TotalPages(total, -1) == 1
  {
  }

  /** With a page size, the last page has no next page and the first has no previous one. */
  method PagingFlags(t: NakamaUsersTable) returns (next: bool, previous: bool)
    requires t.Valid()
    ensures t.itemsPerPage == -1 ==> !next && !previous
    ensures t.itemsPerPage > 0 && t.currentPage >= TotalPages(t.totalUsers, t.itemsPerPage) ==> !next
    ensures t.itemsPerPage > 0 && next ==> t.currentPage * t.itemsPerPage < t.totalUsers
    ensures previous <==> t.itemsPerPage != -1 && t.currentPage > 1
  {
    next := t.HasNextPage();
    previous := t.HasPreviousPage();
    if t.itemsPerPage > 0 && next {
      var p := TotalPages(t.totalUsers, t.itemsPerPage);
      assert t.currentPage <= p - 1;
      assert t.currentPage * t.itemsPerPage <= (p - 1) * t.itemsPerPage;
    }
  }
}
