/**
 * The players client (`PlayersApi`): the `getPlayers` query string, which mixes
 * URL-encoded `URLSearchParams` pairs with raw JSON appended by hand for range
 * filters and the sort, and the URLs of the player, history, changelog and
 * CMS-user requests. Only the URLs are modelled; the requests themselves go
 * through the HTTP client.
 */
module PlayersApi {
  import opened Base
  import opened Query
  import opened Params

  /** A range-capable filter: a plain number, or a `{ $gte, $lte, $gt, $lt }` object. */
  datatype NumOrRange = Num(n: int) | Range(bounds: seq<(string, int)>)

  /** `PlayerQuery`: every field optional. */
  datatype PlayerQuery = PlayerQuery(
    limit: Option<int>, skip: Option<int>,
    searchUsername: Option<string>, searchDisplayName: Option<string>,
    searchUuid: Option<string>, searchEmail: Option<string>,
    username: Option<string>, email: Option<string>, langTag: Option<string>, location: Option<string>,
    chatRole: Option<int>, chatBanned: Option<bool>, isBotUser: Option<bool>, isPayingUser: Option<bool>,
    statsGIR: Option<NumOrRange>, statsWinRatio: Option<NumOrRange>,
    statsLongestDrive: Option<int>, statsLongestPutt: Option<int>, statsLongestChip: Option<int>,
    statsHoleInOneCount: Option<int>, statsTotalAttempted: Option<int>,
    statsSpeedKing: Option<int>, statsPuttMaster: Option<int>, statsPerfectRound: Option<int>,
    statsSharpShooter: Option<int>, statsRecoveryMaster: Option<int>,
    earningsRanking: Option<int>, earningsCashEarned: Option<int>, earningsCoinsEarned: Option<int>,
    careerXP: Option<NumOrRange>, careerLevel: Option<NumOrRange>, careerLeague: Option<int>,
    mou: Option<NumOrRange>, cashDeposit: Option<NumOrRange>,
    avatarType: Option<int>, avatarIndex: Option<int>,
    walletCoins: Option<int>, walletBonusCash: Option<int>,
    createTimeFrom: Option<string>, createTimeTo: Option<string>,
    updateTimeFrom: Option<string>, updateTimeTo: Option<string>,
    sort: Option<FieldOrder>)

  /** `getPlayers()` with the default `{}`. */
  const NoPlayerQuery := PlayerQuery(
    None, None, None, None, None, None, None, None, None, None,
    None, None, None, None, None, None, None, None, None, None, None,
    None, None, None, None, None, None, None, None, None, None, None,
    None, None, None, None, None, None, None, None, None, None, None)

  /** `if (v !== undefined) params.append(key, v.toString())` for a number: 0 is kept. */
  function DefinedNum(key: string, v: Option<int>): (r: seq<Param>)
    ensures r != [] <==> v.Some?
    ensures v.Some? ==> r == [Param(key, IntToString(v.value))]
  {
    if v.Some? then [Param(key, IntToString(v.value))] else []
  }

  /** `if (v !== undefined) params.append(key, v.toString())` for a boolean: false is kept. */
  function DefinedBool(key: string, v: Option<bool>): (r: seq<Param>)
    ensures r != [] <==> v.Some?
    ensures v.Some? ==> r == [Param(key, if v.value then "true" else "false")]
  {
    if v.Some? then [Param(key, ScalarText(SBool(v.value)))] else []
  }

  /** A range-capable field: only a plain number becomes an encoded pair. */
  function RangeNum(key: string, v: Option<NumOrRange>): (r: seq<Param>)
    ensures r != [] <==> v.Some? && v.value.Num?
    ensures r != [] ==> r == [Param(key, IntToString(v.value.n))]
  {
    if v.Some? && v.value.Num? then [Param(key, IntToString(v.value.n))] else []
  }

  function RangeJson(bounds: seq<(string, int)>): (r: Json)
    ensures r.JObj? && |r.members| == |bounds|
  {
    JObj(seq(|bounds|, i requires 0 <= i < |bounds| => (bounds[i].0, JNum(bounds[i].1))))
  }

  /** `` `${key}=${JSON.stringify(range)}` ``: written unencoded. */
  function RawRange(key: string, v: Option<NumOrRange>): (r: seq<string>)
    ensures r != [] <==> v.Some? && v.value.Range?
    ensures r != [] ==> r == [key + "=" + Stringify(RangeJson(v.value.bounds))]
  {
    if v.Some? && v.value.Range? then [key + "=" + Stringify(RangeJson(v.value.bounds))] else []
  }

  function SortJson(s: FieldOrder): Json
  {
    JObj([("field", JStr(s.field)), ("order", JStr(s.order))])
  }

  /** The raw sort part: `sort=` and the JSON of `{ field, order }`. */
  function RawSort(s: Option<FieldOrder>): (r: seq<string>)
    ensures r != [] <==> s.Some?
    ensures s.Some? ==> r == ["sort=" + Stringify(SortJson(s.value))]
  {
    if s.Some? then ["sort=" + Stringify(SortJson(s.value))] else []
  }

  // The encoded pairs of `getPlayers`, group by group as the source lists them.

  function PagingParams(q: PlayerQuery): seq<Param>
  {
    NumParam("limit", q.limit) + NumParam("skip", q.skip)
  }

  function SearchParams(q: PlayerQuery): seq<Param>
  {
    StrParam("searchUsername", q.searchUsername) + StrParam("searchDisplayName", q.searchDisplayName)
    + StrParam("searchUuid", q.searchUuid) + StrParam("searchEmail", q.searchEmail)
    + StrParam("username", q.username) + StrParam("email", q.email)
    + StrParam("lang_tag", q.langTag) + StrParam("location", q.location)
  }

  function MetadataParams(q: PlayerQuery): seq<Param>
  {
    DefinedNum("chatRole", q.chatRole) + DefinedBool("chatBanned", q.chatBanned)
    + DefinedBool("isBotUser", q.isBotUser) + DefinedBool("isPayingUser", q.isPayingUser)
  }

  function StatsParams(q: PlayerQuery): seq<Param>
  {
    RangeNum("statsGIR", q.statsGIR) + RangeNum("statsWinRatio", q.statsWinRatio)
    + DefinedNum("statsLongestDrive", q.statsLongestDrive) + DefinedNum("statsLongestPutt", q.statsLongestPutt)
    + DefinedNum("statsLongestChip", q.statsLongestChip) + DefinedNum("statsHoleInOneCount", q.statsHoleInOneCount)
    + DefinedNum("statsTotalAttempted", q.statsTotalAttempted)
  }

  function BadgeParams(q: PlayerQuery): seq<Param>
  {
    DefinedNum("statsSpeedKing", q.statsSpeedKing) + DefinedNum("statsPuttMaster", q.statsPuttMaster)
    + DefinedNum("statsPerfectRound", q.statsPerfectRound) + DefinedNum("statsSharpShooter", q.statsSharpShooter)
    + DefinedNum("statsRecoveryMaster", q.statsRecoveryMaster)
  }

  function EarningsCareerParams(q: PlayerQuery): seq<Param>
  {
    DefinedNum("earningsRanking", q.earningsRanking) + DefinedNum("earningsCashEarned", q.earningsCashEarned)
    + DefinedNum("earningsCoinsEarned", q.earningsCoinsEarned)
    + RangeNum("careerXP", q.careerXP) + RangeNum("careerLevel", q.careerLevel)
    + DefinedNum("careerLeague", q.careerLeague)
    + RangeNum("mou", q.mou) + RangeNum("cashDeposit", q.cashDeposit)
  }

  function AvatarWalletParams(q: PlayerQuery): seq<Param>
  {
    DefinedNum("avatarType", q.avatarType) + DefinedNum("avatarIndex", q.avatarIndex)
    + DefinedNum("walletCoins", q.walletCoins) + DefinedNum("walletBonusCash", q.walletBonusCash)
  }

  function DateParams(q: PlayerQuery): seq<Param>
  {
    StrParam("createTimeFrom", q.createTimeFrom) + StrParam("createTimeTo", q.createTimeTo)
    + StrParam("updateTimeFrom", q.updateTimeFrom) + StrParam("updateTimeTo", q.updateTimeTo)
  }

  /** Every pair `getPlayers` appends to its `URLSearchParams`, in order. */
  function EncodedParams(q: PlayerQuery): seq<Param>
  {
    PagingParams(q) + SearchParams(q) + MetadataParams(q) + StatsParams(q) + BadgeParams(q)
    + EarningsCareerParams(q) + AvatarWalletParams(q) + DateParams(q)
  }

  /** The parts appended by hand, one piece per `if`: the range objects in their fixed order, then the sort. */
  function RawPieces(q: PlayerQuery): (r: seq<seq<string>>)
    ensures |r| == 7
  {
    [RawRange("statsGIR", q.statsGIR), RawRange("statsWinRatio", q.statsWinRatio),
     RawRange("careerXP", q.careerXP), RawRange("careerLevel", q.careerLevel),
     RawRange("mou", q.mou), RawRange("cashDeposit", q.cashDeposit),
     RawSort(q.sort)]
  }

  function Flatten(xs: seq<seq<string>>): seq<string>
  {
    if xs == [] then [] else xs[0] + Flatten(xs[1..])
  }

  lemma FlattenStep(pre: seq<string>, rest: seq<seq<string>>)
    requires rest != []
    ensures pre + Flatten(rest) == (pre + rest[0]) + Flatten(rest[1..])
  {
  }

  function RawParts(q: PlayerQuery): seq<string>
  {
    Flatten(RawPieces(q))
  }

  /**
   * The '&'-separated parts of the query string: the encoded pairs as one part
   * when there are any, then every raw part.
   */
  function QueryParts(q: PlayerQuery): seq<string>
  {
    (if EncodedParams(q) == [] then [] else [Serialize(EncodedParams(q))]) + RawParts(q)
  }

  /** `` queryString += `${queryString ? '&' : ''}${part}` `` */
  function Extend(qs: string, part: string): (r: string)
    ensures qs == "" ==> r == part
    ensures qs != "" ==> r == qs + "&" + part
  {
    qs + (if qs != "" then "&" else "") + part
  }

  /** Extending a joined string by a part joins one more part, when no part is empty. */
  lemma {:induction false} ExtendJoin(parts: seq<string>, part: string)
    requires forall i :: 0 <= i < |parts| ==> parts[i] != ""
    ensures Extend(Join(parts, "&"), part) == Join(parts + [part], "&")
  {
    if |parts| <= 1 {
      if |parts| == 1 {
        assert |Join(parts, "&")| > 0;
        assert (parts + [part])[1..] == [part];
      }
    } else {
      assert (parts + [part])[1..] == parts[1..] + [part];
      ExtendJoin(parts[1..], part);
      assert |Join(parts[1..], "&")| >= |parts[1]| > 0 by { JoinStarts(parts[1..]); }
    }
  }

  /** A join of non-empty parts starts with its first part. */
  lemma {:induction false} JoinStarts(parts: seq<string>)
    requires |parts| > 0
    ensures |Join(parts, "&")| >= |parts[0]|
    ensures Join(parts, "&")[..|parts[0]|] == parts[0]
  {
  }

  lemma SerializeNonEmpty(ps: seq<Param>)
    requires ps != []
    ensures Serialize(ps) != ""
  {
    SerializeEmpty(ps);
  }

  predicate IsRange(v: Option<NumOrRange>)
  {
    v.Some? && v.value.Range?
  }

  /**
   * One raw append of `getPlayers`: when the field holds a range object, its part
   * is added to the query string and to the parts it joins.
   */
  method AppendRange(queryString: string, ghost parts: seq<string>, key: string, v: Option<NumOrRange>)
    returns (qs: string, ghost ps: seq<string>)
    requires forall k :: 0 <= k < |parts| ==> parts[k] != ""
    requires queryString == Join(parts, "&")
    ensures ps == parts + RawRange(key, v)
    ensures forall k :: 0 <= k < |ps| ==> ps[k] != ""
    ensures qs == Join(ps, "&")
  {
    qs, ps := queryString, parts;
    if IsRange(v) {
      var part := key + "=" + Stringify(RangeJson(v.value.bounds));
      ExtendJoin(ps, part);
      qs := Extend(qs, part);
      ps := ps + [part];
    }
  }

  /** The last raw append of `getPlayers`: `sort=` and the JSON of `{ field, order }`. */
  method AppendSort(queryString: string, ghost parts: seq<string>, sort: Option<FieldOrder>)
    returns (qs: string, ghost ps: seq<string>)
    requires forall k :: 0 <= k < |parts| ==> parts[k] != ""
    requires queryString == Join(parts, "&")
    ensures ps == parts + RawSort(sort)
    ensures forall k :: 0 <= k < |ps| ==> ps[k] != ""
    ensures qs == Join(ps, "&")
  {
    qs, ps := queryString, parts;
    if sort.Some? {
      var sortParam := Stringify(SortJson(sort.value));
      ExtendJoin(ps, "sort=" + sortParam);
      qs := Extend(qs, "sort=" + sortParam);
      ps := ps + ["sort=" + sortParam];
    }
  }

  /** The hand-written appends of `getPlayers`: the six range fields in order, then the sort. */
  method AppendRawParts(queryString: string, ghost parts: seq<string>, q: PlayerQuery)
    returns (qs: string, ghost ps: seq<string>)
    requires forall k :: 0 <= k < |parts| ==> parts[k] != ""
    requires queryString == Join(parts, "&")
    ensures ps == parts + RawParts(q)
    ensures forall k :: 0 <= k < |ps| ==> ps[k] != ""
    ensures qs == Join(ps, "&")
  {
    qs, ps := queryString, parts;
    ghost var rest := RawPieces(q);
    assert parts + Flatten(rest) == parts + RawParts(q);
    FlattenStep(ps, rest);
    qs, ps := AppendRange(qs, ps, "statsGIR", q.statsGIR);
    rest := rest[1..];
    FlattenStep(ps, rest);
    qs, ps := AppendRange(qs, ps, "statsWinRatio", q.statsWinRatio);
    rest := rest[1..];
    FlattenStep(ps, rest);
    qs, ps := AppendRange(qs, ps, "careerXP", q.careerXP);
    rest := rest[1..];
    FlattenStep(ps, rest);
    qs, ps := AppendRange(qs, ps, "careerLevel", q.careerLevel);
    rest := rest[1..];
    FlattenStep(ps, rest);
    qs, ps := AppendRange(qs, ps, "mou", q.mou);
    rest := rest[1..];
    FlattenStep(ps, rest);
    qs, ps := AppendRange(qs, ps, "cashDeposit", q.cashDeposit);
    rest := rest[1..];
    FlattenStep(ps, rest);
    qs, ps := AppendSort(qs, ps, q.sort);
    assert rest[1..] == [];
  }

  /**
   * `getPlayers(query)` as the source writes it: every field appended in turn,
   * `params.toString()`, then each raw part added with a separator that is '&'
   * only when something precedes it. The URL is '/players' when the query string
   * is empty, and otherwise '/players?' and the parts joined by '&'.
   */
  method GetPlayersUrl(q: PlayerQuery) returns (url: string)
    ensures QueryParts(q) == [] ==> url == "/players"
    ensures QueryParts(q) != [] ==> url == "/players?" + Join(QueryParts(q), "&")
  {
    var params := AppendFields(q);
    var queryString := Serialize(params);
    ghost var parts: seq<string> := if params == [] then [] else [queryString];
    SerializeEmpty(params);
    queryString, parts := AppendRawParts(queryString, parts, q);
    assert parts == QueryParts(q);
    url := if queryString != "" then "/players?" + queryString else "/players";
    if parts != [] {
      JoinStarts(parts);
    }
  }

  /** The `params.append` calls of `getPlayers`, field group by field group. */
  method AppendFields(q: PlayerQuery) returns (params: seq<Param>)
    ensures params == EncodedParams(q)
  {
    params := [];
    params := params + PagingParams(q);
    assert params == PagingParams(q);
    params := params + SearchParams(q);
    params := params + MetadataParams(q);
    params := params + StatsParams(q);
    params := params + BadgeParams(q);
    params := params + EarningsCareerParams(q);
    params := params + AvatarWalletParams(q);
    params := params + DateParams(q);
  }

  // ---------------------------------------------------------------------------
  // What `getPlayers` sends

  /** With no field set, no part is produced, so the request goes to '/players'. */
  lemma EmptyQueryParts()
    ensures QueryParts(NoPlayerQuery) == []
  {
    assert EncodedParams(NoPlayerQuery) == [];
    assert RawParts(NoPlayerQuery) == [] by {
      var xs := RawPieces(NoPlayerQuery);
      assert xs[1..][1..][1..][1..][1..][1..][1..] == [];
    }
  }

  lemma {:induction false} FlattenAppend(xs: seq<seq<string>>, y: seq<string>)
    ensures Flatten(xs + [y]) == Flatten(xs) + y
  {
    if xs != [] {
      assert (xs + [y])[1..] == xs[1..] + [y];
      FlattenAppend(xs[1..], y);
    }
  }

  /** A range object yields a raw part and no encoded pair; a number the reverse. */
  lemma RangeByType(key: string, v: Option<NumOrRange>)
    ensures v.None? ==> RangeNum(key, v) == [] && RawRange(key, v) == []
    ensures v.Some? && v.value.Num? ==> RangeNum(key, v) == [Param(key, IntToString(v.value.n))] && RawRange(key, v) == []
    ensures v.Some? && v.value.Range? ==>
              RangeNum(key, v) == [] && RawRange(key, v) == [key + "=" + Stringify(RangeJson(v.value.bounds))]
  {
  }

  /** When a sort is given, its raw JSON is the very last part of the query string. */
  lemma SortIsLast(q: PlayerQuery)
    requires q.sort.Some?
    ensures QueryParts(q) != []
    ensures QueryParts(q)[|QueryParts(q)| - 1] == "sort=" + Stringify(SortJson(q.sort.value))
  {
    var xs := RawPieces(q);
    assert xs == xs[..6] + [RawSort(q.sort)];
    FlattenAppend(xs[..6], RawSort(q.sort));
  }

  /** A part that the query string may begin with: not empty, and not starting with '&'. */
  predicate GoodStart(x: string)
  {
    x != "" && x[0] != '&'
  }

  lemma RawPieceStart(piece: seq<string>, key: string, v: Option<NumOrRange>)
    requires piece == RawRange(key, v) && GoodStart(key)
    ensures forall x :: x in piece ==> GoodStart(x)
  {
  }

  lemma {:induction false} FlattenKeeps(xs: seq<seq<string>>)
    requires forall i, x :: 0 <= i < |xs| && x in xs[i] ==> GoodStart(x)
    ensures forall x :: x in Flatten(xs) ==> GoodStart(x)
  {
    if xs != [] {
      assert forall i, x :: 0 <= i < |xs[1..]| && x in xs[1..][i] ==> x in xs[i + 1];
      FlattenKeeps(xs[1..]);
      assert forall x :: x in xs[0] ==> GoodStart(x);
    }
  }

  /** Every raw part begins with its field name, never with '&'. */
  lemma RawPartsStart(q: PlayerQuery)
    ensures forall x :: x in RawParts(q) ==> GoodStart(x)
  {
    var xs := RawPieces(q);
    RawPieceStart(xs[0], "statsGIR", q.statsGIR);
    RawPieceStart(xs[1], "statsWinRatio", q.statsWinRatio);
    RawPieceStart(xs[2], "careerXP", q.careerXP);
    RawPieceStart(xs[3], "careerLevel", q.careerLevel);
    RawPieceStart(xs[4], "mou", q.mou);
    RawPieceStart(xs[5], "cashDeposit", q.cashDeposit);
    assert forall x :: x in xs[6] ==> GoodStart(x);
    FlattenKeeps(xs);
  }

  /** The encoded part begins with an encoded key or with '=', never with '&'. */
  lemma SerializeStart(ps: seq<Param>)
    requires ps != []
    ensures GoodStart(Serialize(ps))
  {
    var t := PairTexts(ps);
    JoinStarts(t);
    FormEncodeNoAmpersand(ps[0].key);
    assert t[0] == FormEncode(ps[0].key) + "=" + FormEncode(ps[0].value);
    if FormEncode(ps[0].key) != "" {
      assert t[0][0] == FormEncode(ps[0].key)[0];
    }
  }

  /** A join whose first part is not empty starts with that part's first character. */
  lemma JoinFirst(parts: seq<string>)
    requires parts != [] && parts[0] != ""
    ensures Join(parts, "&") != "" && Join(parts, "&")[0] == parts[0][0]
  {
    JoinStarts(parts);
  }

  /**
   * The separator rule at work: the query string never begins with '&', whichever
   * parts are present.
   */
  lemma NoLeadingSeparator(q: PlayerQuery)
    requires QueryParts(q) != []
    ensures Join(QueryParts(q), "&") != ""
    ensures Join(QueryParts(q), "&")[0] != '&'
  {
    var parts := QueryParts(q);
    if EncodedParams(q) != [] {
      SerializeStart(EncodedParams(q));
      assert parts[0] == Serialize(EncodedParams(q));
    } else {
      RawPartsStart(q);
      assert parts[0] in RawParts(q);
    }
    JoinFirst(parts);
  }

  predicate NoKey(ps: seq<Param>, key: string)
  {
    forall p :: p in ps ==> p.key != key
  }

  lemma NoKeyAppend(a: seq<Param>, b: seq<Param>, key: string)
    requires NoKey(a, key) && NoKey(b, key)
    ensures NoKey(a + b, key)
  {
  }

  lemma NoLimitInSearch(q: PlayerQuery)
    ensures NoKey(SearchParams(q), "limit") && NoKey(MetadataParams(q), "limit")
  {
  }

  lemma NoLimitInStats(q: PlayerQuery)
    ensures NoKey(StatsParams(q), "limit") && NoKey(BadgeParams(q), "limit")
  {
  }

  lemma NoLimitInOthers(q: PlayerQuery)
    ensures NoKey(EarningsCareerParams(q), "limit") && NoKey(AvatarWalletParams(q), "limit")
    ensures NoKey(DateParams(q), "limit")
  {
  }

  /** No filter group carries a `limit` pair: it can only come from `query.limit`. */
  lemma NoLimitInFilters(q: PlayerQuery)
    ensures NoKey(SearchParams(q) + MetadataParams(q) + StatsParams(q) + BadgeParams(q)
                  + EarningsCareerParams(q) + AvatarWalletParams(q) + DateParams(q), "limit")
  {
    NoLimitInSearch(q);
    NoLimitInStats(q);
    NoLimitInOthers(q);
  }

  /** `limit` is sent exactly when it is truthy: a limit of 0 is dropped. */
  lemma LimitOnlyWhenTruthy(q: PlayerQuery)
    ensures TruthyInt(q.limit) ==> EncodedParams(q)[0] == Param("limit", IntToString(q.limit.value))
    ensures !TruthyInt(q.limit) ==> NoKey(EncodedParams(q), "limit")
  {
    NoLimitInFilters(q);
    assert NoKey(PagingParams(q)[|NumParam("limit", q.limit)|..], "limit");
  }

  /**
   * A metadata value is sent whenever it is defined, even 0 or false, unlike
   * `limit`.
   */
  lemma DefinedFalsyKept(q: PlayerQuery)
    requires q.chatRole == Some(0) && q.chatBanned == Some(false)
    ensures Param("chatRole", "0") in EncodedParams(q)
    ensures Param("chatBanned", "false") in EncodedParams(q)
  {
    assert IntToString(0) == "0";
    assert Param("chatRole", "0") in MetadataParams(q);
    assert Param("chatBanned", "false") in MetadataParams(q);
  }

  // ---------------------------------------------------------------------------
  // The other player requests

  /** `` `/players/${id}` ``, for `getPlayer` and `updatePlayer`. */
  function PlayerUrl(id: string): (r: string)
    ensures |r| >= 9 && r[..9] == "/players/" && r[9..] == id
  {
    "/players/" + id
  }

  const PlayerCountUrl := "/players/count"

  /** `ChangelogQuery`. */
  datatype ChangelogQuery = ChangelogQuery(
    limit: Option<int>, skip: Option<int>, fromDate: Option<string>, toDate: Option<string>,
    sort: Option<FieldOrder>)

  /**
   * The pairs of the history, changelog and CMS-user requests: limit, skip and the
   * two dates when truthy, then the sort as one encoded `sort` pair holding its JSON.
   */
  function HistoryParams(q: ChangelogQuery): (r: seq<Param>)
    ensures |r| <= 5
    ensures q.sort.Some? ==> r != [] && r[|r| - 1] == Param("sort", Stringify(SortJson(q.sort.value)))
    ensures q.sort.None? ==> NoKey(r, "sort")
  {
    NumParam("limit", q.limit) + NumParam("skip", q.skip)
    + StrParam("from_date", q.fromDate) + StrParam("to_date", q.toDate)
    + (if q.sort.Some? then [Param("sort", Stringify(SortJson(q.sort.value)))] else [])
  }

  /** Without a truthy field and without a sort there are no pairs, and so no '?'. */
  lemma HistoryParamsEmpty(q: ChangelogQuery)
    ensures HistoryParams(q) == [] <==> !TruthyInt(q.limit) && !TruthyInt(q.skip)
                                        && !TruthyStr(q.fromDate) && !TruthyStr(q.toDate) && q.sort.None?
  {
  }

  /** '/players/{id}/history' */
  function HistoryPath(id: string): string
  {
    "/players/" + id + "/history"
  }

  /** `getPlayerHistory(id, query)`: '/players/{id}/history', with '?' only when a pair is present. */
  function PlayerHistoryUrl(id: string, q: ChangelogQuery): (r: string)
    ensures HistoryParams(q) == [] ==> r == HistoryPath(id)
    ensures HistoryParams(q) != [] ==> r == HistoryPath(id) + "?" + Serialize(HistoryParams(q))
  {
    WithQueryShape(HistoryPath(id), HistoryParams(q));
    WithQuery(HistoryPath(id), HistoryParams(q))
  }

  /** `getChangelogs(query)`: '/player-changelogs', with '?' only when a pair is present. */
  function PlayerChangelogsUrl(q: ChangelogQuery): (r: string)
    ensures HistoryParams(q) == [] ==> r == "/player-changelogs"
    ensures HistoryParams(q) != [] ==> r == "/player-changelogs" + "?" + Serialize(HistoryParams(q))
  {
    WithQueryShape("/player-changelogs", HistoryParams(q));
    WithQuery("/player-changelogs", HistoryParams(q))
  }

  /** `getCmsUserChanges(id, query)`: '/cms-users/{id}/changes', with '?' only when a pair is present. */
  function CmsUserChangesUrl(cmsUserId: int, q: ChangelogQuery): (r: string)
    ensures HistoryParams(q) == [] ==> r == IdAction("/cms-users", cmsUserId, "changes")
    ensures HistoryParams(q) != [] ==> r == IdAction("/cms-users", cmsUserId, "changes") + "?" + Serialize(HistoryParams(q))
  {
    WithQueryShape(IdAction("/cms-users", cmsUserId, "changes"), HistoryParams(q));
    WithQuery(IdAction("/cms-users", cmsUserId, "changes"), HistoryParams(q))
  }
}
