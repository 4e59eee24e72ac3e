/**
 * The game-user filter panel (`useNakamaFilters` with the defaults of
 * `constants/nakama.ts`): fifteen filters, the query they produce, the count of
 * active ones, and the panel-wide "any filter active" flag.
 *
 * Range bounds are integers; the win-ratio range, whose values are fractions, is
 * modelled with integer bounds too.
 */
module NakamaFilters {
  import opened Base
  import opened Query

  /** A `[number, number]` range filter. */
  datatype Bounds = Bounds(lo: int, hi: int)

  /** `NakamaFilters` */
  datatype Filters = Filters(
    location: Option<string>,
    chatRole: Option<int>,
    isBotUser: bool,
    statsGIR: Bounds,
    statsWinRatio: Bounds,
    statsLongestDrive: Bounds,
    statsHoleInOneCount: Bounds,
    careerLevel: Bounds,
    careerXP: Bounds,
    earningsCashEarned: Bounds,
    walletCoins: Bounds,
    createTimeFrom: Option<string>,
    createTimeTo: Option<string>,
    updateTimeFrom: Option<string>,
    updateTimeTo: Option<string>)

  /** `NAKAMA_DEFAULT_FILTERS` */
  const Defaults := Filters(None, None, false,
    Bounds(0, 100), Bounds(0, 1), Bounds(0, 500), Bounds(0, 50),
    Bounds(1, 100), Bounds(0, 1000000), Bounds(0, 100000), Bounds(0, 100000),
    None, None, None, None)

  /** The keys of `NakamaFilters`, in declaration order. */
  datatype FilterKey =
    | Location | ChatRole | IsBotUser
    | StatsGIR | StatsWinRatio | StatsLongestDrive | StatsHoleInOneCount
    | CareerLevel | CareerXP | EarningsCashEarned | WalletCoins
    | CreateTimeFrom | CreateTimeTo | UpdateTimeFrom | UpdateTimeTo

  function KeyName(k: FilterKey): string
  {
    match k
    case Location => "location"
    case ChatRole => "chatRole"
    case IsBotUser => "isBotUser"
    case StatsGIR => "statsGIR"
    case StatsWinRatio => "statsWinRatio"
    case StatsLongestDrive => "statsLongestDrive"
    case StatsHoleInOneCount => "statsHoleInOneCount"
    case CareerLevel => "careerLevel"
    case CareerXP => "careerXP"
    case EarningsCashEarned => "earningsCashEarned"
    case WalletCoins => "walletCoins"
    case CreateTimeFrom => "createTimeFrom"
    case CreateTimeTo => "createTimeTo"
    case UpdateTimeFrom => "updateTimeFrom"
    case UpdateTimeTo => "updateTimeTo"
  }

  /** The value stored under one key. */
  datatype FilterValue = Text(text: Option<string>) | Role(role: Option<int>) | Flag(flag: bool) | Span(bounds: Bounds)

  /** `filters[key]` */
  function Get(f: Filters, k: FilterKey): FilterValue
  {
    match k
    case Location => Text(f.location)
    case ChatRole => Role(f.chatRole)
    case IsBotUser => Flag(f.isBotUser)
    case StatsGIR => Span(f.statsGIR)
    case StatsWinRatio => Span(f.statsWinRatio)
    case StatsLongestDrive => Span(f.statsLongestDrive)
    case StatsHoleInOneCount => Span(f.statsHoleInOneCount)
    case CareerLevel => Span(f.careerLevel)
    case CareerXP => Span(f.careerXP)
    case EarningsCashEarned => Span(f.earningsCashEarned)
    case WalletCoins => Span(f.walletCoins)
    case CreateTimeFrom => Text(f.createTimeFrom)
    case CreateTimeTo => Text(f.createTimeTo)
    case UpdateTimeFrom => Text(f.updateTimeFrom)
    case UpdateTimeTo => Text(f.updateTimeTo)
  }

  /** `NakamaFilters[K]`: the kind of value each key holds. */
  predicate Fits(k: FilterKey, v: FilterValue)
  {
    match k
    case Location => v.Text?
    case ChatRole => v.Role?
    case IsBotUser => v.Flag?
    case CreateTimeFrom => v.Text?
    case CreateTimeTo => v.Text?
    case UpdateTimeFrom => v.Text?
    case UpdateTimeTo => v.Text?
    case _ => v.Span?
  }

  /** `filters[key] = value`: that key now holds the value, and every other key is unchanged. */
  function Set(f: Filters, k: FilterKey, v: FilterValue): (r: Filters)
    requires Fits(k, v)
    ensures Get(r, k) == v
    ensures forall other :: other != k ==> Get(r, other) == Get(f, other)
  {
    match k
    case Location => f.(location := v.text)
    case ChatRole => f.(chatRole := v.role)
    case IsBotUser => f.(isBotUser := v.flag)
    case StatsGIR => f.(statsGIR := v.bounds)
    case StatsWinRatio => f.(statsWinRatio := v.bounds)
    case StatsLongestDrive => f.(statsLongestDrive := v.bounds)
    case StatsHoleInOneCount => f.(statsHoleInOneCount := v.bounds)
    case CareerLevel => f.(careerLevel := v.bounds)
    case CareerXP => f.(careerXP := v.bounds)
    case EarningsCashEarned => f.(earningsCashEarned := v.bounds)
    case WalletCoins => f.(walletCoins := v.bounds)
    case CreateTimeFrom => f.(createTimeFrom := v.text)
    case CreateTimeTo => f.(createTimeTo := v.text)
    case UpdateTimeFrom => f.(updateTimeFrom := v.text)
    case UpdateTimeTo => f.(updateTimeTo := v.text)
  }

  /**
   * The condition `buildFilterQuery` and `getActiveFilterCount` share: a truthy
   * location or date, a non-null chat role, a set bot flag, a range off its default.
   */
  predicate Active(f: Filters, k: FilterKey)
  {
    match Get(f, k)
    case Text(t) => TruthyStr(t)
    case Role(r) => r.Some?
    case Flag(b) => b
    case Span(b) => b != Get(Defaults, k).bounds
  }

  /** `'<lo>-<hi>'` */
  function RangeText(b: Bounds): string
  {
    IntToString(b.lo) + "-" + IntToString(b.hi)
  }

  /** The query value of an active key. */
  function QueryValue(f: Filters, k: FilterKey): Scalar
  {
    match Get(f, k)
    case Text(t) => SStr(if t.Some? then t.value else "")
    case Role(r) => SNum(if r.Some? then r.value else 0)
    case Flag(_) => SBool(true)
    case Span(b) => SStr(RangeText(b))
  }

  /** The query entry of one key: present exactly when the key is active. */
  function Entry(f: Filters, k: FilterKey): (r: seq<(string, Scalar)>)
    ensures |r| == Bit(Active(f, k))
    ensures Active(f, k) ==> r[0] == (KeyName(k), QueryValue(f, k))
  {
    if Active(f, k) then [(KeyName(k), QueryValue(f, k))] else []
  }

  /** The query `buildFilterQuery` builds: the active keys in declaration order with their values. */
  function FilterQuery(f: Filters): seq<(string, Scalar)>
  {
    Entry(f, Location) + Entry(f, ChatRole) + Entry(f, IsBotUser)
    + Entry(f, StatsGIR) + Entry(f, StatsWinRatio) + Entry(f, StatsLongestDrive) + Entry(f, StatsHoleInOneCount)
    + Entry(f, CareerLevel) + Entry(f, CareerXP) + Entry(f, EarningsCashEarned) + Entry(f, WalletCoins)
    + Entry(f, CreateTimeFrom) + Entry(f, CreateTimeTo) + Entry(f, UpdateTimeFrom) + Entry(f, UpdateTimeTo)
  }

  function Bit(b: bool): nat
  {
    if b then 1 else 0
  }

  /** The number of active keys. */
  function ActiveCount(f: Filters): nat
  {
    Bit(Active(f, Location)) + Bit(Active(f, ChatRole)) + Bit(Active(f, IsBotUser))
    + Bit(Active(f, StatsGIR)) + Bit(Active(f, StatsWinRatio)) + Bit(Active(f, StatsLongestDrive))
    + Bit(Active(f, StatsHoleInOneCount)) + Bit(Active(f, CareerLevel)) + Bit(Active(f, CareerXP))
    + Bit(Active(f, EarningsCashEarned)) + Bit(Active(f, WalletCoins))
    + Bit(Active(f, CreateTimeFrom)) + Bit(Active(f, CreateTimeTo))
    + Bit(Active(f, UpdateTimeFrom)) + Bit(Active(f, UpdateTimeTo))
  }

  /** The count equals the number of keys the query sets, because both use the same conditions. */
  lemma CountIsQueryLength(f: Filters)
    ensures |FilterQuery(f)| == ActiveCount(f)
    ensures 0 <= ActiveCount(f) <= 15
  {
  }

  /** `hasActiveFilters`: any key differs from its default, with `!== null` for the optional ones. */
  predicate HasActiveFilters(f: Filters)
  {
    f.location.Some? || f.chatRole.Some? || f.isBotUser
    || f.statsGIR != Defaults.statsGIR || f.statsWinRatio != Defaults.statsWinRatio
    || f.statsLongestDrive != Defaults.statsLongestDrive || f.statsHoleInOneCount != Defaults.statsHoleInOneCount
    || f.careerLevel != Defaults.careerLevel || f.careerXP != Defaults.careerXP
    || f.earningsCashEarned != Defaults.earningsCashEarned || f.walletCoins != Defaults.walletCoins
    || f.createTimeFrom.Some? || f.createTimeTo.Some? || f.updateTimeFrom.Some? || f.updateTimeTo.Some?
  }

  /** With the default filters nothing is active, the count is 0 and the query is empty. */
  lemma DefaultsAreInactive()
    ensures !HasActiveFilters(Defaults)
    ensures ActiveCount(Defaults) == 0 && FilterQuery(Defaults) == []
  {
    NoKeyActiveAtDefaults();
    CountIsQueryLength(Defaults);
  }

  lemma NoKeyActiveAtDefaults()
    ensures forall k :: !Active(Defaults, k)
  {
    forall k
      ensures !Active(Defaults, k)
    {
    }
  }

  /** A positive count implies the flag. */
  lemma CountImpliesFlag(f: Filters)
    requires ActiveCount(f) > 0
    ensures HasActiveFilters(f)
  {
  }

  /** The converse fails: an empty location is "active" for the flag but not counted or sent. */
  lemma EmptyLocationFlagsWithoutCount()
    ensures HasActiveFilters(Defaults.(location := Some("")))
    ensures ActiveCount(Defaults.(location := Some(""))) == 0
    ensures FilterQuery(Defaults.(location := Some(""))) == []
  {
    var g := Set(Defaults, Location, Text(Some("")));
    assert g == Defaults.(location := Some(""));
    NoKeyActiveAtDefaults();
    forall k
      ensures !Active(g, k)
    {
      if k != Location {
        assert Get(g, k) == Get(Defaults, k);
        assert !Active(Defaults, k);
      }
    }
    CountIsQueryLength(g);
  }

  /** Chat role 0 is active and sent as 0, because the test is `!== null`, not truthiness. */
  lemma ChatRoleZeroIsSent(f: Filters)
    requires f.chatRole == Some(0)
    ensures Active(f, ChatRole) && Entry(f, ChatRole) == [("chatRole", SNum(0))]
  {
  }

  /** A range key is sent iff either bound is off its default, as '<lo>-<hi>'. */
  lemma RangeEntryShape(f: Filters, k: FilterKey)
    requires Get(f, k).Span?
    ensures Active(f, k) <==> Get(f, k).bounds.lo != Get(Defaults, k).bounds.lo || Get(f, k).bounds.hi != Get(Defaults, k).bounds.hi
    ensures Active(f, k) ==> Entry(f, k) == [(KeyName(k), SStr(RangeText(Get(f, k).bounds)))]
  {
  }

  /** The filter panel's state. */
  class FilterPanel {
    var filters: Filters

    constructor()
      ensures filters == Defaults
    {
      filters := Defaults;
    }

    /** `clearFilters()`: every key back to its default. */
    method ClearFilters()
      modifies this
      ensures filters == Defaults
    {
      filters := Defaults;
    }

    /** `resetFilters()` */
    method ResetFilters()
      modifies this
      ensures filters == Defaults
    {
      ClearFilters();
    }

    /** `updateFilter(key, value)`: only that key changes. */
    method UpdateFilter(k: FilterKey, v: FilterValue)
      requires Fits(k, v)
      modifies this
      ensures Get(filters, k) == v
      ensures forall other :: other != k ==> Get(filters, other) == Get(old(filters), other)
    {
      filters := Set(filters, k, v);
    }

    /** `hasActiveFilters` */
    predicate HasActive()
      reads this
    {
      HasActiveFilters(filters)
    }

    /** `buildFilterQuery()`: one entry per active key, in declaration order. */
    method BuildFilterQuery() returns (query: seq<(string, Scalar)>)
      ensures query == FilterQuery(filters)
      ensures |query| == ActiveCount(filters)
    {
      var f := filters;
      query := [];
      query := AddEntry(query, f, Location);
      assert query == Entry(f, Location);
      query := AddEntry(query, f, ChatRole);
      query := AddEntry(query, f, IsBotUser);
      query := AddEntry(query, f, StatsGIR);
      query := AddEntry(query, f, StatsWinRatio);
      query := AddEntry(query, f, StatsLongestDrive);
      query := AddEntry(query, f, StatsHoleInOneCount);
      query := AddEntry(query, f, CareerLevel);
      query := AddEntry(query, f, CareerXP);
      query := AddEntry(query, f, EarningsCashEarned);
      query := AddEntry(query, f, WalletCoins);
      query := AddEntry(query, f, CreateTimeFrom);
      query := AddEntry(query, f, CreateTimeTo);
      query := AddEntry(query, f, UpdateTimeFrom);
      query := AddEntry(query, f, UpdateTimeTo);
      assert query == FilterQuery(f);
      CountIsQueryLength(f);
    }

    /** `getActiveFilterCount`: one per active key. */
    method GetActiveFilterCount() returns (count: nat)
      ensures count == ActiveCount(filters) == |FilterQuery(filters)|
      ensures count <= 15
      ensures count > 0 ==> HasActiveFilters(filters)
    {
      var f := filters;
      count := 0;
      count := CountIfActive(count, f, Location);
      count := CountIfActive(count, f, ChatRole);
      count := CountIfActive(count, f, IsBotUser);
      count := CountIfActive(count, f, StatsGIR);
      count := CountIfActive(count, f, StatsWinRatio);
      count := CountIfActive(count, f, StatsLongestDrive);
      count := CountIfActive(count, f, StatsHoleInOneCount);
      count := CountIfActive(count, f, CareerLevel);
      count := CountIfActive(count, f, CareerXP);
      count := CountIfActive(count, f, EarningsCashEarned);
      count := CountIfActive(count, f, WalletCoins);
      count := CountIfActive(count, f, CreateTimeFrom);
      count := CountIfActive(count, f, CreateTimeTo);
      count := CountIfActive(count, f, UpdateTimeFrom);
      count := CountIfActive(count, f, UpdateTimeTo);
      CountIsQueryLength(f);
      if count > 0 {
        CountImpliesFlag(f);
      }
    }
  }

  /**
   * One step of `buildFilterQuery`: `query.key = value` when the key's condition
   * holds (a truthy location or date, a non-null role, a set flag, a range off its
   * default, written '<lo>-<hi>').
   */
  method AddEntry(query: seq<(string, Scalar)>, f: Filters, k: FilterKey) returns (r: seq<(string, Scalar)>)
    ensures r == query + Entry(f, k)
  {
    r := query;
    if Active(f, k) {
      r := r + [(KeyName(k), QueryValue(f, k))];
    }
  }

  /** One step of `getActiveFilterCount`: `count++` under the same condition. */
  method CountIfActive(count: nat, f: Filters, k: FilterKey) returns (r: nat)
    ensures r == count + Bit(Active(f, k))
  {
    r := count;
    if Active(f, k) {
      r := r + 1;
    }
  }

  /** Every active key is sent with its value. */
  lemma ActiveKeyIsSent(f: Filters, k: FilterKey)
    requires Active(f, k)
    ensures (KeyName(k), QueryValue(f, k)) in FilterQuery(f)
  {
    var e := Entry(f, k);
    assert e[0] in e;
  }
}
