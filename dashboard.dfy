// The dashboard: six read requests built from the selected period, an update
// that replaces all six data slices together, and the colour of each location.

module Dashboard {
  import opened Common

  datatype Period = Day | Week | Month

  /** The value of the period selector's option. */
  function PeriodParam(p: Period): string {
    match p
    case Day => "day"
    case Week => "week"
    case Month => "month"
  }

  /** The selector offers exactly three values, and each reads back as its period. */
  function ParsePeriod(s: string): Option<Period> {
    if s == "day" then Some(Day)
    else if s == "week" then Some(Week)
    else if s == "month" then Some(Month)
    else None
  }

  lemma PeriodRoundTrip(p: Period)
    ensures ParsePeriod(PeriodParam(p)) == Some(p)
  {
  }

  /** The six requests of one refresh, in the order they are awaited. */
  function DashboardRequests(p: Period): (reqs: seq<ApiRequest>)
    ensures |reqs| == 6
    ensures forall r :: r in reqs ==> r.verb == Get
    ensures reqs[0] == ApiRequest(Get, "/dashboard/stats", [])
    ensures reqs[1] == ApiRequest(Get, "/dashboard/sales-today", [])
    ensures reqs[2].path == "/dashboard/sales-by-period" && reqs[2].query == [("period", PeriodParam(p)), ("limit", "7")]
    ensures reqs[3].path == "/dashboard/top-items" && reqs[3].query == [("limit", "5")]
    ensures reqs[4] == ApiRequest(Get, "/dashboard/sales-by-location", [])
    ensures reqs[5].path == "/dashboard/recent-activity" && reqs[5].query == [("limit", "5")]
  {
    [ ApiRequest(Get, "/dashboard/stats", []),
      ApiRequest(Get, "/dashboard/sales-today", []),
      ApiRequest(Get, "/dashboard/sales-by-period", [("period", PeriodParam(p)), ("limit", "7")]),
      ApiRequest(Get, "/dashboard/top-items", [("limit", "5")]),
      ApiRequest(Get, "/dashboard/sales-by-location", []),
      ApiRequest(Get, "/dashboard/recent-activity", [("limit", "5")]) ]
  }

  /** Only the sales-by-period request depends on the period. */
  lemma OnlySeriesDependsOnPeriod(p: Period, q: Period)
    ensures forall i :: 0 <= i < 6 && i != 2 ==> DashboardRequests(p)[i] == DashboardRequests(q)[i]
    ensures p != q ==> DashboardRequests(p)[2] != DashboardRequests(q)[2]
  {
    if p != q {
      PeriodRoundTrip(p);
      PeriodRoundTrip(q);
      assert DashboardRequests(p)[2].query[0].1 != DashboardRequests(q)[2].query[0].1;
    }
  }

  // ---------------------------------------------------------------------------
  // Data slices

  /** `/dashboard/stats`; any figure may be missing from the response. */
  datatype Stats = Stats(
    totalSales: Option<nat>,
    totalTickets: Option<nat>,
    averageTicket: Option<nat>,
    totalItems: Option<nat>,
    totalUsers: Option<nat>,
    totalLocations: Option<nat>)

  datatype SalesToday = SalesToday(ticket_count: nat, total_sales: nat, avg_ticket: nat, max_ticket: nat)
  datatype PeriodSales = PeriodSales(period: string, total_sales: nat)
  datatype TopItem = TopItem(item_name: string, total_quantity: nat)
  datatype LocationSales = LocationSales(id: nat, location_name: string, total_sales: nat)

  /** The six slices a refresh shows together. */
  datatype Snapshot = Snapshot(
    stats: Option<Stats>,
    salesToday: Option<SalesToday>,
    salesByPeriod: seq<PeriodSales>,
    topItems: seq<TopItem>,
    salesByLocation: seq<LocationSales>,
    recentActivity: seq<Ticket>)

  /** The outcome of each of the six requests. */
  datatype Responses = Responses(
    stats: Result<Stats, ApiError>,
    salesToday: Result<SalesToday, ApiError>,
    salesByPeriod: Result<seq<PeriodSales>, ApiError>,
    topItems: Result<seq<TopItem>, ApiError>,
    salesByLocation: Result<seq<LocationSales>, ApiError>,
    recentActivity: Result<seq<Ticket>, ApiError>)

  predicate AllSucceeded(r: Responses) {
    && r.stats.Success? && r.salesToday.Success? && r.salesByPeriod.Success?
    && r.topItems.Success? && r.salesByLocation.Success? && r.recentActivity.Success?
  }

  /**
   * `Promise.all` over the six requests: a snapshot exactly when every request
   * succeeded, made of the six payloads; nothing when any one of them failed.
   */
  function Joined(r: Responses): (s: Option<Snapshot>)
    ensures s.Some? <==> AllSucceeded(r)
    ensures s.Some? ==> s.value == Snapshot(
      Some(r.stats.value), Some(r.salesToday.value), r.salesByPeriod.value,
      r.topItems.value, r.salesByLocation.value, r.recentActivity.value)
  {
    if AllSucceeded(r) then
      Some(Snapshot(Some(r.stats.value), Some(r.salesToday.value), r.salesByPeriod.value,
                    r.topItems.value, r.salesByLocation.value, r.recentActivity.value))
    else None
  }

  /** Any one failed request is enough to lose the whole refresh, whatever the other five carried. */
  lemma OneFailureSpoilsAll(r: Responses, e: ApiError)
    ensures Joined(r.(stats := Failure(e))) == None
    ensures Joined(r.(salesToday := Failure(e))) == None
    ensures Joined(r.(salesByPeriod := Failure(e))) == None
    ensures Joined(r.(topItems := Failure(e))) == None
    ensures Joined(r.(salesByLocation := Failure(e))) == None
    ensures Joined(r.(recentActivity := Failure(e))) == None
  {
  }

  // ---------------------------------------------------------------------------
  // Display rules

  datatype StatKey = TotalSales | TotalTickets | AverageTicket | TotalItems | TotalUsers | TotalLocations

  /** `stats?.<key> || 0`: a figure shows as 0 when there are no stats yet or it is missing. */
  function StatValue(stats: Option<Stats>, key: StatKey): (v: nat)
    ensures stats.None? ==> v == 0
    ensures stats.Some? ==> v == match key
      case TotalSales => stats.value.totalSales.GetOr(0)
      case TotalTickets => stats.value.totalTickets.GetOr(0)
      case AverageTicket => stats.value.averageTicket.GetOr(0)
      case TotalItems => stats.value.totalItems.GetOr(0)
      case TotalUsers => stats.value.totalUsers.GetOr(0)
      case TotalLocations => stats.value.totalLocations.GetOr(0)
  {
    match stats
    case None => 0
    case Some(s) =>
      match key
      case TotalSales => s.totalSales.GetOr(0)
      case TotalTickets => s.totalTickets.GetOr(0)
      case AverageTicket => s.averageTicket.GetOr(0)
      case TotalItems => s.totalItems.GetOr(0)
      case TotalUsers => s.totalUsers.GetOr(0)
      case TotalLocations => s.totalLocations.GetOr(0)
  }

  const Colors: seq<string> := ["#2962ff", "#00e676", "#ff6d00", "#d500f9", "#00b0ff"]

  /** `COLORS[index % COLORS.length]`. */
  function ColorAt(index: nat): string {
    Colors[index % |Colors|]
  }

  /** The colour of each location, used both for its pie slice and for its legend dot. */
  function LocationColors(locations: seq<LocationSales>): (cs: seq<string>)
    ensures |cs| == |locations|
    ensures forall i :: 0 <= i < |cs| ==> cs[i] == Colors[i % 5]
  {
    seq(|locations|, i requires 0 <= i < |locations| => ColorAt(i))
  }

  /** Colours repeat every five locations, and five locations in a row all differ. */
  lemma ColorsCycle(i: nat, j: nat)
    ensures ColorAt(i + 5) == ColorAt(i)
    ensures i < j < i + 5 ==> ColorAt(i) != ColorAt(j)
  {
    assert (i + 5) % 5 == i % 5;
    if i < j < i + 5 {
      assert i % 5 != j % 5;
    }
  }

  // ---------------------------------------------------------------------------
  // The page

  class DashboardPage {
    var stats: Option<Stats>
    var salesToday: Option<SalesToday>
    var salesByPeriod: seq<PeriodSales>
    var topItems: seq<TopItem>
    var salesByLocation: seq<LocationSales>
    var recentActivity: seq<Ticket>
    var loading: bool
    var period: Period

    /** The six slices the page shows. */
    function Shown(): Snapshot
      reads this
    {
      Snapshot(stats, salesToday, salesByPeriod, topItems, salesByLocation, recentActivity)
    }

    /** The page as it mounts: nothing loaded, loading, period "day". */
    constructor()
      ensures Shown() == Snapshot(None, None, [], [], [], [])
      ensures loading && period == Day
    {
      stats, salesToday := None, None;
      salesByPeriod, topItems, salesByLocation, recentActivity := [], [], [], [];
      loading := true;
      period := Day;
    }

    /** The first half of `fetchDashboardData`: raise `loading` and issue the six requests. */
    method BeginRefresh() returns (reqs: seq<ApiRequest>)
      modifies this`loading
      ensures loading
      ensures reqs == DashboardRequests(period)
    {
      loading := true;
      reqs := DashboardRequests(period);
    }

    /** The period selector: store the choice; the effect on `period` refreshes at once. */
    method SelectPeriod(p: Period) returns (reqs: seq<ApiRequest>)
      modifies this`period, this`loading
      ensures period == p && loading
      ensures reqs == DashboardRequests(p)
    {
      period := p;
      reqs := BeginRefresh();
    }

    /**
     * The second half: all six slices are replaced when every request succeeded
     * and none is touched otherwise; `loading` is cleared either way.
     */
    method CompleteRefresh(r: Responses)
      modifies this
      ensures Joined(r).Some? ==> Shown() == Joined(r).value
      ensures Joined(r).None? ==> Shown() == old(Shown())
      ensures !loading && period == old(period)
    {
      var joined := Joined(r);
      if joined.Some? {
        stats := Some(r.stats.value);
        salesToday := Some(r.salesToday.value);
        salesByPeriod := r.salesByPeriod.value;
        topItems := r.topItems.value;
        salesByLocation := r.salesByLocation.value;
        recentActivity := r.recentActivity.value;
      }
      loading := false;
    }
  }
}
