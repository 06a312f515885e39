/** The sustainability report's view-model (report/ReportViewModel.kt): the records of
    `report_mock.json`, the load handling, the period switch and the statistics shown
    for the selected period. Decimal amounts are reals, compared for equality only. */
module Report {
  import opened Wrappers

  datatype StatsData = StatsData(
    co2Saved: real,
    transportTrips: int,
    bikeKm: real,
    walkKm: real,
    publicTransportTrips: int,
    carTripsAvoided: int,
    sustainableMeals: int,
    recycledItems: int,
    waterSaved: real)

  datatype DailyData = DailyData(day: string, co2: real, transport: int)

  datatype TransportType = TransportType(kind: string, percentage: int, color: string)

  datatype Achievement = Achievement(title: string, value: string, icon: string)

  datatype ReportJsonData = ReportJsonData(
    weeklyStats: StatsData,
    monthlyStats: StatsData,
    dailyData: seq<DailyData>,
    transportBreakdown: seq<TransportType>,
    achievements: seq<Achievement>)

  datatype ReportPeriod = Weekly | Monthly

  datatype ReportState = ReportState(
    selectedPeriod: ReportPeriod := Weekly,
    weeklyStats: Option<StatsData> := None,
    monthlyStats: Option<StatsData> := None,
    dailyData: seq<DailyData> := [],
    transportBreakdown: seq<TransportType> := [],
    achievements: seq<Achievement> := [],
    isLoading: bool := true)

  /** `getCurrentStats`: the statistics of the selected period. */
  function CurrentStats(s: ReportState): (r: Option<StatsData>)
    ensures s.selectedPeriod == Weekly ==> r == s.weeklyStats
    ensures s.selectedPeriod == Monthly ==> r == s.monthlyStats
  {
    match s.selectedPeriod
    case Weekly => s.weeklyStats
    case Monthly => s.monthlyStats
  }

  /** The shown statistics depend only on the period and the loaded data: before a
      load there are none whatever the period, and after a successful load the
      selected period's statistics are shown. */
  lemma CurrentStatsFollowsPeriod(s: ReportState, p: ReportPeriod, data: ReportJsonData)
    ensures CurrentStats(ReportState().(selectedPeriod := p)).None?
    ensures CurrentStats(s.(selectedPeriod := p)) == (if p == Weekly then s.weeklyStats else s.monthlyStats)
    ensures CurrentStats(s.(weeklyStats := Some(data.weeklyStats), monthlyStats := Some(data.monthlyStats), selectedPeriod := p))
         == Some(if p == Weekly then data.weeklyStats else data.monthlyStats)
  {
  }

  class ReportViewModel {
    var state: ReportState

    /** The initial state; the load that `init` launches is the first `LoadReportData` call. */
    constructor ()
      ensures state == ReportState()
      ensures state.selectedPeriod == Weekly && state.weeklyStats.None? && state.monthlyStats.None?
      ensures state.dailyData == [] && state.isLoading
    {
      state := ReportState();
    }

    /** `loadReportData` after the asset has been read and parsed: the five data fields;
        a failure only lowers the loading flag and reports nothing. */
    method LoadReportData(parsed: LoadResult<ReportJsonData>) returns (ghost whileLoading: ReportState)
      modifies this
      ensures whileLoading == old(state).(isLoading := true)
      ensures parsed.Loaded? ==> state == whileLoading.(
        weeklyStats := Some(parsed.data.weeklyStats), monthlyStats := Some(parsed.data.monthlyStats),
        dailyData := parsed.data.dailyData, transportBreakdown := parsed.data.transportBreakdown,
        achievements := parsed.data.achievements, isLoading := false)
      ensures parsed.LoadFailed? ==> state == old(state).(isLoading := false)
    {
      state := state.(isLoading := true);
      whileLoading := state;
      match parsed
      case Loaded(data) =>
        state := state.(
          weeklyStats := Some(data.weeklyStats), monthlyStats := Some(data.monthlyStats),
          dailyData := data.dailyData, transportBreakdown := data.transportBreakdown,
          achievements := data.achievements, isLoading := false);
      case LoadFailed(_) =>
        state := state.(isLoading := false);
    }

    method SelectPeriod(period: ReportPeriod)
      modifies this
      ensures state == old(state).(selectedPeriod := period)
      ensures CurrentStats(state) == (if period == Weekly then state.weeklyStats else state.monthlyStats)
    {
      state := state.(selectedPeriod := period);
    }
  }
}
