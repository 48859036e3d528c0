/**
 * The WeatherData class of main.py: a fixed location and start date, ten
 * lists that grow by one entry per day processed, `FiveYearStats` (the
 * five-year statistics of one calendar day) and `GetWeekStats` (the walk over
 * consecutive days that appends to the ten lists).
 *
 * The archive service is a parameter: a total function from the request's
 * query parameters to the three readings taken from its response.
 */
module Weather {
  import opened Calendar
  import opened DateFormat
  import opened Statistics
  import opened Options

  /** Number of consecutive years sampled for every calendar day. */
  const YearsOfHistory: nat := 5
  /** The default `week_length`. */
  const DefaultWeekLength: int := 7

  const ArchiveUrl: string := "https://archive-api.open-meteo.com/v1/archive"
  const DailyFields: string := "temperature_2m_mean,windspeed_10m_mean,precipitation_sum"

  /** One year's readings for one day: the first element of each daily array of the response. */
  datatype Observation = Observation(temperature: real, windSpeed: real, precipitation: real)

  /** The query of one archive request. */
  datatype Request = Request(
    url: string, latitude: real, longitude: real, startDate: string, endDate: string,
    daily: string, temperatureUnit: string, windSpeedUnit: string,
    precipitationUnit: string, timezone: string)

  /** The remote archive: what it answers to each request. */
  type Archive = Request -> Observation

  /** The request for one date: a window of a single day, in Fahrenheit, mph and inches. */
  function ArchiveRequest(latitude: real, longitude: real, dateStr: string): Request {
    Request(ArchiveUrl, latitude, longitude, dateStr, dateStr, DailyFields,
            "fahrenheit", "mph", "inch", "auto")
  }

  /** The requests for (month, day), one for each year of the window that starts at anchorYear. */
  function WindowRequests(latitude: real, longitude: real, anchorYear: int, month: int, day: int): seq<Request> {
    seq(YearsOfHistory, i => ArchiveRequest(latitude, longitude, RequestDate(anchorYear + i, month, day)))
  }

  function Temperatures(obs: seq<Observation>): seq<real> {
    seq(|obs|, i requires 0 <= i < |obs| => obs[i].temperature)
  }

  function WindSpeeds(obs: seq<Observation>): seq<real> {
    seq(|obs|, i requires 0 <= i < |obs| => obs[i].windSpeed)
  }

  function Precipitations(obs: seq<Observation>): seq<real> {
    seq(|obs|, i requires 0 <= i < |obs| => obs[i].precipitation)
  }

  /** The archive's answers to the window's requests, oldest year first. */
  function WindowObservations(archive: Archive, latitude: real, longitude: real,
                              anchorYear: int, month: int, day: int): seq<Observation>
  {
    var requests := WindowRequests(latitude, longitude, anchorYear, month, day);
    seq(|requests|, i requires 0 <= i < |requests| => archive(requests[i]))
  }

  /** The nine statistics of (month, day) over the window of years starting at anchorYear. */
  function WindowStats(archive: Archive, latitude: real, longitude: real,
                       anchorYear: int, month: int, day: int): DayStats
  {
    var obs := WindowObservations(archive, latitude, longitude, anchorYear, month, day);
    Summarize(Temperatures(obs), WindSpeeds(obs), Precipitations(obs))
  }

  /** One entry of the ten lists: a date label and that day's statistics. */
  datatype Row = Row(date: string, stats: DayStats)

  /**
   * What `get_5yr_stats_for_date` returns, as a function of (month, day), for
   * an object at (latitude, longitude) whose window of years starts at anchorYear.
   */
  function StatsOf(archive: Archive, latitude: real, longitude: real, anchorYear: int): (int, int) -> DayStats {
    (month, day) => WindowStats(archive, latitude, longitude, anchorYear, month, day)
  }

  /** The entry for day d: its label, and the statistics statsOf gives for its month and day. */
  function DayRow(statsOf: (int, int) -> DayStats, d: Date): Row {
    Row(DateLabel(d), statsOf(d.month, d.day))
  }

  /** The entries for the first n days from start. */
  function WeekRows(statsOf: (int, int) -> DayStats, start: Date, n: nat): seq<Row> {
    if n == 0 then []
    else WeekRows(statsOf, start, n - 1) + [DayRow(statsOf, AddDays(start, n - 1))]
  }

  /** Every one of the first n days from start is a date Python can represent. */
  predicate DaysInRange(start: Date, n: int)
    decreases n
  {
    n <= 0 || (DaysInRange(start, n - 1) && InRange(AddDays(start, n - 1)))
  }

  /** One iteration of the week loop adds the next day's entry. */
  lemma WeekRowsStep(statsOf: (int, int) -> DayStats, start: Date, i: nat,
                     before: seq<Row>, rows: seq<Row>, rows': seq<Row>)
    requires rows == before + WeekRows(statsOf, start, i)
    requires rows' == rows + [DayRow(statsOf, AddDays(start, i))]
    ensures rows' == before + WeekRows(statsOf, start, i + 1)
  {
    var w := WeekRows(statsOf, start, i);
    var row := DayRow(statsOf, AddDays(start, i));
    assert (before + w) + [row] == before + (w + [row]);
  }

  /** A day out of range among the first m makes the whole run of m days out of range. */
  lemma {:induction false} OutOfRangeDayBreaksRun(start: Date, i: nat, m: int)
    requires i < m && !InRange(AddDays(start, i))
    ensures !DaysInRange(start, m)
    decreases m
  {
    if i < m - 1 {
      OutOfRangeDayBreaksRun(start, i, m - 1);
    }
  }

  lemma DaysInRangeStep(start: Date, n: nat)
    requires DaysInRange(start, n) && InRange(AddDays(start, n))
    ensures DaysInRange(start, n + 1)
  {
  }

  /** The run of in-range days is exactly what the quantifier says. */
  lemma {:induction false} DaysInRangeMeaning(start: Date, n: int)
    ensures DaysInRange(start, n) <==> forall k :: 0 <= k < n ==> InRange(AddDays(start, k))
    decreases n
  {
    if n > 0 {
      DaysInRangeMeaning(start, n - 1);
      if !InRange(AddDays(start, n - 1)) {
        OutOfRangeDayBreaksRun(start, n - 1, n);
      }
    }
  }

  /**
   * The window holds exactly five requests, one per year from anchorYear on,
   * each for the single day (month, day) of that year at the same place, and
   * no two alike.
   */
  lemma WindowRequestsCoverYears(latitude: real, longitude: real, anchorYear: int, month: int, day: int)
    requires anchorYear >= 0 && 0 <= month < 100 && 0 <= day < 100
    ensures var reqs := WindowRequests(latitude, longitude, anchorYear, month, day);
      && |reqs| == YearsOfHistory
      && (forall i :: 0 <= i < |reqs| ==>
            && reqs[i].latitude == latitude && reqs[i].longitude == longitude
            && reqs[i].startDate == reqs[i].endDate
            && ParseRequestDate(reqs[i].startDate) == Some((anchorYear + i, month, day)))
      && (forall i, j :: 0 <= i < j < |reqs| ==> reqs[i] != reqs[j])
  {
    var reqs := WindowRequests(latitude, longitude, anchorYear, month, day);
    forall i | 0 <= i < |reqs|
      ensures reqs[i].latitude == latitude && reqs[i].longitude == longitude
      ensures reqs[i].startDate == reqs[i].endDate
      ensures ParseRequestDate(reqs[i].startDate) == Some((anchorYear + i, month, day))
    {
      assert reqs[i] == ArchiveRequest(latitude, longitude, RequestDate(anchorYear + i, month, day));
      RequestDateRoundTrip(anchorYear + i, month, day);
    }
    forall i, j | 0 <= i < j < |reqs|
      ensures reqs[i] != reqs[j]
    {
      assert ParseRequestDate(reqs[i].startDate) != ParseRequestDate(reqs[j].startDate);
    }
  }

  /**
   * The nine statistics of five readings: the averages are the readings
   * added up and divided by five, precipitation is added up, and every
   * reading lies between the minimum and the maximum, which are themselves
   * readings.
   */
  lemma FiveReadingsStats(obs: seq<Observation>)
    requires |obs| == YearsOfHistory
    ensures var r := Summarize(Temperatures(obs), WindSpeeds(obs), Precipitations(obs));
      && r.avgTemp == (obs[0].temperature + obs[1].temperature + obs[2].temperature
                       + obs[3].temperature + obs[4].temperature) / 5.0
      && r.avgWind == (obs[0].windSpeed + obs[1].windSpeed + obs[2].windSpeed
                       + obs[3].windSpeed + obs[4].windSpeed) / 5.0
      && r.sumPrecip == obs[0].precipitation + obs[1].precipitation + obs[2].precipitation
                        + obs[3].precipitation + obs[4].precipitation
      && r.minTemp <= r.avgTemp <= r.maxTemp
      && r.minWind <= r.avgWind <= r.maxWind
      && r.minTemp in Temperatures(obs) && r.maxTemp in Temperatures(obs)
      && r.minWind in WindSpeeds(obs) && r.maxWind in WindSpeeds(obs)
      && r.minPrecip in Precipitations(obs) && r.maxPrecip in Precipitations(obs)
      && (forall i :: 0 <= i < |obs| ==>
            && r.minTemp <= obs[i].temperature <= r.maxTemp
            && r.minWind <= obs[i].windSpeed <= r.maxWind
            && r.minPrecip <= obs[i].precipitation <= r.maxPrecip)
  {
    var temps, winds, precips := Temperatures(obs), WindSpeeds(obs), Precipitations(obs);
    SummarizeFiveYears(temps, winds, precips);
    SummarizeBounds(temps, winds, precips);
    assert forall i :: 0 <= i < |obs| ==>
      temps[i] == obs[i].temperature && winds[i] == obs[i].windSpeed && precips[i] == obs[i].precipitation;
  }

  /**
   * The statistics of a window are those of the archive's five answers, one
   * for each year from anchorYear on, oldest first.
   */
  lemma WindowStatsMeaning(archive: Archive, latitude: real, longitude: real,
                           anchorYear: int, month: int, day: int)
    ensures var obs := WindowObservations(archive, latitude, longitude, anchorYear, month, day);
      && |obs| == YearsOfHistory
      && (forall i :: 0 <= i < |obs| ==>
            obs[i] == archive(ArchiveRequest(latitude, longitude, RequestDate(anchorYear + i, month, day))))
      && WindowStats(archive, latitude, longitude, anchorYear, month, day)
         == Summarize(Temperatures(obs), WindSpeeds(obs), Precipitations(obs))
  {
  }

  /** The week adds exactly one entry per day. */
  lemma {:induction false} WeekRowsLength(statsOf: (int, int) -> DayStats, start: Date, n: nat)
    ensures |WeekRows(statsOf, start, n)| == n
  {
    if n > 0 {
      WeekRowsLength(statsOf, start, n - 1);
    }
  }

  /** Entry k of the first n days is the entry of day k after the start. */
  lemma {:induction false} WeekRowsAt(statsOf: (int, int) -> DayStats, start: Date, n: nat, k: nat)
    requires k < n
    ensures |WeekRows(statsOf, start, n)| == n
    ensures WeekRows(statsOf, start, n)[k] == DayRow(statsOf, AddDays(start, k))
    decreases n
  {
    WeekRowsLength(statsOf, start, n);
    if k < n - 1 {
      WeekRowsAt(statsOf, start, n - 1, k);
    }
  }

  /** Entry k of the week is day k after the start: its "MM-DD" label, and the statistics of its month and day. */
  lemma WeekEntry(statsOf: (int, int) -> DayStats, start: Date, n: nat, k: nat)
    requires IsCalendarDate(start) && k < n
    ensures var rows := WeekRows(statsOf, start, n);
      var d := AddDays(start, k);
      && |rows| == n
      && rows[k].date == DateLabel(d)
      && ParseLabel(rows[k].date) == Some((d.month, d.day))
      && rows[k].stats == statsOf(d.month, d.day)
  {
    WeekRowsAt(statsOf, start, n, k);
    LabelRoundTrip(AddDays(start, k));
  }

  /**
   * The window stays anchored: for the object's own statistics, entry k holds
   * the statistics of day k's month and day over the years from anchorYear,
   * whichever year day k itself falls in.
   */
  lemma WeekEntryAnchored(archive: Archive, latitude: real, longitude: real,
                          anchorYear: int, start: Date, n: nat, k: nat)
    requires IsCalendarDate(start) && k < n
    ensures var rows := WeekRows(StatsOf(archive, latitude, longitude, anchorYear), start, n);
      var d := AddDays(start, k);
      && |rows| == n
      && rows[k].date == DateLabel(d)
      && rows[k].stats == WindowStats(archive, latitude, longitude, anchorYear, d.month, d.day)
  {
    WeekEntry(StatsOf(archive, latitude, longitude, anchorYear), start, n, k);
  }

  /**
   * Within any 365 consecutive days no "MM-DD" label repeats: two entries
   * with the same label would be the same month and day at least a year apart.
   */
  lemma WeekLabelsDistinct(statsOf: (int, int) -> DayStats, start: Date, n: nat, j: nat, k: nat)
    requires IsCalendarDate(start) && start.year >= 1
    requires j < k < n <= 365
    ensures var rows := WeekRows(statsOf, start, n);
      |rows| == n && rows[j].date != rows[k].date
  {
    WeekRowsAt(statsOf, start, n, j);
    WeekRowsAt(statsOf, start, n, k);
    LabelInjective(AddDays(start, j), AddDays(start, k));
    NoRepeatWithinYear(start, j, k);
  }

  /**
   * A week that runs over New Year: from 2023-12-30, four days are labelled
   * 12-30, 12-31, 01-01 and 01-02, with the statistics of those months and days.
   */
  lemma NewYearRollover(statsOf: (int, int) -> DayStats)
    ensures WeekRows(statsOf, Date(2023, 12, 30), 4) == [
        Row("12-30", statsOf(12, 30)),
        Row("12-31", statsOf(12, 31)),
        Row("01-01", statsOf(1, 1)),
        Row("01-02", statsOf(1, 2))]
  {
    var start := Date(2023, 12, 30);
    NewYearSteps();
    WeekRowsAt(statsOf, start, 4, 0);
    WeekRowsAt(statsOf, start, 4, 1);
    WeekRowsAt(statsOf, start, 4, 2);
    WeekRowsAt(statsOf, start, 4, 3);
    assert DateLabel(Date(2023, 12, 30)) == "12-30";
    assert DateLabel(Date(2023, 12, 31)) == "12-31";
    assert DateLabel(Date(2024, 1, 1)) == "01-01";
    assert DateLabel(Date(2024, 1, 2)) == "01-02";
  }

  /** Ten lists of equal length read index by index: entry k is the label and the statistics at k. */
  function Table(ds: seq<string>, at: seq<real>, nt: seq<real>, xt: seq<real>,
                 aw: seq<real>, nw: seq<real>, xw: seq<real>,
                 sp: seq<real>, np: seq<real>, xp: seq<real>): seq<Row>
    requires |at| == |nt| == |xt| == |aw| == |nw| == |xw| == |sp| == |np| == |xp| == |ds|
  {
    seq(|ds|, k requires 0 <= k < |ds| =>
      Row(ds[k], DayStats(at[k], nt[k], xt[k], aw[k], nw[k], xw[k], sp[k], np[k], xp[k])))
  }

  /** Appending one entry to each of the ten lists appends one row. */
  lemma TableAppend(ds: seq<string>, at: seq<real>, nt: seq<real>, xt: seq<real>,
                    aw: seq<real>, nw: seq<real>, xw: seq<real>,
                    sp: seq<real>, np: seq<real>, xp: seq<real>, d: string, s: DayStats)
    requires |at| == |nt| == |xt| == |aw| == |nw| == |xw| == |sp| == |np| == |xp| == |ds|
    ensures Table(ds + [d], at + [s.avgTemp], nt + [s.minTemp], xt + [s.maxTemp],
                  aw + [s.avgWind], nw + [s.minWind], xw + [s.maxWind],
                  sp + [s.sumPrecip], np + [s.minPrecip], xp + [s.maxPrecip])
            == Table(ds, at, nt, xt, aw, nw, xw, sp, np, xp) + [Row(d, s)]
  {
  }

  /** How many days a call of GetWeekStats that ended with `outcome` has appended. */
  function DaysWritten(outcome: WeekOutcome, weekLength: int): nat {
    match outcome
    case Completed => RangeLength(weekLength)
    case InvalidStartDate => 0
    case DateOutOfRange(offset) => offset
  }

  /** `len(range(n))`. */
  function RangeLength(n: int): nat {
    if n < 0 then 0 else n
  }

  /** How a call of GetWeekStats ends: normally, or by one of the two exceptions of `datetime`. */
  datatype WeekOutcome =
    | Completed
    | InvalidStartDate          // date(year, month, day) raises ValueError
    | DateOutOfRange(offset: nat)  // start_date + timedelta(days=offset) raises OverflowError

  class WeatherData {
    var latitude: real
    var longitude: real
    var month: int
    var day: int
    var year: int

    var dates: seq<string>
    var avgTemp: seq<real>
    var minTemp: seq<real>
    var maxTemp: seq<real>
    var avgWindSpeed: seq<real>
    var minWindSpeed: seq<real>
    var maxWindSpeed: seq<real>
    var sumPrecipitation: seq<real>
    var minPrecipitation: seq<real>
    var maxPrecipitation: seq<real>

    /** The ten lists have equal length: index k of each describes the same day. */
    ghost predicate Valid()
      reads this
    {
      && |avgTemp| == |dates| && |minTemp| == |dates| && |maxTemp| == |dates|
      && |avgWindSpeed| == |dates| && |minWindSpeed| == |dates| && |maxWindSpeed| == |dates|
      && |sumPrecipitation| == |dates| && |minPrecipitation| == |dates| && |maxPrecipitation| == |dates|
    }

    /** The ten lists read index by index. */
    ghost function Rows(): seq<Row>
      reads this
    {
      if !Valid() then []
      else Table(dates, avgTemp, minTemp, maxTemp, avgWindSpeed, minWindSpeed, maxWindSpeed,
                 sumPrecipitation, minPrecipitation, maxPrecipitation)
    }

    constructor (latitude: real, longitude: real, month: int, day: int, year: int)
      ensures this.latitude == latitude && this.longitude == longitude
      ensures this.month == month && this.day == day && this.year == year
      ensures Valid() && Rows() == []
    {
      this.latitude, this.longitude := latitude, longitude;
      this.month, this.day, this.year := month, day, year;
      dates := [];
      avgTemp, minTemp, maxTemp := [], [], [];
      avgWindSpeed, minWindSpeed, maxWindSpeed := [], [], [];
      sumPrecipitation, minPrecipitation, maxPrecipitation := [], [], [];
    }

    /**
     * `get_5yr_stats_for_date(month, day)`: one request per year from `year`
     * to `year + 4`, all for the same month and day, reduced to the nine
     * statistics.
     */
    method FiveYearStats(month: int, day: int, archive: Archive) returns (stats: DayStats)
      ensures stats == WindowStats(archive, latitude, longitude, year, month, day)
    {
      ghost var obs := WindowObservations(archive, latitude, longitude, year, month, day);
      var temps, winds, precips := [], [], [];
      for i := 0 to YearsOfHistory
        invariant |temps| == i && |winds| == i && |precips| == i
        invariant forall k :: 0 <= k < i ==> temps[k] == obs[k].temperature
        invariant forall k :: 0 <= k < i ==> winds[k] == obs[k].windSpeed
        invariant forall k :: 0 <= k < i ==> precips[k] == obs[k].precipitation
      {
        var y := year + i;
        var dateStr := RequestDate(y, month, day);
        var reading := archive(ArchiveRequest(latitude, longitude, dateStr));
        temps := temps + [reading.temperature];
        winds := winds + [reading.windSpeed];
        precips := precips + [reading.precipitation];
      }
      assert temps == Temperatures(obs);
      assert winds == WindSpeeds(obs);
      assert precips == Precipitations(obs);
      stats := Summarize(temps, winds, precips);
    }

    /** The start date the constructor stored. */
    function StartDate(): Date
      reads this
    {
      Date(year, month, day)
    }

    /**
     * `get_week_stats(week_length)`: for each of the first `weekLength` days
     * from (year, month, day), appends the day's "MM-DD" label and its nine
     * statistics to the ten lists. The window of years stays anchored at
     * `year` for every day.
     */
    method GetWeekStats(weekLength: int, archive: Archive) returns (outcome: WeekOutcome)
      requires Valid()
      modifies this`dates, this`avgTemp, this`minTemp, this`maxTemp
      modifies this`avgWindSpeed, this`minWindSpeed, this`maxWindSpeed
      modifies this`sumPrecipitation, this`minPrecipitation, this`maxPrecipitation
      ensures Valid()
      ensures latitude == old(latitude) && longitude == old(longitude)
      ensures month == old(month) && day == old(day) && year == old(year)
      ensures outcome == InvalidStartDate <==> !IsValidDate(StartDate())
      ensures outcome == Completed <==> IsValidDate(StartDate()) && DaysInRange(StartDate(), weekLength)
      ensures outcome.DateOutOfRange? ==>
        && 0 < outcome.offset < weekLength
        && !InRange(AddDays(StartDate(), outcome.offset))
        && DaysInRange(StartDate(), outcome.offset)
      ensures outcome == InvalidStartDate ==> Rows() == old(Rows())
      ensures outcome != InvalidStartDate ==>
        Rows() == old(Rows()) + WeekRows(StatsOf(archive, latitude, longitude, year), StartDate(), DaysWritten(outcome, weekLength))
      ensures |dates| == old(|dates|) + DaysWritten(outcome, weekLength)
    {
      if !IsValidDate(StartDate()) {
        return InvalidStartDate;
      }
      outcome := CollectDays(StartDate(), weekLength, archive);
      WeekRowsLength(StatsOf(archive, latitude, longitude, year), StartDate(), DaysWritten(outcome, weekLength));
    }

    /** The loop of `get_week_stats` once the start date is known to be valid. */
    method CollectDays(start: Date, weekLength: int, archive: Archive) returns (outcome: WeekOutcome)
      requires Valid() && IsValidDate(start)
      modifies this`dates, this`avgTemp, this`minTemp, this`maxTemp
      modifies this`avgWindSpeed, this`minWindSpeed, this`maxWindSpeed
      modifies this`sumPrecipitation, this`minPrecipitation, this`maxPrecipitation
      ensures Valid()
      ensures outcome != InvalidStartDate
      ensures outcome == Completed <==> DaysInRange(start, weekLength)
      ensures outcome.DateOutOfRange? ==>
        0 < outcome.offset < weekLength && !InRange(AddDays(start, outcome.offset)) && DaysInRange(start, outcome.offset)
      ensures Rows() == old(Rows()) + WeekRows(StatsOf(archive, latitude, longitude, year), start, DaysWritten(outcome, weekLength))
    {
      var n := RangeLength(weekLength);
      ghost var before := Rows();
      for i := 0 to n
        invariant Valid()
        invariant Rows() == before + WeekRows(StatsOf(archive, latitude, longitude, year), start, i)
        invariant DaysInRange(start, i)
      {
        var inRange := NextWeekDay(start, i, archive, before);
        if !inRange {
          OutOfRangeDayBreaksRun(start, i, weekLength);
          return DateOutOfRange(i);
        }
      }
      outcome := Completed;
    }

    /**
     * The body of the week loop for day i: `start_date + timedelta(days=i)`,
     * which fails when that date is out of range, then the day's entry.
     */
    method NextWeekDay(start: Date, i: nat, archive: Archive, ghost before: seq<Row>) returns (inRange: bool)
      requires Valid()
      requires Rows() == before + WeekRows(StatsOf(archive, latitude, longitude, year), start, i)
      requires DaysInRange(start, i)
      modifies this`dates, this`avgTemp, this`minTemp, this`maxTemp
      modifies this`avgWindSpeed, this`minWindSpeed, this`maxWindSpeed
      modifies this`sumPrecipitation, this`minPrecipitation, this`maxPrecipitation
      ensures Valid()
      ensures inRange == InRange(AddDays(start, i))
      ensures inRange ==>
        Rows() == before + WeekRows(StatsOf(archive, latitude, longitude, year), start, i + 1) && DaysInRange(start, i + 1)
      ensures !inRange ==> Rows() == old(Rows())
    {
      var current := AddDays(start, i);
      if !InRange(current) {
        return false;
      }
      DaysInRangeStep(start, i);
      ghost var rows := Rows();
      RecordDay(current, archive);
      WeekRowsStep(StatsOf(archive, latitude, longitude, year), start, i, before, rows, Rows());
      return true;
    }

    /** One iteration of the week loop: the day's label and its nine statistics, one per list. */
    method RecordDay(current: Date, archive: Archive)
      requires Valid()
      modifies this`dates, this`avgTemp, this`minTemp, this`maxTemp
      modifies this`avgWindSpeed, this`minWindSpeed, this`maxWindSpeed
      modifies this`sumPrecipitation, this`minPrecipitation, this`maxPrecipitation
      ensures Valid()
      ensures Rows() == old(Rows()) + [DayRow(StatsOf(archive, latitude, longitude, year), current)]
    {
      var stats := FiveYearStats(current.month, current.day, archive);
      Append(DateLabel(current), stats);
    }

    /** The ten appends of one iteration: the label and the nine statistics, one per list. */
    method Append(dateLabel: string, stats: DayStats)
      requires Valid()
      modifies this`dates, this`avgTemp, this`minTemp, this`maxTemp
      modifies this`avgWindSpeed, this`minWindSpeed, this`maxWindSpeed
      modifies this`sumPrecipitation, this`minPrecipitation, this`maxPrecipitation
      ensures Valid()
      ensures Rows() == old(Rows()) + [Row(dateLabel, stats)]
    {
      TableAppend(dates, avgTemp, minTemp, maxTemp, avgWindSpeed, minWindSpeed, maxWindSpeed,
                  sumPrecipitation, minPrecipitation, maxPrecipitation, dateLabel, stats);
      dates := dates + [dateLabel];
      avgTemp := avgTemp + [stats.avgTemp];
      minTemp := minTemp + [stats.minTemp];
      maxTemp := maxTemp + [stats.maxTemp];
      avgWindSpeed := avgWindSpeed + [stats.avgWind];
      minWindSpeed := minWindSpeed + [stats.minWind];
      maxWindSpeed := maxWindSpeed + [stats.maxWind];
      sumPrecipitation := sumPrecipitation + [stats.sumPrecip];
      minPrecipitation := minPrecipitation + [stats.minPrecip];
      maxPrecipitation := maxPrecipitation + [stats.maxPrecip];
    }
  }
}
