# Weather_5yr_Analysis in Dafny

A Dafny model of the `WeatherData` class of `main.py`:

- `get_5yr_stats_for_date(month, day)` asks the Open-Meteo archive for one
  calendar day in each of five consecutive years. The first year is the
  object's `year`. The five readings are reduced to nine statistics: the
  mean, minimum and maximum of temperature and of wind speed, and the sum,
  minimum and maximum of precipitation.
- `get_week_stats(week_length)` walks the days from the object's start date
  one by one. For each day it appends the "MM-DD" label and that day's nine
  statistics to ten parallel lists. The window of years stays anchored at
  the object's `year` even after the walk crosses New Year.

The model has four modules:

- `Calendar` (`calendar.dfy`): proleptic Gregorian dates as Python's
  `datetime.date` sees them. It has the model's own successor function
  `NextDay` and k-fold stepping `AddDays`. Python's ordinal day count serves
  as the independent reference for `date + timedelta(days=k)`.
- `DateFormat` (`date_format.dfy`): the request date `f"{year}-{month:02d}-{day:02d}"`
  and the `strftime("%m-%d")` label, each with a parser as its partner.
- `Statistics` (`statistics.dfy`): Python's `sum`, `min` and `max` over the
  readings, and the nine statistics of one day.
- `Weather` (`weather.dfy`): the archive requests, the week specification and
  the `WeatherData` class itself. The class has the five configuration fields
  and the ten lists, updated in place by its methods.

The archive service is a parameter `archive: Request -> Observation`, a total
function from the query parameters of one request to the three readings the
code takes from the response (`[0]` of each daily array). Readings are `real`.

Python's exceptions become the outcome of `GetWeekStats`:

- `date(year, month, day)` raising `ValueError` is `InvalidStartDate`.
- `start_date + timedelta(days=i)` raising `OverflowError` past 9999-12-31 is
  `DateOutOfRange(i)`. The entries for days `0..i-1` have already been
  appended at that point, and the model keeps them.

`range(week_length)` with a negative argument is empty, so nothing is
appended in that case.

The request date is usually read as `YYYY-MM-DD`, but the code does not pad
the year. The model follows the code. `RequestDateIsIsoCalendarDate` proves
the ISO form for years 1000 to 9999. `ShortYearNotPadded` proves that earlier
years give a shorter string.

## Model

| member | source | states |
|---|---|---|
| `Calendar.NextDay` | main.py:125 | the day after a calendar date is again a calendar date (day, month and year roll over) |
| `Calendar.AddDays` | main.py:125 | k steps from a calendar date stay on calendar dates |
| `Calendar.NextDayOrdinal` | main.py:125 | one `NextDay` step adds exactly one to Python's ordinal, and never moves the year back |
| `Calendar.AddDaysOrdinal` | main.py:125 | `AddDays(d, k)` has ordinal `Ordinal(d) + k`: it is `d + timedelta(days=k)` |
| `Calendar.NextDayUnique` | main.py:125 | a calendar date is one ordinal after `d` if and only if it is `NextDay(d)` |
| `Calendar.OrdinalMonotone` | main.py:125 | chronological order implies ordinal order |
| `Calendar.OrdinalInjective` | main.py:125 | two calendar dates have the same ordinal if and only if they are equal |
| `Calendar.DaysBeforeYearStep` | main.py:125 | the days before year y+1 are the days before y plus the length of y |
| `Calendar.DaysBeforeYearGrows` | main.py:125 | every whole year between a and b adds at least 365 days |
| `Calendar.DaysBeforeMonthStep` | main.py:125 | month m+1 starts right after month m ends, and December ends with the year |
| `Calendar.MonthEndWithinYear` | main.py:125 | the last day of every month lies within its year |
| `Calendar.MonthEndBeforeLater` | main.py:125 | a month ends before any later month of the same year begins |
| `Calendar.SameMonthDayYearApart` | main.py:125-127 | the same month and day in two different years are at least 365 days apart |
| `Calendar.NoRepeatWithinYear` | main.py:124-127 | among 365 consecutive days no (month, day) pair comes round twice |
| `Calendar.NewYearSteps` | main.py:125 | from 2023-12-30 the next three days are 2023-12-31, 2024-01-01 and 2024-01-02 |
| `DateFormat.DigitChar` | main.py:58 | the digit character of n < 10 is a digit whose value is n |
| `DateFormat.DecimalDigits` | main.py:58 | `str(n)` is a non-empty string of digits with no leading zero |
| `DateFormat.DecimalRoundTrip` | main.py:58 | reading `str(n)` back gives n |
| `DateFormat.DecimalLength` | main.py:58 | `str(n)` has 1, 2, 3 or 4 characters exactly when n has that many digits (n < 10000) |
| `DateFormat.TwoDigitsRoundTrip` | main.py:58 | `f"{x:02d}"` for 0 ≤ x < 100 is two digits that read back as x |
| `DateFormat.RequestDateRoundTrip` | main.py:58 | parsing the request date gives back (year, month, day) |
| `DateFormat.RequestDateIsIsoCalendarDate` | main.py:58 | for years 1000..9999 the request date is exactly YYYY-MM-DD: ten characters, hyphens at 4 and 7, the three fields' values |
| `DateFormat.ShortYearNotPadded` | main.py:58 | for years below 1000 the request date is shorter than ten characters (the year is not padded) |
| `DateFormat.LabelRoundTrip` | main.py:133 | the "%m-%d" label of a calendar date has five characters and parses back to its month and day |
| `DateFormat.LabelInjective` | main.py:133 | two calendar dates have the same label if and only if month and day agree |
| `Statistics.MinIsLeast` | main.py:85 | `min` returns one of the readings and no reading is smaller |
| `Statistics.MaxIsGreatest` | main.py:86 | `max` returns one of the readings and no reading is larger |
| `Statistics.SumWithinBounds` | main.py:84 | readings between lo and hi add up to between n·lo and n·hi |
| `Statistics.QuotientWithinBounds` | main.py:84 | a total between n·lo and n·hi divided by n lies between lo and hi |
| `Statistics.MeanWithinBounds` | main.py:84-86 | `sum(s) / len(s)` lies between `min(s)` and `max(s)` |
| `Statistics.SummarizeBounds` | main.py:84-96 | each of the three minima and maxima is a reading and bounds all readings; each mean lies between its minimum and maximum |
| `Statistics.SumAppend` | main.py:84 | the sum of a concatenation is the sum of the parts |
| `Statistics.SumRemoveAt` | main.py:84 | removing one reading takes exactly that reading off the sum |
| `Statistics.SumPermutation` | main.py:84 | the sum does not depend on the order of the readings |
| `Statistics.MinMaxPermutation` | main.py:85-86 | neither `min` nor `max` depends on the order of the readings |
| `Statistics.SummarizePermutation` | main.py:84-96 | all nine statistics are independent of the order in which the years are visited |
| `Statistics.SumOfFive` | main.py:94 | over five readings the sum is the five added up |
| `Statistics.MeanOfFive` | main.py:84 | over five readings the mean is their sum divided by 5 |
| `Statistics.SummarizeFiveYears` | main.py:84-96 | over five years the averages are the five readings divided by 5 and the precipitation statistic is their sum, not their mean |
| `Statistics.ExampleTemperatures` | main.py:84-86 | temperatures 30, 32, 34, 36, 38 give mean 34, minimum 30, maximum 38 |
| `Weather.WindowRequestsCoverYears` | main.py:56-72 | exactly five requests, for years anchorYear..anchorYear+4 with the same month and day at the same place, each a one-day window (start = end), no two alike |
| `Weather.FiveReadingsStats` | main.py:84-96 | the nine statistics of five readings: the sums divided by 5, the precipitation sum, the bounds, and minima and maxima that are readings |
| `Weather.WindowStatsMeaning` | main.py:54-81 | the window's readings are the archive's answers to the five requests, oldest year first, and the statistics are those of these readings |
| `Weather.WeekRowsStep` | main.py:124-143 | one more iteration appends exactly the next day's entry |
| `Weather.OutOfRangeDayBreaksRun` | main.py:124-125 | a day past 9999-12-31 among the first m makes the run of m days fail |
| `Weather.DaysInRangeStep` | main.py:124-125 | a run of in-range days extends by one when the next day is in range |
| `Weather.DaysInRangeMeaning` | main.py:124-125 | the first n days are representable if and only if each of them is |
| `Weather.WeekRowsLength` | main.py:124-143 | n iterations append exactly n entries |
| `Weather.WeekRowsAt` | main.py:124-143 | entry k of the week is the entry of the day k days after the start |
| `Weather.WeekEntry` | main.py:125-133 | entry k holds the "MM-DD" label of start + k days, which parses back to that day's month and day, and the statistics of that month and day |
| `Weather.WeekEntryAnchored` | main.py:122-130 | with the object's statistics, entry k holds the window that starts at the object's year, whichever year day k falls in |
| `Weather.WeekLabelsDistinct` | main.py:133 | within 365 consecutive days no two entries share a label |
| `Weather.NewYearRollover` | main.py:124-133 | from 2023-12-30, four days are labelled 12-30, 12-31, 01-01, 01-02 with the statistics of those days |
| `Weather.TableAppend` | main.py:133-143 | appending one element to each of the ten lists appends one entry |
| `Weather.WeatherData.constructor` | main.py:12-37 | the five configuration fields are stored and the ten lists start empty and equally long |
| `Weather.WeatherData.FiveYearStats` | main.py:41-103 | the loop over five years returns exactly the window statistics of (month, day) for the object's place and year |
| `Weather.WeatherData.GetWeekStats` | main.py:107-143 | the lists stay equally long and the configuration is unchanged. The outcome is ValueError exactly for an invalid start date, and completion exactly when every day is in range. The lists gain exactly the entries of the days processed, with the window anchored at `year` |
| `Weather.WeatherData.CollectDays` | main.py:124-143 | the loop appends the entries of days 0..n-1, or of days 0..i-1 when day i is out of range |
| `Weather.WeatherData.NextWeekDay` | main.py:125-143 | one iteration either fails on an out-of-range date, changing nothing, or appends that day's entry |
| `Weather.WeatherData.RecordDay` | main.py:126-143 | the day's label and its window statistics are appended as one entry |
| `Weather.WeatherData.Append` | main.py:133-143 | the ten appends add one entry and keep the lists equally long |

## Left out

- HTTP and JSON: `requests.get` and `response.json()` (main.py:75-76) are the `archive` parameter. A failed request, a missing key or an empty daily array (an exception in Python) are not modelled.
- The archive is a total function. Requests for dates the archive rejects, such as 29 February of a common year in the window, get an answer like any other.
- Floating point: readings and statistics are exact reals. Rounding in `sum` and `/`, and the behaviour of `min` and `max` on NaN, are not modelled.
- The SQLAlchemy table and session (main.py:157-212) and the plots drawn from the stored rows with matplotlib (main.py:214-240) are not part of this model.
- The module-level script (main.py:146-155) is not part of this model; the constructor and `GetWeekStats` model what it calls.
- Type errors from non-integer `month`, `day` or `year` arguments are not modelled: the fields are integers.
- `Weather.WeatherData.GetWeekStats`: the outcome `DateOutOfRange(i)` models only the `OverflowError` of the date addition. Errors inside `get_5yr_stats_for_date` are the archive's and are not modelled.
