/**
 * The pure part of src/js/main.js: the series normaliser behind `processData` and
 * `processComparisonData`, the country-name lookup, the requested year range and the
 * rows of the data table.
 */
module Series {
  import opened Wrappers
  import opened Sorting

  /**
   * One observation of the World Bank API: `{date, value, indicator: {value}}`.
   * `date` is the numeric value of the year string (the sort compares `a.date - b.date`);
   * `value` is `None` for JSON `null`; `indicator` is the indicator's display name.
   */
  datatype Observation = Observation(date: int, value: Option<real>, indicator: string)

  /** What `processData` stores in `window.mainData` and `processComparisonData` returns. */
  datatype Series = Series(country: string, indicator: string, years: seq<int>, values: seq<real>)

  /** `data[0].indicator.value` on an empty list throws a TypeError. */
  datatype NormalizeError = EmptyObservationList

  function Year(o: Observation): int { o.date }

  // ---------------------------------------------------------------------------
  // getCountryName

  const CountryNames: map<string, string> :=
    map["ETH" := "Ethiopia", "KEN" := "Kenya", "SDN" := "Sudan", "SSD" := "South Sudan", "DJI" := "Djibouti"]

  /** The display name of a known country code, any other code unchanged. */
  function CountryName(code: string): (name: string)
    ensures code == "ETH" ==> name == "Ethiopia"
    ensures code == "KEN" ==> name == "Kenya"
    ensures code == "SDN" ==> name == "Sudan"
    ensures code == "SSD" ==> name == "South Sudan"
    ensures code == "DJI" ==> name == "Djibouti"
    ensures code !in {"ETH", "KEN", "SDN", "SSD", "DJI"} ==> name == code
  {
    if code in CountryNames then CountryNames[code] else code
  }

  /** A code is shown as itself exactly when it is not one of the five known codes. */
  lemma CountryNameFallback(code: string)
    ensures CountryName(code) == code <==> code !in CountryNames
  {
  }

  // ---------------------------------------------------------------------------
  // The normaliser

  /** `data.filter(item => item.value !== null)`. */
  function NonNull(data: seq<Observation>): (r: seq<Observation>)
    ensures forall i :: 0 <= i < |r| ==> r[i].value.Some?
  {
    if data == [] then []
    else NonNull(data[..|data| - 1]) + (if data[|data| - 1].value.Some? then [data[|data| - 1]] else [])
  }

  /** `filteredData`: the non-null observations, stably sorted by numeric year. */
  function Filtered(data: seq<Observation>): (r: seq<Observation>)
    ensures forall i :: 0 <= i < |r| ==> r[i].value.Some?
    ensures forall i, j :: 0 <= i < j < |r| ==> r[i].date <= r[j].date
  {
    SortBySorted(NonNull(data), Year);
    var r := SortBy(NonNull(data), Year);
    assert forall i :: 0 <= i < |r| ==> r[i] in multiset(NonNull(data));
    r
  }

  lemma {:induction false} NonNullCounts(data: seq<Observation>, o: Observation)
    ensures multiset(NonNull(data))[o] == if o.value.Some? then multiset(data)[o] else 0
  {
    if data != [] {
      var init, last := data[..|data| - 1], data[|data| - 1];
      NonNullCounts(init, o);
      assert data == init + [last];
    }
  }

  lemma {:induction false} NonNullAppend(s: seq<Observation>, x: Observation)
    ensures NonNull(s + [x]) == NonNull(s) + (if x.value.Some? then [x] else [])
  {
    assert (s + [x])[..|s|] == s;
  }

  /** Filtering out nulls and picking one year commute. */
  lemma {:induction false} NonNullWithKey(data: seq<Observation>, y: int)
    ensures WithKey(NonNull(data), Year, y) == NonNull(WithKey(data, Year, y))
  {
    if data != [] {
      var init, last := data[..|data| - 1], data[|data| - 1];
      NonNullWithKey(init, y);
      var kept := NonNull(init);
      if last.value.Some? {
        WithKeyAppend(kept, last, Year, y);
      } else {
        assert kept + [] == kept;
      }
      if last.date == y {
        NonNullAppend(WithKey(init, Year, y), last);
      } else {
        assert WithKey(init, Year, y) + [] == WithKey(init, Year, y);
      }
    }
  }

  /**
   * `filteredData` holds exactly the non-null observations, each as often as in the
   * input, and the observations of one year are the non-null observations of that
   * year in input order.
   */
  lemma FilteredIsSortedNonNull(data: seq<Observation>)
    ensures forall o :: multiset(Filtered(data))[o] == if o.value.Some? then multiset(data)[o] else 0
    ensures forall y :: WithKey(Filtered(data), Year, y) == NonNull(WithKey(data, Year, y))
  {
    forall o ensures multiset(Filtered(data))[o] == if o.value.Some? then multiset(data)[o] else 0 {
      NonNullCounts(data, o);
    }
    forall y ensures WithKey(Filtered(data), Year, y) == NonNull(WithKey(data, Year, y)) {
      SortByStable(NonNull(data), Year, y);
      NonNullWithKey(data, y);
    }
  }

  /** `filteredData.map(item => item.date)`. */
  function Years(obs: seq<Observation>): (r: seq<int>)
    ensures |r| == |obs| && forall i :: 0 <= i < |obs| ==> r[i] == obs[i].date
  {
    seq(|obs|, i requires 0 <= i < |obs| => obs[i].date)
  }

  /** `filteredData.map(item => item.value)`, on observations that all have a value. */
  function Values(obs: seq<Observation>): (r: seq<real>)
    requires forall i :: 0 <= i < |obs| ==> obs[i].value.Some?
    ensures |r| == |obs| && forall i :: 0 <= i < |obs| ==> Some(r[i]) == obs[i].value
  {
    seq(|obs|, i requires 0 <= i < |obs| => obs[i].value.value)
  }

  /**
   * `processComparisonData(data, countryCode)`, and the object `processData` stores:
   * fails on an empty list, otherwise takes the indicator name from the first raw
   * element and the parallel `years`/`values` from `filteredData`.
   */
  function Normalize(data: seq<Observation>, countryCode: string): (r: Result<Series, NormalizeError>)
    ensures r.Failure? <==> data == []
    ensures r.Success? ==>
      && r.value.country == CountryName(countryCode)
      && r.value.indicator == data[0].indicator
      && |r.value.years| == |r.value.values| == |Filtered(data)|
      && forall i :: 0 <= i < |Filtered(data)| ==>
           r.value.years[i] == Filtered(data)[i].date && Some(r.value.values[i]) == Filtered(data)[i].value
  {
    if data == [] then Failure(EmptyObservationList)
    else
      var filtered := Filtered(data);
      Success(Series(CountryName(countryCode), data[0].indicator, Years(filtered), Values(filtered)))
  }

  /** The years of a normalised series are non-decreasing (duplicates are kept). */
  lemma NormalizeYearsSorted(data: seq<Observation>, countryCode: string)
    requires data != []
    ensures var s := Normalize(data, countryCode).value;
      forall i, j :: 0 <= i < j < |s.years| ==> s.years[i] <= s.years[j]
  {
  }

  /**
   * Each (year, value) pair of a normalised series is a non-null observation of the
   * input, so no value is invented.
   */
  lemma NormalizePairsComeFromInput(data: seq<Observation>, countryCode: string, i: int)
    requires data != []
    requires 0 <= i < |Normalize(data, countryCode).value.years|
    ensures var s := Normalize(data, countryCode).value;
      Observation(s.years[i], Some(s.values[i]), Filtered(data)[i].indicator) in data
  {
    FilteredIsSortedNonNull(data);
    var o := Filtered(data)[i];
    assert o in multiset(Filtered(data));
  }

  /** A non-empty list of null observations still names its indicator, with no points. */
  lemma AllNullKeepsIndicator(data: seq<Observation>, countryCode: string)
    requires data != []
    requires forall i :: 0 <= i < |data| ==> data[i].value.None?
    ensures Normalize(data, countryCode) == Success(Series(CountryName(countryCode), data[0].indicator, [], []))
  {
    FilteredIsSortedNonNull(data);
  }

  lemma ExampleNonNull(a: Observation, b: Observation, c: Observation)
    requires a.value.Some? && b.value.None? && c.value.Some?
    ensures NonNull([a, b, c]) == [a, c]
  {
    NonNullAppend([], a);
    assert [] + [a] == [a];
    NonNullAppend([a], b);
    assert [a] + [b] == [a, b];
    NonNullAppend([a, b], c);
    assert [a, b] + [c] == [a, b, c];
  }

  lemma ExampleSorted(a: Observation, c: Observation)
    requires a.date <= c.date
    ensures SortBy([a, c], Year) == [a, c]
  {
    assert [a, c][..1] == [a];
    assert [a][..0] == [];
    assert SortBy([a], Year) == Insert([], a, Year) == [a];
    assert Insert([a], c, Year) == [a] + [c] == [a, c];
  }

  /** The worked example: a null 2018 entry is dropped and `ETH` is shown as Ethiopia. */
  lemma NormalizeExample()
    ensures Normalize([Observation(2019, Some(10.0), "GDP"), Observation(2018, None, "GDP"),
                       Observation(2020, Some(12.0), "GDP")], "ETH")
         == Success(Series("Ethiopia", "GDP", [2019, 2020], [10.0, 12.0]))
  {
    var a, b, c := Observation(2019, Some(10.0), "GDP"), Observation(2018, None, "GDP"),
                   Observation(2020, Some(12.0), "GDP");
    ExampleNonNull(a, b, c);
    ExampleSorted(a, c);
    assert Filtered([a, b, c]) == [a, c];
    var r := Normalize([a, b, c], "ETH");
    assert r.Success? && r.value.years == [2019, 2020] && r.value.values == [10.0, 12.0];
  }

  // ---------------------------------------------------------------------------
  // Requested year range (`fetchData` / `fetchComparisonData`)

  /** The `years` control: the sentinel "all", or a count of years back. */
  datatype YearsWindow = All | Last(n: int)

  const EarliestYear: int := 1960

  /** `years === 'all' ? 1960 : currentYear - parseInt(years)`. */
  function StartYear(years: YearsWindow, currentYear: int): (start: int)
    ensures years.All? ==> start == EarliestYear
    ensures years.Last? ==> start + years.n == currentYear
  {
    if years.All? then EarliestYear else currentYear - years.n
  }

  /** A request for one series: `country/{code}/indicator/{code}?date={start}:{end}`. */
  datatype FetchRequest = FetchRequest(country: string, indicator: string, start: int, end: int)

  function Request(countryCode: string, indicator: string, years: YearsWindow, currentYear: int): (r: FetchRequest)
    ensures r.country == countryCode && r.indicator == indicator && r.end == currentYear
    ensures years.Last? && years.n >= 0 ==> r.end - r.start == years.n
    ensures years.All? && currentYear >= EarliestYear ==> r.start <= r.end
  {
    FetchRequest(countryCode, indicator, StartYear(years, currentYear), currentYear)
  }

  /** The three controls of the page. */
  datatype Controls = Controls(indicator: string, years: YearsWindow, compare: string)

  const MainCountry: string := "ETH"
  const NoComparison: string := "none"

  /**
   * The fetches a control change starts: always the main country, and the comparison
   * country unless "none" is selected, both for the same indicator and year range.
   */
  function PlanFetches(c: Controls, currentYear: int): (r: (FetchRequest, Option<FetchRequest>))
    ensures r.0 == Request(MainCountry, c.indicator, c.years, currentYear)
    ensures r.1.Some? <==> c.compare != NoComparison
    ensures r.1.Some? ==> r.1.value == r.0.(country := c.compare)
  {
    var main := Request(MainCountry, c.indicator, c.years, currentYear);
    (main, if c.compare != NoComparison then Some(Request(c.compare, c.indicator, c.years, currentYear)) else None)
  }

  // ---------------------------------------------------------------------------
  // Rows of the data table (`updateDataTable`)

  /** A value cell: `Shown(x)` is the text `x.toLocaleString()` gives, or "N/A". */
  datatype Cell = Shown(x: real) | NotAvailable
  datatype Row = Row(year: int, cell: Cell)

  function RowFor(o: Observation): (r: Row)
    ensures r.year == o.date
    ensures r.cell == NotAvailable <==> o.value.None?
    ensures o.value.Some? ==> r.cell == Shown(o.value.value)
  {
    Row(o.date, if o.value.Some? then Shown(o.value.value) else NotAvailable)
  }

  /** The rows shown for `filteredData` never say "N/A". */
  lemma FilteredRowsHaveValues(data: seq<Observation>)
    ensures forall i :: 0 <= i < |Filtered(data)| ==> RowFor(Filtered(data)[i]).cell.Shown?
  {
  }
}
