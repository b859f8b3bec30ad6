/**
 * scripts/process_data.py: `clean_worldbank_data`, which flattens the API's nested
 * records, sorts them by year and summarises them, and `aggregate_by_year`, which maps
 * the years of one country and indicator to their values.
 */
module ProcessData {
  import opened Wrappers
  import opened Sorting

  /** A nested `{id, value}` object (`country`, `indicator`). */
  datatype Ref = Ref(id: string, value: string)

  /** A raw `value` field: JSON `null`, a number, or anything else. */
  datatype RawValue = Null | Number(x: real) | NonNumeric

  /** The four columns kept from an API record; `date` is the year it converts to. */
  datatype RawRecord = RawRecord(date: int, value: RawValue, country: Ref, indicator: Ref)

  /** One row of `df.to_dict('records')`. */
  datatype Record = Record(date: int, value: Option<real>, countryCode: string, countryName: string,
                           indicatorCode: string, indicatorName: string)

  datatype YearRange = YearRange(min: int, max: int)
  datatype Metadata = Metadata(source: string, countryCodes: seq<string>, indicators: seq<string>,
                               yearRange: YearRange)
  datatype Processed = Processed(metadata: Metadata, data: seq<Record>)

  const Source: string := "World Bank API"

  /** `pd.to_numeric(value, errors='coerce')`: a number stays, anything else is missing. */
  function Coerce(v: RawValue): (r: Option<real>)
    ensures r.Some? <==> v.Number?
    ensures v.Number? ==> r.value == v.x
  {
    if v.Number? then Some(v.x) else None
  }

  /** The columns of one row after the nested objects are split and dropped. */
  function Flatten(r: RawRecord): (f: Record)
    ensures f.date == r.date && f.value == Coerce(r.value)
    ensures f.countryCode == r.country.id && f.countryName == r.country.value
    ensures f.indicatorCode == r.indicator.id && f.indicatorName == r.indicator.value
  {
    Record(r.date, Coerce(r.value), r.country.id, r.country.value, r.indicator.id, r.indicator.value)
  }

  function FlattenAll(raw: seq<RawRecord>): (rs: seq<Record>)
    ensures |rs| == |raw| && forall i :: 0 <= i < |raw| ==> rs[i] == Flatten(raw[i])
  {
    seq(|raw|, i requires 0 <= i < |raw| => Flatten(raw[i]))
  }

  function RecordYear(r: Record): int { r.date }

  function CountryCodes(data: seq<Record>): (cs: seq<string>)
    ensures |cs| == |data| && forall i :: 0 <= i < |data| ==> cs[i] == data[i].countryCode
  {
    seq(|data|, i requires 0 <= i < |data| => data[i].countryCode)
  }

  function IndicatorCodes(data: seq<Record>): (cs: seq<string>)
    ensures |cs| == |data| && forall i :: 0 <= i < |data| ==> cs[i] == data[i].indicatorCode
  {
    seq(|data|, i requires 0 <= i < |data| => data[i].indicatorCode)
  }

  // ---------------------------------------------------------------------------
  // Series.unique(): distinct values in order of first appearance

  /** The position of the first occurrence of `x` in `s`. */
  function FirstIndex(s: seq<string>, x: string): (k: nat)
    requires x in s
    ensures k < |s| && s[k] == x && forall j :: 0 <= j < k ==> s[j] != x
  {
    if s[0] == x then 0 else 1 + FirstIndex(s[1..], x)
  }

  lemma FirstIndexExtend(s: seq<string>, y: string)
    ensures forall x :: x in s ==> FirstIndex(s + [y], x) == FirstIndex(s, x)
    ensures y !in s ==> FirstIndex(s + [y], y) == |s|
  {
    forall x | x in s ensures FirstIndex(s + [y], x) == FirstIndex(s, x) {
      var k1, k2 := FirstIndex(s + [y], x), FirstIndex(s, x);
      assert (s + [y])[k2] == x;
    }
  }

  /**
   * The distinct elements of `s`: each exactly once, nothing else, ordered by where
   * each first appears in `s`.
   */
  function Unique(s: seq<string>): (u: seq<string>)
    ensures forall i, j :: 0 <= i < j < |u| ==> u[i] != u[j]
    ensures forall x :: x in u <==> x in s
    ensures forall i, j :: 0 <= i < j < |u| ==> FirstIndex(s, u[i]) < FirstIndex(s, u[j])
  {
    if s == [] then []
    else
      var init, last := s[..|s| - 1], s[|s| - 1];
      var u := Unique(init);
      assert s == init + [last];
      FirstIndexExtend(init, last);
      if last in u then u else u + [last]
  }

  // ---------------------------------------------------------------------------
  // clean_worldbank_data

  /** `int(df['date'].min())` and `int(df['date'].max())`. */
  method YearBounds(data: seq<Record>) returns (range: YearRange)
    requires |data| > 0
    ensures forall i :: 0 <= i < |data| ==> range.min <= data[i].date <= range.max
    ensures exists i :: 0 <= i < |data| && data[i].date == range.min
    ensures exists i :: 0 <= i < |data| && data[i].date == range.max
  {
    var lo, hi := data[0].date, data[0].date;
    ghost var argLo, argHi := 0, 0;
    for i := 1 to |data|
      invariant forall k :: 0 <= k < i ==> lo <= data[k].date <= hi
      invariant 0 <= argLo < i && data[argLo].date == lo
      invariant 0 <= argHi < i && data[argHi].date == hi
    {
      if data[i].date < lo {
        lo, argLo := data[i].date, i;
      }
      if data[i].date > hi {
        hi, argHi := data[i].date, i;
      }
    }
    range := YearRange(lo, hi);
  }

  /**
   * `clean_worldbank_data(raw_data)`: `None` for a missing or empty list; otherwise
   * one flattened record per input record, ordered by year, with the distinct codes
   * and the year range of the records as metadata.
   */
  method CleanWorldBankData(raw: Option<seq<RawRecord>>) returns (r: Option<Processed>)
    ensures r.None? <==> raw.None? || raw.value == []
    ensures r.Some? ==>
      var p := r.value;
      && |p.data| == |raw.value|
      && multiset(p.data) == multiset(FlattenAll(raw.value))
      && SortedBy(p.data, RecordYear)
      && p.metadata.source == Source
      && p.metadata.countryCodes == Unique(CountryCodes(p.data))
      && p.metadata.indicators == Unique(IndicatorCodes(p.data))
      && p.metadata.yearRange.min <= p.metadata.yearRange.max
      && (forall i :: 0 <= i < |p.data| ==>
            p.metadata.yearRange.min <= p.data[i].date <= p.metadata.yearRange.max)
      && (exists i :: 0 <= i < |p.data| && p.data[i].date == p.metadata.yearRange.min)
      && (exists i :: 0 <= i < |p.data| && p.data[i].date == p.metadata.yearRange.max)
  {
    if raw.None? || raw.value == [] {
      return None;
    }
    var rows := raw.value;
    var records: seq<Record> := [];
    for i := 0 to |rows|
      invariant |records| == i
      invariant forall k :: 0 <= k < i ==> records[k] == Flatten(rows[k])
    {
      records := records + [Flatten(rows[i])];
    }
    assert records == FlattenAll(rows);
    SortBySorted(records, RecordYear);
    records := SortBy(records, RecordYear);
    var range := YearBounds(records);
    var metadata := Metadata(Source, Unique(CountryCodes(records)), Unique(IndicatorCodes(records)), range);
    r := Some(Processed(metadata, records));
  }

  /** Every input record is kept, with its values flattened, whatever its value. */
  lemma CleanKeepsEveryRecord(raw: seq<RawRecord>, data: seq<Record>, i: int)
    requires multiset(data) == multiset(FlattenAll(raw))
    requires 0 <= i < |raw|
    ensures Flatten(raw[i]) in data
  {
    assert FlattenAll(raw)[i] in multiset(FlattenAll(raw));
  }

  // ---------------------------------------------------------------------------
  // aggregate_by_year

  predicate Matches(r: Record, countryCode: string, indicatorCode: string) {
    r.countryCode == countryCode && r.indicatorCode == indicatorCode
  }

  /** The list comprehension `filtered`: the records of one country and indicator. */
  function Matching(data: seq<Record>, countryCode: string, indicatorCode: string): (r: seq<Record>)
    ensures forall x :: x in r <==> x in data && Matches(x, countryCode, indicatorCode)
  {
    if data == [] then []
    else
      var last := data[|data| - 1];
      assert data == data[..|data| - 1] + [last];
      Matching(data[..|data| - 1], countryCode, indicatorCode)
        + (if Matches(last, countryCode, indicatorCode) then [last] else [])
  }

  /** The dict comprehension `{item['date']: item['value'] for item in filtered}`. */
  function YearMap(items: seq<Record>): (m: map<int, Option<real>>)
    ensures m.Keys == set x | x in items :: x.date
  {
    if items == [] then map[]
    else
      var init, last := items[..|items| - 1], items[|items| - 1];
      assert items == init + [last];
      assert (set x | x in items :: x.date) == (set x | x in init :: x.date) + {last.date};
      YearMap(init)[last.date := last.value]
  }

  /** `aggregate_by_year(data, country_code, indicator_code)`. */
  function AggregateByYear(data: seq<Record>, countryCode: string, indicatorCode: string): (m: map<int, Option<real>>)
    ensures m.Keys == set x | x in data && Matches(x, countryCode, indicatorCode) :: x.date
  {
    var filtered := Matching(data, countryCode, indicatorCode);
    assert (set x | x in filtered :: x.date) == set x | x in data && Matches(x, countryCode, indicatorCode) :: x.date;
    YearMap(filtered)
  }

  lemma AggregateStep(data: seq<Record>, countryCode: string, indicatorCode: string)
    requires data != []
    ensures var init, last := data[..|data| - 1], data[|data| - 1];
      AggregateByYear(data, countryCode, indicatorCode) ==
        if Matches(last, countryCode, indicatorCode)
        then AggregateByYear(init, countryCode, indicatorCode)[last.date := last.value]
        else AggregateByYear(init, countryCode, indicatorCode)
  {
    var init, last := data[..|data| - 1], data[|data| - 1];
    var m := Matching(init, countryCode, indicatorCode);
    if Matches(last, countryCode, indicatorCode) {
      assert (m + [last])[..|m|] == m;
    } else {
      assert m + [] == m;
    }
  }

  /** The keys are exactly the years of the records of that country and indicator. */
  lemma AggregateKeys(data: seq<Record>, countryCode: string, indicatorCode: string)
    ensures forall y :: y in AggregateByYear(data, countryCode, indicatorCode) <==>
      exists i :: 0 <= i < |data| && Matches(data[i], countryCode, indicatorCode) && data[i].date == y
  {
    var m := AggregateByYear(data, countryCode, indicatorCode);
    forall y ensures y in m <==>
      exists i :: 0 <= i < |data| && Matches(data[i], countryCode, indicatorCode) && data[i].date == y
    {
      if y in m {
        var x :| x in data && Matches(x, countryCode, indicatorCode) && x.date == y;
        var i :| 0 <= i < |data| && data[i] == x;
      }
    }
  }

  /** For a repeated year the value of the last matching record wins. */
  lemma {:induction false} AggregateLastWins(data: seq<Record>, countryCode: string, indicatorCode: string, i: int)
    requires 0 <= i < |data| && Matches(data[i], countryCode, indicatorCode)
    requires forall j :: i < j < |data| && Matches(data[j], countryCode, indicatorCode) ==> data[j].date != data[i].date
    ensures data[i].date in AggregateByYear(data, countryCode, indicatorCode)
    ensures AggregateByYear(data, countryCode, indicatorCode)[data[i].date] == data[i].value
  {
    var init, last := data[..|data| - 1], data[|data| - 1];
    AggregateStep(data, countryCode, indicatorCode);
    if i < |data| - 1 {
      AggregateLastWins(init, countryCode, indicatorCode, i);
    }
  }

  /** No matching record gives an empty map. */
  lemma {:induction false} AggregateNoMatch(data: seq<Record>, countryCode: string, indicatorCode: string)
    requires forall i :: 0 <= i < |data| ==> !Matches(data[i], countryCode, indicatorCode)
    ensures AggregateByYear(data, countryCode, indicatorCode) == map[]
  {
    if data != [] {
      AggregateNoMatch(data[..|data| - 1], countryCode, indicatorCode);
      AggregateStep(data, countryCode, indicatorCode);
    }
  }
}
