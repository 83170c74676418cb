/**
 * The parts of analyze/data_fetcher.py that compute rather than fetch:
 * parsing the investor net-buy quantities, classifying their trend, and
 * merging the live price into the daily rows.
 */
module DataFetcher {
  import opened Common

  // ---- Parsing the quantity fields ----

  /** `.replace(",", "")`. */
  function WithoutCommas(s: string): (t: string)
    ensures forall i :: 0 <= i < |t| ==> t[i] != ','
    ensures |t| <= |s|
  {
    if s == [] then []
    else (if s[0] == ',' then [] else [s[0]]) + WithoutCommas(s[1..])
  }

  /** `.replace(",", "").strip()`. */
  function Clean(s: string): string
  {
    Strip(WithoutCommas(s))
  }

  /** The value of a string of decimal digits, most significant first. */
  function DigitsValue(s: string): nat
    requires forall i :: 0 <= i < |s| ==> IsDigit(s[i])
  {
    if s == [] then 0
    else
      assert IsDigit(s[|s| - 1]);
      DigitsValue(s[..|s| - 1]) * 10 + (s[|s| - 1] as int - '0' as int)
  }

  /** Python's `int(s)` on a stripped string: an optional sign and at least one digit; anything else raises. */
  predicate AllDigits(s: string)
  {
    forall i :: 0 <= i < |s| ==> IsDigit(s[i])
  }

  function ParseInt(s: string): (r: Option<int>)
    ensures s == [] ==> r.None?
  {
    if s == [] then None
    else
      var negative := s[0] == '-';
      var digits := if s[0] == '-' || s[0] == '+' then s[1..] else s;
      if digits == [] || !AllDigits(digits) then None
      else
        var v: int := DigitsValue(digits);
        Some(if negative then -v else v)
  }

  /** The decimal digits of a natural number, without leading zeros (and "0" for zero). */
  function DecimalDigits(n: nat): (s: string)
    ensures |s| > 0 && forall i :: 0 <= i < |s| ==> IsDigit(s[i])
  {
    if n < 10 then ["0123456789"[n]] else DecimalDigits(n / 10) + ["0123456789"[n % 10]]
  }

  /** Python's `str(n)` for an integer. */
  function ShowInt(n: int): string
  {
    if n < 0 then "-" + DecimalDigits(-n) else DecimalDigits(n)
  }

  lemma {:induction false} DigitsRoundTrip(n: nat)
    ensures DigitsValue(DecimalDigits(n)) == n
  {
    if n >= 10 {
      DigitsRoundTrip(n / 10);
      var s := DecimalDigits(n);
      assert s[..|s| - 1] == DecimalDigits(n / 10);
    }
  }

  /** Parsing what `str` prints gives the number back. */
  lemma ParseShowRoundTrip(n: int)
    ensures ParseInt(ShowInt(n)) == Some(n)
  {
    var d := if n < 0 then DecimalDigits(-n) else DecimalDigits(n);
    DigitsRoundTrip(if n < 0 then -n else n);
    if n < 0 {
      assert ShowInt(n)[1..] == d;
    } else {
      assert d[0] != '-' && d[0] != '+';
    }
  }

  /**
   * The net-buy list the parse loop builds from the quantity fields of the
   * rows (an absent field reads as ""): empty fields are skipped, and None
   * stands for a field `int` cannot read, which aborts the whole call.
   */
  function ParsedNetbuys(fields: seq<string>): (r: Option<seq<int>>)
    ensures r.Some? ==> |r.value| <= |fields|
  {
    if fields == [] then Some([])
    else
      var prev := ParsedNetbuys(fields[..|fields| - 1]);
      var q := Clean(fields[|fields| - 1]);
      if prev.None? then None
      else if q == [] then prev
      else if ParseInt(q).None? then None
      else Some(prev.value + [ParseInt(q).value])
  }

  /** The quantity fields of rows holding these values, as `str` prints them. */
  function Printed(values: seq<int>): (fields: seq<string>)
    ensures |fields| == |values|
  {
    if values == [] then [] else Printed(values[..|values| - 1]) + [ShowInt(values[|values| - 1])]
  }

  /** Fields that are all well-formed quantities are read back one for one. */
  lemma {:induction false} WellFormedFieldsParse(values: seq<int>)
    ensures ParsedNetbuys(Printed(values)) == Some(values)
  {
    if values != [] {
      var init, last := values[..|values| - 1], values[|values| - 1];
      WellFormedFieldsParse(init);
      CleanKeepsNumber(last);
      ParseShowRoundTrip(last);
      ParsedAppend(Printed(init), ShowInt(last), init, last);
      FrontAndLast(values);
    }
  }

  /** One more readable field appends its value. */
  lemma ParsedAppend(fields: seq<string>, f: string, vs: seq<int>, v: int)
    requires ParsedNetbuys(fields) == Some(vs)
    requires Clean(f) != [] && ParseInt(Clean(f)) == Some(v)
    ensures ParsedNetbuys(fields + [f]) == Some(vs + [v])
  {
    assert (fields + [f])[..|fields|] == fields;
  }

  /** Printed integers have no commas or spaces, so cleaning leaves them alone. */
  lemma CleanKeepsNumber(n: int)
    ensures Clean(ShowInt(n)) == ShowInt(n)
  {
    var s := ShowInt(n);
    NoCommaNoChange(s);
    assert !IsSpace(s[0]) && !IsSpace(s[|s| - 1]);
  }

  lemma {:induction false} NoCommaNoChange(s: string)
    requires forall i :: 0 <= i < |s| ==> s[i] != ','
    ensures WithoutCommas(s) == s
  {
    if s != [] {
      NoCommaNoChange(s[1..]);
    }
  }

  /** The parse loop over `data["output"][:days]`. */
  method ParseNetbuys(fields: seq<string>, days: int) returns (r: Option<seq<int>>)
    ensures r == ParsedNetbuys(Head(fields, days))
  {
    var rows := Head(fields, days);
    var list: seq<int> := [];
    var i := 0;
    while i < |rows|
      invariant 0 <= i <= |rows|
      invariant ParsedNetbuys(rows[..i]) == Some(list)
    {
      assert rows[..i + 1][..i] == rows[..i];
      var q := Clean(rows[i]);
      if q != [] {
        var v := ParseInt(q);
        if v.None? {
          NoneStaysNone(rows, i + 1);
          return None;
        }
        list := list + [v.value];
      }
      i := i + 1;
    }
    assert rows[..|rows|] == rows;
    return Some(list);
  }

  /** Once a field fails to parse, no later field can rescue the call. */
  lemma {:induction false} NoneStaysNone(rows: seq<string>, k: nat)
    requires k <= |rows| && ParsedNetbuys(rows[..k]).None?
    ensures ParsedNetbuys(rows).None?
    decreases |rows| - k
  {
    if k < |rows| {
      assert rows[..k + 1][..k] == rows[..k];
      NoneStaysNone(rows, k + 1);
    } else {
      assert rows[..k] == rows;
    }
  }

  // ---- Trend classification ----

  datatype Trend = SteadyBuying | Accumulating | Distributing | Mixed | Neutral | UnknownTrend
  {
    function Name(): string
    {
      match this
      case SteadyBuying => "steady_buying"
      case Accumulating => "accumulating"
      case Distributing => "distributing"
      case Mixed => "mixed"
      case Neutral => "neutral"
      case UnknownTrend => "unknown"
    }
  }

  function CountPositive(s: seq<int>): (k: nat)
    ensures k <= |s|
    ensures k == |s| <==> forall i :: 0 <= i < |s| ==> s[i] > 0
  {
    if s == [] then 0 else CountPositive(s[..|s| - 1]) + (if s[|s| - 1] > 0 then 1 else 0)
  }

  /** The foreign-investor rule: all `days` positive, at least 60% positive, at most 20% positive, else mixed; under three values neutral. */
  function ForeignTrend(netbuys: seq<int>, days: int): (t: Trend)
    ensures |netbuys| < 3 <==> t == Neutral
    ensures t != UnknownTrend
  {
    if |netbuys| < 3 then Neutral
    else
      var pos := CountPositive(netbuys);
      if pos == days then SteadyBuying
      else if pos as real >= days as real * 0.6 then Accumulating
      else if pos as real <= days as real * 0.2 then Distributing
      else Mixed
  }

  /** The institutional rule of data_fetcher.py: the same thresholds without the distributing band. */
  function InstitutionTrend(netbuys: seq<int>, days: int): (t: Trend)
    ensures t != Distributing && t != UnknownTrend
  {
    if |netbuys| < 3 then Neutral
    else
      var pos := CountPositive(netbuys);
      if pos == days then SteadyBuying
      else if pos as real >= days as real * 0.6 then Accumulating
      else Mixed
  }

  /** The two rules agree except where the foreign one finds distribution, which the institutional one calls mixed. */
  lemma TrendRulesAgree(netbuys: seq<int>, days: int)
    ensures ForeignTrend(netbuys, days) != Distributing ==> InstitutionTrend(netbuys, days) == ForeignTrend(netbuys, days)
    ensures ForeignTrend(netbuys, days) == Distributing ==> InstitutionTrend(netbuys, days) == Mixed
  {
  }

  /** A steady-buying verdict on the parsed first `days` rows means every one of those rows was a positive quantity. */
  lemma SteadyMeansEveryDayBought(fields: seq<string>, days: int)
    requires ParsedNetbuys(Head(fields, days)).Some?
    requires ForeignTrend(ParsedNetbuys(Head(fields, days)).value, days) == SteadyBuying
    ensures var l := ParsedNetbuys(Head(fields, days)).value;
            |l| == days && |Head(fields, days)| == days && forall i :: 0 <= i < |l| ==> l[i] > 0
  {
  }

  /** A classification of the given rows, or `unknown` when the answer has no rows or a field does not parse. */
  datatype TrendResult = TrendResult(netbuys: seq<int>, trend: Trend)

  /** `get_foreign_netbuy_trend` once the API has answered: `output` holds the rows' `frgn_ntby_qty` fields, None when absent. */
  method ForeignNetbuyTrend(output: Option<seq<string>>, days: int) returns (r: TrendResult)
    ensures output.None? ==> r == TrendResult([], UnknownTrend)
    ensures output.Some? ==> var p := ParsedNetbuys(Head(output.value, days));
                             r == (if p.None? then TrendResult([], UnknownTrend) else TrendResult(p.value, ForeignTrend(p.value, days)))
  {
    if output.None? {
      return TrendResult([], UnknownTrend);
    }
    var p := ParseNetbuys(output.value, days);
    if p.None? {
      return TrendResult([], UnknownTrend);
    }
    return TrendResult(p.value, ForeignTrend(p.value, days));
  }

  /** `get_institution_netbuy_trend`, the same over the `orgn_ntby_qty` fields with the institutional rule. */
  method InstitutionNetbuyTrend(output: Option<seq<string>>, days: int) returns (r: TrendResult)
    ensures output.None? ==> r == TrendResult([], UnknownTrend)
    ensures output.Some? ==> var p := ParsedNetbuys(Head(output.value, days));
                             r == (if p.None? then TrendResult([], UnknownTrend) else TrendResult(p.value, InstitutionTrend(p.value, days)))
    ensures r.trend != Distributing
  {
    if output.None? {
      return TrendResult([], UnknownTrend);
    }
    var p := ParseNetbuys(output.value, days);
    if p.None? {
      return TrendResult([], UnknownTrend);
    }
    return TrendResult(p.value, InstitutionTrend(p.value, days));
  }

  // ---- The live price row ----

  /** A daily row; `open` is None in the row appended for today, which has no opening price. */
  datatype PriceRow = PriceRow(date: string, open: Option<real>, close: real, high: real, low: real, volume: real)

  /** Python truthiness of the price or volume `get_current_price` returns. */
  predicate Truthy(x: Option<real>)
  {
    x.Some? && x.value != 0.0
  }

  /**
   * `get_daily_price_data_with_realtime` once the rows and the live quote
   * are known: None without rows; today's last row gets the live close and
   * volume, otherwise a row for today is appended at the live price.
   */
  function WithRealtime(rows: seq<PriceRow>, price: Option<real>, volume: Option<real>, today: string): (r: Option<seq<PriceRow>>)
    ensures rows == [] <==> r.None?
    ensures r.Some? && !(Truthy(price) && Truthy(volume)) ==> r.value == rows
    ensures r.Some? && Truthy(price) && Truthy(volume) && rows[|rows| - 1].date == today ==>
              |r.value| == |rows| && r.value[..|rows| - 1] == rows[..|rows| - 1]
              && r.value[|rows| - 1] == rows[|rows| - 1].(close := price.value, volume := volume.value)
    ensures r.Some? && Truthy(price) && Truthy(volume) && rows[|rows| - 1].date != today ==>
              r.value == rows + [PriceRow(today, None, price.value, price.value, price.value, volume.value)]
  {
    if rows == [] then None
    else if !(Truthy(price) && Truthy(volume)) then Some(rows)
    else
      var last := rows[|rows| - 1];
      if last.date == today then Some(rows[..|rows| - 1] + [last.(close := price.value, volume := volume.value)])
      else Some(rows + [PriceRow(today, None, price.value, price.value, price.value, volume.value)])
  }

  /** Merging the live quote twice on the same day is the same as merging it once. */
  lemma RealtimeIsIdempotent(rows: seq<PriceRow>, price: Option<real>, volume: Option<real>, today: string)
    requires WithRealtime(rows, price, volume, today).Some?
    ensures var once := WithRealtime(rows, price, volume, today).value;
            WithRealtime(once, price, volume, today) == Some(once)
  {
    var once := WithRealtime(rows, price, volume, today).value;
    if Truthy(price) && Truthy(volume) {
      assert once[|once| - 1].date == today;
      assert once[..|once| - 1] + [once[|once| - 1]] == once;
    }
  }
}
