/**
 * `formatarData`: the card's `inserted_date`, `yyyy-mm-dd`, shown as
 * `dd/mm/yyyy`.  The date is split at `-` and destructured as
 * `[ano, mes, dia]`; a value that is not a string has no `split`, and a date
 * with fewer than two dashes leaves `dia` undefined, whose `padStart` throws.
 */
module Dates {
  import opened Js
  import opened JsStrings

  /** `formatarData(data)`: the formatted date, or the TypeError it throws. */
  function FormatarData(data: Value): (r: Outcome<string>)
    ensures r.Ok? <==> data.Str? && Count(data.s, '-') >= 2
  {
    match data
    case Str(s) =>
      var parts := Split(s, '-');
      if |parts| < 3 then TypeError
      else Ok(PadStart(parts[2], 2, '0') + "/" + PadStart(parts[1], 2, '0') + "/" + parts[0])
    case _ => TypeError
  }

  /** `year-month-day` is shown as `day/month/year`, day and month padded with `0` to two characters. */
  lemma FormatarDataIso(year: string, month: string, day: string)
    requires '-' !in year && '-' !in month && '-' !in day
    ensures FormatarData(Str(year + "-" + month + "-" + day))
         == Ok(PadStart(day, 2, '0') + "/" + PadStart(month, 2, '0') + "/" + year)
  {
    SplitWithoutSeparator(year, '-');
    SplitWithoutSeparator(month, '-');
    SplitWithoutSeparator(day, '-');
    SplitAtSeparator(month, day, '-');
    assert month + "-" + day == month + ['-'] + day;
    assert year + "-" + month + "-" + day == year + ['-'] + (month + "-" + day);
    SplitAtSeparator(year, month + "-" + day, '-');
  }

  /** A two-digit day and month are shown unchanged: `dd/mm/yyyy`. */
  lemma FormatarDataTwoDigits(year: string, month: string, day: string)
    requires '-' !in year && '-' !in month && '-' !in day
    requires |month| == 2 && |day| == 2
    ensures FormatarData(Str(year + "-" + month + "-" + day)) == Ok(day + "/" + month + "/" + year)
  {
    FormatarDataIso(year, month, day);
  }

  /** The formatted date splits at `/` back into day, month and year: nothing is lost or moved. */
  lemma FormatarDataRoundTrip(year: string, month: string, day: string)
    requires '-' !in year && '-' !in month && '-' !in day
    requires '/' !in year && '/' !in month && '/' !in day
    requires |month| == 2 && |day| == 2
    ensures var r := FormatarData(Str(year + "-" + month + "-" + day));
      r.Ok? && Split(r.value, '/') == [day, month, year]
  {
    FormatarDataTwoDigits(year, month, day);
    SplitWithoutSeparator(year, '/');
    SplitWithoutSeparator(month, '/');
    SplitWithoutSeparator(day, '/');
    SplitAtSeparator(month, year, '/');
    assert month + "/" + year == month + ['/'] + year;
    assert day + "/" + month + "/" + year == day + ['/'] + (month + "/" + year);
    SplitAtSeparator(day, month + "/" + year, '/');
  }
}
