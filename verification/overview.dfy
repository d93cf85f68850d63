/** The date helpers of the dashboard
    (src/sections/overview/view/overview-analytics-view.tsx): the
    `YYYY-MM-DD` rendering sent to the statistics endpoint and the current
    Sunday-to-Saturday week. Calendar dates are given by their fields, and
    days by their number counted from 1970-01-01, a Thursday; local time is
    taken to be uniform (no daylight-saving shifts). */
module Overview {
  import opened Wrappers
  import Text

  /** The fields `formatFechaParaAPI` reads: `getFullYear()`, the zero-based
      `getMonth()` and `getDate()`. */
  datatype Fecha = Fecha(year: int, month: int, day: int)

  /** A calendar date: a month index 0..11 and a day of the month 1..31. */
  predicate InRange(f: Fecha) {
    0 <= f.month < 12 && 1 <= f.day <= 31
  }

  /** Two zero-padded digits, as `String(n).padStart(2, '0')`. */
  function Two(n: nat): (r: string)
    requires n < 100
    ensures |r| == 2 && Text.AllDigits(r) && Text.ParseNat(r) == n
  {
    Text.NatToStringLength(n);
    Text.ParseNatPadded(n, 2);
    Text.PadStart(Text.NatToString(n), 2, '0')
  }

  /** Three fields joined by '-', the template literal of
      `formatFechaParaAPI`: each field sits whole between the separators. */
  function Join(y: string, m: string, d: string): (r: string)
    ensures |r| == |y| + |m| + |d| + 2
    ensures r[..|y|] == y && r[|y|] == '-' && r[|y| + |m| + 1] == '-'
    ensures r[|y| + 1..|y| + |m| + 1] == m && r[|y| + |m| + 2..] == d
  {
    var r := y + "-" + m + "-" + d;
    assert r[..|y|] == y;
    assert r[|y| + 1..|y| + |m| + 1] == m;
    assert r[|y| + |m| + 2..] == d;
    r
  }

  /** `formatFechaParaAPI`: year, one-based month and day, joined by '-'. */
  function FormatFecha(f: Fecha): (r: string)
    requires InRange(f)
    ensures |r| == |Text.IntToString(f.year)| + 6
    ensures r[..|r| - 6] == Text.IntToString(f.year)
    ensures r[|r| - 6] == '-' && r[|r| - 3] == '-'
    ensures Text.AllDigits(r[|r| - 5..|r| - 3]) && Text.ParseNat(r[|r| - 5..|r| - 3]) == f.month + 1
    ensures Text.AllDigits(r[|r| - 2..]) && Text.ParseNat(r[|r| - 2..]) == f.day
  {
    Join(Text.IntToString(f.year), Two(f.month + 1), Two(f.day))
  }

  /** Reads a `YYYY-MM-DD` string back: four digits of year, two of month,
      two of day. */
  function ParseFecha(s: string): (r: Option<Fecha>)
    ensures r.Some? ==> |s| == 10 && s[4] == '-' && s[7] == '-'
  {
    if |s| == 10 && s[4] == '-' && s[7] == '-'
       && Text.AllDigits(s[..4]) && Text.AllDigits(s[5..7]) && Text.AllDigits(s[8..])
    then Some(Fecha(Text.ParseNat(s[..4]), Text.ParseNat(s[5..7]) - 1, Text.ParseNat(s[8..])))
    else None
  }

  /** For a four-digit year the rendering is exactly ten characters and reads
      back as the date it came from. */
  lemma FormatFechaRoundTrip(f: Fecha)
    requires InRange(f) && 1000 <= f.year <= 9999
    ensures |FormatFecha(f)| == 10
    ensures ParseFecha(FormatFecha(f)) == Some(f)
  {
    Text.NatToStringLength(f.year);
    Text.ParseNatToString(f.year);
  }

  // ---------------------------------------------------------------------
  // The current week

  /** `getDay()` of a day number: 0 for Sunday up to 6 for Saturday. */
  function Weekday(d: int): (w: int)
    ensures 0 <= w < 7
  {
    (d + 4) % 7
  }

  const MsPerDay := 86_400_000

  /** A week as its first and last day numbers. */
  datatype Week = Week(inicio: int, fin: int)

  /** `calcularSemanaActual`: back from today to its Sunday, and six days on
      to the Saturday. */
  function SemanaActual(hoy: int): (w: Week)
    ensures Weekday(w.inicio) == 0 && w.fin == w.inicio + 6
    ensures w.inicio <= hoy <= w.fin
  {
    var inicio := hoy - Weekday(hoy);
    Week(inicio, inicio + 6)
  }

  /** The first instant of the week, after `setHours(0, 0, 0, 0)`, in
      milliseconds: midnight of the Sunday. */
  function Desde(w: Week): (t: int)
    ensures t / MsPerDay == w.inicio
    ensures t % MsPerDay == 0
  {
    w.inicio * MsPerDay
  }

  /** The last instant of the week, after `setHours(23, 59, 59, 999)`: on
      the Saturday, at 23 h 59 min 59 s 999 ms into the day. */
  function Hasta(w: Week): (t: int)
    ensures t / MsPerDay == w.fin
    ensures t % MsPerDay == ((23 * 60 + 59) * 60 + 59) * 1_000 + 999
  {
    w.fin * MsPerDay + MsPerDay - 1
  }

  /** Counting on from a Sunday, the weekday is the distance to it. */
  lemma WeekdayFromSunday(inicio: int, k: int)
    requires Weekday(inicio) == 0 && 0 <= k < 7
    ensures Weekday(inicio + k) == k
  {
    var q := (inicio + 4) / 7;
    assert inicio + 4 == 7 * q;
    assert inicio + k + 4 == 7 * q + k;
  }

  /** The week of today is the week of exactly the days between its Sunday
      and its Saturday. */
  lemma SameWeekIffWithin(hoy: int, d: int)
    ensures SemanaActual(d) == SemanaActual(hoy)
        <==> SemanaActual(hoy).inicio <= d <= SemanaActual(hoy).fin
  {
    var w := SemanaActual(hoy);
    if w.inicio <= d <= w.fin {
      WeekdayFromSunday(w.inicio, d - w.inicio);
    }
  }

  /** The millisecond bounds cover exactly the instants whose day lies in the
      week: midnight of the Sunday through the last millisecond of the
      Saturday. */
  lemma WithinBoundsIffDay(w: Week, t: int)
    ensures Desde(w) <= t <= Hasta(w) <==> w.inicio <= t / MsPerDay <= w.fin
  {
    var d := t / MsPerDay;
    assert d * MsPerDay <= t < d * MsPerDay + MsPerDay;
    if w.inicio <= d {
      assert w.inicio * MsPerDay <= d * MsPerDay;
    } else {
      assert (d + 1) * MsPerDay <= w.inicio * MsPerDay;
    }
    if d <= w.fin {
      assert d * MsPerDay <= w.fin * MsPerDay;
    } else {
      assert (w.fin + 1) * MsPerDay <= d * MsPerDay;
    }
  }
}
