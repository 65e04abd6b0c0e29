/** The derived-metrics calculators shown for the selected entity: energy per
    minute, Kardashev index, time (or rate) to mine one Bitcoin, and the choice
    of notation for displaying a magnitude.

    Values are exact reals. The formatted strings of the application are
    replaced by tagged results carrying the number that would be printed. */
module Transformer {
  import opened RealMath

  /** Energy needed to mine one Bitcoin, in Joules. */
  const JoulesPerBtc: real := 1.4e12

  const SecondsPerDay: real := 86400.0
  const SecondsPerYear: real := 31536000.0   // 365 days of 86400 s

  /* ---------------- wattsToJouleMin ---------------- */

  /** Joules delivered in one minute by a source of `watts` Joules per second. */
  function WattsToJouleMin(watts: real): (joules: real)
    ensures joules / 60.0 == watts
    ensures joules > 0.0 <==> watts > 0.0
  {
    watts * 60.0
  }

  /* ---------------- calculateKardashev ---------------- */

  /** The Kardashev index, or the negative-infinity sentinel that the
      application returns for a non-positive power. */
  datatype KardashevIndex = NegativeInfinity | Type(level: real)

  function CalculateKardashev(log10: real -> real, watts: real): (r: KardashevIndex)
    ensures r.NegativeInfinity? <==> watts <= 0.0
    ensures r.Type? ==> 10.0 * r.level + 6.0 == log10(watts)
  {
    if watts <= 0.0 then NegativeInfinity
    else Type((log10(watts) - 6.0) / 10.0)
  }

  /** A one-megawatt source is exactly Type 0. */
  lemma KardashevOfMegawatt(log10: real -> real)
    requires Log10Laws(log10)
    ensures CalculateKardashev(log10, 1e6) == Type(0.0)
  {
  }

  /** The index grows strictly with the power. */
  lemma KardashevIncreasing(log10: real -> real, a: real, b: real)
    requires Log10Laws(log10)
    requires 0.0 < a < b
    ensures CalculateKardashev(log10, a).Type? && CalculateKardashev(log10, b).Type?
    ensures CalculateKardashev(log10, a).level < CalculateKardashev(log10, b).level
  {
  }

  /* ---------------- calculateBitcoinStats ---------------- */

  /** The outcome of the Bitcoin-mining comparison, one constructor per
      message of the application: a mining rate, a duration in one of four
      units, or the fixed "more than a billion years" message. */
  datatype BitcoinStat =
    | Rate(btcPerDay: real)
    | Minutes(minutes: real)
    | Hours(hours: real)
    | Days(days: real)
    | Years(years: real)
    | OverBillionYears

  /** Seconds needed to mine one Bitcoin at `watts` (the application's
      `secondsPerBTC`); defined for non-zero power. */
  function SecondsPerBtc(watts: real): (s: real)
    requires watts != 0.0
    ensures s * watts == JoulesPerBtc
    ensures watts > 0.0 ==> s > 0.0
  {
    JoulesPerBtc / watts
  }

  /** A zero power divides to +Infinity in the application, so no `<` test
      succeeds and the final `years > 1e9` test does: the fixed message. */
  function CalculateBitcoinStats(watts: real): (r: BitcoinStat)
    ensures watts == 0.0 ==> r == OverBillionYears
    ensures watts < 0.0 ==> r.Rate?
    ensures r.Rate? ==> r.btcPerDay * JoulesPerBtc == watts * SecondsPerDay
    ensures watts > 0.0 && r.Rate? ==> r.btcPerDay > 1440.0
    ensures r.Minutes? ==> 1.0 <= r.minutes < 60.0 && r.minutes * 60.0 * watts == JoulesPerBtc
    ensures r.Hours? ==> 1.0 <= r.hours < 24.0 && r.hours * 3600.0 * watts == JoulesPerBtc
    ensures r.Days? ==> 1.0 <= r.days < 365.0 && r.days * SecondsPerDay * watts == JoulesPerBtc
    ensures r.Years? ==> 1.0 <= r.years <= 1e9 && r.years * SecondsPerYear * watts == JoulesPerBtc
  {
    if watts == 0.0 then OverBillionYears
    else
      var secondsPerBtc := SecondsPerBtc(watts);
      if secondsPerBtc < 60.0 then
        var btcPerSecond := watts / JoulesPerBtc;
        assert (60.0 - secondsPerBtc) * watts == 60.0 * watts - JoulesPerBtc;
        assert watts > 0.0 ==> (60.0 - secondsPerBtc) * watts > 0.0;
        assert btcPerSecond * JoulesPerBtc == watts;
        assert watts > 0.0 ==> btcPerSecond * 60.0 > 1.0;
        Rate(btcPerSecond * SecondsPerDay)
      else
        var minutes := secondsPerBtc / 60.0;
        if minutes < 60.0 then Minutes(minutes)
        else
          var hours := minutes / 60.0;
          if hours < 24.0 then Hours(hours)
          else
            var days := hours / 24.0;
            if days < 365.0 then Days(days)
            else
              var years := days / 365.0;
              if years > 1e9 then OverBillionYears
              else Years(years)
  }

  /** Which outcome a positive power gets, as intervals of the mining time:
      each unit covers the times from one of its units up to one of the next. */
  lemma BitcoinStatBySeconds(watts: real)
    requires watts > 0.0
    ensures var s := SecondsPerBtc(watts);
            var r := CalculateBitcoinStats(watts);
            (r.Rate? <==> s < 60.0) &&
            (r.Minutes? <==> 60.0 <= s < 3600.0) &&
            (r.Hours? <==> 3600.0 <= s < SecondsPerDay) &&
            (r.Days? <==> SecondsPerDay <= s < SecondsPerYear) &&
            (r.Years? <==> SecondsPerYear <= s <= 1e9 * SecondsPerYear) &&
            (r.OverBillionYears? <==> s > 1e9 * SecondsPerYear)
  {
  }

  /** Orders the outcomes from "fastest" (a rate) to "slowest". */
  function Coarseness(r: BitcoinStat): (n: nat)
    ensures n <= 5
  {
    match r
    case Rate(_) => 0
    case Minutes(_) => 1
    case Hours(_) => 2
    case Days(_) => 3
    case Years(_) => 4
    case OverBillionYears => 5
  }

  /** The coarseness that the mining time `s` calls for. */
  function CoarsenessOfSeconds(s: real): nat
  {
    if s < 60.0 then 0
    else if s < 3600.0 then 1
    else if s < SecondsPerDay then 2
    else if s < SecondsPerYear then 3
    else if s <= 1e9 * SecondsPerYear then 4
    else 5
  }

  lemma CoarsenessMatchesSeconds(watts: real)
    requires watts > 0.0
    ensures Coarseness(CalculateBitcoinStats(watts)) == CoarsenessOfSeconds(SecondsPerBtc(watts))
  {
    BitcoinStatBySeconds(watts);
  }

  /** A stronger source needs no more time per Bitcoin. */
  lemma SecondsPerBtcDecreasing(a: real, b: real)
    requires 0.0 < a <= b
    ensures SecondsPerBtc(b) <= SecondsPerBtc(a)
  {
    var sa, sb := SecondsPerBtc(a), SecondsPerBtc(b);
    assert (sa - sb) * b == sa * (b - a);
    assert sa * (b - a) >= 0.0;
  }

  /** More power never reports a coarser unit than less power. */
  lemma MorePowerNeverCoarser(a: real, b: real)
    requires 0.0 < a <= b
    ensures Coarseness(CalculateBitcoinStats(b)) <= Coarseness(CalculateBitcoinStats(a))
  {
    CoarsenessMatchesSeconds(a);
    CoarsenessMatchesSeconds(b);
    SecondsPerBtcDecreasing(a, b);
  }

  /** Exactly sixty seconds per Bitcoin is "1 minute", not a rate: the rate
      branch needs strictly fewer than sixty seconds. */
  lemma SixtySecondsIsOneMinute()
    ensures CalculateBitcoinStats(JoulesPerBtc / 60.0) == Minutes(1.0)
  {
  }

  /** Two reference points: 10^18 W mines at a rate and 1 W needs years. */
  lemma BitcoinStatExamples()
    ensures CalculateBitcoinStats(1e18).Rate?
    ensures CalculateBitcoinStats(1.0).Years?
  {
  }

  /* ---------------- formatNumber ---------------- */

  /** The notation formatNumber chooses, carrying the number it prints. */
  datatype Formatted = Exponential(shown: real) | Grouped(shown: real)

  /** True when a magnitude is printed in scientific notation. */
  predicate NeedsExponent(n: real)
  {
    Abs(n) < 0.01 || Abs(n) > 10000.0
  }

  function FormatNumber(n: real): (r: Formatted)
    ensures r.shown == n
    ensures r.Exponential? <==> NeedsExponent(n)
    ensures r.Grouped? <==> 0.01 <= Abs(n) <= 10000.0
  {
    if NeedsExponent(n) then Exponential(n) else Grouped(n)
  }

  /** The notation depends only on the magnitude, and both band edges are
      printed in grouped notation. */
  lemma FormatNumberSymmetricAndEdges(n: real)
    ensures FormatNumber(n).Exponential? == FormatNumber(-n).Exponential?
    ensures FormatNumber(0.01).Grouped? && FormatNumber(10000.0).Grouped?
    ensures FormatNumber(-0.01).Grouped? && FormatNumber(-10000.0).Grouped?
  {
  }

  /** Reference points: 0.005 and 50000 are scientific, 100 is grouped. */
  lemma FormatNumberExamples()
    ensures FormatNumber(0.005).Exponential?
    ensures FormatNumber(100.0).Grouped?
    ensures FormatNumber(50000.0).Exponential?
  {
  }
}
