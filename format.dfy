/**
 * The number, date and gain formatting shared by app/components/EmitenHistoryCard.tsx
 * and lib/pdfExport.ts. Locale-dependent rendering (`toLocaleString`,
 * `toLocaleDateString`, `toFixed(1)`) is passed in as a function; only the guards and
 * the shape of the text around it are modelled.
 */
module Format {
  /** An optional numeric field of an analysis record (`undefined` is `None`). */
  datatype Num = Missing | Value(v: real)

  /** JavaScript truthiness of an optional number: present and not 0. */
  predicate NonZero(x: Num) {
    x.Value? && x.v != 0.0
  }

  /** `num?.toLocaleString() ?? '-'`. */
  function FormatNumber(x: Num, show: real -> string): (r: string)
    ensures x.Missing? ==> r == "-"
    ensures x.Value? ==> r == show(x.v)
  {
    match x
    case Missing => "-"
    case Value(v) => show(v)
  }

  /** `if (!dateStr) return '-'`, otherwise the locale rendering of the date. */
  function FormatDate(dateStr: string, show: string -> string): (r: string)
    ensures dateStr == "" ==> r == "-"
    ensures dateStr != "" ==> r == show(dateStr)
  {
    if dateStr == "" then "-" else show(dateStr)
  }

  /**
   * With a renderer that never writes a lone "-" (as `toLocaleString` never does for a
   * number), the dash marks exactly the missing numbers.
   */
  lemma DashMeansMissing(x: Num, show: real -> string)
    requires forall v :: show(v) != "-"
    ensures FormatNumber(x, show) == "-" <==> x.Missing?
  {
  }

  /** With a date renderer that never writes a lone "-", the dash marks exactly the empty dates. */
  lemma DashMeansNoDate(dateStr: string, show: string -> string)
    requires forall d :: d != "" ==> show(d) != "-"
    ensures FormatDate(dateStr, show) == "-" <==> dateStr == ""
  {
  }

  /** `((target - price) / price) * 100`. */
  function GainPercent(price: real, target: real): real
    requires price != 0.0
  {
    (target - price) / price * 100.0
  }

  /** `` `${gain >= 0 ? '+' : ''}${gain.toFixed(1)}%` ``, with `toFixed(1)` given as `fixed1`. */
  function GainText(gain: real, fixed1: real -> string): (r: string)
    ensures |r| >= 1 && r[|r| - 1] == '%'
    ensures gain >= 0.0 ==> r == "+" + fixed1(gain) + "%"
    ensures gain < 0.0 ==> r == fixed1(gain) + "%"
  {
    (if gain >= 0.0 then "+" else "") + fixed1(gain) + "%"
  }

  /**
   * `toFixed` never writes a leading '+', so the gain text starts with '+' exactly when
   * the gain is not negative, and without its '+' and '%' it is the fixed-point rendering.
   */
  lemma GainTextSign(gain: real, fixed1: real -> string)
    requires forall g :: fixed1(g) == [] || fixed1(g)[0] != '+'
    ensures GainText(gain, fixed1)[0] == '+' <==> gain >= 0.0
    ensures var r := GainText(gain, fixed1);
      r[(if gain >= 0.0 then 1 else 0)..|r| - 1] == fixed1(gain)
  {
    var r := GainText(gain, fixed1);
    if gain < 0.0 {
      assert fixed1(gain) == [] ==> r == "%";
      assert fixed1(gain) != [] ==> r[0] == fixed1(gain)[0];
    }
  }

  /** The gain has the sign of the move from `price` to `target` when the price is positive. */
  lemma GainSign(price: real, target: real)
    requires price > 0.0
    ensures GainPercent(price, target) >= 0.0 <==> target >= price
    ensures GainPercent(price, target) == 0.0 <==> target == price
  {
    var q := (target - price) / price;
    assert target - price == q * price;
    if q >= 0.0 {
      assert target - price >= 0.0;
    } else {
      assert q * price < 0.0;
    }
  }
}
