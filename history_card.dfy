/**
 * app/components/EmitenHistoryCard.tsx: the saved row-count preference, the history
 * request and its reversal, and the cells of the history table (gains, the price-tier
 * colour, the '-' placeholders and the average-bandar gain line).
 */
module HistoryCard {
  import opened Wrappers
  import opened Text
  import opened Format

  /** The fields of an `AnalysisRecord` the table reads. */
  datatype Record = Record(
    fromDate: string,
    emiten: string,
    sector: Option<string>,
    bandar: Option<string>,
    barangBandar: Num,
    rataRataBandar: Num,
    harga: Num,
    targetRealistis: Num,
    targetMax: Num,
    realHarga: Num,
    maxHarga: Num)

  const RowCountOptions: seq<int> := [3, 5, 10, 20]
  const DefaultRowCount := 5

  /** What `/api/profile?key=history_row_count` answered. */
  datatype ProfileResponse = ProfileUnreachable | ProfileAnswer(success: bool, value: Option<string>)

  /** The query of `/api/watchlist-history`. */
  datatype HistoryRequest = HistoryRequest(emiten: string, limit: string, sortBy: string, sortOrder: string)

  /** What `/api/watchlist-history` answered (`data` absent or an array). */
  datatype HistoryResponse = HistoryUnreachable | HistoryAnswer(success: bool, data: Option<seq<Record>>)

  /** `.reverse()`. */
  function Reverse<T>(s: seq<T>): (r: seq<T>)
    ensures |r| == |s|
    ensures forall i :: 0 <= i < |s| ==> r[i] == s[|s| - 1 - i]
  {
    if s == [] then [] else Reverse(s[1..]) + [s[0]]
  }

  lemma ReverseReverse<T>(s: seq<T>)
    ensures Reverse(Reverse(s)) == s
  {
  }

  /** Newest first: no record is dated before a later one in the list (ISO dates compare as text). */
  predicate NewestFirst(rs: seq<Record>) {
    forall i, j :: 0 <= i < j < |rs| ==> !Below(rs[i].fromDate, rs[j].fromDate)
  }

  /** Oldest first: no record is dated after a later one in the list. */
  predicate OldestFirst(rs: seq<Record>) {
    forall i, j :: 0 <= i < j < |rs| ==> !Below(rs[j].fromDate, rs[i].fromDate)
  }

  /** Reversing a newest-first answer gives the oldest-first table, with the same records. */
  lemma ReversedIsOldestFirst(rs: seq<Record>)
    requires NewestFirst(rs)
    ensures OldestFirst(Reverse(rs))
    ensures multiset(Reverse(rs)) == multiset(rs)
  {
    var r := Reverse(rs);
    forall i, j | 0 <= i < j < |r|
      ensures !Below(r[j].fromDate, r[i].fromDate)
    {
      assert r[j] == rs[|rs| - 1 - j] && r[i] == rs[|rs| - 1 - i];
    }
    ReverseMultiset(rs);
  }

  lemma {:induction false} ReverseMultiset<T>(s: seq<T>)
    ensures multiset(Reverse(s)) == multiset(s)
  {
    if s != [] {
      ReverseMultiset(s[1..]);
      assert s == [s[0]] + s[1..];
    }
  }

  class HistoryCardState {
    var data: seq<Record>
    var loading: bool
    var rowCount: int

    /** The row count is always one of the offered options. */
    predicate Valid()
      reads this
    {
      rowCount in RowCountOptions
    }

    constructor()
      ensures Valid() && data == [] && loading && rowCount == DefaultRowCount
    {
      data := [];
      loading := true;
      rowCount := DefaultRowCount;
    }

    /** `loadProfile`: a saved count is adopted only if `parseInt(value, 10)` is an offered option. */
    method LoadProfile(resp: ProfileResponse)
      requires Valid()
      modifies this
      ensures Valid() && data == old(data) && loading == old(loading)
      ensures rowCount == (if resp.ProfileAnswer? && resp.success && Present(resp.value)
                              && ParseInt(resp.value.value, 10).Some?
                              && ParseInt(resp.value.value, 10).value in RowCountOptions
                           then ParseInt(resp.value.value, 10).value else old(rowCount))
    {
      if resp.ProfileAnswer? && resp.success && Present(resp.value) {
        var saved := ParseInt(resp.value.value, 10);
        if saved.Some? && saved.value in RowCountOptions {
          rowCount := saved.value;
        }
      }
    }

    /** A row-count button: only the offered counts exist. */
    method ChangeRowCount(count: int)
      requires Valid() && count in RowCountOptions
      modifies this
      ensures Valid() && rowCount == count && data == old(data) && loading == old(loading)
    {
      rowCount := count;
    }

    /**
     * `fetchHistory`: asks for the newest `rowCount` records of the symbol, newest first,
     * and shows the answer reversed; any failure keeps the shown data.
     */
    method FetchHistory(emiten: string, resp: HistoryResponse) returns (req: HistoryRequest)
      requires Valid()
      modifies this
      ensures Valid() && rowCount == old(rowCount) && !loading
      ensures req == HistoryRequest(ToUpper(emiten), NatToString(rowCount), "from_date", "desc")
      ensures resp.HistoryAnswer? && resp.success ==> data == Reverse(resp.data.GetOr([]))
      ensures !(resp.HistoryAnswer? && resp.success) ==> data == old(data)
    {
      loading := true;
      req := HistoryRequest(ToUpper(emiten), NatToString(rowCount), "from_date", "desc");
      if resp.HistoryAnswer? && resp.success {
        data := Reverse(resp.data.GetOr([]));
      }
      loading := false;
    }
  }

  /** The request's `limit` reads back, through `parseInt`, as the row count. */
  lemma RequestLimitIsRowCount(emiten: string, count: nat)
    ensures ParseInt(HistoryRequest(ToUpper(emiten), NatToString(count), "from_date", "desc").limit, 10) == Some(count)
  {
    ParseIntOfNatToString(count);
  }

  // ---------------------------------------------------------------------------
  // Cells

  /** `calculateGain`: no gain text unless both the price and the target are set and non-zero. */
  function CalculateGain(price: Num, target: Num, fixed1: real -> string): (r: Option<string>)
    ensures r.None? <==> !NonZero(price) || !NonZero(target)
    ensures r.Some? ==> r.value == GainText(GainPercent(price.v, target.v), fixed1)
  {
    if !NonZero(price) || !NonZero(target) then None
    else Some(GainText(GainPercent(price.v, target.v), fixed1))
  }

  /**
   * With a positive price, a gain badge is shown for every non-zero target and reads "+"
   * exactly when the target is at or above the price.
   */
  lemma GainBadgeSign(price: Num, target: Num, fixed1: real -> string)
    requires price.Value? && price.v > 0.0 && NonZero(target)
    requires forall g :: fixed1(g) == [] || fixed1(g)[0] != '+'
    ensures CalculateGain(price, target, fixed1).Some?
    ensures CalculateGain(price, target, fixed1).value[0] == '+' <==> target.v >= price.v
  {
    GainSign(price.v, target.v);
    GainTextSign(GainPercent(price.v, target.v), fixed1);
  }

  /** The colour of the max-price and close-price figures. */
  datatype Tier = Primary | Amber | Success | Warning

  function TierRank(t: Tier): nat {
    match t
    case Primary => 0
    case Amber => 1
    case Success => 2
    case Warning => 3
  }

  /** The tier ternary, for a figure `v` of a record: unset or zero thresholds are skipped. */
  function PriceTier(v: real, rec: Record): Tier {
    if NonZero(rec.targetMax) && v >= rec.targetMax.v then Warning
    else if NonZero(rec.targetRealistis) && v >= rec.targetRealistis.v then Success
    else if NonZero(rec.harga) && v > rec.harga.v then Amber
    else Primary
  }

  /**
   * The tier is the first threshold reached, in the order target max, target R1, price:
   * each tier holds exactly when its threshold is set and reached and no earlier one is.
   */
  lemma PriceTierIff(v: real, rec: Record)
    ensures var reachedMax := NonZero(rec.targetMax) && v >= rec.targetMax.v;
      var reachedR1 := NonZero(rec.targetRealistis) && v >= rec.targetRealistis.v;
      var aboveBuy := NonZero(rec.harga) && v > rec.harga.v;
      && (PriceTier(v, rec) == Warning <==> reachedMax)
      && (PriceTier(v, rec) == Success <==> !reachedMax && reachedR1)
      && (PriceTier(v, rec) == Amber <==> !reachedMax && !reachedR1 && aboveBuy)
      && (PriceTier(v, rec) == Primary <==> !reachedMax && !reachedR1 && !aboveBuy)
  {
  }

  /** A higher figure never gets a lower tier. */
  lemma PriceTierMonotone(v1: real, v2: real, rec: Record)
    requires v1 <= v2
    ensures TierRank(PriceTier(v1, rec)) <= TierRank(PriceTier(v2, rec))
  {
  }

  /** The max-price and close-price cells: a dash, or the figure in its tier with its gain over the price. */
  datatype PriceCell = Dash | Figure(text: string, tier: Tier, gain: Option<string>)

  function PriceCellOf(value: Num, rec: Record, show: real -> string, fixed1: real -> string): (c: PriceCell)
    ensures c.Dash? <==> !NonZero(value)
    ensures c.Figure? ==> c.tier == PriceTier(value.v, rec) && c.gain == CalculateGain(rec.harga, value, fixed1)
  {
    if NonZero(value) then Figure(FormatNumber(value, show), PriceTier(value.v, rec), CalculateGain(rec.harga, value, fixed1))
    else Dash
  }

  /** What appears under the average-bandar figure. */
  datatype AvgLine = NoLine | StrayZero | GainLine(gain: Option<string>)

  /**
   * Line 297 as written: `rata_rata_bandar && harga && (<div>…)`. React renders the
   * number 0 that short-circuits the `&&`, so a zero average or price shows a stray "0".
   */
  function AvgLineAsWritten(rec: Record, fixed1: real -> string): (l: AvgLine)
    ensures l.GainLine? <==> NonZero(rec.rataRataBandar) && NonZero(rec.harga)
    ensures l.GainLine? ==> l.gain.Some?
  {
    if rec.rataRataBandar.Missing? then NoLine
    else if rec.rataRataBandar.v == 0.0 then StrayZero
    else if rec.harga.Missing? then NoLine
    else if rec.harga.v == 0.0 then StrayZero
    else GainLine(CalculateGain(rec.rataRataBandar, rec.harga, fixed1))
  }

  /** The line as intended: the gain from the average to the price when both are set. */
  function AvgLineOf(rec: Record, fixed1: real -> string): (l: AvgLine)
    ensures l != StrayZero
    ensures l.GainLine? <==> NonZero(rec.rataRataBandar) && NonZero(rec.harga)
    ensures l.GainLine? ==> l.gain.Some?
  {
    if NonZero(rec.rataRataBandar) && NonZero(rec.harga)
    then GainLine(CalculateGain(rec.rataRataBandar, rec.harga, fixed1))
    else NoLine
  }

  /** A record whose average bandar price is 0 shows "0" under the average as written. */
  lemma ZeroAverageShowsStrayZero(rec: Record, fixed1: real -> string)
    requires rec.rataRataBandar == Value(0.0)
    ensures AvgLineAsWritten(rec, fixed1) == StrayZero
    ensures AvgLineOf(rec, fixed1) == NoLine
  {
  }

  /** Apart from the stray "0", the written line is the intended one. */
  lemma AvgLineAgrees(rec: Record, fixed1: real -> string)
    ensures AvgLineAsWritten(rec, fixed1) != StrayZero ==> AvgLineAsWritten(rec, fixed1) == AvgLineOf(rec, fixed1)
    ensures AvgLineAsWritten(rec, fixed1) == StrayZero <==>
      (rec.rataRataBandar == Value(0.0)) || (NonZero(rec.rataRataBandar) && rec.harga == Value(0.0))
  {
  }

  /** One table row. */
  datatype HistoryRow = HistoryRow(
    date: string,
    emiten: string,
    sector: Option<string>,
    harga: string,
    targetR1: string,
    r1Gain: Option<string>,
    targetMax: string,
    maxGain: Option<string>,
    maxPrice: PriceCell,
    closePrice: PriceCell,
    bandar: Option<string>,   // None renders '-'
    volBandar: string,
    avgBandar: string,
    avgLine: AvgLine)

  /** One table row; the line under the average is the intended `AvgLineOf`, never a stray "0". */
  function RowOf(rec: Record, show: real -> string, showDate: string -> string, fixed1: real -> string): (row: HistoryRow)
    ensures row.emiten == rec.emiten
    ensures row.avgLine != StrayZero
    ensures row.avgLine.GainLine? <==> NonZero(rec.rataRataBandar) && NonZero(rec.harga)
    ensures row.maxPrice.Dash? <==> !NonZero(rec.maxHarga)
    ensures row.closePrice.Dash? <==> !NonZero(rec.realHarga)
  {
    HistoryRow(
      FormatDate(rec.fromDate, showDate),
      rec.emiten,
      if Present(rec.sector) then rec.sector else None,
      FormatNumber(rec.harga, show),
      FormatNumber(rec.targetRealistis, show),
      CalculateGain(rec.harga, rec.targetRealistis, fixed1),
      FormatNumber(rec.targetMax, show),
      CalculateGain(rec.harga, rec.targetMax, fixed1),
      PriceCellOf(rec.maxHarga, rec, show, fixed1),
      PriceCellOf(rec.realHarga, rec, show, fixed1),
      if Present(rec.bandar) then rec.bandar else None,
      FormatNumber(rec.barangBandar, show),
      FormatNumber(rec.rataRataBandar, show),
      AvgLineOf(rec, fixed1))
  }

  /**
   * The placeholders of a row: '-' for a missing number or date, a dash cell for a
   * missing or zero max or close price, no bandar for a missing one, and gain texts only
   * where both the price and the target are set.
   */
  lemma RowPlaceholders(rec: Record, show: real -> string, showDate: string -> string, fixed1: real -> string)
    ensures var row := RowOf(rec, show, showDate, fixed1);
      && (rec.fromDate == "" ==> row.date == "-")
      && (rec.harga.Missing? ==> row.harga == "-")
      && (rec.targetRealistis.Missing? ==> row.targetR1 == "-" && row.r1Gain.None?)
      && (rec.targetMax.Missing? ==> row.targetMax == "-" && row.maxGain.None?)
      && (row.maxPrice.Dash? <==> !NonZero(rec.maxHarga))
      && (row.closePrice.Dash? <==> !NonZero(rec.realHarga))
      && (row.bandar.None? <==> !Present(rec.bandar))
      && (row.r1Gain.Some? <==> NonZero(rec.harga) && NonZero(rec.targetRealistis))
      && (row.maxGain.Some? <==> NonZero(rec.harga) && NonZero(rec.targetMax))
  {
  }
}
