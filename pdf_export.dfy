/**
 * lib/pdfExport.ts: the filter line printed above the table and the eight text cells
 * of each table row. Drawing the document is not modelled.
 */
module PdfExport {
  import opened Wrappers
  import opened Text
  import opened Format

  /** The `filters` argument as far as the filter line reads it (`status: None` is `undefined`). */
  datatype Filters = Filters(emiten: Option<string>, fromDate: Option<string>, toDate: Option<string>, status: Option<string>)

  /** The fields of an `AnalysisRecord` the rows read. */
  datatype Record = Record(
    fromDate: string,
    emiten: string,
    bandar: Option<string>,
    barangBandar: Num,
    rataRataBandar: Num,
    harga: Num,
    targetRealistis: Num,
    targetMax: Num)

  const Headers: seq<string> := ["Date", "Emiten", "Harga", "Target R1", "Target Max", "Bandar", "Vol Bandar", "Avg Bandar"]

  /** `` `${name}${value} | ` `` when the value is truthy, else nothing. */
  function Segment(name: string, value: Option<string>): string {
    if Present(value) then name + value.value + " | " else ""
  }

  /** `${filters.status}`: `undefined` prints as the word. */
  function StatusText(status: Option<string>): string {
    status.GetOr("undefined")
  }

  /** The filter line: "Filters: ", the set filters in a fixed order, then the status. */
  function FilterLine(f: Filters): (line: string)
    ensures |line| >= 9 && line[..9] == "Filters: "
    ensures var status := "Status: " + StatusText(f.status);
      |line| >= |status| && line[|line| - |status|..] == status
  {
    Framed("Filters: ", SetFilters(f), "Status: " + StatusText(f.status));
    "Filters: " + SetFilters(f) + ("Status: " + StatusText(f.status))
  }

  /** The segments of the set filters, in the order emiten, from, to. */
  function SetFilters(f: Filters): string {
    Segment("Emiten: ", f.emiten) + Segment("From: ", f.fromDate) + Segment("To: ", f.toDate)
  }

  /** `filterText`, built by successive appends. */
  method BuildFilterText(filters: Filters) returns (filterText: string)
    ensures filterText == FilterLine(filters)
  {
    var e, from, to := Segment("Emiten: ", filters.emiten), Segment("From: ", filters.fromDate), Segment("To: ", filters.toDate);
    filterText := "Filters: ";
    if Present(filters.emiten) {
      filterText := filterText + ("Emiten: " + filters.emiten.value + " | ");
    }
    assert filterText == "Filters: " + e;
    if Present(filters.fromDate) {
      filterText := filterText + ("From: " + filters.fromDate.value + " | ");
    }
    assert filterText == "Filters: " + e + from;
    if Present(filters.toDate) {
      filterText := filterText + ("To: " + filters.toDate.value + " | ");
    }
    assert filterText == "Filters: " + e + from + to;
    Regroup("Filters: ", e, from, to);
    filterText := filterText + ("Status: " + StatusText(filters.status));
  }

  lemma Regroup(a: string, b: string, c: string, d: string)
    ensures a + b + c + d == a + (b + c + d)
  {
  }

  /**
   * The line starts with "Filters: " and ends with the status; with no emiten, start or
   * end date it is just those two; each set filter adds its labelled segment, in the
   * order emiten, from, to.
   */
  lemma FilterLineShape(f: Filters)
    ensures var line := FilterLine(f);
      var status := "Status: " + StatusText(f.status);
      && |line| == 9 + |SetFilters(f)| + |status|
      && line[..9] == "Filters: "
      && line[9..9 + |SetFilters(f)|] == SetFilters(f)
      && line[9 + |SetFilters(f)|..] == status
      && (!Present(f.emiten) && !Present(f.fromDate) && !Present(f.toDate) ==> line == "Filters: " + status)
  {
    Framed("Filters: ", SetFilters(f), "Status: " + StatusText(f.status));
  }

  /** Each set filter contributes its labelled segment, in the order emiten, from, to. */
  lemma SetFiltersOrder(f: Filters)
    requires Present(f.emiten)
    ensures var seg := "Emiten: " + f.emiten.value + " | ";
      SetFilters(f)[..|seg|] == seg
  {
    var seg := "Emiten: " + f.emiten.value + " | ";
    Framed(seg, Segment("From: ", f.fromDate), Segment("To: ", f.toDate));
  }

  /** Slicing a three-part concatenation gives back its parts. */
  lemma Framed(a: string, m: string, c: string)
    ensures |a + m + c| == |a| + |m| + |c|
    ensures (a + m + c)[..|a|] == a
    ensures (a + m + c)[|a|..|a| + |m|] == m
    ensures (a + m + c)[|a| + |m|..] == c
  {
  }

  /** The text `calculateGain` returns: empty unless both the price and the target are set. */
  function GainOrEmpty(price: Num, target: Num, fixed1: real -> string): (r: string)
    ensures r == "" <==> !NonZero(price) || !NonZero(target)
  {
    if !NonZero(price) || !NonZero(target) then "" else GainText(GainPercent(price.v, target.v), fixed1)
  }

  /** `avgGain`: the gain from the average bandar price up to the price, only when it is a rise. */
  function AvgGain(rec: Record, fixed1: real -> string): (r: string)
    ensures r != "" <==> NonZero(rec.rataRataBandar) && NonZero(rec.harga) && rec.rataRataBandar.v < rec.harga.v
  {
    if NonZero(rec.rataRataBandar) && NonZero(rec.harga) && rec.rataRataBandar.v < rec.harga.v
    then GainOrEmpty(rec.rataRataBandar, rec.harga, fixed1)
    else ""
  }

  /** A shown average gain is never negative: the price is above the average. */
  lemma AvgGainIsRise(rec: Record, fixed1: real -> string)
    requires AvgGain(rec, fixed1) != "" && rec.rataRataBandar.v > 0.0
    ensures AvgGain(rec, fixed1) == "+" + fixed1(GainPercent(rec.rataRataBandar.v, rec.harga.v)) + "%"
  {
    GainSign(rec.rataRataBandar.v, rec.harga.v);
  }

  /** A figure with its gain on a second line when there is one. */
  function WithGain(value: string, gain: string): string {
    if gain != "" then value + "\n" + gain else value
  }

  /** The eight cells of one record's row. */
  function RowOf(rec: Record, show: real -> string, showDate: string -> string, fixed1: real -> string): (row: seq<string>)
    ensures |row| == |Headers|
    ensures row[1] == rec.emiten
    ensures !Present(rec.bandar) ==> row[5] == "-"
    ensures row[2] == FormatNumber(rec.harga, show)
  {
    [ FormatDate(rec.fromDate, showDate),
      rec.emiten,
      FormatNumber(rec.harga, show),
      WithGain(FormatNumber(rec.targetRealistis, show), GainOrEmpty(rec.harga, rec.targetRealistis, fixed1)),
      WithGain(FormatNumber(rec.targetMax, show), GainOrEmpty(rec.harga, rec.targetMax, fixed1)),
      if Present(rec.bandar) then rec.bandar.value else "-",
      FormatNumber(rec.barangBandar, show),
      WithGain(FormatNumber(rec.rataRataBandar, show), AvgGain(rec, fixed1)) ]
  }

  /** `tableRows`. */
  function TableRows(data: seq<Record>, show: real -> string, showDate: string -> string, fixed1: real -> string): (rows: seq<seq<string>>)
    ensures |rows| == |data|
    ensures forall i :: 0 <= i < |rows| ==> |rows[i]| == |Headers| && rows[i][1] == data[i].emiten
  {
    seq(|data|, i requires 0 <= i < |data| => RowOf(data[i], show, showDate, fixed1))
  }

  /**
   * One row per record in the same order, each with one cell per header: the formatted
   * date, the symbol, the formatted price, '-' for a missing bandar and the formatted
   * volume; the two targets and the average carry their gain as a second line exactly
   * when it is non-empty, and are the bare formatted figure otherwise.
   */
  lemma TableRowsShape(data: seq<Record>, show: real -> string, showDate: string -> string, fixed1: real -> string)
    ensures var rows := TableRows(data, show, showDate, fixed1);
      && |rows| == |data|
      && forall i :: 0 <= i < |data| ==>
        && |rows[i]| == |Headers|
        && rows[i][1] == data[i].emiten
        && (!Present(data[i].bandar) ==> rows[i][5] == "-")
        && (NonZero(data[i].harga) && NonZero(data[i].targetRealistis) <==>
              rows[i][3] == FormatNumber(data[i].targetRealistis, show) + "\n" + GainOrEmpty(data[i].harga, data[i].targetRealistis, fixed1))
        && (NonZero(data[i].harga) && NonZero(data[i].targetMax) <==>
              rows[i][4] == FormatNumber(data[i].targetMax, show) + "\n" + GainOrEmpty(data[i].harga, data[i].targetMax, fixed1))
        && (AvgGain(data[i], fixed1) != "" <==>
              rows[i][7] == FormatNumber(data[i].rataRataBandar, show) + "\n" + AvgGain(data[i], fixed1))
        && (GainOrEmpty(data[i].harga, data[i].targetRealistis, fixed1) == "" ==>
              rows[i][3] == FormatNumber(data[i].targetRealistis, show))
        && (GainOrEmpty(data[i].harga, data[i].targetMax, fixed1) == "" ==>
              rows[i][4] == FormatNumber(data[i].targetMax, show))
        && (AvgGain(data[i], fixed1) == "" ==>
              rows[i][7] == FormatNumber(data[i].rataRataBandar, show))
        && rows[i][0] == FormatDate(data[i].fromDate, showDate)
        && rows[i][2] == FormatNumber(data[i].harga, show)
        && (Present(data[i].bandar) ==> rows[i][5] == data[i].bandar.value)
        && rows[i][6] == FormatNumber(data[i].barangBandar, show)
  {
    forall i | 0 <= i < |data|
      ensures var row := TableRows(data, show, showDate, fixed1)[i];
        && (NonZero(data[i].harga) && NonZero(data[i].targetRealistis) <==>
              row[3] == FormatNumber(data[i].targetRealistis, show) + "\n" + GainOrEmpty(data[i].harga, data[i].targetRealistis, fixed1))
        && (NonZero(data[i].harga) && NonZero(data[i].targetMax) <==>
              row[4] == FormatNumber(data[i].targetMax, show) + "\n" + GainOrEmpty(data[i].harga, data[i].targetMax, fixed1))
        && (AvgGain(data[i], fixed1) != "" <==>
              row[7] == FormatNumber(data[i].rataRataBandar, show) + "\n" + AvgGain(data[i], fixed1))
    {
      var rec := data[i];
      WithGainSecondLine(FormatNumber(rec.targetRealistis, show), GainOrEmpty(rec.harga, rec.targetRealistis, fixed1));
      WithGainSecondLine(FormatNumber(rec.targetMax, show), GainOrEmpty(rec.harga, rec.targetMax, fixed1));
      WithGainSecondLine(FormatNumber(rec.rataRataBandar, show), AvgGain(rec, fixed1));
    }
  }

  /** The cell has the gain as a second line exactly when the gain is non-empty, and is the bare value otherwise. */
  lemma WithGainSecondLine(value: string, gain: string)
    ensures WithGain(value, gain) == value + "\n" + gain <==> gain != ""
    ensures gain == "" ==> WithGain(value, gain) == value
  {
    if gain == "" {
      assert |value + "\n" + gain| == |value| + 1;
    }
  }
}
