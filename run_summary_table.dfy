/** The per-file table of one run (src/components/dashboard/RunSummaryTable/RunSummaryTable.tsx):
    `columnToggle` decides which column groups are shown, and the header and
    the body are written out separately, group by group. */
module RunSummaryTable {
  import opened Types

  /** One row of the selected run's results. */
  datatype FileResult = FileResult(
    fileName: string,
    pageNum: real,
    totalParagraphs: real,
    contentMatches: real,
    contentMatchPercentage: real,
    tpSuperscript: real,
    fpSuperscript: real,
    fnSuperscript: real,
    tpFontInfo: real,
    fpFontInfo: real,
    fnFontInfo: real)

  /** The superscript group shows for 'all' and 'superscript'. */
  function ShowSuperscript(t: ColumnToggle): (b: bool)
    ensures b <==> t == All || t == Superscript
  {
    t != FontInfo
  }

  /** The font-info group shows for 'all' and 'font_info'. */
  function ShowFontInfo(t: ColumnToggle): (b: bool)
    ensures b <==> t == All || t == FontInfo
  {
    t != Superscript
  }

  /** Every toggle shows at least one group, and only 'all' shows both. */
  lemma ToggleGroups(t: ColumnToggle)
    ensures ShowSuperscript(t) || ShowFontInfo(t)
    ensures ShowSuperscript(t) && ShowFontInfo(t) <==> t == All
  {
  }

  /** The number of shown groups. */
  function Groups(t: ColumnToggle): nat {
    (if ShowSuperscript(t) then 1 else 0) + (if ShowFontInfo(t) then 1 else 0)
  }

  /** The header row. */
  function HeaderLabels(t: ColumnToggle): seq<string> {
    ["File Name", "Page", "Total Paragraphs", "Content Matches", "Match %"]
    + (if ShowSuperscript(t) then ["TP Superscript", "FP Superscript", "FN Superscript"] else [])
    + (if ShowFontInfo(t) then ["TP Font Info", "FP Font Info", "FN Font Info"] else [])
  }

  /** The cells of one result. Numbers are shown by `showNumber`, the match
      percentage by `showPercent` (two decimals and a percent sign). */
  function BodyRow(r: FileResult, t: ColumnToggle, showNumber: real -> string,
                   showPercent: real -> string): seq<string> {
    [r.fileName, showNumber(r.pageNum), showNumber(r.totalParagraphs), showNumber(r.contentMatches),
     showPercent(r.contentMatchPercentage)]
    + (if ShowSuperscript(t)
       then [showNumber(r.tpSuperscript), showNumber(r.fpSuperscript), showNumber(r.fnSuperscript)]
       else [])
    + (if ShowFontInfo(t)
       then [showNumber(r.tpFontInfo), showNumber(r.fpFontInfo), showNumber(r.fnFontInfo)]
       else [])
  }

  /** The cell a header names, read from the result independently of the order
      in which the row is written. */
  function CellFor(r: FileResult, heading: string, showNumber: real -> string,
                   showPercent: real -> string): string {
    if heading == "File Name" then r.fileName
    else if heading == "Page" then showNumber(r.pageNum)
    else if heading == "Total Paragraphs" then showNumber(r.totalParagraphs)
    else if heading == "Content Matches" then showNumber(r.contentMatches)
    else if heading == "Match %" then showPercent(r.contentMatchPercentage)
    else if heading == "TP Superscript" then showNumber(r.tpSuperscript)
    else if heading == "FP Superscript" then showNumber(r.fpSuperscript)
    else if heading == "FN Superscript" then showNumber(r.fnSuperscript)
    else if heading == "TP Font Info" then showNumber(r.tpFontInfo)
    else if heading == "FP Font Info" then showNumber(r.fpFontInfo)
    else if heading == "FN Font Info" then showNumber(r.fnFontInfo)
    else ""
  }

  /** Header and body rows have the same width, 5 plus 3 per shown group (11
      for 'all', 8 otherwise), and every cell sits under the header that names it. */
  lemma RowAgreesWithHeader(r: FileResult, t: ColumnToggle, showNumber: real -> string,
                            showPercent: real -> string)
    ensures |HeaderLabels(t)| == 5 + 3 * Groups(t)
    ensures |BodyRow(r, t, showNumber, showPercent)| == |HeaderLabels(t)|
    ensures t == All ==> |HeaderLabels(t)| == 11
    ensures t != All ==> |HeaderLabels(t)| == 8
    ensures forall k :: 0 <= k < |HeaderLabels(t)| ==>
      BodyRow(r, t, showNumber, showPercent)[k] == CellFor(r, HeaderLabels(t)[k], showNumber, showPercent)
  {
    var h := HeaderLabels(t);
    var row := BodyRow(r, t, showNumber, showPercent);
    assert forall k :: 0 <= k < |h| ==> row[k] == CellFor(r, h[k], showNumber, showPercent) by {
      match t
      case All =>
      case Superscript =>
      case FontInfo =>
    }
  }

  /** A body row: the cells of a result, or the single placeholder cell. */
  datatype Row = Cells(cells: seq<string>) | Placeholder(colSpan: nat, message: string)

  /** The columns a row occupies. */
  function RowWidth(row: Row): nat {
    match row
    case Cells(cells) => |cells|
    case Placeholder(colSpan, _) => colSpan
  }

  const NoResultsMessage: string := "No results available for this run."

  /** `results.map(...)`: one row per result, in order. */
  function ResultRows(results: seq<FileResult>, t: ColumnToggle, showNumber: real -> string,
                      showPercent: real -> string): (rows: seq<Row>)
    ensures |rows| == |results|
    ensures forall i :: 0 <= i < |results| ==> rows[i] == Cells(BodyRow(results[i], t, showNumber, showPercent))
  {
    if results == [] then []
    else [Cells(BodyRow(results[0], t, showNumber, showPercent))]
         + ResultRows(results[1..], t, showNumber, showPercent)
  }

  /** The body as written: the placeholder spans 12 columns whatever is shown. */
  function BodyAsWritten(results: seq<FileResult>, t: ColumnToggle, showNumber: real -> string,
                         showPercent: real -> string): (rows: seq<Row>)
    ensures results == [] ==> rows == [Placeholder(12, NoResultsMessage)]
    ensures results != [] ==> rows == ResultRows(results, t, showNumber, showPercent)
  {
    if |results| == 0 then [Placeholder(12, NoResultsMessage)] else ResultRows(results, t, showNumber, showPercent)
  }

  /** The as-written placeholder is wider than the header under every toggle:
      one column too wide for 'all', four for the others. */
  lemma PlaceholderOverhangs(t: ColumnToggle, showNumber: real -> string, showPercent: real -> string)
    ensures RowWidth(BodyAsWritten([], t, showNumber, showPercent)[0]) > |HeaderLabels(t)|
    ensures RowWidth(BodyAsWritten([], t, showNumber, showPercent)[0]) - |HeaderLabels(t)|
            == (if t == All then 1 else 4)
  {
  }

  /** The body with the placeholder spanning exactly the header: empty results
      give one placeholder row, otherwise one row per result, in order, and
      every row is as wide as the header. */
  function Body(results: seq<FileResult>, t: ColumnToggle, showNumber: real -> string,
                showPercent: real -> string): (rows: seq<Row>)
    ensures results == [] ==> rows == [Placeholder(|HeaderLabels(t)|, NoResultsMessage)]
    ensures results != [] ==>
      |rows| == |results|
      && forall i :: 0 <= i < |results| ==> rows[i] == Cells(BodyRow(results[i], t, showNumber, showPercent))
    ensures forall i :: 0 <= i < |rows| ==> RowWidth(rows[i]) == |HeaderLabels(t)|
  {
    if |results| == 0 then
      [Placeholder(5 + 3 * Groups(t), NoResultsMessage)]
    else
      var rows := ResultRows(results, t, showNumber, showPercent);
      assert forall i :: 0 <= i < |rows| ==> RowWidth(rows[i]) == |HeaderLabels(t)| by {
        forall i | 0 <= i < |rows|
          ensures RowWidth(rows[i]) == |HeaderLabels(t)|
        {
          RowAgreesWithHeader(results[i], t, showNumber, showPercent);
        }
      }
      rows
  }
}
