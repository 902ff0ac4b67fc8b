/** The three-way file viewer (src/components/dashboard/ViewPage/ViewPage.tsx):
    cell formatting, the editable ground-truth table, the local edit buffer with
    its dirty flag, page navigation, save, the pane grid, and the PDF pane's
    page stepping. */
module ViewPage {
  import opened Js

  /** `pagination` of a three-way payload; a page count of 0 or a missing one reads as 1. */
  datatype Pagination = Pagination(
    currentPage: Option<int>,
    totalPages: Option<int>,
    prevFile: Option<string>,
    nextFile: Option<string>)

  /** One three-way payload: comparison rows, rendered HTML and the PDF page. */
  datatype ThreeWayData = ThreeWayData(
    fileName: string,
    pageNum: string,
    comparisonData: seq<Record>,
    pdfBase64: string,
    htmlContent: string,
    pagination: Pagination,
    runId: Option<string>)

  /** `n || 1` for a page number or page count. */
  function OrOne(n: Option<int>): (r: int)
    ensures r != 0
    ensures n.Some? && n.value != 0 ==> r == n.value
    ensures n.None? || n.value == 0 ==> r == 1
  {
    if n.None? || n.value == 0 then 1 else n.value
  }

  // ---------------------------------------------------------------------------
  // Cell formatting

  /** Longest `content` text shown untruncated. */
  const MaxContentLength := 80

  /** `formatValue(key, value)`. Converting a number to text is the host's
      `Number.prototype.toString`, passed in as `showNumber`. */
  function FormatValue(key: string, value: Value, showNumber: real -> string): (r: string)
    ensures value.Bool? ==> r == (if value.b then "True" else "False")
    ensures value.Str? && Includes(key, "content") && |value.s| > MaxContentLength ==>
      |r| == MaxContentLength && r[..77] == value.s[..77] && r[77..] == "..."
    ensures value.Str? && !(Includes(key, "content") && |value.s| > MaxContentLength) ==> r == value.s
    ensures value.Null? ==> r == ""
    ensures value.Num? ==> r == showNumber(value.n)
  {
    match value
    case Bool(b) => if b then "True" else "False"
    case Str(s) =>
      if Includes(key, "content") && |s| > MaxContentLength then s[..77] + "..." else s
    case Null => ""
    case Num(n) => showNumber(n)
  }

  /** Formatting a shown string again changes nothing: a truncated text is already short enough. */
  lemma FormatValueIdempotent(key: string, s: string, showNumber: real -> string)
    ensures var once := FormatValue(key, Str(s), showNumber);
      |once| <= MaxContentLength || !Includes(key, "content")
    ensures var once := FormatValue(key, Str(s), showNumber);
      FormatValue(key, Str(once), showNumber) == once
  {
  }

  // ---------------------------------------------------------------------------
  // The ground-truth comparison table

  /** One compared property: which record keys hold its output, ground truth and match flag. */
  datatype ColumnDef = ColumnDef(key: string, outputKey: string, gtKey: string, matchKey: string, header: string)

  const ColumnDefs: seq<ColumnDef> := [
    ColumnDef("content", "content_output", "content_gt", "content_match", "Content"),
    ColumnDef("superscript", "superscript_output", "superscript_in_gt", "superscript_match", "Superscript"),
    ColumnDef("font_size", "font_size_output", "font_size_gt", "font_size_match", "Font Size"),
    ColumnDef("font_style", "font_style_output", "font_style_gt", "font_style_match", "Font Style"),
    ColumnDef("font_color", "font_color_output", "font_color_gt", "font_color_match", "Font Color"),
    ColumnDef("font_name", "font_name_output", "font_name_gt", "font_name_match", "Font Name")
  ]

  /** A table cell: text, or a checkbox showing a value. */
  datatype Cell = Text(text: string) | Box(checked: Value)

  /** `item[matchKey] ?? false`: what a match checkbox shows. */
  function MatchValue(item: Record, matchKey: string): (v: Value)
    ensures v != Null
    ensures matchKey in item && item[matchKey] != Null ==> v == item[matchKey]
    ensures (matchKey !in item || item[matchKey] == Null) ==> v == Bool(false)
  {
    if matchKey in item && item[matchKey] != Null then item[matchKey] else Bool(false)
  }

  /** Per property: its output, ground-truth and match headings. */
  function HeaderCellsOf(defs: seq<ColumnDef>): (r: seq<string>)
    ensures |r| == 3 * |defs|
    ensures forall j :: 0 <= j < |defs| ==>
      && r[3 * j] == defs[j].header + " (Output)"
      && r[3 * j + 1] == defs[j].header + " (GT)"
      && r[3 * j + 2] == defs[j].header + " Match"
  {
    if defs == [] then []
    else
      var c := defs[0];
      [c.header + " (Output)", c.header + " (GT)", c.header + " Match"] + HeaderCellsOf(defs[1..])
  }

  /** The header row: the row number, then output, ground truth and match per property. */
  function HeaderCells(): (r: seq<string>)
    ensures |r| == 1 + 3 * |ColumnDefs| == 19
    ensures r[0] == "#"
    ensures forall j :: 0 <= j < |ColumnDefs| ==>
      && r[3 * j + 1] == ColumnDefs[j].header + " (Output)"
      && r[3 * j + 2] == ColumnDefs[j].header + " (GT)"
      && r[3 * j + 3] == ColumnDefs[j].header + " Match"
  {
    ["#"] + HeaderCellsOf(ColumnDefs)
  }

  /** The three cells of one property; the superscript ground truth is a read-only checkbox. */
  function PropertyCells(item: Record, c: ColumnDef, showNumber: real -> string): seq<Cell> {
    [Text(FormatValue(c.key, Lookup(item, c.outputKey), showNumber)),
     GtCell(item, c, showNumber),
     Box(MatchValue(item, c.matchKey))]
  }

  /** A ground-truth cell: a read-only checkbox of `!!gtValue` for the superscript,
      the formatted value otherwise. */
  function GtCell(item: Record, c: ColumnDef, showNumber: real -> string): Cell {
    var gt := Lookup(item, c.gtKey);
    if c.key == "superscript" then Box(Bool(IsTruthy(gt))) else Text(FormatValue(c.key, gt, showNumber))
  }

  /** Per property: the formatted output, the ground truth and the match checkbox. */
  function RowCellsOf(item: Record, defs: seq<ColumnDef>, showNumber: real -> string): (r: seq<Cell>)
    ensures |r| == 3 * |defs|
    ensures forall j :: 0 <= j < |defs| ==>
      && r[3 * j] == Text(FormatValue(defs[j].key, Lookup(item, defs[j].outputKey), showNumber))
      && r[3 * j + 1] == GtCell(item, defs[j], showNumber)
      && r[3 * j + 2] == Box(MatchValue(item, defs[j].matchKey))
  {
    if defs == [] then []
    else PropertyCells(item, defs[0], showNumber) + RowCellsOf(item, defs[1..], showNumber)
  }

  /** The cells of row `index` (shown 1-based). */
  function RowCells(item: Record, index: nat, showNumber: real -> string): (r: seq<Cell>)
    ensures |r| == |HeaderCells()|
    ensures r[0] == Text(NatText(index + 1))
    ensures forall j :: 0 <= j < |ColumnDefs| ==>
      && r[3 * j + 1] == Text(FormatValue(ColumnDefs[j].key, Lookup(item, ColumnDefs[j].outputKey), showNumber))
      && r[3 * j + 2] == GtCell(item, ColumnDefs[j], showNumber)
      && r[3 * j + 3] == Box(MatchValue(item, ColumnDefs[j].matchKey))
  {
    var cells := RowCellsOf(item, ColumnDefs, showNumber);
    var r := [Text(NatText(index + 1))] + cells;
    assert forall k :: 0 <= k < |cells| ==> r[k + 1] == cells[k];
    r
  }

  // ---------------------------------------------------------------------------
  // Editing a match flag

  /** The rows after `handleMatchChange(rowIndex, matchKey, isChecked)`:
      a copy with one match flag of one row replaced. */
  function SetMatch(rows: seq<Record>, rowIndex: int, matchKey: string, isChecked: bool): (r: seq<Record>)
    ensures |r| == |rows|
    ensures forall j :: 0 <= j < |rows| && j != rowIndex ==> r[j] == rows[j]
    ensures 0 <= rowIndex < |rows| ==>
      && r[rowIndex].Keys == rows[rowIndex].Keys + {matchKey}
      && r[rowIndex][matchKey] == Bool(isChecked)
      && forall k :: k in rows[rowIndex] && k != matchKey ==> r[rowIndex][k] == rows[rowIndex][k]
    ensures !(0 <= rowIndex < |rows|) ==> r == rows
  {
    if 0 <= rowIndex < |rows| then rows[rowIndex := rows[rowIndex][matchKey := Bool(isChecked)]] else rows
  }

  /** After a toggle, the row's match checkbox shows the new state. */
  lemma SetMatchShows(rows: seq<Record>, rowIndex: int, k: nat, isChecked: bool, showNumber: real -> string)
    requires 0 <= rowIndex < |rows| && k < |ColumnDefs|
    ensures var cells := RowCells(SetMatch(rows, rowIndex, ColumnDefs[k].matchKey, isChecked)[rowIndex], rowIndex, showNumber);
      cells[3 * k + 3] == Box(Bool(isChecked))
  {
    var key := ColumnDefs[k].matchKey;
    var after := SetMatch(rows, rowIndex, key, isChecked)[rowIndex];
    assert MatchValue(after, key) == Bool(isChecked);
  }

  /** Toggling the same flag twice to the same state is the same as toggling it once;
      the later of two toggles of one flag wins. */
  lemma SetMatchLastWins(rows: seq<Record>, rowIndex: int, matchKey: string, first: bool, second: bool)
    ensures SetMatch(SetMatch(rows, rowIndex, matchKey, first), rowIndex, matchKey, second)
         == SetMatch(rows, rowIndex, matchKey, second)
  {
    if 0 <= rowIndex < |rows| {
      var once := SetMatch(rows, rowIndex, matchKey, second);
      var twice := SetMatch(SetMatch(rows, rowIndex, matchKey, first), rowIndex, matchKey, second);
      assert twice[rowIndex] == once[rowIndex];
      assert forall j :: 0 <= j < |rows| ==> twice[j] == once[j];
    }
  }

  // ---------------------------------------------------------------------------
  // The pane grid

  datatype Pane = JsonPane | HtmlPane | PdfPane

  /** The panes in the order they are laid out. */
  function VisiblePanes(showJson: bool, showPdf: bool, showHtml: bool): (r: seq<Pane>)
    ensures JsonPane in r <==> showJson
    ensures PdfPane in r <==> showPdf
    ensures HtmlPane in r <==> showHtml
    ensures |r| == (if showJson then 1 else 0) + (if showPdf then 1 else 0) + (if showHtml then 1 else 0)
  {
    (if showJson then [JsonPane] else []) + (if showHtml then [HtmlPane] else []) + (if showPdf then [PdfPane] else [])
  }

  function Repeat(s: string, n: nat): (r: seq<string>)
    ensures |r| == n && forall k :: 0 <= k < n ==> r[k] == s
  {
    if n == 0 then [] else [s] + Repeat(s, n - 1)
  }

  /** `gridTemplateColumns`: one `1fr` track per visible pane, or a single `1fr` when none is. */
  function GridTemplate(showJson: bool, showPdf: bool, showHtml: bool): string {
    var count := |VisiblePanes(showJson, showPdf, showHtml)|;
    if count > 0 then Join(Repeat("1fr", count), ' ') else "1fr"
  }

  /** The grid has exactly one equal-width track per visible pane, and one when none is visible. */
  lemma GridTracks(showJson: bool, showPdf: bool, showHtml: bool)
    ensures var count := |VisiblePanes(showJson, showPdf, showHtml)|;
      Split(GridTemplate(showJson, showPdf, showHtml), ' ') == Repeat("1fr", if count > 0 then count else 1)
  {
    var count := |VisiblePanes(showJson, showPdf, showHtml)|;
    if count > 0 {
      SplitJoin(Repeat("1fr", count), ' ');
    } else {
      assert ' ' !in "1fr";
    }
  }

  // ---------------------------------------------------------------------------
  // The viewer's local state

  /** The viewer's state: the payload it was given, its local copy of the
      comparison rows, the dirty flag and the pane toggles. */
  class FileThreeWayView {
    var data: ThreeWayData
    var comparisonData: seq<Record>
    var hasChanges: bool
    var showJson: bool
    var showPdf: bool
    var showHtml: bool
    var showControls: bool

    constructor (d: ThreeWayData)
      ensures data == d && comparisonData == d.comparisonData && !hasChanges
      ensures showJson && showPdf && showHtml && !showControls
      ensures SaveDisabled()
    {
      data := d;
      comparisonData := d.comparisonData;
      hasChanges := false;
      showJson, showPdf, showHtml := true, true, true;
      showControls := false;
    }

    /** `data.pagination.currentPage || 1`. */
    function CurrentPage(): int reads this {
      OrOne(data.pagination.currentPage)
    }

    /** `data.pagination.totalPages || 1`. */
    function TotalPages(): int reads this {
      OrOne(data.pagination.totalPages)
    }

    /** `disabled={!hasChanges}`: the save button is disabled while there are
        no unsaved edits. */
    predicate SaveDisabled() reads this {
      !hasChanges
    }

    /** The file name shown in the header. */
    function Title(): (t: string)
      reads this
      ensures t != ""
      ensures data.fileName != "" ==> t == data.fileName
      ensures data.fileName == "" ==> t == "File Details"
    {
      if data.fileName != "" then data.fileName else "File Details"
    }

    /** The grid template for the panes now visible. */
    function Grid(): string reads this {
      GridTemplate(showJson, showPdf, showHtml)
    }

    /** The parent renders the viewer with a payload `d`. `newRowsArray` says
        whether `d.comparisonData` is a different array object from the one
        the viewer had, as it is after every fetch. When that array, the page
        label or the pagination's current page changed, the local rows are
        replaced and the dirty flag cleared; otherwise local edits survive. */
    method Rerender(d: ThreeWayData, newRowsArray: bool)
      requires d.comparisonData != data.comparisonData ==> newRowsArray
      modifies this`data, this`comparisonData, this`hasChanges
      ensures data == d
      ensures var reset := newRowsArray || d.pageNum != old(data.pageNum)
                           || d.pagination.currentPage != old(data.pagination.currentPage);
        && (reset ==> comparisonData == d.comparisonData && !hasChanges && SaveDisabled())
        && (!reset ==> comparisonData == old(comparisonData) && hasChanges == old(hasChanges))
    {
      var reset := newRowsArray || d.pageNum != data.pageNum
                   || d.pagination.currentPage != data.pagination.currentPage;
      data := d;
      if reset {
        comparisonData := d.comparisonData;
        hasChanges := false;
      }
    }

    /** `handleMatchChange`: an in-range row gets the flag and marks the view dirty;
        an out-of-range index changes nothing. */
    method HandleMatchChange(rowIndex: int, matchKey: string, isChecked: bool)
      modifies this`comparisonData, this`hasChanges
      ensures comparisonData == SetMatch(old(comparisonData), rowIndex, matchKey, isChecked)
      ensures hasChanges == (old(hasChanges) || 0 <= rowIndex < |old(comparisonData)|)
      ensures 0 <= rowIndex < |old(comparisonData)| ==> !SaveDisabled()
    {
      if 0 <= rowIndex < |comparisonData| {
        comparisonData := SetMatch(comparisonData, rowIndex, matchKey, isChecked);
        hasChanges := true;
      }
    }

    /** `handlePageChange(delta)`; `confirmDiscard` is the operator's answer to the
        discard prompt, asked only when there are unsaved edits. The result is the
        page handed to `onPageChange`, if any. */
    method HandlePageChange(delta: int, confirmDiscard: bool) returns (request: Option<int>)
      ensures hasChanges && !confirmDiscard ==> request == None
      ensures request.Some? ==> request.value == CurrentPage() + delta && 1 <= request.value <= TotalPages()
      ensures (!hasChanges || confirmDiscard) && 1 <= CurrentPage() + delta <= TotalPages() ==> request.Some?
    {
      if hasChanges && !confirmDiscard {
        return None;
      }
      var newPage := CurrentPage() + delta;
      if 1 <= newPage <= TotalPages() {
        request := Some(newPage);
      } else {
        request := None;
      }
    }

    /** `handleSave`: hands the payload with the local rows to `onSave` and clears
        the dirty flag; the rows themselves are kept. */
    method HandleSave() returns (saved: ThreeWayData)
      modifies this`hasChanges
      ensures saved == old(data).(comparisonData := old(comparisonData))
      ensures !hasChanges && SaveDisabled()
    {
      // `runId := data.runId` mirrors the source's `Run_Id: data.Run_Id`.
      saved := data.(comparisonData := comparisonData, runId := data.runId);
      hasChanges := false;
    }

    /** The "View" menu button. */
    method ToggleControls()
      modifies this`showControls
      ensures showControls == !old(showControls)
    {
      showControls := !showControls;
    }

    /** "Hide/Show GT Table": flips the table pane and closes the menu. */
    method ToggleJson()
      modifies this`showJson, this`showControls
      ensures showJson == !old(showJson) && !showControls
    {
      showJson := !showJson;
      showControls := false;
    }

    /** "Hide/Show PDF View". */
    method TogglePdf()
      modifies this`showPdf, this`showControls
      ensures showPdf == !old(showPdf) && !showControls
    {
      showPdf := !showPdf;
      showControls := false;
    }

    /** "Hide/Show HTML View". */
    method ToggleHtml()
      modifies this`showHtml, this`showControls
      ensures showHtml == !old(showHtml) && !showControls
    {
      showHtml := !showHtml;
      showControls := false;
    }
  }

  // ---------------------------------------------------------------------------
  // The PDF pane

  /** `numPages || 1`. */
  function PageLimit(numPages: Option<nat>): (n: int)
    ensures n >= 1
    ensures numPages.Some? && numPages.value > 0 ==> n == numPages.value
    ensures numPages.None? || numPages.value == 0 ==> n == 1
  {
    if numPages.None? || numPages.value == 0 then 1 else numPages.value
  }

  /** `Math.max(prev - 1, 1)`. */
  function PrevPage(prev: int): (r: int)
    ensures r >= 1
    ensures prev > 1 ==> r == prev - 1
    ensures prev <= 1 ==> r == 1
  {
    if prev - 1 > 1 then prev - 1 else 1
  }

  /** `Math.min(prev + 1, numPages || 1)`. */
  function NextPage(prev: int, numPages: Option<nat>): (r: int)
    ensures r <= PageLimit(numPages)
    ensures prev < PageLimit(numPages) ==> r == prev + 1
    ensures prev >= PageLimit(numPages) ==> r == PageLimit(numPages)
  {
    var limit := PageLimit(numPages);
    if prev + 1 < limit then prev + 1 else limit
  }

  /** Stepping either way from a page in range stays in range. */
  lemma PageStepsStayInRange(p: int, numPages: Option<nat>)
    requires 1 <= p <= PageLimit(numPages)
    ensures 1 <= PrevPage(p) <= PageLimit(numPages)
    ensures 1 <= NextPage(p, numPages) <= PageLimit(numPages)
  {
  }

  /** The PDF pane's own page number and the page count reported by the renderer. */
  class PdfDisplay {
    var numPages: Option<nat>
    var pageNumber: int

    constructor ()
      ensures numPages == None && pageNumber == 1
    {
      numPages := None;
      pageNumber := 1;
    }

    /** The pages the renderer may show. */
    ghost predicate InRange() reads this {
      1 <= pageNumber <= PageLimit(numPages)
    }

    /** The renderer reports how many pages the document has. */
    method HandleLoadSuccess(count: nat)
      modifies this`numPages
      ensures numPages == Some(count)
    {
      numPages := Some(count);
    }

    method HandlePrevPage()
      modifies this`pageNumber
      ensures pageNumber == PrevPage(old(pageNumber))
      ensures old(InRange()) ==> InRange()
    {
      pageNumber := PrevPage(pageNumber);
    }

    method HandleNextPage()
      modifies this`pageNumber
      ensures pageNumber == NextPage(old(pageNumber), numPages)
      ensures old(InRange()) ==> InRange()
    {
      pageNumber := NextPage(pageNumber, numPages);
    }
  }
}
