/** The run-details page (src/components/dashboard/RunDetailsPage/RunDetailsPage.tsx):
    detection of the indentation variant, the per-column totals and ratios of the
    summary cards, the colour classifier, and the identifiers its "View" buttons
    send to the three-way viewer. Everything here is a pure function of the rows. */
module RunDetailsPage {
  import opened Js
  import opened Types

  // ---------------------------------------------------------------------------
  // Variant detection

  /** `data.some(item => 'total_rows' in item)`. */
  function IsIndentationDetails(data: seq<Record>): (b: bool)
    ensures b <==> exists i :: 0 <= i < |data| && "total_rows" in data[i]
  {
    if data == [] then false
    else if "total_rows" in data[0] then true
    else
      assert forall i :: 1 <= i < |data| ==> data[i] == data[1..][i - 1];
      IsIndentationDetails(data[1..])
  }

  // ---------------------------------------------------------------------------
  // Totals and ratios

  /** The addend `item[key] || 0`: a number as it is, `true` as 1, and a missing,
      null, false, zero or empty-string field as 0. */
  function Count(item: Record, key: string): (n: real)
    ensures key !in item ==> n == 0.0
    ensures !IsTruthy(Lookup(item, key)) ==> n == 0.0
    ensures Lookup(item, key).Num? ==> n == Lookup(item, key).n
  {
    match Lookup(item, key)
    case Num(x) => x
    case Bool(b) => if b then 1.0 else 0.0
    case _ => 0.0
  }

  /** `data.reduce((sum, item) => sum + (item[key] || 0), 0)`. */
  function Total(data: seq<Record>, key: string): real
    decreases |data|
  {
    if data == [] then 0.0 else Total(data[..|data| - 1], key) + Count(data[|data| - 1], key)
  }

  /** Totals add up over consecutive slices of the rows. */
  lemma {:induction false} TotalAppend(a: seq<Record>, b: seq<Record>, key: string)
    ensures Total(a + b, key) == Total(a, key) + Total(b, key)
    decreases |b|
  {
    if b != [] {
      var b' := b[..|b| - 1];
      assert (a + b)[..|a + b| - 1] == a + b';
      assert (a + b)[|a + b| - 1] == b[|b| - 1];
      TotalAppend(a, b', key);
      assert Total(a + b, key) == Total(a + b', key) + Count(b[|b| - 1], key);
      assert Total(b, key) == Total(b', key) + Count(b[|b| - 1], key);
    } else {
      assert a + b == a;
    }
  }

  /** A total of a single row is that row's addend. */
  lemma TotalSingle(item: Record, key: string)
    ensures Total([item], key) == Count(item, key)
  {
    assert [item][..0] == [];
  }

  /** A sum of non-negative counts is non-negative. */
  lemma {:induction false} TotalNonnegative(data: seq<Record>, key: string)
    requires forall i :: 0 <= i < |data| ==> Count(data[i], key) >= 0.0
    ensures Total(data, key) >= 0.0
    decreases |data|
  {
    if data != [] {
      TotalNonnegative(data[..|data| - 1], key);
    }
  }

  /** A column that is row by row at most another column totals at most that column. */
  lemma {:induction false} TotalMonotone(data: seq<Record>, lesser: string, greater: string)
    requires forall i :: 0 <= i < |data| ==> Count(data[i], lesser) <= Count(data[i], greater)
    ensures Total(data, lesser) <= Total(data, greater)
    decreases |data|
  {
    if data != [] {
      TotalMonotone(data[..|data| - 1], lesser, greater);
    }
  }

  /** A column bounded row by row by `hi` totals at most `hi` per row. */
  lemma {:induction false} TotalAtMost(data: seq<Record>, key: string, hi: real)
    requires forall i :: 0 <= i < |data| ==> Count(data[i], key) <= hi
    ensures Total(data, key) <= hi * |data| as real
    decreases |data|
  {
    if data != [] {
      TotalAtMost(data[..|data| - 1], key, hi);
    }
  }

  /** `whole > 0 ? (part / whole) * 100 : 0`. */
  function Percent(part: real, whole: real): (r: real)
    ensures whole <= 0.0 ==> r == 0.0
    ensures whole > 0.0 ==> r * whole == part * 100.0
    ensures whole > 0.0 && 0.0 <= part <= whole ==> 0.0 <= r <= 100.0
  {
    if whole > 0.0 then
      var q := part / whole;
      assert q * whole == part;
      assert 0.0 <= part <= whole ==> 0.0 <= q <= 1.0;
      q * 100.0
    else 0.0
  }

  /** The mean of `row_match_percentage || 0` over the rows; `None` stands for the
      NaN that dividing by an empty row count gives. */
  function AverageRowMatch(data: seq<Record>): (r: Option<real>)
    ensures r.None? <==> data == []
    ensures r.Some? ==> r.value * |data| as real == Total(data, "row_match_percentage")
  {
    if data == [] then None else Some(Total(data, "row_match_percentage") / |data| as real)
  }

  /** The figures of the summary cards and the superscript breakdown. */
  datatype DetailSummary = DetailSummary(
    isIndentationDetails: bool,
    totalFiles: nat,
    totalParagraphs: real,
    totalMatches: real,
    totalTPSuperscript: real,
    totalFPSuperscript: real,
    totalFNSuperscript: real,
    totalSuperscriptMatches: real,
    contentMatchOverall: real,
    superscriptMatchOverall: real,
    totalRows: real,
    overallIndentationMatchPercentage: Option<real>)

  /** The page's derived figures. Each overall ratio is its matches per hundred
      paragraphs when there are paragraphs, and 0 otherwise. */
  function Summarize(data: seq<Record>): (r: DetailSummary)
    ensures r.totalFiles == |data|
    ensures r.isIndentationDetails <==> exists i :: 0 <= i < |data| && "total_rows" in data[i]
    ensures r.totalParagraphs == Total(data, "total_paragraphs")
    ensures r.totalMatches == Total(data, "content_matches")
    ensures r.totalTPSuperscript == Total(data, "TP_superscript")
    ensures r.totalFPSuperscript == Total(data, "FP_superscript")
    ensures r.totalFNSuperscript == Total(data, "FN_superscript")
    ensures r.totalSuperscriptMatches == Total(data, "superscript_matches")
    ensures r.totalRows == Total(data, "total_rows")
    ensures r.overallIndentationMatchPercentage == AverageRowMatch(data)
    ensures r.totalParagraphs > 0.0 ==>
      && r.contentMatchOverall * r.totalParagraphs == r.totalMatches * 100.0
      && r.superscriptMatchOverall * r.totalParagraphs == r.totalSuperscriptMatches * 100.0
    ensures r.totalParagraphs <= 0.0 ==> r.contentMatchOverall == 0.0 && r.superscriptMatchOverall == 0.0
    ensures r.overallIndentationMatchPercentage.None? <==> data == []
  {
    var paragraphs := Total(data, "total_paragraphs");
    var matches := Total(data, "content_matches");
    var superscriptMatches := Total(data, "superscript_matches");
    DetailSummary(
      IsIndentationDetails(data),
      |data|,
      paragraphs,
      matches,
      Total(data, "TP_superscript"),
      Total(data, "FP_superscript"),
      Total(data, "FN_superscript"),
      superscriptMatches,
      Percent(matches, paragraphs),
      Percent(superscriptMatches, paragraphs),
      Total(data, "total_rows"),
      AverageRowMatch(data))
  }

  /** Rows whose counts are non-negative, whose matches never exceed their
      paragraphs and whose row-match percentage lies in [0, 100]. */
  ghost predicate WellFormedRows(data: seq<Record>) {
    forall i :: 0 <= i < |data| ==>
      && 0.0 <= Count(data[i], "content_matches") <= Count(data[i], "total_paragraphs")
      && 0.0 <= Count(data[i], "superscript_matches") <= Count(data[i], "total_paragraphs")
      && 0.0 <= Count(data[i], "TP_superscript")
      && 0.0 <= Count(data[i], "FP_superscript")
      && 0.0 <= Count(data[i], "FN_superscript")
      && 0.0 <= Count(data[i], "total_rows")
      && 0.0 <= Count(data[i], "row_match_percentage") <= 100.0
  }

  /** A column that never exceeds another, row by row, and is non-negative gives
      a ratio in [0, 100]. */
  lemma RatioBounded(data: seq<Record>, part: string, whole: string)
    requires forall i :: 0 <= i < |data| ==> 0.0 <= Count(data[i], part) <= Count(data[i], whole)
    ensures 0.0 <= Percent(Total(data, part), Total(data, whole)) <= 100.0
  {
    TotalNonnegative(data, part);
    TotalMonotone(data, part, whole);
  }

  /** Row percentages in [0, 100] average to a percentage in [0, 100]. */
  lemma AverageBounded(data: seq<Record>)
    requires forall i :: 0 <= i < |data| ==> 0.0 <= Count(data[i], "row_match_percentage") <= 100.0
    ensures var a := AverageRowMatch(data); a.Some? ==> 0.0 <= a.value <= 100.0
  {
    TotalNonnegative(data, "row_match_percentage");
    TotalAtMost(data, "row_match_percentage", 100.0);
  }

  /** On well-formed rows every total is non-negative and every ratio, the average
      row match included, is a percentage in [0, 100]. */
  lemma SummaryBounds(data: seq<Record>)
    requires WellFormedRows(data)
    ensures var r := Summarize(data);
      && r.totalParagraphs >= 0.0 && r.totalMatches >= 0.0 && r.totalSuperscriptMatches >= 0.0
      && r.totalTPSuperscript >= 0.0 && r.totalFPSuperscript >= 0.0 && r.totalFNSuperscript >= 0.0
      && r.totalRows >= 0.0
      && 0.0 <= r.contentMatchOverall <= 100.0
      && 0.0 <= r.superscriptMatchOverall <= 100.0
      && (r.overallIndentationMatchPercentage.Some? ==> 0.0 <= r.overallIndentationMatchPercentage.value <= 100.0)
  {
    TotalNonnegative(data, "total_paragraphs");
    TotalNonnegative(data, "content_matches");
    TotalNonnegative(data, "superscript_matches");
    TotalNonnegative(data, "TP_superscript");
    TotalNonnegative(data, "FP_superscript");
    TotalNonnegative(data, "FN_superscript");
    TotalNonnegative(data, "total_rows");
    RatioBounded(data, "content_matches", "total_paragraphs");
    RatioBounded(data, "superscript_matches", "total_paragraphs");
    AverageBounded(data);
  }

  // ---------------------------------------------------------------------------
  // Colour classification

  /** The three match grades. */
  datatype MatchColor = Success | Warning | Danger

  /** `getMatchColor`: at least 95 is a success, at least 80 a warning, anything
      else a danger. */
  function GetMatchColor(percentage: real): (c: MatchColor)
    ensures c == Success <==> percentage >= 95.0
    ensures c == Warning <==> 80.0 <= percentage < 95.0
    ensures c == Danger <==> percentage < 80.0
  {
    if percentage >= 95.0 then Success
    else if percentage >= 80.0 then Warning
    else Danger
  }

  /** The grades in increasing order. */
  function Rank(c: MatchColor): nat {
    match c
    case Danger => 0
    case Warning => 1
    case Success => 2
  }

  /** A higher percentage never gets a worse grade. */
  lemma MatchColorMonotone(p: real, q: real)
    requires p <= q
    ensures Rank(GetMatchColor(p)) <= Rank(GetMatchColor(q))
  {
  }

  /** The text colour classes of the three grades. */
  function ColorClassName(c: MatchColor): string {
    match c
    case Success => "text-green-600 dark:text-green-400"
    case Warning => "text-yellow-600 dark:text-yellow-400"
    case Danger => "text-red-600 dark:text-red-400"
  }

  /** `getMatchColorClass`: its own threshold chain picks the class of the grade
      `getMatchColor` gives the same percentage. */
  function GetMatchColorClass(percentage: real): (cls: string)
    ensures cls == ColorClassName(GetMatchColor(percentage))
  {
    if percentage >= 95.0 then "text-green-600 dark:text-green-400"
    else if percentage >= 80.0 then "text-yellow-600 dark:text-yellow-400"
    else "text-red-600 dark:text-red-400"
  }

  /** The class of a percentage cell, read as `item[key] || 0`. A missing field
      is red, as it is also for the cells read without `|| 0`, where the missing
      value compares as NaN. */
  function CellColorClass(item: Record, key: string): (cls: string)
    ensures key !in item ==> cls == ColorClassName(Danger)
    ensures Lookup(item, key).Num? ==> cls == ColorClassName(GetMatchColor(Lookup(item, key).n))
  {
    GetMatchColorClass(Count(item, key))
  }

  /** The grade of the "Average Row Match" card; NaN fails every comparison. */
  function AverageCardColor(data: seq<Record>): (c: MatchColor)
    ensures data == [] ==> c == Danger
    ensures data != [] ==> c == GetMatchColor(Total(data, "row_match_percentage") / |data| as real)
  {
    match AverageRowMatch(data)
    case None => Danger
    case Some(p) => GetMatchColor(p)
  }

  // ---------------------------------------------------------------------------
  // View-button identifiers

  /** What a "View" button passes to `onViewFileDetails`. */
  datatype ViewRequest = ViewRequest(fileName: string, runId: Option<string>, page: int)

  /** `${item[key]}`: the text a template literal makes of a field. A missing
      field reads "undefined"; converting a number is the host's `toString`,
      passed in as `showNumber`. */
  function FieldText(item: Record, key: string, showNumber: real -> string): (text: string)
    ensures key !in item ==> text == "undefined"
    ensures Lookup(item, key).Str? ==> text == Lookup(item, key).s
    ensures Lookup(item, key).Num? ==> text == showNumber(Lookup(item, key).n)
  {
    if key !in item then "undefined"
    else
      match item[key]
      case Str(s) => s
      case Num(n) => showNumber(n)
      case Bool(b) => if b then "true" else "false"
      case Null => "null"
  }

  /** `Number(item[key])` as a page: a digit string is its value (see `NumberOf`),
      a number its whole part, `true` 1, and null or a missing field 0. */
  function FieldNumber(item: Record, key: string): (n: int)
    ensures Lookup(item, key).Str? ==> n == NumberOf(Lookup(item, key).s)
    ensures Lookup(item, key).Num? ==> n == Lookup(item, key).n.Floor
    ensures Lookup(item, key) == Null ==> n == 0
  {
    match Lookup(item, key)
    case Str(s) => NumberOf(s)
    case Num(x) => x.Floor
    case Bool(b) => if b then 1 else 0
    case Null => 0
  }

  /** The stem of an indentation row: the file name, then `_table_` and the table
      number when `Table_Num` is truthy (a numeric 0 is not). */
  function FileStem(item: Record, showNumber: real -> string): (stem: string)
    ensures IsTruthy(Lookup(item, "Table_Num")) ==>
      stem == FieldText(item, "File_Name", showNumber) + "_table_" + FieldText(item, "Table_Num", showNumber)
    ensures !IsTruthy(Lookup(item, "Table_Num")) ==> stem == FieldText(item, "File_Name", showNumber)
  {
    var fileName := FieldText(item, "File_Name", showNumber);
    if IsTruthy(Lookup(item, "Table_Num")) then fileName + "_table_" + FieldText(item, "Table_Num", showNumber)
    else fileName
  }

  /** The request of an indentation row: the stem, `_` and the page label as the
      identifier, and `Number(Page_Num)` as the page. */
  function IndentationViewRequest(item: Record, runId: Option<string>, showNumber: real -> string): (r: ViewRequest)
    ensures r.fileName == FileStem(item, showNumber) + "_" + FieldText(item, "Page_Num", showNumber)
    ensures r.runId == runId && r.page == FieldNumber(item, "Page_Num")
  {
    ViewRequest(FileStem(item, showNumber) + "_" + FieldText(item, "Page_Num", showNumber), runId,
                FieldNumber(item, "Page_Num"))
  }

  /** The request of a content row: file name, `_` and page label, always on page 1. */
  function ContentViewRequest(item: Record, runId: Option<string>, showNumber: real -> string): (r: ViewRequest)
    ensures r.fileName == FieldText(item, "File_Name", showNumber) + "_" + FieldText(item, "Page_Num", showNumber)
    ensures r.runId == runId && r.page == 1
  {
    ViewRequest(FieldText(item, "File_Name", showNumber) + "_" + FieldText(item, "Page_Num", showNumber), runId, 1)
  }

  /** What the "View" button of row `index` sends, by the page's variant. */
  function RowViewRequest(data: seq<Record>, index: nat, runId: Option<string>,
                          showNumber: real -> string): (r: ViewRequest)
    requires index < |data|
    ensures IsIndentationDetails(data) ==> r == IndentationViewRequest(data[index], runId, showNumber)
    ensures !IsIndentationDetails(data) ==> r == ContentViewRequest(data[index], runId, showNumber)
  {
    if IsIndentationDetails(data) then IndentationViewRequest(data[index], runId, showNumber)
    else ContentViewRequest(data[index], runId, showNumber)
  }

  /** Table "2" of "doc", page "3", opens "doc_table_2_3" on page 3. */
  lemma IndentationIdentifierExample(runId: Option<string>, showNumber: real -> string)
    ensures var item := map["File_Name" := Str("doc"), "Table_Num" := Str("2"), "Page_Num" := Str("3")];
      IndentationViewRequest(item, runId, showNumber) == ViewRequest("doc_table_2_3", runId, 3)
  {
    assert AllDigits("3");
    assert DigitsValue("3") == 10 * DigitsValue("") + 3;
  }

  /** An indentation row without a table number opens "doc_1" on page 1, the same
      target as the content row of "doc" page "1". */
  lemma NoTableIdentifierExample(runId: Option<string>, showNumber: real -> string)
    ensures var item := map["File_Name" := Str("doc"), "Page_Num" := Str("1")];
      && IndentationViewRequest(item, runId, showNumber) == ViewRequest("doc_1", runId, 1)
      && ContentViewRequest(item, runId, showNumber) == IndentationViewRequest(item, runId, showNumber)
  {
    assert AllDigits("1");
    assert DigitsValue("1") == 10 * DigitsValue("") + 1;
  }

  /** A numeric table number 0 is falsy, so the row opens the file without a table part. */
  lemma ZeroTableIdentifierExample(runId: Option<string>, showNumber: real -> string)
    ensures var item := map["File_Name" := Str("doc"), "Table_Num" := Num(0.0), "Page_Num" := Str("1")];
      IndentationViewRequest(item, runId, showNumber).fileName == "doc_1"
  {
  }

  /** The page an indentation request opens is the page its label names, whether
      the label is the decimal text of the page or the number itself. */
  lemma IndentationPageFollowsLabel(item: Record, page: nat, runId: Option<string>, showNumber: real -> string)
    requires Lookup(item, "Page_Num") == Str(NatText(page)) || Lookup(item, "Page_Num") == Num(page as real)
    ensures IndentationViewRequest(item, runId, showNumber).page == page
  {
    NumberOfNatText(page);
  }

  /** When the row's file name, table number and page label are underscore-free
      strings, the identifier splits back into file name, "table", table number
      and page label. */
  lemma IndentationIdentifierSplits(item: Record, fileName: string, tableNum: string, pageNum: string,
                                    runId: Option<string>, showNumber: real -> string)
    requires Lookup(item, "File_Name") == Str(fileName) && Lookup(item, "Table_Num") == Str(tableNum)
    requires Lookup(item, "Page_Num") == Str(pageNum)
    requires '_' !in fileName && '_' !in tableNum && '_' !in pageNum && tableNum != ""
    ensures Split(IndentationViewRequest(item, runId, showNumber).fileName, '_')
            == [fileName, "table", tableNum, pageNum]
  {
    var parts := [fileName, "table", tableNum, pageNum];
    assert parts[1..] == ["table", tableNum, pageNum];
    assert parts[1..][1..] == [tableNum, pageNum];
    assert parts[1..][1..][1..] == [pageNum];
    assert Join(parts[1..][1..], '_') == tableNum + "_" + pageNum;
    assert Join(parts[1..], '_') == "table" + "_" + tableNum + "_" + pageNum;
    assert Join(parts, '_') == fileName + "_table_" + tableNum + "_" + pageNum;
    SplitJoin(parts, '_');
  }

  /** Likewise a content identifier splits back into file name and page label. */
  lemma ContentIdentifierSplits(item: Record, fileName: string, pageNum: string, runId: Option<string>,
                                showNumber: real -> string)
    requires Lookup(item, "File_Name") == Str(fileName) && Lookup(item, "Page_Num") == Str(pageNum)
    requires '_' !in fileName && '_' !in pageNum
    ensures Split(ContentViewRequest(item, runId, showNumber).fileName, '_') == [fileName, pageNum]
  {
    var parts := [fileName, pageNum];
    assert parts[1..] == [pageNum];
    assert Join(parts, '_') == fileName + "_" + pageNum;
    SplitJoin(parts, '_');
  }

  // ---------------------------------------------------------------------------
  // Header

  /** The run id of the "Run ID" card: `runId || state.selectedRunId`. */
  function DisplayedRunId(runId: Option<string>, state: SidebarState): (r: Option<string>)
    ensures Present(runId) ==> r == runId
    ensures !Present(runId) ==> r == state.selectedRunId
  {
    if Present(runId) then runId else state.selectedRunId
  }

  /** The header's date line: the formatted run id, or 'N/A' without one. The
      date formatting is a parameter. */
  function DateLabel(runId: Option<string>, formatRunDateTime: string -> string): (text: string)
    ensures !Present(runId) ==> text == "N/A"
    ensures Present(runId) ==> text == formatRunDateTime(runId.value)
  {
    if Present(runId) then formatRunDateTime(runId.value) else "N/A"
  }
}
