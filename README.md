# A verified model of the Ground-Truth comparison dashboard

The Ground-Truth dashboard is a React front end for a document-comparison
pipeline. An operator starts comparison runs, which compare ground-truth
annotations against a processing system's output. The operator then browses
all runs, opens one run's per-file results and inspects a single page in a
three-way viewer. The viewer shows an editable comparison table, the rendered
HTML and the source PDF page. The comparisons themselves run on a backend that
is not part of this model. The model covers the view-state logic of the
browser side:

- **`App`** (`app.dfy`, src/App.tsx). The rule that derives `currentView` from
  the display flags and selections, first match wins. Also the root
  component's state, and the reactive fetch rules that react to the detail and
  file-detail ids being set or cleared. Each awaited fetch is one step that
  receives its outcome (`Fetch.Ok(data)` or `Fetch.Failed`).
- **`MainContent`** (`main_content.dfy`). Which screen renders: the three-way
  viewer overrides the run details, and the run details override the summary
  panels. Also the back, close, view-file and page-change handlers.
- **`ViewPage`** (`view_page.dfy`). Three parts:
  - cell formatting, the comparison table's rows and match checkboxes, and the
    pane grid;
  - the viewer's edit buffer (`FileThreeWayView`): a local copy of the rows, a
    dirty flag, navigation guarded by a discard prompt, save, and reset on new
    data;
  - the PDF pane's page stepping (`PdfDisplay`).
- **`RunDetailsPage`** (`run_details_page.dfy`). Detection of the indentation
  variant, the totals and ratios of the summary cards, the colour classifier,
  and the identifiers the "View" buttons send to the viewer.
- **`Sidebar`** (`sidebar.dfy`). The display-option checkboxes, and the
  sidebar's own state around the local-upload and S3 comparison dialogs.
- **`RunSummaryTable`** (`run_summary_table.dfy`). Which column groups
  `columnToggle` shows, and the agreement between header and body rows.
- **`Types`** and **`Js`**:
  - `Types` holds the shared `SidebarState` record;
  - `Js` holds the JavaScript semantics the components rely on: nullable
    values, truthiness, `includes`, `Number`/`String` on decimal naturals and
    `join`/`split`.
- **`Scenarios`** (`scenarios.dfy`). Whole paths from a fresh root component,
  through opening a run, to the viewer.

Components that update state in place become classes whose fields are their
`useState` slots (`App.AppState`, `ViewPage.FileThreeWayView`,
`ViewPage.PdfDisplay`, `Sidebar.Sidebar`); their handlers are methods with
`modifies` frames. Pure rules become functions with lemmas about them.

Several behaviours of the code are easy to misread, and the model follows the
code as written:

- The viewer renders whenever a three-way payload is held (MainContent.tsx:76),
  whatever the file-detail ids are.
- A payload that arrives is stored as it is. The page number is never
  reconciled with the page the server reports (App.tsx:184-185).
- Only one three-way fetch is made, for content and indentation runs alike
  (App.tsx:182). The code shown passes it the identifier unchanged; how the
  api function treats the identifier is not shown.
- The viewer's previous-page and next-page buttons are commented out
  (ViewPage/ViewPage.tsx:363-381). `handlePageChange` is modelled, but nothing
  in the shown code calls it.
- When no derivation rule matches, `currentView` stays as it is
  (App.tsx:22-32). No separate welcome view exists.
- A new payload resets the local rows only through the effect's dependencies
  (ViewPage/ViewPage.tsx:187-190). A fetch always delivers a new array, so in
  practice every fetched page resets the buffer.
- Run deletion is not wired. MainContent.tsx:131 passes no delete handler.

## Model

| member | source | states |
|---|---|---|
| Js.Includes | src/components/dashboard/ViewPage/ViewPage.tsx:47 | `s.includes(sub)` holds exactly when `sub` occurs at some position of `s` |
| Js.NumberOf | src/components/dashboard/RunDetailsPage/RunDetailsPage.tsx:281 | `Number(s)` of a string of decimal digits is the value they denote, most significant digit first; the empty string gives 0 |
| Js.Join | src/components/dashboard/ViewPage/ViewPage.tsx:338 | `parts.join(sep)`: the parts in order with one separator between neighbours |
| Js.NumberOfNatText | src/components/dashboard/RunDetailsPage/RunDetailsPage.tsx:281 | `Number` of the decimal text of a natural gives that natural back |
| Js.SplitJoin | src/components/dashboard/ViewPage/ViewPage.tsx:338 | splitting a `join` on the same separator gives the parts back when no part contains it |
| Types.InitialState | src/App.tsx:10-20 | the application starts on `finalSummary` with columns 'all', no selections, and only the final-summary flag on |
| App.DerivedView | src/App.tsx:22-32 | some rule applies exactly when one of the four flag conditions holds, and no rule ever picks `runDetails` |
| App.Derive | src/App.tsx:22-32 | only `currentView` changes; each rule wins when the rules above it fail; with no match the state is unchanged; `runDetails` survives only if it was already the view |
| App.DeriveFinalSummary | src/App.tsx:29-30 | the final-summary rule decides when the three rules above it do not apply |
| App.DeriveIdempotent | src/App.tsx:66-76 | deriving twice equals deriving once, so the duplicated effect changes nothing |
| App.DeriveIgnoresCurrentView | src/App.tsx:22-32 | when a rule applies, the result does not depend on the view it replaces |
| App.InitialStateIsDerived | src/App.tsx:10-32 | the initial state is already derived, on `finalSummary` |
| App.AppState.constructor | src/App.tsx:34-47 | all lists empty, loading and sidebar open, no detail or file-detail ids, page 1 |
| App.AppState.DeriveViewEffect | src/App.tsx:22-32 | the effect replaces the state by its derivation |
| App.AppState.LoadRuns | src/App.tsx:49-64 | the run list loads on success; the indentation summary loads only after the run list succeeded; loading ends in every case |
| App.AppState.SelectedRunEffect | src/App.tsx:78-94 | no selected run empties the per-file results; a success replaces them; a failure keeps them |
| App.AppState.FileDiffEffect | src/App.tsx:96-116 | a missing run, file or suffix empties the diff; otherwise success replaces it and failure keeps it |
| App.AppState.DetailRunEffect | src/App.tsx:118-143 | cleared id: rows emptied and `runDetails` falls back to `finalSummary`, other views untouched; success stores rows and shows `runDetails`; failure clears the id and shows `finalSummary` |
| App.AppState.IndentationDetailEffect | src/App.tsx:145-168 | as the content rule, falling back to `indentationResult` on clear and on failure |
| App.AppState.FileDetailEffect | src/App.tsx:171-201 | without a file name and run id the payload is dropped and the page reset to 1; a payload is stored; an empty response or failure clears payload, file name and run id and resets the page |
| App.FailedFileDetailSettles | src/App.tsx:184-196 | after a failed three-way fetch, the re-fired rule keeps everything cleared whatever it receives |
| App.FailedDetailSettles | src/App.tsx:134-138 | after a failed detail fetch, the re-fired rule empties the rows and leaves the view on `finalSummary` with no id |
| MainContent.SummaryPanels | src/components/layout/MainContent.tsx:129-157 | each panel renders exactly when `currentView` names it and its flag and selections hold, so at most one renders |
| MainContent.Render | src/components/layout/MainContent.tsx:76-122 | a payload renders the viewer with `Run_Id` replaced by `fileDetailRunId`; otherwise a detail id renders run details, the content id first; otherwise the panels |
| MainContent.DerivedViewRenders | src/components/layout/MainContent.tsx:129-157 | after derivation, the panel of the winning rule is the one that renders |
| MainContent.NoFlagNoPanel | src/components/layout/MainContent.tsx:125-160 | with every display flag off the content area is empty |
| MainContent.GoBackState | src/components/layout/MainContent.tsx:53-63 | exactly one of the two summaries is switched on, the final summary exactly when a content run was open, and `currentView` names it; nothing else changes |
| MainContent.GoBackRenders | src/components/layout/MainContent.tsx:53-63 | going back from an indentation run shows the indentation table; from a content run, the all-runs table unless a higher rule applies |
| MainContent.HandleRunClick | src/components/layout/MainContent.tsx:131 | clicking a run row sets the content detail id |
| MainContent.HandleIndentationRunClick | src/components/layout/MainContent.tsx:144 | clicking an indentation row sets the indentation detail id |
| MainContent.HandleGoBack | src/components/layout/MainContent.tsx:53-63 | both detail ids are cleared and the view state becomes `GoBackState` of the old state |
| MainContent.HandlePageChange | src/components/layout/MainContent.tsx:66-68 | only the page changes, to the requested page |
| MainContent.HandleViewerClose | src/components/layout/MainContent.tsx:86-91 | payload, file name and run id are cleared and the page is 1 |
| MainContent.HandleViewFileDetails | src/components/layout/MainContent.tsx:100-104 | file name, run id and page become exactly the arguments |
| MainContent.CloseViewerShowsUnderlying | src/components/layout/MainContent.tsx:86-91 | closing the viewer and letting the three-way rule fire shows the details or panels underneath |
| ViewPage.OrOne | src/components/dashboard/ViewPage/ViewPage.tsx:162-163 | the current and total page are never 0: a given non-zero value is kept, and a missing or 0 value becomes 1 |
| ViewPage.FormatValue | src/components/dashboard/ViewPage/ViewPage.tsx:43-54 | booleans read "True"/"False"; a `content` string over 80 characters (code points) becomes exactly 80, its first 77 and "..."; other strings are unchanged; null is empty; a number is its host text |
| ViewPage.FormatValueIdempotent | src/components/dashboard/ViewPage/ViewPage.tsx:47-48 | formatting an already formatted text changes nothing |
| ViewPage.MatchValue | src/components/dashboard/ViewPage/ViewPage.tsx:109 | a match checkbox shows the stored flag, or false when it is missing or null |
| ViewPage.HeaderCellsOf | src/components/dashboard/ViewPage/ViewPage.tsx:93-99 | property j owns headings 3j to 3j+2: its "(Output)", "(GT)" and "Match" headings |
| ViewPage.HeaderCells | src/components/dashboard/ViewPage/ViewPage.tsx:90-101 | the header is "#" followed by, for property j at positions 3j+1 to 3j+3, its "(Output)", "(GT)" and "Match" headings |
| ViewPage.RowCellsOf | src/components/dashboard/ViewPage/ViewPage.tsx:106-142 | property j owns cells 3j to 3j+2: its formatted output, its ground-truth cell and its match checkbox |
| ViewPage.GtCell | src/components/dashboard/ViewPage/ViewPage.tsx:116-130 | the ground-truth cell is a read-only checkbox of `!!gtValue` for the superscript property and the formatted ground-truth value for every other property |
| ViewPage.RowCells | src/components/dashboard/ViewPage/ViewPage.tsx:103-145 | a row is as wide as the header and shows its 1-based number; at positions 3j+1 to 3j+3, under property j's three headings, it shows that property's formatted output, its ground truth (a read-only `!!gt` checkbox for the superscript) and its match checkbox |
| ViewPage.SetMatch | src/components/dashboard/ViewPage/ViewPage.tsx:208-220 | an in-range row gets the flag under the match key, keeps every other key, and every other row and the length are kept; an out-of-range index changes nothing |
| ViewPage.SetMatchShows | src/components/dashboard/ViewPage/ViewPage.tsx:132-137 | after ticking a property's box, that row's box shows the new value |
| ViewPage.SetMatchLastWins | src/components/dashboard/ViewPage/ViewPage.tsx:208-218 | two changes of the same box leave the second value, as one change would |
| ViewPage.VisiblePanes | src/components/dashboard/ViewPage/ViewPage.tsx:335-336 | each pane is listed exactly when its toggle is on, and the count is the number of toggles on |
| ViewPage.GridTemplate | src/components/dashboard/ViewPage/ViewPage.tsx:335-338 | `gridTemplateColumns`: one '1fr' per visible pane joined by spaces, or '1fr' when none is visible (its track count is stated by GridTracks) |
| ViewPage.GridTracks | src/components/dashboard/ViewPage/ViewPage.tsx:335-338 | the grid template has one "1fr" per visible pane, or a single one when no pane is visible |
| ViewPage.FileThreeWayView.constructor | src/components/dashboard/ViewPage/ViewPage.tsx:164-170 | the local rows are the payload's rows, the buffer is clean so save is disabled, all panes show and the menu is closed |
| ViewPage.FileThreeWayView.SaveDisabled | src/components/dashboard/ViewPage/ViewPage.tsx:390 | the save button is disabled exactly when there are no unsaved edits |
| ViewPage.FileThreeWayView.CurrentPage | src/components/dashboard/ViewPage/ViewPage.tsx:162 | `data.pagination.currentPage || 1` (its default is stated by OrOne) |
| ViewPage.FileThreeWayView.TotalPages | src/components/dashboard/ViewPage/ViewPage.tsx:163 | `data.pagination.totalPages || 1` (its default is stated by OrOne) |
| ViewPage.FileThreeWayView.Title | src/components/dashboard/ViewPage/ViewPage.tsx:171 | the title is the file name, or "File Details" when it is empty |
| ViewPage.FileThreeWayView.Grid | src/components/dashboard/ViewPage/ViewPage.tsx:335-338 | the grid template of the panes currently shown |
| ViewPage.FileThreeWayView.Rerender | src/components/dashboard/ViewPage/ViewPage.tsx:187-190 | a new rows array, page label or current page replaces the local rows and clears the dirty flag, disabling save; otherwise edits survive |
| ViewPage.FileThreeWayView.HandleMatchChange | src/components/dashboard/ViewPage/ViewPage.tsx:208-221 | the rows become `SetMatch` of the old rows, and the buffer turns dirty exactly when the index is in range, which enables save |
| ViewPage.FileThreeWayView.HandlePageChange | src/components/dashboard/ViewPage/ViewPage.tsx:223-232 | a dirty buffer with a declined prompt requests nothing; otherwise the current page plus delta is requested exactly when it lies in [1, total] |
| ViewPage.FileThreeWayView.HandleSave | src/components/dashboard/ViewPage/ViewPage.tsx:234-242 | the payload is handed on with the local rows and its own run id, file and page; the buffer is clean afterwards and save is disabled |
| ViewPage.FileThreeWayView.ToggleControls | src/components/dashboard/ViewPage/ViewPage.tsx:398 | the view menu flips |
| ViewPage.FileThreeWayView.ToggleJson | src/components/dashboard/ViewPage/ViewPage.tsx:408 | the table pane flips and the menu closes |
| ViewPage.FileThreeWayView.TogglePdf | src/components/dashboard/ViewPage/ViewPage.tsx:412 | the PDF pane flips and the menu closes |
| ViewPage.FileThreeWayView.ToggleHtml | src/components/dashboard/ViewPage/ViewPage.tsx:416 | the HTML pane flips and the menu closes |
| ViewPage.PageLimit | src/components/dashboard/ViewPage/ViewPage.tsx:270 | the last page is the reported page count when that is non-zero, and 1 when it is missing or 0 |
| ViewPage.PrevPage | src/components/dashboard/ViewPage/ViewPage.tsx:269 | one page back, never below 1 |
| ViewPage.NextPage | src/components/dashboard/ViewPage/ViewPage.tsx:270 | one page on, never past the last page |
| ViewPage.PageStepsStayInRange | src/components/dashboard/ViewPage/ViewPage.tsx:269-270 | from a page in [1, last], both steps stay in [1, last] |
| ViewPage.PdfDisplay.constructor | src/components/dashboard/ViewPage/ViewPage.tsx:261-262 | no page count yet, page 1 |
| ViewPage.PdfDisplay.HandleLoadSuccess | src/components/dashboard/ViewPage/ViewPage.tsx:265-267 | the reported page count is stored |
| ViewPage.PdfDisplay.HandlePrevPage | src/components/dashboard/ViewPage/ViewPage.tsx:269 | the page steps back and stays in range |
| ViewPage.PdfDisplay.HandleNextPage | src/components/dashboard/ViewPage/ViewPage.tsx:270 | the page steps on and stays in range |
| RunDetailsPage.IsIndentationDetails | src/components/dashboard/RunDetailsPage/RunDetailsPage.tsx:27 | the page is the indentation variant exactly when some row has a `total_rows` key |
| RunDetailsPage.Count | src/components/dashboard/RunDetailsPage/RunDetailsPage.tsx:29 | a missing or falsy field adds 0, and a number adds itself |
| RunDetailsPage.Total | src/components/dashboard/RunDetailsPage/RunDetailsPage.tsx:29-37 | `data.reduce((sum, item) => sum + (item[key] || 0), 0)`: a left fold of the addends from 0 (its properties are stated by TotalAppend, TotalSingle, TotalNonnegative, TotalMonotone and TotalAtMost) |
| RunDetailsPage.TotalAppend | src/components/dashboard/RunDetailsPage/RunDetailsPage.tsx:29-38 | a total over two runs of rows is the sum of their totals |
| RunDetailsPage.TotalSingle | src/components/dashboard/RunDetailsPage/RunDetailsPage.tsx:29 | the total of one row is that row's addend |
| RunDetailsPage.TotalNonnegative | src/components/dashboard/RunDetailsPage/RunDetailsPage.tsx:29-37 | a sum of non-negative counts is non-negative |
| RunDetailsPage.TotalMonotone | src/components/dashboard/RunDetailsPage/RunDetailsPage.tsx:29-36 | a column at most another on every row totals at most that column |
| RunDetailsPage.TotalAtMost | src/components/dashboard/RunDetailsPage/RunDetailsPage.tsx:38 | a column bounded per row totals at most that bound per row |
| RunDetailsPage.Percent | src/components/dashboard/RunDetailsPage/RunDetailsPage.tsx:35-36 | with paragraphs, the ratio times the paragraphs is 100 times the matches, and it lies in [0, 100] when matches are within paragraphs; without paragraphs it is 0 |
| RunDetailsPage.AverageRowMatch | src/components/dashboard/RunDetailsPage/RunDetailsPage.tsx:38 | no average (NaN) exactly for empty data; otherwise the average times the row count is the total |
| RunDetailsPage.Summarize | src/components/dashboard/RunDetailsPage/RunDetailsPage.tsx:27-38 | every card's total is the `reduce` sum of its column over the rows, the file count is the row count, the variant is detected, both overall ratios are matches per hundred paragraphs (or 0), and the average is `AverageRowMatch` of the rows |
| RunDetailsPage.RatioBounded | src/components/dashboard/RunDetailsPage/RunDetailsPage.tsx:35-36 | matches that are non-negative and within their paragraphs on every row give an overall ratio in [0, 100] |
| RunDetailsPage.AverageBounded | src/components/dashboard/RunDetailsPage/RunDetailsPage.tsx:38 | row percentages in [0, 100] average to a percentage in [0, 100] |
| RunDetailsPage.SummaryBounds | src/components/dashboard/RunDetailsPage/RunDetailsPage.tsx:29-38 | on well-formed rows every total is non-negative and every ratio and the average lie in [0, 100] |
| RunDetailsPage.GetMatchColor | src/components/dashboard/RunDetailsPage/RunDetailsPage.tsx:41-45 | success exactly from 95, warning exactly in [80, 95), danger exactly below 80 |
| RunDetailsPage.MatchColorMonotone | src/components/dashboard/RunDetailsPage/RunDetailsPage.tsx:41-45 | a higher percentage never gets a worse grade |
| RunDetailsPage.ColorClassName | src/components/dashboard/RunDetailsPage/RunDetailsPage.tsx:47-51 | the green, yellow and red text classes of the success, warning and danger grades |
| RunDetailsPage.GetMatchColorClass | src/components/dashboard/RunDetailsPage/RunDetailsPage.tsx:47-51 | the class chain agrees with `getMatchColor`'s grades on every percentage |
| RunDetailsPage.CellColorClass | src/components/dashboard/RunDetailsPage/RunDetailsPage.tsx:260-270 | a percentage cell is coloured by its value's grade, and red when the field is missing |
| RunDetailsPage.AverageCardColor | src/components/dashboard/RunDetailsPage/RunDetailsPage.tsx:144 | the average card is danger for empty data and otherwise graded by the average |
| RunDetailsPage.FieldText | src/components/dashboard/RunDetailsPage/RunDetailsPage.tsx:279-280 | a template literal shows a string field as it is, a number by the host's conversion, and a missing field as "undefined" |
| RunDetailsPage.FieldNumber | src/components/dashboard/RunDetailsPage/RunDetailsPage.tsx:281 | `Number` of a digit-string page is its value, of a number its whole part, of null 0 |
| RunDetailsPage.FileStem | src/components/dashboard/RunDetailsPage/RunDetailsPage.tsx:279 | the row's file name, followed by `_table_` and its table number exactly when `Table_Num` is truthy |
| RunDetailsPage.IndentationViewRequest | src/components/dashboard/RunDetailsPage/RunDetailsPage.tsx:278-282 | the row's stem, `_` and page label form the identifier; the page is `Number` of the row's page label; the run id is passed on |
| RunDetailsPage.ContentViewRequest | src/components/dashboard/RunDetailsPage/RunDetailsPage.tsx:312-315 | the row's file name, `_` and page label form the identifier, and the page is always 1 |
| RunDetailsPage.RowViewRequest | src/components/dashboard/RunDetailsPage/RunDetailsPage.tsx:257-321 | the button of row `index` sends the indentation request of that row on the indentation variant, and the content request of that row otherwise |
| RunDetailsPage.IndentationIdentifierExample | src/components/dashboard/RunDetailsPage/RunDetailsPage.tsx:279-281 | the row "doc", table "2", page "3" opens "doc_table_2_3" on page 3 |
| RunDetailsPage.NoTableIdentifierExample | src/components/dashboard/RunDetailsPage/RunDetailsPage.tsx:279-281 | without a table number the row "doc" page "1" opens "doc_1" on page 1, the same target as the content row |
| RunDetailsPage.ZeroTableIdentifierExample | src/components/dashboard/RunDetailsPage/RunDetailsPage.tsx:279 | a numeric table number 0 is falsy, so the row "doc" page "1" opens "doc_1" |
| RunDetailsPage.IndentationPageFollowsLabel | src/components/dashboard/RunDetailsPage/RunDetailsPage.tsx:281 | the page opened is the one the row's label names, as decimal text or as a number |
| RunDetailsPage.IndentationIdentifierSplits | src/components/dashboard/RunDetailsPage/RunDetailsPage.tsx:279-280 | when the row's parts are underscore-free strings, the identifier splits back into file, "table", table number and page label |
| RunDetailsPage.ContentIdentifierSplits | src/components/dashboard/RunDetailsPage/RunDetailsPage.tsx:313 | when the row's parts are underscore-free strings, the identifier splits back into file and page label |
| RunDetailsPage.DisplayedRunId | src/components/dashboard/RunDetailsPage/RunDetailsPage.tsx:54 | the run id shown is `runId`, or the selected run when that is missing or empty |
| RunDetailsPage.DateLabel | src/components/dashboard/RunDetailsPage/RunDetailsPage.tsx:53 | 'N/A' without a run id, otherwise the formatted run id |
| Sidebar.IsChecked | src/components/layout/Sidebar.tsx:261 | `!!checked` is true for checked and for indeterminate |
| Sidebar.WithDisplayOption | src/components/layout/Sidebar.tsx:257-302 | the checkbox's flag becomes `!!checked`; every other flag, the view and the selections are kept |
| Sidebar.DisplayOptionUndo | src/components/layout/Sidebar.tsx:257-302 | clicking a checkbox back to the value it showed restores the state |
| Sidebar.DisplayOptionsCommute | src/components/layout/Sidebar.tsx:257-302 | clicks on two different checkboxes give the same state in either order |
| Sidebar.JsonOptionKeepsView | src/components/layout/Sidebar.tsx:296-302 | the "JSON Result" checkbox never changes the derived view |
| Sidebar.IndentationOptionWins | src/components/layout/Sidebar.tsx:266-275 | ticking "Indentation Result" always derives the indentation view |
| Sidebar.Sidebar.constructor | src/components/layout/Sidebar.tsx:28-38 | dialogs closed, nothing chosen, nothing running, description 'Run from UI' |
| Sidebar.Sidebar.RunComparisonDisabled | src/components/layout/Sidebar.tsx:165 | the local "Run Comparison" button is disabled when either zip is missing or an upload is running |
| Sidebar.Sidebar.RunS3ComparisonDisabled | src/components/layout/Sidebar.tsx:245 | the S3 "Run Comparison" button is disabled when either folder is missing or a comparison is running |
| Sidebar.Sidebar.LocalUploadDialogOpenChange | src/components/layout/Sidebar.tsx:128 | the local dialog's flag follows its open state |
| Sidebar.Sidebar.ChooseGtZip | src/components/layout/Sidebar.tsx:149 | the chosen ground-truth file, or none |
| Sidebar.Sidebar.ChooseOutputZip | src/components/layout/Sidebar.tsx:158 | the chosen output file, or none |
| Sidebar.Sidebar.SelectGtFolder | src/components/layout/Sidebar.tsx:207 | the selected ground-truth folder |
| Sidebar.Sidebar.SelectOutputFolder | src/components/layout/Sidebar.tsx:222 | the selected output folder |
| Sidebar.Sidebar.SetChangesDescription | src/components/layout/Sidebar.tsx:237 | the description typed |
| Sidebar.Sidebar.BeginRunComparison | src/components/layout/Sidebar.tsx:40-43 | an upload of both zips starts exactly when both are chosen, always when the button is enabled, and disables the button |
| Sidebar.Sidebar.FinishRunComparison | src/components/layout/Sidebar.tsx:44-54 | success clears both zips and the S3 dialog's flag, as written; failure keeps them; the upload ends either way |
| Sidebar.Sidebar.RunComparison | src/components/layout/Sidebar.tsx:40-55 | the whole handler: nothing happens unless both zips are chosen, and the local dialog's flag is never touched |
| Sidebar.Sidebar.BeginRunS3Comparison | src/components/layout/Sidebar.tsx:57-60 | a run with both folders and the description starts exactly when both are chosen, always when the button is enabled |
| Sidebar.Sidebar.FinishRunS3Comparison | src/components/layout/Sidebar.tsx:61-72 | success closes the dialog, clears both folders and resets the description to 'Run from UI'; failure keeps them; the run ends either way |
| Sidebar.Sidebar.S3DialogOpenChange | src/components/layout/Sidebar.tsx:176-184 | opening asks for the folder lists; closing clears both selections |
| Sidebar.Sidebar.LoadS3Folders | src/components/layout/Sidebar.tsx:76-85 | the ground-truth list loads on success; the output list loads only after that succeeded |
| RunSummaryTable.ShowSuperscript | src/components/dashboard/RunSummaryTable/RunSummaryTable.tsx:21 | the superscript group shows for 'all' and 'superscript' only |
| RunSummaryTable.ShowFontInfo | src/components/dashboard/RunSummaryTable/RunSummaryTable.tsx:22 | the font-info group shows for 'all' and 'font_info' only |
| RunSummaryTable.ToggleGroups | src/components/dashboard/RunSummaryTable/RunSummaryTable.tsx:20-22 | every toggle shows a group, and only 'all' shows both |
| RunSummaryTable.HeaderLabels | src/components/dashboard/RunSummaryTable/RunSummaryTable.tsx:38-60 | the five fixed headings, then the superscript and font-info headings of the shown groups |
| RunSummaryTable.BodyRow | src/components/dashboard/RunSummaryTable/RunSummaryTable.tsx:69-92 | the five fixed cells of a result, then its superscript and font-info cells of the shown groups |
| RunSummaryTable.RowAgreesWithHeader | src/components/dashboard/RunSummaryTable/RunSummaryTable.tsx:38-92 | header and body rows are 5 plus 3 per shown group wide, and every cell sits under the header naming its field |
| RunSummaryTable.ResultRows | src/components/dashboard/RunSummaryTable/RunSummaryTable.tsx:69-93 | one row per result, in input order |
| RunSummaryTable.BodyAsWritten | src/components/dashboard/RunSummaryTable/RunSummaryTable.tsx:62-94 | empty results give one placeholder spanning 12 columns; otherwise the result rows |
| RunSummaryTable.PlaceholderOverhangs | src/components/dashboard/RunSummaryTable/RunSummaryTable.tsx:64 | the as-written placeholder is wider than the header under every toggle |
| RunSummaryTable.Body | src/components/dashboard/RunSummaryTable/RunSummaryTable.tsx:61-95 | empty results give one placeholder spanning the header; otherwise one row per result, in order; every row is as wide as the header |
| Scenarios.ContentRunToViewer | src/components/dashboard/RunDetailsPage/RunDetailsPage.tsx:312-315 | a content run's row for "doc" page "1" opens "doc_1" on page 1 of that run, and the viewer then shows the payload with the run's id |
| Scenarios.IndentationRunToViewer | src/components/dashboard/RunDetailsPage/RunDetailsPage.tsx:278-282 | an indentation run's row for table "2" of "doc", page "3", opens "doc_table_2_3" on page 3 |
| Scenarios.ContentRunBack | src/components/layout/MainContent.tsx:53-63 | going back from a content run's details empties the rows and shows the all-runs table |

## Left out

- Network I/O (src/api.ts) is not modelled. Every backend call is an outcome parameter of the step that awaits it.
- `fetchIndentationDetailPage` and `fetchFileThreeWayView` are imported by App.tsx but are not part of the shown source. Only their outcomes are modelled.
- Async ordering is not modelled: interleavings, races between fetches, and React's choice of when effects and batched setters run. Each rule is one atomic step.
- `alert` and `console` are no-ops. `handleSaveChanges` (MainContent.tsx:71-74) only logs, so a save is modelled up to the payload handed to `onSave`.
- `window.location.reload()` after a successful comparison (Sidebar.tsx:49, 67) is left out, because page reloads are outside the model.
- `formatRunDateTime` is a parameter of `RunDetailsPage.DateLabel`, because it depends on JavaScript `Date` and locale formatting.
- Number-to-text conversion is a parameter (`showNumber`, `showPercent`), because `toString` and `toFixed(2)` on floating point are host functions.
- Percentages and totals are exact reals. Floating-point rounding and NaN arithmetic are not modelled; the NaN of an empty average is `None`.
- Js.NumberOf: gives `Number(s)` only for strings of decimal digits. Any other page label reads as 0, where JavaScript would give NaN or read a number: a sign, a fraction, surrounding white space, an exponent (`Number("1e3")` is 1000), a `0x`, `0b` or `0o` prefix (`Number("0x10")` is 16) or "Infinity".
- RunDetailsPage.Count: a string-valued field, which JavaScript would concatenate into the sum, is counted as 0.
- RunDetailsPage.FieldNumber: a fractional numeric `Page_Num` gives its whole part where JavaScript keeps the fraction, and a missing one gives 0 where `Number(undefined)` is NaN.
- RunDetailsPage.CellColorClass: a non-numeric percentage field, which JavaScript would coerce in the comparison, is graded as 0.
- ViewPage.FormatValue: lengths count Unicode code points, where JavaScript counts UTF-16 code units. A character outside the Basic Multilingual Plane counts twice in the source, so a `content` text of 41 such characters (82 units) is truncated there but not in the model, and `substring` can split a surrogate pair, which the model cannot represent.
- ViewPage.PdfDisplay: the source declares `PdfDisplay` inside `FileThreeWayView` (ViewPage/ViewPage.tsx:260, used at :436), so each render of the viewer creates a new component type and React remounts the pane with no page count and page 1. Ticking a match box, toggling a pane or opening the view menu therefore puts the PDF back on page 1. The model's `PdfDisplay` is one long-lived pane: it captures stepping within one mount, not this reset.
- PDF rendering, base64 decoding, the download link and zoom (ViewPage/ViewPage.tsx:271-272) are foreign or floating-point presentational code.
- Click-outside listeners (ViewPage/ViewPage.tsx:174-184, 193-204), animations, styling, the theme toggle (Sidebar.tsx:107) and the sidebar show/hide buttons (Sidebar.tsx:93, 117) are presentational.
- `isDetailsLoading` (App.tsx:48) and `showAll` (RunSummaryTable.tsx:20) are declared but never read.
- The run-summary and file-diff panels render empty containers (MainContent.tsx:135-157). They are modelled as panel tags.
- AllRunsTable, IndentationSummaryTable, FileDiffView, PdfNav and GT.tsx are not part of this model. They are presentational, and GT.tsx is driven by a mock that uses random data and timers.
- `showJsonResult` is not declared in `SidebarState` (types/index.ts:60-70). It is modelled as an extra flag that starts false, which is what reading the missing field gives.

## Findings

| source | as written | input that shows it | evidently intended | confidence | as-written member | corrected member |
|---|---|---|---|---|---|---|
| src/components/dashboard/RunSummaryTable/RunSummaryTable.tsx:64 | the "No results" placeholder cell has `colSpan={12}` | empty results with `columnToggle` 'all': the header has 11 cells, so the placeholder spans 12 (8 cells and 12 for 'superscript' or 'font_info') | the placeholder spans exactly the header's 5 + 3 per shown group columns | low; not executed (browsers tolerate an oversized colspan, so the effect is one extra grid column) | RunSummaryTable.PlaceholderOverhangs | RunSummaryTable.Body |
