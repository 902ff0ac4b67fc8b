/** The shared view-state record of the dashboard (src/types/index.ts). */
module Types {
  import opened Js

  /** The top-level views `currentView` may name. */
  datatype View = FinalSummary | RunSummary | FileDiff | IndentationResult | RunDetails

  /** Which column groups of the run-summary table are shown. */
  datatype ColumnToggle = All | Superscript | FontInfo

  /** The view state shared by the sidebar and the main content.
      `showJsonResult` is not part of the declared TypeScript type: the sidebar's
      "JSON Result" checkbox adds it to the record, and until then it reads as
      `undefined`, that is, false. */
  datatype SidebarState = SidebarState(
    currentView: View,
    columnToggle: ColumnToggle,
    selectedRunId: Option<string>,
    selectedFileName: Option<string>,
    selectedFileSuffix: Option<string>,
    showFinalSummary: bool,
    showIndentationResult: bool,
    showRunSummary: bool,
    showFileDiff: bool,
    showJsonResult: bool)

  /** The state the application starts in. */
  function InitialState(): (s: SidebarState)
    ensures s.currentView == FinalSummary && s.columnToggle == All
    ensures s.selectedRunId == None && s.selectedFileName == None && s.selectedFileSuffix == None
    ensures s.showFinalSummary && !s.showIndentationResult && !s.showRunSummary && !s.showFileDiff
    ensures !s.showJsonResult
  {
    SidebarState(FinalSummary, All, None, None, None, true, false, false, false, false)
  }
}
