/** The main content area (src/components/layout/MainContent.tsx): which screen
    is rendered, and the handlers that rewrite the root component's selection. */
module MainContent {
  import opened Js
  import opened Types
  import opened ViewPage
  import opened App

  /** The summary panels, in the order the content area lists them. */
  datatype Panel = AllRunsPanel | RunSummaryPanel | IndentationPanel | FileDiffPanel

  /** What the content area renders. */
  datatype Screen =
    | Viewer(data: ThreeWayData)
    | Details(runId: string)
    | Panels(shown: seq<Panel>)

  /** The summary panels whose guards hold. Each guard asks `currentView` to name
      its panel, so at most one renders. */
  function SummaryPanels(s: SidebarState): (r: seq<Panel>)
    ensures |r| <= 1
    ensures AllRunsPanel in r <==> s.currentView == FinalSummary && s.showFinalSummary
    ensures RunSummaryPanel in r <==> s.currentView == RunSummary && Present(s.selectedRunId) && s.showRunSummary
    ensures IndentationPanel in r <==> s.currentView == IndentationResult && s.showIndentationResult
    ensures FileDiffPanel in r <==>
      && s.currentView == FileDiff && Present(s.selectedRunId) && Present(s.selectedFileName)
      && Present(s.selectedFileSuffix) && s.showFileDiff
  {
    (if s.currentView == FinalSummary && s.showFinalSummary then [AllRunsPanel] else [])
    + (if s.currentView == RunSummary && Present(s.selectedRunId) && s.showRunSummary then [RunSummaryPanel] else [])
    + (if s.currentView == IndentationResult && s.showIndentationResult then [IndentationPanel] else [])
    + (if s.currentView == FileDiff && Present(s.selectedRunId) && Present(s.selectedFileName)
          && Present(s.selectedFileSuffix) && s.showFileDiff then [FileDiffPanel] else [])
  }

  /** Render selection: a payload renders the viewer, with `Run_Id` overridden by
      `fileDetailRunId`; otherwise a detail id renders the run-details page, the
      content-run id first; otherwise the summary panels. */
  function Render(s: SidebarState, detailRunId: Option<string>, indentationDetailRunId: Option<string>,
                  fileDetailData: Option<ThreeWayData>, fileDetailRunId: Option<string>): (r: Screen)
    ensures fileDetailData.Some? ==>
      r.Viewer? && r.data.runId == fileDetailRunId && r.data == fileDetailData.value.(runId := r.data.runId)
    ensures fileDetailData.None? && Present(detailRunId) ==> r == Details(detailRunId.value)
    ensures fileDetailData.None? && !Present(detailRunId) && Present(indentationDetailRunId) ==>
      r == Details(indentationDetailRunId.value)
    ensures r.Details? ==> r.runId != ""
    ensures fileDetailData.None? && !Present(detailRunId) && !Present(indentationDetailRunId) ==>
      r == Panels(SummaryPanels(s))
  {
    if fileDetailData.Some? then
      Viewer(fileDetailData.value.(runId := fileDetailRunId))
    else if Present(detailRunId) || Present(indentationDetailRunId) then
      Details(if Present(detailRunId) then detailRunId.value else indentationDetailRunId.value)
    else
      Panels(SummaryPanels(s))
  }

  /** The screen the root component's current state renders. */
  function ScreenOf(app: AppState): Screen reads app {
    Render(app.state, app.detailRunId, app.indentationDetailRunId, app.fileDetailData, app.fileDetailRunId)
  }

  /** Once the derivation rule has run, the panel it chose is the one that renders;
      when no rule matched, the panels follow the view that was left in place. */
  lemma {:induction false} DerivedViewRenders(s: SidebarState)
    ensures var d := Derive(s);
      && (s.showIndentationResult ==> SummaryPanels(d) == [IndentationPanel])
      && (!s.showIndentationResult && s.showRunSummary && Present(s.selectedRunId) ==>
            SummaryPanels(d) == [RunSummaryPanel])
      && ((!s.showIndentationResult && !(s.showRunSummary && Present(s.selectedRunId)) && s.showFileDiff
           && Present(s.selectedRunId) && Present(s.selectedFileName) && Present(s.selectedFileSuffix)) ==>
            SummaryPanels(d) == [FileDiffPanel])
      && (DerivedView(s) == Some(FinalSummary) ==> SummaryPanels(d) == [AllRunsPanel])
      && (DerivedView(s).None? ==> SummaryPanels(d) == SummaryPanels(s))
  {
    var d := Derive(s);
    match DerivedView(s)
    case Some(v) =>
      assert d == s.(currentView := v);
    case None =>
      assert d == s;
  }

  /** With every flag off, nothing renders in the empty content area. */
  lemma NoFlagNoPanel(s: SidebarState)
    requires !s.showFinalSummary && !s.showIndentationResult && !s.showRunSummary && !s.showFileDiff
    ensures Render(Derive(s), None, None, None, None) == Panels([])
  {
  }

  // ---------------------------------------------------------------------------
  // Handlers

  /** The view state after `handleGoBack`: exactly one of the two summaries is
      switched on, `finalSummary` when a content run was open and
      `indentationResult` otherwise, and `currentView` names it. */
  function GoBackState(s: SidebarState, detailRunId: Option<string>): (r: SidebarState)
    ensures r.showFinalSummary != r.showIndentationResult
    ensures r.showFinalSummary <==> Present(detailRunId)
    ensures r.currentView == (if r.showFinalSummary then FinalSummary else IndentationResult)
    ensures r.(showFinalSummary := s.showFinalSummary, showIndentationResult := s.showIndentationResult,
               currentView := s.currentView) == s
  {
    var toFinal := Present(detailRunId);
    s.(showFinalSummary := toFinal, showIndentationResult := !toFinal,
       currentView := if toFinal then FinalSummary else IndentationResult)
  }

  /** Going back from an indentation run always shows the indentation summary.
      Going back from a content run shows the all-runs table unless the
      run-summary or file-diff rule outranks it once the view is re-derived. */
  lemma {:induction false} GoBackRenders(s: SidebarState, detailRunId: Option<string>)
    ensures var back := Derive(GoBackState(s, detailRunId));
      && (!Present(detailRunId) ==> Render(back, None, None, None, None) == Panels([IndentationPanel]))
      && (Present(detailRunId) && !(s.showRunSummary && Present(s.selectedRunId))
          && !(s.showFileDiff && Present(s.selectedRunId) && Present(s.selectedFileName) && Present(s.selectedFileSuffix)) ==>
            Render(back, None, None, None, None) == Panels([AllRunsPanel]))
  {
    var g := GoBackState(s, detailRunId);
    DerivedViewRenders(g);
  }

  /** A row of the all-runs table was clicked. */
  method HandleRunClick(app: AppState, runId: string)
    modifies app`detailRunId
    ensures app.detailRunId == Some(runId)
  {
    app.detailRunId := Some(runId);
  }

  /** A row of the indentation summary was clicked. */
  method HandleIndentationRunClick(app: AppState, runId: string)
    modifies app`indentationDetailRunId
    ensures app.indentationDetailRunId == Some(runId)
  {
    app.indentationDetailRunId := Some(runId);
  }

  /** `handleGoBack`: both detail ids cleared, the view state as `GoBackState` says. */
  method HandleGoBack(app: AppState)
    modifies app`detailRunId, app`indentationDetailRunId, app`state
    ensures app.detailRunId == None && app.indentationDetailRunId == None
    ensures app.state == GoBackState(old(app.state), old(app.detailRunId))
  {
    var targetFinal := Present(app.detailRunId);
    app.detailRunId := None;
    app.indentationDetailRunId := None;
    app.state := app.state.(showFinalSummary := targetFinal, showIndentationResult := !targetFinal,
                            currentView := if targetFinal then FinalSummary else IndentationResult);
  }

  /** The viewer's `onPageChange`: only the page changes. */
  method HandlePageChange(app: AppState, newPage: int)
    modifies app`fileDetailPageNum
    ensures app.fileDetailPageNum == newPage
  {
    app.fileDetailPageNum := newPage;
  }

  /** The viewer's `onClose`: payload, file name and run id cleared, page back to 1. */
  method HandleViewerClose(app: AppState)
    modifies app`fileDetailData, app`fileDetailFileName, app`fileDetailRunId, app`fileDetailPageNum
    ensures app.fileDetailData == None && app.fileDetailFileName == None && app.fileDetailRunId == None
    ensures app.fileDetailPageNum == 1
  {
    app.fileDetailData := None;
    app.fileDetailFileName := None;
    app.fileDetailRunId := None;
    app.fileDetailPageNum := 1;
  }

  /** `handleViewFileDetails`: the three-way target is exactly the arguments. */
  method HandleViewFileDetails(app: AppState, fileName: string, runId: Option<string>, pageNum: int)
    modifies app`fileDetailFileName, app`fileDetailRunId, app`fileDetailPageNum
    ensures app.fileDetailFileName == Some(fileName) && app.fileDetailRunId == runId
    ensures app.fileDetailPageNum == pageNum
  {
    app.fileDetailFileName := Some(fileName);
    app.fileDetailRunId := runId;
    app.fileDetailPageNum := pageNum;
  }

  /** Closing the viewer and letting the three-way rule fire leaves the screen
      of whatever detail or summary was underneath. */
  method CloseViewerShowsUnderlying(app: AppState, payload: Fetch<Option<ThreeWayData>>)
    modifies app
    ensures ScreenOf(app) == Render(old(app.state), old(app.detailRunId), old(app.indentationDetailRunId), None, None)
  {
    HandleViewerClose(app);
    app.FileDetailEffect(payload);
  }
}
