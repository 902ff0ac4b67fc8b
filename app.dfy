/** The application root (src/App.tsx): the view-derivation rule and the
    state the reactive fetch rules update. Each awaited fetch is one step that
    receives the fetch's outcome. */
module App {
  import opened Js
  import opened Types
  import opened ViewPage

  // ---------------------------------------------------------------------------
  // View derivation

  /** The view the derivation rule picks, first match wins; `None` when no rule
      matches and `currentView` is left as it is. */
  function DerivedView(s: SidebarState): (v: Option<View>)
    ensures v.Some? <==> s.showIndentationResult || (s.showRunSummary && Present(s.selectedRunId))
                         || (s.showFileDiff && Present(s.selectedRunId) && Present(s.selectedFileName)
                             && Present(s.selectedFileSuffix))
                         || s.showFinalSummary
    ensures v.Some? ==> v.value != RunDetails
  {
    if s.showIndentationResult then Some(IndentationResult)
    else if s.showRunSummary && Present(s.selectedRunId) then Some(RunSummary)
    else if s.showFileDiff && Present(s.selectedRunId) && Present(s.selectedFileName) && Present(s.selectedFileSuffix) then Some(FileDiff)
    else if s.showFinalSummary then Some(FinalSummary)
    else None
  }

  /** One run of the view-derivation effect: only `currentView` may change. */
  function Derive(s: SidebarState): (r: SidebarState)
    ensures r == s.(currentView := r.currentView)
    ensures s.showIndentationResult ==> r.currentView == IndentationResult
    ensures !s.showIndentationResult && s.showRunSummary && Present(s.selectedRunId) ==>
      r.currentView == RunSummary
    ensures (!s.showIndentationResult && !(s.showRunSummary && Present(s.selectedRunId)) && s.showFileDiff
             && Present(s.selectedRunId) && Present(s.selectedFileName) && Present(s.selectedFileSuffix)) ==>
      r.currentView == FileDiff
    ensures DerivedView(s).None? ==> r == s
    ensures r.currentView == RunDetails ==> s.currentView == RunDetails
  {
    match DerivedView(s)
    case Some(v) => s.(currentView := v)
    case None => s
  }

  /** The final-summary rule applies only when no rule above it does. */
  lemma DeriveFinalSummary(s: SidebarState)
    requires s.showFinalSummary && !s.showIndentationResult
    requires !(s.showRunSummary && Present(s.selectedRunId))
    requires !(s.showFileDiff && Present(s.selectedRunId) && Present(s.selectedFileName) && Present(s.selectedFileSuffix))
    ensures Derive(s).currentView == FinalSummary
  {
  }

  /** Deriving again changes nothing, so the second, identical effect is redundant. */
  lemma DeriveIdempotent(s: SidebarState)
    ensures Derive(Derive(s)) == Derive(s)
  {
    assert DerivedView(Derive(s)) == DerivedView(s);
  }

  /** The derived view depends only on the flags and selections, never on the view it replaces. */
  lemma DeriveIgnoresCurrentView(s: SidebarState, v: View)
    requires DerivedView(s).Some?
    ensures Derive(s.(currentView := v)) == Derive(s)
  {
    assert DerivedView(s.(currentView := v)) == DerivedView(s);
  }

  /** The application starts in the state the derivation rule keeps. */
  lemma InitialStateIsDerived()
    ensures Derive(InitialState()) == InitialState()
    ensures Derive(InitialState()).currentView == FinalSummary
  {
  }

  // ---------------------------------------------------------------------------
  // The root component's state

  /** The `useState` slots of the root component. */
  class AppState {
    var state: SidebarState
    var allRuns: seq<Record>
    var indentationResults: seq<Record>
    var fileResults: seq<Record>
    var fileDiff: seq<Record>
    var isLoading: bool
    var isSidebarOpen: bool
    var runDetailsData: seq<Record>
    var detailRunId: Option<string>
    var indentationDetailRunId: Option<string>
    var fileDetailData: Option<ThreeWayData>
    var fileDetailFileName: Option<string>
    var fileDetailRunId: Option<string>
    var fileDetailPageNum: int

    constructor ()
      ensures state == InitialState()
      ensures allRuns == [] && indentationResults == [] && fileResults == [] && fileDiff == []
      ensures isLoading && isSidebarOpen && runDetailsData == []
      ensures detailRunId == None && indentationDetailRunId == None
      ensures fileDetailData == None && fileDetailFileName == None && fileDetailRunId == None
      ensures fileDetailPageNum == 1
    {
      state := InitialState();
      allRuns, indentationResults, fileResults, fileDiff := [], [], [], [];
      isLoading, isSidebarOpen := true, true;
      runDetailsData := [];
      detailRunId, indentationDetailRunId := None, None;
      fileDetailData, fileDetailFileName, fileDetailRunId := None, None, None;
      fileDetailPageNum := 1;
    }

    /** One run of the view-derivation effect. */
    method DeriveViewEffect()
      modifies this`state
      ensures state == Derive(old(state))
    {
      state := Derive(state);
    }

    /** The mount-time load: the run list, then, only if that succeeded, the
        indentation summary; loading ends either way. */
    method LoadRuns(runs: Fetch<seq<Record>>, indentation: Fetch<seq<Record>>)
      modifies this`allRuns, this`indentationResults, this`isLoading
      ensures allRuns == if runs.Ok? then runs.data else old(allRuns)
      ensures indentationResults == if runs.Ok? && indentation.Ok? then indentation.data else old(indentationResults)
      ensures !isLoading
    {
      if runs.Ok? {
        allRuns := runs.data;
        if indentation.Ok? {
          indentationResults := indentation.data;
        }
      }
      isLoading := false;
    }

    /** The per-file results of the selected run: emptied when no run is selected,
        replaced on success, kept on failure. */
    method SelectedRunEffect(details: Fetch<seq<Record>>)
      modifies this`fileResults
      ensures !Present(state.selectedRunId) ==> fileResults == []
      ensures Present(state.selectedRunId) ==>
        fileResults == if details.Ok? then details.data else old(fileResults)
    {
      if !Present(state.selectedRunId) {
        fileResults := [];
        return;
      }
      if details.Ok? {
        fileResults := details.data;
      }
    }

    /** The file diff: emptied when any of run, file or suffix is missing. */
    method FileDiffEffect(diff: Fetch<seq<Record>>)
      modifies this`fileDiff
      ensures var selected := Present(state.selectedRunId) && Present(state.selectedFileName)
                              && Present(state.selectedFileSuffix);
        && (!selected ==> fileDiff == [])
        && (selected ==> fileDiff == if diff.Ok? then diff.data else old(fileDiff))
    {
      if !Present(state.selectedRunId) || !Present(state.selectedFileName) || !Present(state.selectedFileSuffix) {
        fileDiff := [];
        return;
      }
      if diff.Ok? {
        fileDiff := diff.data;
      }
    }

    /** The content-run detail rule. Cleared id: the rows are emptied and a
        `runDetails` view falls back to `finalSummary`. Set id: on success the
        rows are stored and the view becomes `runDetails`; on failure the id is
        cleared and the view becomes `finalSummary`. */
    method DetailRunEffect(details: Fetch<seq<Record>>)
      modifies this`runDetailsData, this`state, this`detailRunId
      ensures !Present(old(detailRunId)) ==>
        && runDetailsData == [] && detailRunId == old(detailRunId)
        && state == old(state).(currentView := if old(state.currentView) == RunDetails then FinalSummary else old(state.currentView))
      ensures Present(old(detailRunId)) && details.Ok? ==>
        runDetailsData == details.data && detailRunId == old(detailRunId) && state == old(state).(currentView := RunDetails)
      ensures Present(old(detailRunId)) && details.Failed? ==>
        runDetailsData == old(runDetailsData) && detailRunId == None && state == old(state).(currentView := FinalSummary)
    {
      if !Present(detailRunId) {
        runDetailsData := [];
        if state.currentView == RunDetails {
          state := state.(currentView := FinalSummary);
        }
        return;
      }
      match details
      case Ok(rows) =>
        runDetailsData := rows;
        state := state.(currentView := RunDetails);
      case Failed =>
        detailRunId := None;
        state := state.(currentView := FinalSummary);
    }

    /** The indentation-run detail rule: as `DetailRunEffect`, falling back to
        `indentationResult` instead. */
    method IndentationDetailEffect(details: Fetch<seq<Record>>)
      modifies this`runDetailsData, this`state, this`indentationDetailRunId
      ensures !Present(old(indentationDetailRunId)) ==>
        && runDetailsData == [] && indentationDetailRunId == old(indentationDetailRunId)
        && state == old(state).(currentView := if old(state.currentView) == RunDetails then IndentationResult else old(state.currentView))
      ensures Present(old(indentationDetailRunId)) && details.Ok? ==>
        && runDetailsData == details.data && indentationDetailRunId == old(indentationDetailRunId)
        && state == old(state).(currentView := RunDetails)
      ensures Present(old(indentationDetailRunId)) && details.Failed? ==>
        && runDetailsData == old(runDetailsData) && indentationDetailRunId == None
        && state == old(state).(currentView := IndentationResult)
    {
      if !Present(indentationDetailRunId) {
        runDetailsData := [];
        if state.currentView == RunDetails {
          state := state.(currentView := IndentationResult);
        }
        return;
      }
      match details
      case Ok(rows) =>
        runDetailsData := rows;
        state := state.(currentView := RunDetails);
      case Failed =>
        indentationDetailRunId := None;
        state := state.(currentView := IndentationResult);
    }

    /** The three-way fetch rule. Without both a file name and a run id the payload
        is dropped and the page reset to 1. A payload that arrives is stored; an
        empty response or a failure clears payload, file name and run id and
        resets the page (the blocking alert is not modelled). */
    method FileDetailEffect(payload: Fetch<Option<ThreeWayData>>)
      modifies this`fileDetailData, this`fileDetailFileName, this`fileDetailRunId, this`fileDetailPageNum
      ensures var target := Present(old(fileDetailFileName)) && Present(old(fileDetailRunId));
        && (!target ==>
              && fileDetailData == None && fileDetailPageNum == 1
              && fileDetailFileName == old(fileDetailFileName) && fileDetailRunId == old(fileDetailRunId))
        && (target && payload.Ok? && payload.data.Some? ==>
              && fileDetailData == payload.data
              && fileDetailFileName == old(fileDetailFileName) && fileDetailRunId == old(fileDetailRunId)
              && fileDetailPageNum == old(fileDetailPageNum))
        && (target && !(payload.Ok? && payload.data.Some?) ==>
              && fileDetailData == None && fileDetailFileName == None && fileDetailRunId == None
              && fileDetailPageNum == 1)
    {
      if !Present(fileDetailFileName) || !Present(fileDetailRunId) {
        fileDetailData := None;
        fileDetailPageNum := 1;
        return;
      }
      if payload.Ok? && payload.data.Some? {
        fileDetailData := payload.data;
      } else {
        fileDetailData := None;
        fileDetailFileName := None;
        fileDetailRunId := None;
        fileDetailPageNum := 1;
      }
    }
  }

  /** A failed three-way fetch leaves no selection behind: when the rule fires
      again on the cleared fields, it keeps everything cleared whatever that
      second fetch would have returned. */
  method FailedFileDetailSettles(app: AppState, first: Fetch<Option<ThreeWayData>>, second: Fetch<Option<ThreeWayData>>)
    requires Present(app.fileDetailFileName) && Present(app.fileDetailRunId)
    requires !(first.Ok? && first.data.Some?)
    modifies app
    ensures app.fileDetailData == None && app.fileDetailFileName == None && app.fileDetailRunId == None
    ensures app.fileDetailPageNum == 1
  {
    app.FileDetailEffect(first);
    app.FileDetailEffect(second);
  }

  /** A failed content-detail fetch settles on the all-runs view with no rows:
      the second firing, on the cleared id, empties the rows. */
  method FailedDetailSettles(app: AppState, second: Fetch<seq<Record>>)
    requires Present(app.detailRunId)
    modifies app
    ensures app.detailRunId == None && app.runDetailsData == [] && app.state.currentView == FinalSummary
  {
    app.DetailRunEffect(Failed);
    app.DetailRunEffect(second);
  }
}
