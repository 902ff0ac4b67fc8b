/** Whole paths through the dashboard: a run is opened from a summary table, its
    detail rows arrive, a "View" button is pressed and the three-way payload
    arrives. Each path starts from a freshly mounted root component. */
module Scenarios {
  import opened Js
  import opened Types
  import opened ViewPage
  import opened App
  import opened MainContent
  import opened RunDetailsPage

  const ContentRunId: string := "2024-01-01_10-00-00"
  const IndentationRunId: string := "2024-02-02_12-30-00"

  /** A three-way payload for the given page label. */
  function PayloadFor(fileName: string, pageNum: string): ThreeWayData {
    ThreeWayData(fileName, pageNum, [], "", "", Pagination(Some(1), Some(1), None, None), None)
  }

  /** A content run: the run is clicked, its single detail row for "doc" page
      "1" arrives, and "View" opens "doc_1" on page 1 of that run; once the
      payload arrives the viewer shows it with the run's id. */
  method ContentRunToViewer(showNumber: real -> string) returns (app: AppState, request: ViewRequest)
    ensures request == ViewRequest("doc_1", Some(ContentRunId), 1)
    ensures app.fileDetailFileName == Some("doc_1") && app.fileDetailRunId == Some(ContentRunId)
    ensures app.fileDetailPageNum == 1
    ensures app.state.currentView == RunDetails
    ensures ScreenOf(app) == Viewer(PayloadFor("doc_1", "1").(runId := Some(ContentRunId)))
  {
    app := new AppState();
    HandleRunClick(app, ContentRunId);
    var row: Record := map["File_Name" := Str("doc"), "Page_Num" := Str("1"), "Table_Num" := Null];
    app.DetailRunEffect(Ok([row]));
    assert ScreenOf(app) == Details(ContentRunId);
    assert !IsIndentationDetails([row]);
    request := RowViewRequest(app.runDetailsData, 0, app.detailRunId, showNumber);
    HandleViewFileDetails(app, request.fileName, request.runId, request.page);
    app.FileDetailEffect(Ok(Some(PayloadFor("doc_1", "1"))));
  }

  /** An indentation run: the run is clicked, its detail row for table "2" of
      "doc", page "3", arrives, and "View" opens "doc_table_2_3" on page 3. */
  method IndentationRunToViewer(showNumber: real -> string) returns (app: AppState, request: ViewRequest)
    ensures request == ViewRequest("doc_table_2_3", Some(IndentationRunId), 3)
    ensures app.fileDetailFileName == Some("doc_table_2_3") && app.fileDetailPageNum == 3
    ensures app.state.currentView == RunDetails
    ensures ScreenOf(app) == Viewer(PayloadFor("doc_table_2_3", "3").(runId := Some(IndentationRunId)))
  {
    app := new AppState();
    HandleIndentationRunClick(app, IndentationRunId);
    var row: Record := map["File_Name" := Str("doc"), "Page_Num" := Str("3"), "Table_Num" := Str("2"),
                           "total_rows" := Num(12.0)];
    app.IndentationDetailEffect(Ok([row]));
    assert ScreenOf(app) == Details(IndentationRunId);
    assert "total_rows" in app.runDetailsData[0];
    IndentationIdentifierExample(Some(IndentationRunId), showNumber);
    request := RowViewRequest(app.runDetailsData, 0, app.indentationDetailRunId, showNumber);
    HandleViewFileDetails(app, request.fileName, request.runId, request.page);
    app.FileDetailEffect(Ok(Some(PayloadFor("doc_table_2_3", "3"))));
  }

  /** Going back from the content run's details shows the all-runs table again,
      and the detail rows are emptied once the cleared id is seen. */
  method ContentRunBack() returns (app: AppState)
    ensures app.detailRunId == None && app.runDetailsData == []
    ensures app.state.currentView == FinalSummary
    ensures ScreenOf(app) == Panels([AllRunsPanel])
  {
    app := new AppState();
    HandleRunClick(app, ContentRunId);
    var row: Record := map["File_Name" := Str("doc"), "Page_Num" := Str("1")];
    app.DetailRunEffect(Ok([row]));
    HandleGoBack(app);
    // The content rule re-runs on its cleared id; running the indentation rule on
    // its id, which was already None, changes nothing. Neither makes a fetch, so
    // the outcome is never read.
    app.DetailRunEffect(Failed);
    app.IndentationDetailEffect(Failed);
    app.DeriveViewEffect();
  }
}
