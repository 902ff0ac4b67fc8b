/** The sidebar (src/components/layout/Sidebar.tsx): the display-option checkboxes
    that rewrite the shared view state, and the sidebar's own state around the
    two comparison dialogs. Each awaited backend call is one step that receives
    its outcome. */
module Sidebar {
  import opened Js
  import opened Types
  import opened App

  // ---------------------------------------------------------------------------
  // Display options

  /** What a checkbox reports through `onCheckedChange`. */
  datatype CheckedState = Checked | Unchecked | Indeterminate

  /** `!!checked`: the string 'indeterminate' is truthy. */
  function IsChecked(c: CheckedState): (b: bool)
    ensures b <==> c != Unchecked
  {
    match c
    case Checked => true
    case Indeterminate => true
    case Unchecked => false
  }

  /** The five checkboxes of "Display Options". */
  datatype DisplayOption = FinalSummaryOption | IndentationResultOption | RunSummaryOption
                         | FileDiffOption | JsonResultOption

  /** The flag a checkbox shows. */
  function Flag(s: SidebarState, opt: DisplayOption): bool {
    match opt
    case FinalSummaryOption => s.showFinalSummary
    case IndentationResultOption => s.showIndentationResult
    case RunSummaryOption => s.showRunSummary
    case FileDiffOption => s.showFileDiff
    case JsonResultOption => s.showJsonResult
  }

  /** The state a checkbox hands to `onStateChange`: its own flag set to
      `!!checked`, every other flag, the view and the selections as they were. */
  function WithDisplayOption(s: SidebarState, opt: DisplayOption, checked: CheckedState): (r: SidebarState)
    ensures Flag(r, opt) == IsChecked(checked)
    ensures forall o :: o != opt ==> Flag(r, o) == Flag(s, o)
    ensures r.(showFinalSummary := s.showFinalSummary, showIndentationResult := s.showIndentationResult,
               showRunSummary := s.showRunSummary, showFileDiff := s.showFileDiff,
               showJsonResult := s.showJsonResult) == s
  {
    var b := IsChecked(checked);
    match opt
    case FinalSummaryOption => s.(showFinalSummary := b)
    case IndentationResultOption => s.(showIndentationResult := b)
    case RunSummaryOption => s.(showRunSummary := b)
    case FileDiffOption => s.(showFileDiff := b)
    case JsonResultOption => s.(showJsonResult := b)
  }

  /** The checked state that shows a flag's value. */
  function CheckedFor(b: bool): (c: CheckedState)
    ensures IsChecked(c) == b
  {
    if b then Checked else Unchecked
  }

  /** Clicking a checkbox back to the value it showed restores the state. */
  lemma DisplayOptionUndo(s: SidebarState, opt: DisplayOption, checked: CheckedState)
    ensures WithDisplayOption(WithDisplayOption(s, opt, checked), opt, CheckedFor(Flag(s, opt))) == s
  {
  }

  /** Two different checkboxes do not interfere: either order of clicks gives the same state. */
  lemma DisplayOptionsCommute(s: SidebarState, a: DisplayOption, ca: CheckedState,
                              b: DisplayOption, cb: CheckedState)
    requires a != b
    ensures WithDisplayOption(WithDisplayOption(s, a, ca), b, cb)
         == WithDisplayOption(WithDisplayOption(s, b, cb), a, ca)
  {
    match a
    case FinalSummaryOption =>
    case IndentationResultOption =>
    case RunSummaryOption =>
    case FileDiffOption =>
    case JsonResultOption =>
  }

  /** The "JSON Result" checkbox never changes which view is derived. */
  lemma JsonOptionKeepsView(s: SidebarState, checked: CheckedState)
    ensures DerivedView(WithDisplayOption(s, JsonResultOption, checked)) == DerivedView(s)
    ensures Derive(WithDisplayOption(s, JsonResultOption, checked)).currentView == Derive(s).currentView
  {
  }

  /** Switching "Indentation Result" on always derives the indentation view,
      whatever the other flags say. */
  lemma IndentationOptionWins(s: SidebarState, checked: CheckedState)
    requires checked != Unchecked
    ensures Derive(WithDisplayOption(s, IndentationResultOption, checked)).currentView == IndentationResult
  {
  }

  // ---------------------------------------------------------------------------
  // The comparison dialogs

  /** A file chosen in a file input. */
  datatype ZipFile = ZipFile(name: string)

  /** The arguments of `runNewComparison`. */
  datatype UploadRequest = UploadRequest(gtZip: ZipFile, outputZip: ZipFile)

  /** The arguments of `runS3Comparison`. */
  datatype S3Request = S3Request(gtFolder: string, outputFolder: string, changesDescription: string)

  /** The description a new S3 run starts with. */
  const DefaultDescription: string := "Run from UI"

  /** The sidebar's own `useState` slots. */
  class Sidebar {
    var isLocalUploadDialogOpen: bool
    var isS3DialogOpen: bool
    var gtZipFile: Option<ZipFile>
    var outputZipFile: Option<ZipFile>
    var isUploading: bool
    var gtFolders: seq<string>
    var outputFolders: seq<string>
    var selectedGtFolder: Option<string>
    var selectedOutputFolder: Option<string>
    var isS3Comparing: bool
    var changesDescription: string

    constructor ()
      ensures !isLocalUploadDialogOpen && !isS3DialogOpen
      ensures gtZipFile == None && outputZipFile == None && !isUploading
      ensures gtFolders == [] && outputFolders == []
      ensures selectedGtFolder == None && selectedOutputFolder == None
      ensures !isS3Comparing && changesDescription == DefaultDescription
    {
      isLocalUploadDialogOpen, isS3DialogOpen := false, false;
      gtZipFile, outputZipFile := None, None;
      isUploading := false;
      gtFolders, outputFolders := [], [];
      selectedGtFolder, selectedOutputFolder := None, None;
      isS3Comparing := false;
      changesDescription := DefaultDescription;
    }

    /** The "Run Comparison" button's `disabled`. */
    predicate RunComparisonDisabled()
      reads this
    {
      gtZipFile.None? || outputZipFile.None? || isUploading
    }

    /** The "Run S3 Comparison" button's `disabled`. */
    predicate RunS3ComparisonDisabled()
      reads this
    {
      !Present(selectedGtFolder) || !Present(selectedOutputFolder) || isS3Comparing
    }

    /** The local dialog's `onOpenChange`. */
    method LocalUploadDialogOpenChange(isOpen: bool)
      modifies this`isLocalUploadDialogOpen
      ensures isLocalUploadDialogOpen == isOpen
    {
      isLocalUploadDialogOpen := isOpen;
    }

    /** The ground-truth file input: the first chosen file, or none. */
    method ChooseGtZip(file: Option<ZipFile>)
      modifies this`gtZipFile
      ensures gtZipFile == file
    {
      gtZipFile := file;
    }

    /** The output file input. */
    method ChooseOutputZip(file: Option<ZipFile>)
      modifies this`outputZipFile
      ensures outputZipFile == file
    {
      outputZipFile := file;
    }

    /** The ground-truth folder select. */
    method SelectGtFolder(folder: string)
      modifies this`selectedGtFolder
      ensures selectedGtFolder == Some(folder)
    {
      selectedGtFolder := Some(folder);
    }

    /** The output folder select. */
    method SelectOutputFolder(folder: string)
      modifies this`selectedOutputFolder
      ensures selectedOutputFolder == Some(folder)
    {
      selectedOutputFolder := Some(folder);
    }

    /** The description input. */
    method SetChangesDescription(text: string)
      modifies this`changesDescription
      ensures changesDescription == text
    {
      changesDescription := text;
    }

    /** `handleRunComparison` up to the awaited call: nothing happens unless both
        zips are chosen; otherwise the upload starts with them, and the button
        is disabled while it runs. */
    method BeginRunComparison() returns (request: Option<UploadRequest>)
      modifies this`isUploading
      ensures request.Some? <==> old(gtZipFile).Some? && old(outputZipFile).Some?
      ensures request.Some? ==> request.value == UploadRequest(gtZipFile.value, outputZipFile.value)
      ensures request.Some? ==> isUploading && RunComparisonDisabled()
      ensures request.None? ==> isUploading == old(isUploading)
      ensures !old(RunComparisonDisabled()) ==> request.Some?
    {
      if gtZipFile.None? || outputZipFile.None? {
        return None;
      }
      isUploading := true;
      request := Some(UploadRequest(gtZipFile.value, outputZipFile.value));
    }

    /** `handleRunComparison` after the awaited call. On success the S3 dialog's
        flag is cleared, as written, not the local dialog's, and both zips are
        cleared; on failure nothing else changes. The upload ends either way. */
    method FinishRunComparison(outcome: Fetch<()>)
      modifies this`isS3DialogOpen, this`gtZipFile, this`outputZipFile, this`isUploading
      ensures !isUploading
      ensures outcome.Ok? ==> !isS3DialogOpen && gtZipFile == None && outputZipFile == None
      ensures outcome.Ok? ==> RunComparisonDisabled()
      ensures outcome.Failed? ==>
        isS3DialogOpen == old(isS3DialogOpen) && gtZipFile == old(gtZipFile) && outputZipFile == old(outputZipFile)
    {
      if outcome.Ok? {
        isS3DialogOpen := false;
        gtZipFile := None;
        outputZipFile := None;
      }
      isUploading := false;
    }

    /** The whole local handler: the upload happens exactly when both zips are
        chosen, and the local dialog's flag is never touched. */
    method RunComparison(outcome: Fetch<()>) returns (request: Option<UploadRequest>)
      modifies this`isS3DialogOpen, this`gtZipFile, this`outputZipFile, this`isUploading
      ensures request.Some? <==> old(gtZipFile).Some? && old(outputZipFile).Some?
      ensures request.Some? ==> request.value == UploadRequest(old(gtZipFile).value, old(outputZipFile).value)
      ensures request.Some? ==> !isUploading
      ensures request.Some? && outcome.Ok? ==> gtZipFile == None && outputZipFile == None && !isS3DialogOpen
      ensures request.None? || outcome.Failed? ==>
        isS3DialogOpen == old(isS3DialogOpen) && gtZipFile == old(gtZipFile) && outputZipFile == old(outputZipFile)
      ensures request.None? ==> isUploading == old(isUploading)
      ensures isLocalUploadDialogOpen == old(isLocalUploadDialogOpen)
    {
      request := BeginRunComparison();
      if request.Some? {
        FinishRunComparison(outcome);
      }
    }

    /** `handleRunS3Comparison` up to the awaited call: nothing happens unless
        both folders are chosen; otherwise the run starts with them and the
        current description. */
    method BeginRunS3Comparison() returns (request: Option<S3Request>)
      modifies this`isS3Comparing
      ensures request.Some? <==> Present(old(selectedGtFolder)) && Present(old(selectedOutputFolder))
      ensures request.Some? ==>
        request.value == S3Request(selectedGtFolder.value, selectedOutputFolder.value, changesDescription)
      ensures request.Some? ==> isS3Comparing && RunS3ComparisonDisabled()
      ensures request.None? ==> isS3Comparing == old(isS3Comparing)
      ensures !old(RunS3ComparisonDisabled()) ==> request.Some?
    {
      if !Present(selectedGtFolder) || !Present(selectedOutputFolder) {
        return None;
      }
      isS3Comparing := true;
      request := Some(S3Request(selectedGtFolder.value, selectedOutputFolder.value, changesDescription));
    }

    /** `handleRunS3Comparison` after the awaited call. On success the dialog
        closes, both folders are cleared and the description is reset; on
        failure nothing else changes. The comparison ends either way. */
    method FinishRunS3Comparison(outcome: Fetch<()>)
      modifies this`isS3DialogOpen, this`selectedGtFolder, this`selectedOutputFolder,
               this`changesDescription, this`isS3Comparing
      ensures !isS3Comparing
      ensures outcome.Ok? ==>
        && !isS3DialogOpen && selectedGtFolder == None && selectedOutputFolder == None
        && changesDescription == DefaultDescription
      ensures outcome.Ok? ==> RunS3ComparisonDisabled()
      ensures outcome.Failed? ==>
        && isS3DialogOpen == old(isS3DialogOpen) && selectedGtFolder == old(selectedGtFolder)
        && selectedOutputFolder == old(selectedOutputFolder) && changesDescription == old(changesDescription)
    {
      if outcome.Ok? {
        isS3DialogOpen := false;
        selectedGtFolder := None;
        selectedOutputFolder := None;
        changesDescription := DefaultDescription;
      }
      isS3Comparing := false;
    }

    /** The S3 dialog's `onOpenChange`: opening asks for the folder lists,
        closing clears both selections. */
    method S3DialogOpenChange(isOpen: bool) returns (loadRequested: bool)
      modifies this`isS3DialogOpen, this`selectedGtFolder, this`selectedOutputFolder
      ensures isS3DialogOpen == isOpen && loadRequested == isOpen
      ensures !isOpen ==> selectedGtFolder == None && selectedOutputFolder == None
      ensures !isOpen ==> RunS3ComparisonDisabled()
      ensures isOpen ==> selectedGtFolder == old(selectedGtFolder) && selectedOutputFolder == old(selectedOutputFolder)
    {
      isS3DialogOpen := isOpen;
      if isOpen {
        loadRequested := true;
      } else {
        selectedGtFolder := None;
        selectedOutputFolder := None;
        loadRequested := false;
      }
    }

    /** `loadS3Folders`: the ground-truth list, then, only if that succeeded, the
        output list; a failure keeps the lists already shown. */
    method LoadS3Folders(gt: Fetch<seq<string>>, output: Fetch<seq<string>>)
      modifies this`gtFolders, this`outputFolders
      ensures gtFolders == if gt.Ok? then gt.data else old(gtFolders)
      ensures outputFolders == if gt.Ok? && output.Ok? then output.data else old(outputFolders)
    {
      if gt.Ok? {
        gtFolders := gt.data;
        if output.Ok? {
          outputFolders := output.data;
        }
      }
    }
  }
}
