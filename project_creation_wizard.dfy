/** The project-creation wizard: the draft it collects over its two steps, the merge of each
    step's values into it, and what happens once the backend has created the project (a
    file upload in three calls, or a YouTube registration). Backend calls are not run: each
    is an event in the returned trace, and whether it succeeds is a parameter. */
module ProjectCreationWizard {
  import opened Wrappers
  import opened ModalTypes
  import opened UiStore
  import opened UploadProgress
  import AutoDubbingSettings

  function InitialDraft(): (d: ProjectCreationDraft)
    ensures d.sourceType == FileSource && d.youtubeUrl.None? && d.file.None?
    ensures d.fileName.None? && d.fileSize.None?
    ensures d.title == "" && d.detectAutomatically && d.sourceLanguage == "한국어"
    ensures d.targetLanguages == [] && d.speakerCount == 2
  {
    ProjectCreationDraft(FileSource, None, None, None, None, "", true, "한국어", [], 2)
  }

  /** The source step's values replace the source part of the draft: the fields of the other
      mode are cleared, and in file mode the name and size of the earlier file are kept
      when no new file was chosen. */
  function MergeSource(prev: ProjectCreationDraft, values: SourceSelectionResult): (d: ProjectCreationDraft)
    ensures d.sourceType == values.mode
    ensures d.youtubeUrl == (if values.mode == YoutubeSource then values.youtubeUrl else None)
    ensures d.file == (if values.mode == FileSource then values.file else None)
    ensures values.mode == YoutubeSource ==> d.fileName.None? && d.fileSize.None?
    ensures values.mode == FileSource && values.file.Some? ==>
      d.fileName == Some(values.file.value.name) && d.fileSize == Some(values.file.value.size)
    ensures values.mode == FileSource && values.file.None? ==>
      d.fileName == prev.fileName && d.fileSize == prev.fileSize
    ensures SettingsPart(d) == SettingsPart(prev)
  {
    var isFile := values.mode == FileSource;
    prev.(
      sourceType := values.mode,
      youtubeUrl := if isFile then None else values.youtubeUrl,
      file := if isFile then values.file else None,
      fileName := if !isFile then None else if values.file.Some? then Some(values.file.value.name) else prev.fileName,
      fileSize := if !isFile then None else if values.file.Some? then Some(values.file.value.size) else prev.fileSize)
  }

  /** The settings step's values, as the draft holds them. */
  function SettingsPart(d: ProjectCreationDraft): AutoDubbingSettings.AutoDubbingSettingsValues {
    AutoDubbingSettings.AutoDubbingSettingsValues(d.title, d.detectAutomatically, d.sourceLanguage, d.targetLanguages, d.speakerCount)
  }

  /** The source part of the draft. */
  function SourcePart(d: ProjectCreationDraft): (SourceMode, Option<string>, Option<FileHandle>, Option<string>, Option<nat>) {
    (d.sourceType, d.youtubeUrl, d.file, d.fileName, d.fileSize)
  }

  /** The settings step's values replace the settings part and keep the source part. */
  function MergeDetails(prev: ProjectCreationDraft, values: AutoDubbingSettings.AutoDubbingSettingsValues): (d: ProjectCreationDraft)
    ensures SettingsPart(d) == values
    ensures SourcePart(d) == SourcePart(prev)
  {
    prev.(
      title := values.title,
      detectAutomatically := values.detectAutomatically,
      sourceLanguage := values.sourceLanguage,
      targetLanguages := values.targetLanguages,
      speakerCount := values.speakerCount)
  }

  /** The two steps write disjoint parts of the draft, so their order does not matter. */
  lemma MergesCommute(prev: ProjectCreationDraft, s: SourceSelectionResult, v: AutoDubbingSettings.AutoDubbingSettingsValues)
    ensures MergeSource(MergeDetails(prev, v), s) == MergeDetails(MergeSource(prev, s), v)
  {
  }

  /** What the wizard does once the project exists. */
  datatype FollowUp = UploadFile(file: FileHandle) | RegisterYoutube | NoFollowUp

  function FollowUpFor(d: ProjectCreationDraft): (r: FollowUp)
    ensures r.UploadFile? <==> d.sourceType == FileSource && d.file.Some?
    ensures r.UploadFile? ==> r.file == d.file.value
    ensures r.RegisterYoutube? <==> d.sourceType == YoutubeSource
  {
    match d.sourceType
    case FileSource => if d.file.Some? then UploadFile(d.file.value) else NoFollowUp
    case YoutubeSource => RegisterYoutube
  }

  /** Coming back to the source step and submitting it with only the earlier file (none
      chosen anew) leaves the draft without a file: the project is then created and
      nothing is uploaded. */
  lemma EarlierFileIsNotUploaded(prev: ProjectCreationDraft, s: SourceSelectionResult, v: AutoDubbingSettings.AutoDubbingSettingsValues)
    requires s.mode == FileSource && s.file.None?
    ensures FollowUpFor(MergeDetails(MergeSource(prev, s), v)) == NoFollowUp
    ensures MergeSource(prev, s).fileName == prev.fileName
  {
  }

  /** The line that stands for the earlier upload in the source step: none without a file
      name, otherwise the name and the size in megabytes (`0` when the size is unknown). */
  function RecentUploadSummary(d: ProjectCreationDraft): (r: Option<string>)
    ensures r.None? <==> d.fileName.None? || d.fileName.value == ""
    ensures r.Some? && d.fileSize.Some? && d.fileSize.value != 0 ==>
      r.value == d.fileName.value + " • " + MegabytesLabel(d.fileSize.value) + "MB"
    ensures r.Some? && (d.fileSize.None? || d.fileSize.value == 0) ==>
      r.value == d.fileName.value + " • 0MB"
  {
    if d.fileName.None? || d.fileName.value == "" then None
    else
      var sizeMb := if d.fileSize.Some? && d.fileSize.value != 0 then MegabytesLabel(d.fileSize.value) else "0";
      Some(d.fileName.value + " • " + sizeMb + "MB")
  }

  const CreateSuccessToast := ToastPayload("example-create-success", Some("프로젝트 생성 완료"), None, None, Some(2500))
  const FileUploadErrorToast :=
    ToastPayload("example-create-error", Some("프로젝트 생성 실패"), Some("업로드 중 오류가 발생했습니다."), None, None)
  const YoutubeErrorToast :=
    ToastPayload("example-create-error", Some("프로젝트 생성 실패"), Some("YouTube 링크를 다시 확인한 뒤 재시도해주세요."), None, None)
  const FileUploadErrorMessage := "파일 업로드에 실패했습니다. 잠시 후 다시 시도해주세요."
  const YoutubeErrorMessage := "YouTube 소스 등록에 실패했습니다."
  const YoutubeCheckingMessage := "YouTube 링크 확인 중..."
  const YoutubeLoadingMessage := "YouTube 콘텐츠를 불러오는 중..."

  /** The MIME type sent when preparing an upload, with a generic fallback. */
  function ContentType(file: FileHandle): (t: string)
    ensures t != ""
    ensures file.mimeType != "" ==> t == file.mimeType
  {
    if file.mimeType == "" then "application/octet-stream" else file.mimeType
  }

  /** What the wizard does that can be seen from outside: backend requests, progress shown,
      toasts, the start of tracking, and the scheduled close. */
  datatype WizardEvent =
    | ProjectCreateRequested(draft: ProjectCreationDraft)
    | PrepareUploadRequested(projectId: string, fileName: string, contentType: string)
    | FileTransferRequested(file: FileHandle)
    | FinalizeUploadRequested(projectId: string)
    | YoutubeRegistrationRequested(projectId: string, youtubeUrl: Option<string>)
    | ProgressShown(state: UploadProgressState)
    | ToastShown(toast: ToastPayload)
    | TrackingStarted(projectId: string)
    | FinishScheduled

  /** The three checkpoints of a file upload: stage and progress before each call. */
  const FileCheckpoints: seq<(UploadStage, int)> := [(Preparing, 10), (Uploading, 35), (Finalizing, 85)]

  function CheckpointState(k: nat): UploadProgressState
    requires k < 3
  {
    ProgressAt(FileCheckpoints[k].0, FileCheckpoints[k].1, None)
  }

  function FileRequest(k: nat, projectId: string, file: FileHandle): WizardEvent
    requires k < 3
  {
    if k == 0 then PrepareUploadRequested(projectId, file.name, ContentType(file))
    else if k == 1 then FileTransferRequested(file)
    else FinalizeUploadRequested(projectId)
  }

  /** The first `n` checkpoints, each shown and followed by its call. */
  function CheckpointEvents(n: nat, projectId: string, file: FileHandle): (es: seq<WizardEvent>)
    requires n <= 3
    ensures |es| == 2 * n
  {
    if n == 0 then []
    else CheckpointEvents(n - 1, projectId, file) + [ProgressShown(CheckpointState(n - 1)), FileRequest(n - 1, projectId, file)]
  }

  /** How many of the three calls succeed before the first failure. */
  function CallsSucceeded(prepareOk: bool, transferOk: bool, finalizeOk: bool): (n: nat)
    ensures n <= 3
    ensures n == 3 <==> prepareOk && transferOk && finalizeOk
  {
    if !prepareOk then 0 else if !transferOk then 1 else if !finalizeOk then 2 else 3
  }

  /** The trace of a file upload: every call is preceded by its checkpoint and made only
      after the previous one succeeded; all three succeeding end in `done` at 100 and the
      scheduled close, the first failure in the error state and the error toast. */
  function FileUploadTrace(projectId: string, file: FileHandle, prepareOk: bool, transferOk: bool, finalizeOk: bool): seq<WizardEvent> {
    var n := CallsSucceeded(prepareOk, transferOk, finalizeOk);
    if n == 3 then
      CheckpointEvents(3, projectId, file) + [ProgressShown(ProgressAt(Done, 100, None)), FinishScheduled]
    else
      CheckpointEvents(n + 1, projectId, file) +
      [ProgressShown(ErrorState(CheckpointState(n), Some(FileUploadErrorMessage))), ToastShown(FileUploadErrorToast)]
  }

  /** The trace of a YouTube registration: the check message at 1, the request, then the
      loading message at 5 or the error state and toast. */
  function YoutubeRegistrationTrace(projectId: string, youtubeUrl: Option<string>, registerOk: bool): seq<WizardEvent> {
    var checking := ProgressAt(Processing, 1, Some(YoutubeCheckingMessage));
    [ProgressShown(checking), YoutubeRegistrationRequested(projectId, youtubeUrl)] +
    if registerOk then [ProgressShown(ProgressAt(Processing, 5, Some(YoutubeLoadingMessage)))]
    else [ProgressShown(ErrorState(checking, Some(YoutubeErrorMessage))), ToastShown(YoutubeErrorToast)]
  }

  /** The progress values a trace shows, in order. */
  function ShownProgress(es: seq<WizardEvent>): seq<int> {
    if es == [] then []
    else (if es[0].ProgressShown? then [es[0].state.progress] else []) + ShownProgress(es[1..])
  }

  lemma ShownProgressOfPair(x: WizardEvent, y: WizardEvent)
    ensures ShownProgress([x, y]) ==
      (if x.ProgressShown? then [x.state.progress] else []) + (if y.ProgressShown? then [y.state.progress] else [])
  {
    assert [x, y][1..] == [y];
    assert [y][1..] == [];
    assert ShownProgress([y]) == (if y.ProgressShown? then [y.state.progress] else []) + ShownProgress([]);
  }

  lemma {:induction false} ShownProgressConcat(a: seq<WizardEvent>, b: seq<WizardEvent>)
    ensures ShownProgress(a + b) == ShownProgress(a) + ShownProgress(b)
  {
    if a == [] {
      assert a + b == b;
    } else {
      assert (a + b)[0] == a[0];
      assert (a + b)[1..] == a[1..] + b;
      ShownProgressConcat(a[1..], b);
    }
  }

  predicate NonDecreasing(xs: seq<int>) {
    forall i, j :: 0 <= i < j < |xs| ==> xs[i] <= xs[j]
  }

  lemma CheckpointProgress(n: nat, projectId: string, file: FileHandle)
    requires n <= 3
    ensures ShownProgress(CheckpointEvents(n, projectId, file)) == [10, 35, 85][..n]
  {
    if n > 0 {
      CheckpointProgress(n - 1, projectId, file);
      var pre := CheckpointEvents(n - 1, projectId, file);
      var last := [ProgressShown(CheckpointState(n - 1)), FileRequest(n - 1, projectId, file)];
      ShownProgressConcat(pre, last);
      ShownProgressOfPair(last[0], last[1]);
      assert [10, 35, 85][..n] == [10, 35, 85][..n - 1] + [[10, 35, 85][n - 1]];
    }
  }

  /** The progress a file upload shows when `n` calls succeed: 10, 35, 85 and 100 when all
      do; otherwise up to the checkpoint of the failed call, which the error state repeats. */
  function ExpectedFileProgress(n: nat): seq<int>
    requires n <= 3
  {
    if n == 3 then [10, 35, 85, 100] else [10, 35, 85][..n + 1] + [[10, 35, 85][n]]
  }

  lemma FileUploadProgress(projectId: string, file: FileHandle, prepareOk: bool, transferOk: bool, finalizeOk: bool)
    ensures ShownProgress(FileUploadTrace(projectId, file, prepareOk, transferOk, finalizeOk)) ==
      ExpectedFileProgress(CallsSucceeded(prepareOk, transferOk, finalizeOk))
  {
    var n := CallsSucceeded(prepareOk, transferOk, finalizeOk);
    var m := if n == 3 then 3 else n + 1;
    var tail := if n == 3 then [ProgressShown(ProgressAt(Done, 100, None)), FinishScheduled]
      else [ProgressShown(ErrorState(CheckpointState(n), Some(FileUploadErrorMessage))), ToastShown(FileUploadErrorToast)];
    assert FileUploadTrace(projectId, file, prepareOk, transferOk, finalizeOk) == CheckpointEvents(m, projectId, file) + tail;
    CheckpointProgress(m, projectId, file);
    ShownProgressConcat(CheckpointEvents(m, projectId, file), tail);
    ShownProgressOfPair(tail[0], tail[1]);
  }

  /** The shown progress never goes down. */
  lemma ExpectedFileProgressNonDecreasing(n: nat)
    requires n <= 3
    ensures NonDecreasing(ExpectedFileProgress(n))
  {
    if n == 0 {
      assert ExpectedFileProgress(n) == [10, 10];
    } else if n == 1 {
      assert ExpectedFileProgress(n) == [10, 35, 35];
    } else if n == 2 {
      assert ExpectedFileProgress(n) == [10, 35, 85, 85];
    }
  }

  lemma {:induction false} CheckpointEventsAreRequestsAndProgress(n: nat, projectId: string, file: FileHandle)
    requires n <= 3
    ensures forall e :: e in CheckpointEvents(n, projectId, file) ==> e.ProgressShown? || e.PrepareUploadRequested? || e.FileTransferRequested? || e.FinalizeUploadRequested?
    ensures FinalizeUploadRequested(projectId) in CheckpointEvents(n, projectId, file) <==> n == 3
  {
    if n > 0 {
      CheckpointEventsAreRequestsAndProgress(n - 1, projectId, file);
    }
  }

  /** The close is scheduled exactly when all three calls succeed, and the error toast is
      shown exactly when one fails; finalizing is requested only after the other two calls
      succeeded. */
  lemma FileUploadOutcome(projectId: string, file: FileHandle, prepareOk: bool, transferOk: bool, finalizeOk: bool)
    ensures FinishScheduled in FileUploadTrace(projectId, file, prepareOk, transferOk, finalizeOk) <==>
      prepareOk && transferOk && finalizeOk
    ensures ToastShown(FileUploadErrorToast) in FileUploadTrace(projectId, file, prepareOk, transferOk, finalizeOk) <==>
      !(prepareOk && transferOk && finalizeOk)
    ensures FinalizeUploadRequested(projectId) in FileUploadTrace(projectId, file, prepareOk, transferOk, finalizeOk) ==>
      prepareOk && transferOk
  {
    var n := CallsSucceeded(prepareOk, transferOk, finalizeOk);
    CheckpointEventsAreRequestsAndProgress(if n == 3 then 3 else n + 1, projectId, file);
  }

  /** The wizard hook's state: the draft, with the UI store and the progress tracker it uses. */
  class Wizard {
    var draft: ProjectCreationDraft
    const ui: UiStore
    const tracker: UploadProgressController

    ghost predicate Valid()
      reads this, tracker
    {
      tracker.Valid()
    }

    constructor(ui: UiStore, tracker: UploadProgressController)
      requires tracker.Valid()
      ensures Valid()
      ensures this.ui == ui && this.tracker == tracker
      ensures draft == InitialDraft()
    {
      this.ui := ui;
      this.tracker := tracker;
      draft := InitialDraft();
    }

    predicate IsSourceStep()
      reads ui
    {
      ui.projectCreation.step == Source
    }

    predicate IsDetailsStep()
      reads ui
    {
      ui.projectCreation.step == Details
    }

    /** The effects on a change of the store's open flag: closing resets the draft; the
        tracker follows the flag. */
    method SyncOpenFlag()
      requires Valid()
      modifies this`draft, tracker
      ensures Valid()
      ensures !ui.projectCreation.open ==> draft == InitialDraft()
      ensures ui.projectCreation.open ==> draft == old(draft)
      ensures tracker.projectCreationOpen == ui.projectCreation.open
      ensures !ui.projectCreation.open ==> tracker.subscription.None?
      ensures !ui.projectCreation.open && old(tracker.projectCreationOpen) ==>
        tracker.uploadProgress == InitialUploadProgressState && tracker.activeProjectId.None?
      ensures ui.projectCreation.open == old(tracker.projectCreationOpen) ==>
        tracker.uploadProgress == old(tracker.uploadProgress) && tracker.activeProjectId == old(tracker.activeProjectId) &&
        tracker.subscription == old(tracker.subscription)
      ensures ui.projectCreation.open && !old(tracker.projectCreationOpen) ==>
        tracker.uploadProgress == old(tracker.uploadProgress) && tracker.activeProjectId == old(tracker.activeProjectId) &&
        tracker.subscription == (if tracker.Live() then tracker.activeProjectId else None)
    {
      if !ui.projectCreation.open {
        draft := InitialDraft();
      }
      tracker.SetProjectCreationOpen(ui.projectCreation.open);
    }

    /** The source step's submit: merge its values and move to the details step. */
    method HandleSourceSubmit(values: SourceSelectionResult)
      modifies this`draft, ui`projectCreation
      ensures draft == MergeSource(old(draft), values)
      ensures ui.projectCreation == ProjectCreationState(old(ui.projectCreation).open, Details)
      ensures ui.activeToast == old(ui.activeToast)
    {
      draft := MergeSource(draft, values);
      ui.SetProjectCreationStep(Details);
    }

    method HandleBackToSource()
      modifies ui`projectCreation
      ensures ui.projectCreation == ProjectCreationState(old(ui.projectCreation).open, Source)
      ensures ui.activeToast == old(ui.activeToast)
    {
      ui.SetProjectCreationStep(Source);
    }

    /** The upload of the chosen file, one call after the other. */
    method HandleFileUpload(projectId: string, file: FileHandle, prepareOk: bool, transferOk: bool, finalizeOk: bool)
      returns (events: seq<WizardEvent>)
      requires Valid()
      modifies tracker`uploadProgress, ui`activeToast
      ensures Valid()
      ensures events == FileUploadTrace(projectId, file, prepareOk, transferOk, finalizeOk)
      ensures ProgressShown(tracker.uploadProgress) == events[|events| - 2]
      ensures prepareOk && transferOk && finalizeOk ==> ui.activeToast == old(ui.activeToast)
      ensures !(prepareOk && transferOk && finalizeOk) ==> ui.activeToast == Some(FileUploadErrorToast)
    {
      tracker.UpdateProgress(Preparing, 10, None);
      events := [ProgressShown(tracker.uploadProgress), PrepareUploadRequested(projectId, file.name, ContentType(file))];
      assert events == CheckpointEvents(1, projectId, file);
      if prepareOk {
        tracker.UpdateProgress(Uploading, 35, None);
        events := events + [ProgressShown(tracker.uploadProgress), FileTransferRequested(file)];
        assert events == CheckpointEvents(2, projectId, file);
        if transferOk {
          tracker.UpdateProgress(Finalizing, 85, None);
          events := events + [ProgressShown(tracker.uploadProgress), FinalizeUploadRequested(projectId)];
          assert events == CheckpointEvents(3, projectId, file);
          if finalizeOk {
            tracker.UpdateProgress(Done, 100, None);
            events := events + [ProgressShown(tracker.uploadProgress), FinishScheduled];
            return;
          }
        }
      }
      tracker.HandleProgressError(Some(FileUploadErrorMessage));
      ui.ShowToast(FileUploadErrorToast);
      events := events + [ProgressShown(tracker.uploadProgress), ToastShown(FileUploadErrorToast)];
    }

    /** The registration of the YouTube link. */
    method HandleRegisterYoutube(projectId: string, youtubeUrl: Option<string>, registerOk: bool)
      returns (events: seq<WizardEvent>)
      requires Valid()
      modifies tracker`uploadProgress, ui`activeToast
      ensures Valid()
      ensures events == YoutubeRegistrationTrace(projectId, youtubeUrl, registerOk)
      ensures registerOk ==> ui.activeToast == old(ui.activeToast)
      ensures !registerOk ==> ui.activeToast == Some(YoutubeErrorToast)
      ensures tracker.uploadProgress.stage == (if registerOk then Processing else Error)
      ensures tracker.uploadProgress.progress == (if registerOk then 5 else 1)
      ensures ProgressShown(tracker.uploadProgress) == (if registerOk then events[|events| - 1] else events[|events| - 2])
    {
      tracker.UpdateProgress(Processing, 1, Some(YoutubeCheckingMessage));
      events := [ProgressShown(tracker.uploadProgress), YoutubeRegistrationRequested(projectId, youtubeUrl)];
      if registerOk {
        tracker.UpdateProgress(Processing, 5, Some(YoutubeLoadingMessage));
        events := events + [ProgressShown(tracker.uploadProgress)];
      } else {
        tracker.HandleProgressError(Some(YoutubeErrorMessage));
        ui.ShowToast(YoutubeErrorToast);
        events := events + [ProgressShown(tracker.uploadProgress), ToastShown(YoutubeErrorToast)];
      }
    }

    /** The settings step's submit: merge its values, request the project, and once the
        backend returns its id (`createdId`), upload the file or register the link. A failed
        creation (`createdId == None`) has no handler and changes nothing more. */
    method HandleDetailsSubmit(values: AutoDubbingSettings.AutoDubbingSettingsValues, createdId: Option<string>,
                               prepareOk: bool, transferOk: bool, finalizeOk: bool, registerOk: bool)
      returns (events: seq<WizardEvent>)
      requires Valid()
      modifies this`draft, tracker`uploadProgress, tracker`activeProjectId, tracker`subscription, ui`activeToast
      ensures Valid()
      ensures draft == MergeDetails(old(draft), values)
      ensures createdId.None? ==> events == [ProjectCreateRequested(draft)]
      ensures createdId.Some? && FollowUpFor(draft) == NoFollowUp ==> events == [ProjectCreateRequested(draft)]
      ensures createdId.Some? && FollowUpFor(draft).UploadFile? ==>
        events == [ProjectCreateRequested(draft)] +
          FileUploadTrace(createdId.value, FollowUpFor(draft).file, prepareOk, transferOk, finalizeOk)
      ensures createdId.Some? && FollowUpFor(draft).RegisterYoutube? ==>
        events == [ProjectCreateRequested(draft), TrackingStarted(createdId.value)] +
          YoutubeRegistrationTrace(createdId.value, draft.youtubeUrl, registerOk)
      ensures createdId.None? || FollowUpFor(draft).NoFollowUp? ==>
        tracker.uploadProgress == old(tracker.uploadProgress) && tracker.activeProjectId == old(tracker.activeProjectId) &&
        tracker.subscription == old(tracker.subscription) && ui.activeToast == old(ui.activeToast)
      ensures createdId.Some? && FollowUpFor(draft).UploadFile? ==>
        tracker.activeProjectId == old(tracker.activeProjectId) && tracker.subscription == old(tracker.subscription) &&
        ProgressShown(tracker.uploadProgress) == events[|events| - 2] &&
        ui.activeToast == (if prepareOk && transferOk && finalizeOk then old(ui.activeToast) else Some(FileUploadErrorToast))
      ensures createdId.Some? && FollowUpFor(draft).RegisterYoutube? ==>
        tracker.activeProjectId == createdId &&
        tracker.subscription == (if old(tracker.activeProjectId) == createdId then old(tracker.subscription)
                                 else if tracker.Live() then createdId else None) &&
        ProgressShown(tracker.uploadProgress) == (if registerOk then events[|events| - 1] else events[|events| - 2]) &&
        ui.activeToast == (if registerOk then old(ui.activeToast) else Some(YoutubeErrorToast))
    {
      draft := MergeDetails(draft, values);
      events := [ProjectCreateRequested(draft)];
      if createdId.None? {
        return;
      }
      var projectId := createdId.value;
      match FollowUpFor(draft)
      case NoFollowUp =>
      case UploadFile(file) =>
        var more := HandleFileUpload(projectId, file, prepareOk, transferOk, finalizeOk);
        events := events + more;
      case RegisterYoutube =>
        tracker.StartTrackingProject(projectId);
        events := events + [TrackingStarted(projectId)];
        var more := HandleRegisterYoutube(projectId, draft.youtubeUrl, registerOk);
        events := events + more;
    }

    /** The delayed close after success: close the wizard, show the success toast, and run
        the close effects. */
    method FinishCreation()
      requires Valid()
      modifies this`draft, tracker, ui
      ensures Valid()
      ensures ui.projectCreation == ClosedProjectCreation
      ensures ui.activeToast == Some(CreateSuccessToast)
      ensures draft == InitialDraft()
      ensures !tracker.projectCreationOpen && tracker.subscription.None?
      ensures old(tracker.projectCreationOpen) ==>
        tracker.uploadProgress == InitialUploadProgressState && tracker.activeProjectId.None?
      ensures !old(tracker.projectCreationOpen) ==>
        tracker.uploadProgress == old(tracker.uploadProgress) && tracker.activeProjectId == old(tracker.activeProjectId)
    {
      ui.CloseProjectCreation();
      ui.ShowToast(CreateSuccessToast);
      SyncOpenFlag();
    }

    /** A message of the progress stream; a `done` event schedules the close. */
    method OnProgressMessage(p: Payload) returns (events: seq<WizardEvent>)
      requires Valid() && tracker.subscription.Some?
      modifies tracker`uploadProgress, tracker`subscription
      ensures Valid()
      ensures tracker.uploadProgress == ApplyPayload(old(tracker.uploadProgress), p).state
      ensures events == if ApplyPayload(old(tracker.uploadProgress), p).completed then [FinishScheduled] else []
      ensures tracker.subscription == if ApplyPayload(old(tracker.uploadProgress), p).completed then None else old(tracker.subscription)
    {
      var completed := tracker.OnProgressMessage(p);
      events := if completed then [FinishScheduled] else [];
    }
  }
}
