/** The upload-progress tracker of the project-creation wizard: the state shown in the
    progress panel, the reducer for events of the server's progress stream, and the hook
    that opens that stream while the wizard is open and a project is being tracked. */
module UploadProgress {
  import opened Wrappers
  import opened ModalTypes

  const InitialUploadProgressState := UploadProgressState(Idle, 0, None)

  /** The default message of each stage. */
  function StageMessage(stage: UploadStage): (m: string)
    ensures m != []
  {
    match stage
    case Idle => "대기 중"
    case Preparing => "업로드 준비 중"
    case Uploading => "영상 업로드 중"
    case Finalizing => "업로드 마무리 중"
    case Processing => "요청 처리 중"
    case Downloading => "콘텐츠 다운로드 중"
    case Done => "완료되었습니다."
    case Error => "오류가 발생했습니다."
  }

  /** No two stages share a default message, so the message alone tells the stage. */
  lemma StageMessageInjective(a: UploadStage, b: UploadStage)
    requires StageMessage(a) == StageMessage(b)
    ensures a == b
  {
  }

  const DefaultErrorMessage := "요청 처리 중 오류가 발생했습니다."
  const StreamErrorMessage := "실시간 진행률 수신 중 문제가 발생했습니다."

  /** A value `JSON.parse` can return. Numbers are integers here. */
  datatype Json =
    | JNull
    | JBool(b: bool)
    | JNumber(n: int)
    | JString(s: string)
    | JArray(items: seq<Json>)
    | JObject(fields: map<string, Json>)

  /** The data of one `progress` message: text that is not JSON, or the parsed value. */
  datatype Payload = Unparseable | Parsed(value: Json)

  /** The fields of a progress event the reducer looks at. */
  datatype ProgressEvent = ProgressEvent(stage: Option<UploadStage>, status: Option<string>, progress: Option<int>)

  /** `typeof payload === 'object' && payload !== null`: objects and arrays pass. */
  predicate IsUploadProgressEvent(j: Json) {
    j.JObject? || j.JArray?
  }

  /** The stage a stage name denotes. */
  function StageNamed(name: string): (r: Option<UploadStage>)
    ensures r.Some? ==> StageName(r.value) == name
  {
    if name == "idle" then Some(Idle)
    else if name == "preparing" then Some(Preparing)
    else if name == "uploading" then Some(Uploading)
    else if name == "finalizing" then Some(Finalizing)
    else if name == "processing" then Some(Processing)
    else if name == "downloading" then Some(Downloading)
    else if name == "done" then Some(Done)
    else if name == "error" then Some(Error)
    else None
  }

  function StageName(stage: UploadStage): string {
    match stage
    case Idle => "idle"
    case Preparing => "preparing"
    case Uploading => "uploading"
    case Finalizing => "finalizing"
    case Processing => "processing"
    case Downloading => "downloading"
    case Done => "done"
    case Error => "error"
  }

  lemma StageNameRoundTrip(stage: UploadStage)
    ensures StageNamed(StageName(stage)) == Some(stage)
  {
  }

  /** A property of a parsed value; arrays have none of the event's fields. */
  function Field(j: Json, key: string): Option<Json> {
    if j.JObject? && key in j.fields then Some(j.fields[key]) else None
  }

  function StringField(j: Json, key: string): Option<string> {
    match Field(j, key)
    case Some(JString(s)) => Some(s)
    case _ => None
  }

  /** Decodes a message into an event; `None` is a message the listener ignores. */
  function DecodeEvent(p: Payload): (r: Option<ProgressEvent>)
    ensures r.Some? <==> p.Parsed? && IsUploadProgressEvent(p.value)
    ensures r.Some? && p.value.JArray? ==> r.value == ProgressEvent(None, None, None)
    ensures r.Some? ==> (r.value.progress.Some? <==> Field(p.value, "progress").Some? && Field(p.value, "progress").value.JNumber?)
    ensures r.Some? ==> forall n :: Field(p.value, "progress") == Some(JNumber(n)) ==> r.value.progress == Some(n)
    ensures r.Some? ==> r.value.status == StringField(p.value, "status")
    ensures r.Some? ==> forall st :: StringField(p.value, "stage") == Some(StageName(st)) ==> r.value.stage == Some(st)
    ensures r.Some? ==> (r.value.stage.None? <==> forall st :: StringField(p.value, "stage") != Some(StageName(st)))
  {
    if p.Unparseable? || !IsUploadProgressEvent(p.value) then None
    else
      var j := p.value;
      var stage := match StringField(j, "stage") case Some(name) => StageNamed(name) case None => None;
      var progress := match Field(j, "progress") case Some(JNumber(n)) => Some(n) case _ => None;
      Some(ProgressEvent(stage, StringField(j, "status"), progress))
  }

  /** The state after one progress event, given the state before it. */
  function ReduceProgressEvent(prev: UploadProgressState, ev: ProgressEvent): (next: UploadProgressState)
    ensures ev.stage.Some? ==> next.stage == ev.stage.value
    ensures ev.stage.None? ==> next.stage == (if prev.stage == Idle then Processing else prev.stage)
    ensures ev.stage == Some(Done) ==> next.progress == 100
    ensures ev.stage != Some(Done) ==> next.progress == ev.progress.GetOr(prev.progress)
    ensures next.message.Some?
    ensures ev.status.Some? ==> next.message == ev.status
    ensures ev.status.None? && prev.message.Some? ==> next.message == prev.message
    ensures ev.status.None? && prev.message.None? ==> next.message == Some(StageMessage(next.stage))
  {
    var nextStage := ev.stage.GetOr(if prev.stage == Idle then Processing else prev.stage);
    var isDone := ev.stage == Some(Done);
    UploadProgressState(
      if isDone then Done else nextStage,
      if isDone then 100 else ev.progress.GetOr(prev.progress),
      Some(ev.status.GetOr(prev.message.GetOr(StageMessage(nextStage)))))
  }

  /** The new state, and whether the stream is finished, after one message. */
  datatype Transition = Transition(state: UploadProgressState, completed: bool)

  function ApplyPayload(prev: UploadProgressState, p: Payload): (t: Transition)
    ensures DecodeEvent(p).None? ==> t == Transition(prev, false)
    ensures DecodeEvent(p).Some? ==> t.state == ReduceProgressEvent(prev, DecodeEvent(p).value)
    ensures t.completed <==> DecodeEvent(p).Some? && DecodeEvent(p).value.stage == Some(Done)
    ensures t.completed ==> t.state.stage == Done && t.state.progress == 100
  {
    match DecodeEvent(p)
    case None => Transition(prev, false)
    case Some(ev) => Transition(ReduceProgressEvent(prev, ev), ev.stage == Some(Done))
  }

  /** Nothing keeps the reported progress from going down: a later event may carry a
      smaller number, and it is shown. */
  lemma ProgressCanRegress()
    ensures exists prev: UploadProgressState, ev: ProgressEvent ::
      ReduceProgressEvent(prev, ev).progress < prev.progress
  {
    var prev := UploadProgressState(Uploading, 50, None);
    var ev := ProgressEvent(None, None, Some(20));
    assert ReduceProgressEvent(prev, ev).progress == 20;
  }

  /** An event without a stage never moves the panel back to `idle`. */
  lemma StagelessEventLeavesIdle(prev: UploadProgressState, ev: ProgressEvent)
    requires ev.stage.None?
    ensures ReduceProgressEvent(prev, ev).stage != Idle
  {
  }

  /** `updateProgress`: the whole state replaced; the message defaults to the stage's. */
  function ProgressAt(stage: UploadStage, progress: int, message: Option<string>): (s: UploadProgressState)
    ensures s.stage == stage && s.progress == progress
    ensures s.message == Some(message.GetOr(StageMessage(stage)))
  {
    UploadProgressState(stage, progress, Some(message.GetOr(StageMessage(stage))))
  }

  /** `handleProgressError`: the stage becomes `error` and the last progress is kept. */
  function ErrorState(prev: UploadProgressState, message: Option<string>): (s: UploadProgressState)
    ensures s.stage == Error && s.progress == prev.progress
    ensures s.message == Some(message.GetOr(DefaultErrorMessage))
  {
    UploadProgressState(Error, prev.progress, Some(message.GetOr(DefaultErrorMessage)))
  }

  /** The hook's state. `subscription` is the project whose event stream is open, if any. */
  class UploadProgressController {
    var projectCreationOpen: bool
    var uploadProgress: UploadProgressState
    var activeProjectId: Option<string>
    var subscription: Option<string>

    /** A stream is open only while the wizard is open, and only for the tracked project. */
    ghost predicate Valid()
      reads this
    {
      subscription.Some? ==> projectCreationOpen && activeProjectId == subscription && subscription.value != ""
    }

    /** The condition under which the stream effect opens a stream. */
    predicate Live()
      reads this
    {
      projectCreationOpen && activeProjectId.Some? && activeProjectId.value != ""
    }

    constructor(projectCreationOpen: bool)
      ensures Valid()
      ensures this.projectCreationOpen == projectCreationOpen
      ensures uploadProgress == InitialUploadProgressState
      ensures activeProjectId == None && subscription == None
    {
      this.projectCreationOpen := projectCreationOpen;
      uploadProgress := InitialUploadProgressState;
      activeProjectId := None;
      subscription := None;
    }

    /** A new value of the wizard's open flag, and the effects it triggers: closing resets
        the progress and forgets the project; either change closes the old stream and opens
        a new one when the new state is live. */
    method SetProjectCreationOpen(open: bool)
      requires Valid()
      modifies this
      ensures Valid()
      ensures projectCreationOpen == open
      ensures open == old(projectCreationOpen) ==>
        uploadProgress == old(uploadProgress) && activeProjectId == old(activeProjectId) && subscription == old(subscription)
      ensures open != old(projectCreationOpen) && !open ==>
        uploadProgress == InitialUploadProgressState && activeProjectId == None && subscription == None
      ensures open != old(projectCreationOpen) && open ==>
        uploadProgress == old(uploadProgress) && activeProjectId == old(activeProjectId) &&
        subscription == (if Live() then activeProjectId else None)
    {
      if open != projectCreationOpen {
        projectCreationOpen := open;
        if !open {
          uploadProgress := InitialUploadProgressState;
          activeProjectId := None;
        }
        subscription := if Live() then activeProjectId else None;
      }
    }

    /** `startTrackingProject`: a different id re-runs the stream effect. */
    method StartTrackingProject(projectId: string)
      requires Valid()
      modifies this`activeProjectId, this`subscription
      ensures Valid()
      ensures activeProjectId == Some(projectId)
      ensures old(activeProjectId) == Some(projectId) ==> subscription == old(subscription)
      ensures old(activeProjectId) != Some(projectId) ==> subscription == (if Live() then Some(projectId) else None)
    {
      if activeProjectId != Some(projectId) {
        activeProjectId := Some(projectId);
        subscription := if Live() then activeProjectId else None;
      }
    }

    method UpdateProgress(stage: UploadStage, progress: int, message: Option<string>)
      requires Valid()
      modifies this`uploadProgress
      ensures Valid()
      ensures uploadProgress == ProgressAt(stage, progress, message)
    {
      uploadProgress := ProgressAt(stage, progress, message);
    }

    method HandleProgressError(message: Option<string>)
      requires Valid()
      modifies this`uploadProgress
      ensures Valid()
      ensures uploadProgress == ErrorState(old(uploadProgress), message)
    {
      uploadProgress := ErrorState(uploadProgress, message);
    }

    /** The `progress` listener: reduce the message into the state; a `done` event closes
        the stream and reports completion to the caller. */
    method OnProgressMessage(p: Payload) returns (completed: bool)
      requires Valid() && subscription.Some?
      modifies this`uploadProgress, this`subscription
      ensures Valid()
      ensures uploadProgress == ApplyPayload(old(uploadProgress), p).state
      ensures completed == ApplyPayload(old(uploadProgress), p).completed
      ensures subscription == if completed then None else old(subscription)
    {
      var t := ApplyPayload(uploadProgress, p);
      uploadProgress := t.state;
      completed := t.completed;
      if completed {
        subscription := None;
      }
    }

    /** `onerror`: the panel shows the stream error; the stream itself stays open. */
    method OnStreamError()
      requires Valid() && subscription.Some?
      modifies this`uploadProgress
      ensures Valid()
      ensures uploadProgress == ErrorState(old(uploadProgress), Some(StreamErrorMessage))
    {
      HandleProgressError(Some(StreamErrorMessage));
    }
  }
}
