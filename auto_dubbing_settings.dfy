/** The wizard's second step: the settings form, its validation schema, the target-language
    picker and the summary and progress panel beside it. */
module AutoDubbingSettings {
  import opened Wrappers
  import opened Seqs
  import opened ModalTypes
  import JsString
  import UploadProgress
  import ProgressBar

  const Languages: seq<string> := ["한국어", "영어", "일본어", "스페인어", "프랑스어"]

  /** One of the languages the form offers. */
  predicate IsLanguage(l: string) {
    l in Languages
  }

  datatype AutoDubbingSettingsValues = AutoDubbingSettingsValues(
    title: string,
    detectAutomatically: bool,
    sourceLanguage: string,
    targetLanguages: seq<string>,
    speakerCount: int)

  datatype SettingsField = TitleField | SourceLanguageField | TargetLanguagesField | SpeakerCountField

  /** The fields whose own rule fails. */
  function FieldIssues(v: AutoDubbingSettingsValues): (r: set<SettingsField>)
    ensures TitleField in r <==> |v.title| < 2
    ensures SourceLanguageField in r <==> |v.sourceLanguage| < 1
    ensures TargetLanguagesField in r <==> |v.targetLanguages| < 1
    ensures SpeakerCountField in r <==> !(1 <= v.speakerCount <= 10)
  {
    (if |v.title| < 2 then {TitleField} else {}) +
    (if |v.sourceLanguage| < 1 then {SourceLanguageField} else {}) +
    (if |v.targetLanguages| < 1 then {TargetLanguagesField} else {}) +
    (if 1 <= v.speakerCount <= 10 then {} else {SpeakerCountField})
  }

  /** The object-level refinement: a source language is needed unless it is detected. */
  function RefinementIssues(v: AutoDubbingSettingsValues): set<SettingsField> {
    if v.detectAutomatically || |v.sourceLanguage| > 0 then {} else {SourceLanguageField}
  }

  /** Every issue the schema reports. */
  function SettingsIssues(v: AutoDubbingSettingsValues): (r: set<SettingsField>)
    ensures r == {} <==> |v.title| >= 2 && |v.sourceLanguage| >= 1 && |v.targetLanguages| >= 1 && 1 <= v.speakerCount <= 10
    ensures r == FieldIssues(v)
  {
    RefinementSubsumed(v);
    FieldIssues(v) + RefinementIssues(v)
  }

  /** The refinement never reports what the field rules do not: `sourceLanguage` already
      needs one character whatever `detectAutomatically` says. */
  lemma RefinementSubsumed(v: AutoDubbingSettingsValues)
    ensures RefinementIssues(v) <= FieldIssues(v)
  {
  }

  /** So the detection switch has no effect on whether the form is valid. */
  lemma DetectionIrrelevantToValidity(v: AutoDubbingSettingsValues, detect: bool)
    ensures SettingsIssues(v.(detectAutomatically := detect)) == SettingsIssues(v)
  {
  }

  /** The five languages are distinct: they already differ in their first letter. */
  lemma LanguagesDistinct()
    ensures NoDuplicates(Languages)
  {
    var firsts := seq(|Languages|, i requires 0 <= i < |Languages| => Languages[i][0]);
    assert firsts == ['한', '영', '일', '스', '프'];
  }

  /** `list.filter((l) => !selected.includes(l))`, written first-order. */
  function Unchosen(list: seq<string>, selected: seq<string>): (r: seq<string>)
    ensures forall l :: l in r <==> l in list && l !in selected
  {
    if list == [] then [] else (if list[0] in selected then [] else [list[0]]) + Unchosen(list[1..], selected)
  }

  /** It is the generic filter with the "not chosen" predicate. */
  lemma {:induction false} UnchosenIsFilter(list: seq<string>, selected: seq<string>)
    ensures Unchosen(list, selected) == Filter(list, l => l !in selected)
  {
    if list != [] {
      UnchosenIsFilter(list[1..], selected);
    }
  }

  /** The languages offered for adding: the list without the chosen ones. */
  function AvailableTargetOptions(selected: seq<string>): (r: seq<string>)
    ensures forall l :: l in r <==> IsLanguage(l) && l !in selected
  {
    Unchosen(Languages, selected)
  }

  /** The offered languages keep the list's order and are never repeated. */
  lemma AvailableTargetOptionsInListOrder(selected: seq<string>)
    ensures IsSubsequence(AvailableTargetOptions(selected), Languages)
    ensures NoDuplicates(AvailableTargetOptions(selected))
  {
    UnchosenIsFilter(Languages, selected);
    FilterIsSubsequence(Languages, l => l !in selected);
    LanguagesDistinct();
    FilterNoDuplicates(Languages, l => l !in selected);
  }

  /** The pending-target effect: an empty choice takes the first option; a choice that is
      no longer offered takes the first option, or empty when none is left. */
  function NormalizePendingTarget(pending: string, available: seq<string>): (r: string)
    ensures r in available || (r == "" && available == [])
    ensures pending != "" && pending in available ==> r == pending
    ensures (pending == "" || pending !in available) && available != [] ==> r == available[0]
    ensures (pending == "" || pending !in available) && available == [] ==> r == ""
  {
    if pending == "" && |available| > 0 then available[0]
    else if pending != "" && pending !in available then (if |available| > 0 then available[0] else "")
    else pending
  }

  /** After one run the effect has nothing more to change. */
  lemma NormalizePendingTargetIdempotent(pending: string, available: seq<string>)
    ensures NormalizePendingTarget(NormalizePendingTarget(pending, available), available) ==
            NormalizePendingTarget(pending, available)
  {
  }

  /** A settled pending target is an offered language: one of the list, not yet chosen. */
  lemma SettledPendingIsOffered(pending: string, targets: seq<string>)
    requires pending == NormalizePendingTarget(pending, AvailableTargetOptions(targets))
    ensures pending != "" ==> IsLanguage(pending) && pending !in targets
  {
  }

  /** Adding a settled pending target never repeats a language already chosen. */
  lemma AddingSettledTargetKeepsNoDuplicates(pending: string, targets: seq<string>)
    requires pending == NormalizePendingTarget(pending, AvailableTargetOptions(targets))
    requires pending != ""
    ensures NoDuplicates(targets) ==> NoDuplicates(targets + [pending])
  {
    SettledPendingIsOffered(pending, targets);
    AppendFreshNoDuplicates(targets, pending);
  }

  /** Work is under way: the stage is neither `idle` nor finished. */
  predicate IsProcessing(p: UploadProgressState) {
    p.stage != Idle && p.stage != Done && p.stage != Error
  }

  /** The progress panel appears for every stage but `idle`. */
  predicate ShowsProgressPanel(p: UploadProgressState) {
    p.stage != Idle
  }

  function ProgressLabel(p: UploadProgressState): (text: string)
    ensures p.message.Some? ==> text == p.message.value
    ensures p.message.None? ==> text == UploadProgress.StageMessage(p.stage)
  {
    p.message.GetOr(UploadProgress.StageMessage(p.stage))
  }

  /** Without a message, the panel's label is the stage default, which is never empty, so the
      bar shows it. */
  lemma DefaultProgressLabelShown(p: UploadProgressState)
    requires p.message.None?
    ensures ProgressBar.ShowsLabel(Some(ProgressLabel(p)))
  {
  }

  /** An event whose status is the empty string empties the message, and the bar then shows
      no label at all: `??` keeps the empty status. */
  lemma EmptyStatusHidesLabel(prev: UploadProgressState, stage: Option<UploadStage>, progress: Option<int>)
    ensures !ProgressBar.ShowsLabel(Some(ProgressLabel(UploadProgress.ReduceProgressEvent(prev, UploadProgress.ProgressEvent(stage, Some(""), progress)))))
  {
  }

  /** A processing state always shows the panel. */
  lemma ProcessingShowsPanel(p: UploadProgressState)
    requires IsProcessing(p)
    ensures ShowsProgressPanel(p)
  {
  }

  /** The summary's description of the source. */
  function SourceSummary(draft: ProjectCreationDraft): (s: string)
    ensures draft.sourceType == YoutubeSource && draft.youtubeUrl.Some? ==> s == draft.youtubeUrl.value
    ensures draft.sourceType == YoutubeSource && draft.youtubeUrl.None? ==> s == "YouTube 링크 미입력"
    ensures draft.sourceType == FileSource && (draft.fileName.None? || draft.fileName.value == "") ==> s == "파일 미선택"
    ensures draft.sourceType == FileSource && draft.fileName.Some? && draft.fileName.value != "" ==>
      JsString.StartsWith(s, draft.fileName.value + " (") && s[|s| - 1] == ')'
    ensures draft.sourceType == FileSource && draft.fileName.Some? && draft.fileName.value != "" ==>
      s[|draft.fileName.value| + 2..|s| - 1] ==
        (if draft.fileSize.Some? && draft.fileSize.value != 0 then MegabytesLabel(draft.fileSize.value) + "MB" else "크기 미상")
  {
    if draft.sourceType == YoutubeSource then draft.youtubeUrl.GetOr("YouTube 링크 미입력")
    else if draft.fileName.None? || draft.fileName.value == "" then "파일 미선택"
    else
      var size := if draft.fileSize.Some? && draft.fileSize.value != 0 then MegabytesLabel(draft.fileSize.value) + "MB" else "크기 미상";
      var s := draft.fileName.value + " (" + size + ")";
      assert s[..|draft.fileName.value + " ("|] == draft.fileName.value + " (";
      assert s[|draft.fileName.value| + 2..|s| - 1] == size;
      s
  }

  /** The five rows of the settings summary. */
  datatype SettingsSummaryRows = SettingsSummaryRows(
    title: string, source: string, sourceLanguage: string, targetLanguages: string, speakerCount: string)

  function SettingsSummary(v: AutoDubbingSettingsValues, draft: ProjectCreationDraft): (rows: SettingsSummaryRows)
    ensures rows.title == (if v.title == "" then "제목 미입력" else v.title)
    ensures rows.source == SourceSummary(draft)
    ensures rows.sourceLanguage == (if v.detectAutomatically then "자동 인식" else v.sourceLanguage)
    ensures v.targetLanguages == [] ==> rows.targetLanguages == "미선택"
    ensures |v.targetLanguages| == 1 && v.targetLanguages[0] != "" ==> rows.targetLanguages == v.targetLanguages[0]
    ensures JsString.Join(v.targetLanguages, ", ") != "" ==> rows.targetLanguages == JsString.Join(v.targetLanguages, ", ")
    ensures JsString.Join(v.targetLanguages, ", ") == "" ==> rows.targetLanguages == "미선택"
    ensures rows.speakerCount == JsString.IntToDecimal(v.speakerCount) + "명"
  {
    var joined := JsString.Join(v.targetLanguages, ", ");
    SettingsSummaryRows(
      if v.title == "" then "제목 미입력" else v.title,
      SourceSummary(draft),
      if v.detectAutomatically then "자동 인식" else v.sourceLanguage,
      if joined == "" then "미선택" else joined,
      JsString.IntToDecimal(v.speakerCount) + "명")
  }

  /** The settings form: its current values and the target chosen for adding. Every handler
      ends with the pending-target effect. */
  class SettingsForm {
    var values: AutoDubbingSettingsValues
    var pendingTarget: string

    /** The pending target is settled: the effect would leave it as it is. */
    ghost predicate Valid()
      reads this
    {
      pendingTarget == NormalizePendingTarget(pendingTarget, AvailableTargetOptions(values.targetLanguages))
    }

    constructor(initialValues: AutoDubbingSettingsValues)
      ensures Valid()
      ensures values == initialValues
      ensures pendingTarget == NormalizePendingTarget("", AvailableTargetOptions(initialValues.targetLanguages))
      ensures AvailableTargetOptions(initialValues.targetLanguages) != [] ==>
        pendingTarget == AvailableTargetOptions(initialValues.targetLanguages)[0]
      ensures AvailableTargetOptions(initialValues.targetLanguages) == [] ==> pendingTarget == ""
    {
      values := initialValues;
      pendingTarget := NormalizePendingTarget("", AvailableTargetOptions(initialValues.targetLanguages));
      NormalizePendingTargetIdempotent("", AvailableTargetOptions(initialValues.targetLanguages));
    }

    method SetPendingTarget(choice: string)
      requires Valid()
      modifies this`pendingTarget
      ensures Valid()
      ensures pendingTarget == NormalizePendingTarget(choice, AvailableTargetOptions(values.targetLanguages))
    {
      pendingTarget := NormalizePendingTarget(choice, AvailableTargetOptions(values.targetLanguages));
      NormalizePendingTargetIdempotent(choice, AvailableTargetOptions(values.targetLanguages));
    }

    /** Appends the pending target, then the effect picks the next offered one. */
    method HandleAddTarget()
      requires Valid()
      modifies this
      ensures Valid()
      ensures old(pendingTarget) == "" ==> values == old(values) && pendingTarget == old(pendingTarget)
      ensures old(pendingTarget) != "" ==> values == old(values).(targetLanguages := old(values).targetLanguages + [old(pendingTarget)])
      ensures old(pendingTarget) != "" ==> pendingTarget == NormalizePendingTarget("", AvailableTargetOptions(values.targetLanguages))
      ensures NoDuplicates(old(values).targetLanguages) ==> NoDuplicates(values.targetLanguages)
    {
      if pendingTarget != "" {
        AddingSettledTargetKeepsNoDuplicates(pendingTarget, values.targetLanguages);
        var added := values.targetLanguages + [pendingTarget];
        var available := AvailableTargetOptions(added);
        values := values.(targetLanguages := added);
        pendingTarget := NormalizePendingTarget("", available);
        NormalizePendingTargetIdempotent("", available);
      }
    }

    /** Drops every occurrence of the language and keeps the others in order. */
    method HandleRemoveTarget(language: string)
      requires Valid()
      modifies this
      ensures Valid()
      ensures values == old(values).(targetLanguages := Filter(old(values).targetLanguages, l => l != language))
      ensures language !in values.targetLanguages
      ensures pendingTarget == NormalizePendingTarget(old(pendingTarget), AvailableTargetOptions(values.targetLanguages))
    {
      var kept := Filter(values.targetLanguages, l => l != language);
      values := values.(targetLanguages := kept);
      NormalizePendingTargetIdempotent(pendingTarget, AvailableTargetOptions(kept));
      pendingTarget := NormalizePendingTarget(pendingTarget, AvailableTargetOptions(kept));
    }

    method HandleDetectChange(checked: bool)
      requires Valid()
      modifies this`values
      ensures Valid()
      ensures values == old(values).(detectAutomatically := checked)
    {
      values := values.(detectAutomatically := checked);
    }

    method HandleSourceLanguageChange(language: string)
      requires Valid()
      modifies this`values
      ensures Valid()
      ensures values == old(values).(sourceLanguage := language)
    {
      values := values.(sourceLanguage := language);
    }

    /** `handleSubmit`: the values reach the wizard only when the schema accepts them. */
    method Submit() returns (submitted: Option<AutoDubbingSettingsValues>)
      ensures submitted.Some? <==> SettingsIssues(values) == {}
      ensures submitted.Some? ==> submitted.value == values
    {
      submitted := if SettingsIssues(values) == {} then Some(values) else None;
    }
  }
}
