/** The wizard dialog's body: which of the two steps is shown, and the values each starts
    from. */
module DialogContent {
  import opened Wrappers
  import opened ModalTypes
  import opened UiStore
  import opened AutoDubbingSettings
  import ProjectCreationWizard

  /** The language the details step starts with when the draft has none. */
  const DefaultSourceLanguage := "한국어"

  /** What the source step is created with. */
  datatype SourceStepProps = SourceStepProps(
    initialMode: SourceMode,
    initialYoutubeUrl: Option<string>,
    previousUploadSummary: Option<string>)

  /** What the details step is created with. */
  datatype DetailsStepProps = DetailsStepProps(
    initialValues: AutoDubbingSettingsValues,
    draft: ProjectCreationDraft)

  /** The rendered body: each step is present or absent. */
  datatype DialogView = DialogView(source: Option<SourceStepProps>, details: Option<DetailsStepProps>)

  /** The settings form's starting values: the draft's, with an empty source language
      replaced by the default. */
  function DetailsInitialValues(draft: ProjectCreationDraft): (v: AutoDubbingSettingsValues)
    ensures v.title == draft.title && v.detectAutomatically == draft.detectAutomatically
    ensures v.targetLanguages == draft.targetLanguages && v.speakerCount == draft.speakerCount
    ensures draft.sourceLanguage != "" ==> v.sourceLanguage == draft.sourceLanguage
    ensures draft.sourceLanguage == "" ==> v.sourceLanguage == DefaultSourceLanguage
  {
    AutoDubbingSettingsValues(
      draft.title,
      draft.detectAutomatically,
      if draft.sourceLanguage != "" then draft.sourceLanguage else DefaultSourceLanguage,
      draft.targetLanguages,
      draft.speakerCount)
  }

  function Render(isSourceStep: bool, isDetailsStep: bool, draft: ProjectCreationDraft,
                  recentUploadSummary: Option<string>): (view: DialogView)
    ensures view.source.Some? <==> isSourceStep
    ensures view.details.Some? <==> isDetailsStep
    ensures isSourceStep ==>
      view.source.value == SourceStepProps(draft.sourceType, draft.youtubeUrl, recentUploadSummary)
    ensures isDetailsStep ==>
      view.details.value.initialValues == DetailsInitialValues(draft) && view.details.value.draft == draft
  {
    DialogView(
      if isSourceStep then Some(SourceStepProps(draft.sourceType, draft.youtubeUrl, recentUploadSummary)) else None,
      if isDetailsStep then Some(DetailsStepProps(DetailsInitialValues(draft), draft)) else None)
  }

  /** The body for a store step: the source step at `source`, the details step at `details`. */
  function RenderStep(step: ProjectCreationStep, draft: ProjectCreationDraft,
                      recentUploadSummary: Option<string>): DialogView
  {
    Render(step == Source, step == Details, draft, recentUploadSummary)
  }

  /** The two steps never show together, and the store's own three steps show neither; so
      after a close, which rewinds to `upload`, a default re-open shows an empty dialog. */
  lemma AtMostOneStepShown(step: ProjectCreationStep, draft: ProjectCreationDraft, summary: Option<string>)
    ensures !(RenderStep(step, draft, summary).source.Some? && RenderStep(step, draft, summary).details.Some?)
    ensures step in {Upload, SettingsA, SettingsB} ==>
      RenderStep(step, draft, summary) == DialogView(None, None)
  {
  }

  /** The details step never starts with a missing source language. */
  lemma InitialValuesHaveSourceLanguage(draft: ProjectCreationDraft)
    ensures SourceLanguageField !in SettingsIssues(DetailsInitialValues(draft))
  {
  }

  /** Starting from a fresh draft, the settings form lacks exactly a title and a target. */
  lemma InitialDraftIssues()
    ensures SettingsIssues(DetailsInitialValues(ProjectCreationWizard.InitialDraft())) == {TitleField, TargetLanguagesField}
  {
    var v := DetailsInitialValues(ProjectCreationWizard.InitialDraft());
    var r := SettingsIssues(v);
    assert TitleField in r && TargetLanguagesField in r;
    assert SourceLanguageField !in r && SpeakerCountField !in r;
    assert forall f :: f in r ==> f == TitleField || f == TargetLanguagesField;
  }
}
