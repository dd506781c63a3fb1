# front-template: the project-creation wizard and its client-side helpers, in Dafny

This project models the client-side logic of the front-template dubbing workspace, a React
and TypeScript single-page application. It then proves properties of that model.

The centre of the model is the **project-creation wizard**. The wizard has two steps:

- a source step, which takes a YouTube link or a video file of at most 1 GiB;
- an auto-dubbing settings step, which takes a title, languages and a speaker count.

The wizard collects a draft across the two steps. Once the backend has created the project, it
does one of two things:

- in file mode, it uploads the file in three calls (prepare, transfer, finalize), showing
  progress checkpoints 10, 35, 85 and 100;
- in YouTube mode, it registers the link and then follows the server's progress stream.

Around the wizard sit:

- the global UI store (one toast; the wizard's open flag and step);
- the workspace page, which mirrors the wizard's step into the `create` query parameter;
- the upload-progress tracker;
- the dialog body that picks the visible step.

The model also covers the smaller pure parts of the client:

- the project list's search, stable sort and done/other tabs;
- the project page: asset grouping by language, the active tab, the status tone, the editor
  gate and the preview source;
- the sign-in and sign-up schemas, mutations and role picker;
- the auth and editor stores;
- the voice-assignment panel, the header initials and the side-navigation highlight;
- the HTTP client's header and retry rules;
- the mock API handlers;
- the `mm:ss` and percentage formatters;
- the progress bar's clamp.

Each modelled source file has one Dafny file, with the same form as the source:

- State the source updates in place is a `class`: the zustand stores, the tracker hook, the
  wizard hook and the two step components. Its methods have `modifies` frames and state the
  whole new state.
- Pure computations are functions with named results, plus lemmas relating them.
- The group-by `reduce` of the project page is a loop, proved against a recursive reference
  grouping.

Three helper modules collect what several files share:

- `Wrappers` holds `Option` and `Result`;
- `Seqs` holds filter, first-match and subsequence lemmas;
- `JsString` holds `trim`, `split`, `join`, `includes`, `startsWith`, ASCII case mapping and
  decimal printing, written as the ECMAScript built-ins behave.

Parts of the environment become parameters:

- Each backend call is a boolean oracle: it succeeds or fails. The wizard's methods return
  the trace of what can be observed: requests, progress shown, toasts, tracking started, and
  the close being scheduled.
- A message of the progress stream is given already parsed.
- The e-mail check of the validation library is a parameter (`isEmail`).
- The mock API's sample data is a parameter.

In several places the code behaves otherwise than a reader of its comments, names and
messages would expect. The model follows the code:

- **The progress bar can go backwards.** One would expect the shown progress never to
  decrease. The stream reducer takes any number it is sent
  (`UploadProgress.ProgressCanRegress`). Only the local file flow is monotone
  (`ExpectedFileProgressNonDecreasing`).
- **Failed project creation is silent.** One would expect a failure notification.
  `createProjectMutation.mutate` has no `onError`, so nothing more happens: with
  `createdId == None`, `HandleDetailsSubmit` leaves the tracker and the toast as they were.
- **Results arriving after a close are not discarded.** Neither the upload nor the
  registration checks the open flag. The tracker's `UpdateProgress` and `HandleProgressError`
  accept a write whatever the flag; their only precondition is the stream invariant. Each flow
  runs as one uninterrupted step here, so the model does not show a close in the middle of one
  (see "Left out").
- **The wizard's steps have no URL token.** One would expect every step to round-trip
  through the URL. The token map only knows `upload`, `settings` and `assign`, so the wizard's
  own steps `source` and `details` never reach the URL (`WizardStepsHaveNoToken`,
  `DetailsStepIsNotRestorable`).
- **An earlier file is not re-uploaded.** The draft remembers an earlier file's name and size,
  and the source step shows them. Re-submitting the source step without choosing the file
  again leaves no file in the draft, so the project is created and nothing is uploaded
  (`EarlierFileIsNotUploaded`).
- **The file step flags every link.** The mode toggle is commented out, so the mode is fixed
  at its initial value. In file mode, any non-blank link is flagged, a correct one included
  (`FileModeFlagsEveryLink`).
- **Signing up does not sign in.** A successful sign-up only shows a toast
  (`OnSignupSuccess`).
- **The `Authorization` value has no space.** It is `Bearer` immediately followed by the
  token (`NoSpaceAfterBearer`).
- **Track ids can collide.** The voice panel's track id is `segment-voice`. It is ambiguous
  as soon as a segment id contains `-` (`TrackIdAmbiguous`).
- **The store holds five step values, not three.** The UI store's type declares `upload`,
  `settings-a` and `settings-b`, but the wizard writes `source` and `details`. After a close,
  which rewinds to `upload`, a default re-open shows neither wizard step
  (`AtMostOneStepShown`).

## Model

| member | source | states |
|---|---|---|
| UploadProgress.StageMessage | src/features/projects/modals/hooks/useUploadProgressController.ts:20-29 | every stage has a non-empty default message |
| UploadProgress.StageMessageInjective | src/features/projects/modals/hooks/useUploadProgressController.ts:20-29 | no two stages share a default message |
| UploadProgress.StageNamed | src/features/projects/modals/types.ts:20-28 | a recognised stage name denotes the stage that has that name |
| UploadProgress.StageNameRoundTrip | src/features/projects/modals/types.ts:20-28 | reading a stage's name back gives the stage |
| UploadProgress.DecodeEvent | src/features/projects/modals/hooks/useUploadProgressController.ts:31-36 | a message gives an event exactly when it parses to an object or an array; an array carries none of the fields; progress is present exactly when the field is a number, and then it is that number; the status is the `status` string; a stage name denotes its stage, and the stage is absent exactly when no stage has that name |
| UploadProgress.ReduceProgressEvent | src/features/projects/modals/hooks/useUploadProgressController.ts:85-96 | the event's stage wins; a stageless event moves `idle` to `processing` and otherwise keeps the stage; `done` forces progress 100; otherwise a numeric progress replaces the old one; the message is the status, else the previous message, else the stage default, so it is always present |
| UploadProgress.ApplyPayload | src/features/projects/modals/hooks/useUploadProgressController.ts:82-101 | an ignored message leaves the state unchanged and does not complete; otherwise the state is the reduction; completion happens exactly on a `done` event and then the state is `done` at 100 |
| UploadProgress.ProgressCanRegress | src/features/projects/modals/hooks/useUploadProgressController.ts:90-93 | some event lowers the progress: nothing compares it with the previous value |
| UploadProgress.StagelessEventLeavesIdle | src/features/projects/modals/hooks/useUploadProgressController.ts:86-88 | an event without a stage never leaves the panel at `idle` |
| UploadProgress.ProgressAt | src/features/projects/modals/hooks/useUploadProgressController.ts:59-65 | `updateProgress` replaces stage and progress; an omitted message becomes the stage's default |
| UploadProgress.ErrorState | src/features/projects/modals/hooks/useUploadProgressController.ts:67-73 | the stage becomes `error`, the progress is kept, and the message is the given one or the fixed default |
| UploadProgress.UploadProgressController.constructor | src/features/projects/modals/hooks/useUploadProgressController.ts:47-50 | the tracker starts at `idle`, 0, no message, with no project and no stream |
| UploadProgress.UploadProgressController.SetProjectCreationOpen | src/features/projects/modals/hooks/useUploadProgressController.ts:52-57 | closing resets the progress to the initial state and forgets the project; a change reopens the stream only while open with a non-empty project id; the invariant that a stream is open only for the tracked project of an open wizard is kept |
| UploadProgress.UploadProgressController.StartTrackingProject | src/features/projects/modals/hooks/useUploadProgressController.ts:117-119 | only the tracked id changes; a new id replaces the stream, and one is opened only when the wizard is open |
| UploadProgress.UploadProgressController.UpdateProgress | src/features/projects/modals/hooks/useUploadProgressController.ts:59-65 | the state becomes `ProgressAt` of the arguments |
| UploadProgress.UploadProgressController.HandleProgressError | src/features/projects/modals/hooks/useUploadProgressController.ts:67-73 | the state becomes the error state of the old one |
| UploadProgress.UploadProgressController.OnProgressMessage | src/features/projects/modals/hooks/useUploadProgressController.ts:80-105 | the state is reduced by the message; a `done` event closes the stream and reports completion |
| UploadProgress.UploadProgressController.OnStreamError | src/features/projects/modals/hooks/useUploadProgressController.ts:107-110 | a stream error shows the fixed stream message in the error state and keeps the progress |
| ProjectCreationWizard.InitialDraft | src/features/projects/modals/useProjectCreationModal.ts:17-24 | file mode, no link or file, empty title, detection on, source `한국어`, no targets, 2 speakers |
| ProjectCreationWizard.MergeSource | src/features/projects/modals/useProjectCreationModal.ts:128-135 | the mode is the submitted one; the other mode's fields are cleared; a new file sets name and size, and no file keeps the earlier name and size; the settings part is unchanged |
| ProjectCreationWizard.MergeDetails | src/features/projects/modals/useProjectCreationModal.ts:141-150 | exactly the five settings fields are replaced; the source part is unchanged |
| ProjectCreationWizard.MergesCommute | src/features/projects/modals/useProjectCreationModal.ts:128-150 | the two steps write disjoint parts of the draft, so their order does not matter |
| ProjectCreationWizard.FollowUpFor | src/features/projects/modals/useProjectCreationModal.ts:155-163 | an upload exactly for file mode with a file, registration exactly for YouTube mode, nothing otherwise |
| ProjectCreationWizard.EarlierFileIsNotUploaded | src/features/projects/modals/useProjectCreationModal.ts:130-135 | re-submitting file mode without a new file keeps the earlier name but leads to no upload |
| ProjectCreationWizard.RecentUploadSummary | src/features/projects/modals/useProjectCreationModal.ts:49-53 | none exactly when there is no non-empty file name; otherwise the name, ` • `, the size in megabytes (`0` for an absent or zero size) and `MB` |
| ProjectCreationWizard.ContentType | src/features/projects/modals/useProjectCreationModal.ts:78 | the file's MIME type, or `application/octet-stream` when it is empty |
| ProjectCreationWizard.CallsSucceeded | src/features/projects/modals/useProjectCreationModal.ts:72-104 | the number of calls that succeed before the first failure; 3 exactly when all three succeed |
| ProjectCreationWizard.CheckpointProgress | src/features/projects/modals/useProjectCreationModal.ts:74-92 | the first n checkpoints show 10, 35, 85 in that order |
| ProjectCreationWizard.CheckpointEventsAreRequestsAndProgress | src/features/projects/modals/useProjectCreationModal.ts:74-92 | the checkpoints hold only progress and the three requests, and finalize is requested only at the third |
| ProjectCreationWizard.FileUploadProgress | src/features/projects/modals/useProjectCreationModal.ts:72-104 | the file flow shows 10, 35, 85, 100 when every call succeeds; otherwise it shows the checkpoints up to the failed call, and the error state repeats the last one |
| ProjectCreationWizard.ExpectedFileProgressNonDecreasing | src/features/projects/modals/useProjectCreationModal.ts:74-98 | the file flow's shown progress never decreases |
| ProjectCreationWizard.FileUploadOutcome | src/features/projects/modals/useProjectCreationModal.ts:72-104 | the close is scheduled exactly when all calls succeed; the error toast appears exactly when one fails; finalize is requested only after prepare and transfer succeeded |
| ProjectCreationWizard.Wizard.constructor | src/features/projects/modals/useProjectCreationModal.ts:38 | the draft starts as the initial draft |
| ProjectCreationWizard.Wizard.SyncOpenFlag | src/features/projects/modals/useProjectCreationModal.ts:40-44 | the tracker follows the store's open flag: an unchanged flag leaves its progress, project and stream as they were; opening keeps progress and project and opens the stream exactly when a non-empty project is tracked; closing an open tracker resets its progress and forgets the project; a closed wizard resets the draft and has no stream, an open one keeps the draft |
| ProjectCreationWizard.Wizard.HandleSourceSubmit | src/features/projects/modals/useProjectCreationModal.ts:127-139 | the draft is merged with the source values; the step becomes `details`; the open flag and the toast are kept |
| ProjectCreationWizard.Wizard.HandleBackToSource | src/features/projects/modals/useProjectCreationModal.ts:174 | only the step changes, to `source`; the draft is not in the frame |
| ProjectCreationWizard.Wizard.HandleFileUpload | src/features/projects/modals/useProjectCreationModal.ts:72-105 | the events are the file-upload trace; the tracker ends at the last progress shown; the error toast is shown exactly on failure |
| ProjectCreationWizard.Wizard.HandleRegisterYoutube | src/features/projects/modals/useProjectCreationModal.ts:107-125 | processing at 1 with the checking message, the request, then processing at 5 with the loading message on success, or the error state at 1 and the error toast on failure; the tracker ends at the last progress shown |
| ProjectCreationWizard.Wizard.HandleDetailsSubmit | src/features/projects/modals/useProjectCreationModal.ts:141-166 | the draft is merged with the settings and the creation request comes first; a failed creation or a file-mode draft without a file ends there, with tracker and toast unchanged; a file is uploaded with the upload trace, tracking and stream untouched, the tracker at the last progress shown and the error toast exactly on failure; a link starts tracking the new project (its stream opens while the wizard is open, unless that project was already tracked), then follows the registration trace with its final progress and toast |
| ProjectCreationWizard.Wizard.FinishCreation | src/features/projects/modals/useProjectCreationModal.ts:56-65 | the wizard is closed at `upload`, the success toast is shown, the draft is reset, and the tracker is closed with no stream; an open tracker resets its progress and forgets the project, a closed one keeps them |
| ProjectCreationWizard.Wizard.OnProgressMessage | src/features/projects/modals/useProjectCreationModal.ts:66-70 | a stream message reduces the tracker's state; a `done` event closes the stream and schedules the close, any other message keeps the stream and schedules nothing |
| UiStore.UiStore.constructor | src/shared/store/useUiStore.ts:28-50 | no toast; the wizard is closed at `upload` |
| UiStore.UiStore.ShowToast | src/shared/store/useUiStore.ts:31-38 | the toast is replaced unconditionally; the wizard state is kept |
| UiStore.UiStore.DismissToast | src/shared/store/useUiStore.ts:39-46 | the toast is cleared exactly when its id is the one given; otherwise nothing changes |
| UiStore.UiStore.OpenProjectCreation | src/shared/store/useUiStore.ts:51-61 | open at the given step, or at `upload` without one; the toast is kept |
| UiStore.UiStore.CloseProjectCreation | src/shared/store/useUiStore.ts:62-72 | always closed at `upload`; the toast is kept |
| UiStore.UiStore.SetProjectCreationStep | src/shared/store/useUiStore.ts:73-83 | only the step changes; the open flag and the toast are kept |
| WorkspacePage.StepForToken | src/pages/workspace/WorkspacePage.tsx:13-17 | only `upload`, `settings` and `assign` give a step, and each gives one of the store's three declared steps |
| WorkspacePage.TokenForStep | src/pages/workspace/WorkspacePage.tsx:45 | a step has a token exactly when it is one of the three mapped steps |
| WorkspacePage.TokenStepRoundTrip | src/pages/workspace/WorkspacePage.tsx:13-17 | token-to-step and step-to-token are inverse to each other, in both directions |
| WorkspacePage.WizardStepsHaveNoToken | src/pages/workspace/WorkspacePage.tsx:13-17 | `source` and `details` have no token and are named by none |
| WorkspacePage.DerivedStep | src/pages/workspace/WorkspacePage.tsx:30-31 | a step is derived only from a present, non-empty, mapped parameter, and is that token's step |
| WorkspacePage.SyncedQuery | src/pages/workspace/WorkspacePage.tsx:39-52 | closed removes `create`; open at a mapped step sets its token; open at an unmapped step changes nothing; every other parameter is preserved |
| WorkspacePage.SyncThenDerive | src/pages/workspace/WorkspacePage.tsx:30-52 | a mapped step written to the URL is read back as the same step |
| WorkspacePage.ClosedSyncClears | src/pages/workspace/WorkspacePage.tsx:42-43 | after syncing a closed wizard the URL carries no step |
| WorkspacePage.DetailsStepIsNotRestorable | src/pages/workspace/WorkspacePage.tsx:45-48 | at `source` or `details` the URL keeps whatever step it derived before |
| WorkspacePage.RestoredStepIsStable | src/pages/workspace/WorkspacePage.tsx:33-52 | once the store has the URL's step, syncing leaves the URL unchanged |
| WorkspacePage.ApplyQuery | src/pages/workspace/WorkspacePage.tsx:54-58 | a mapped token opens the wizard at its step; a missing or empty parameter closes it; an unmapped token changes nothing; the toast is kept |
| Routes.ProjectDetail | src/shared/config/routes.ts:7 | the path is `/projects/` followed by the id |
| Routes.Editor | src/shared/config/routes.ts:8 | the path is `/editor/` followed by the id |
| Routes.IdAfter | src/shared/config/routes.ts:7-8 | an id is found exactly for paths under the prefix, and prefix plus id is the path |
| Routes.ProjectDetailRoundTrip | src/shared/config/routes.ts:7 | stripping `/projects/` gives the id back |
| Routes.EditorRoundTrip | src/shared/config/routes.ts:8 | stripping `/editor/` gives the id back |
| Routes.ProjectDetailInjective | src/shared/config/routes.ts:7 | different ids give different project paths |
| Routes.EditorInjective | src/shared/config/routes.ts:8 | different ids give different editor paths |
| Routes.DetailAndEditorPathsDiffer | src/shared/config/routes.ts:7-8 | a project path is never an editor path |
| DialogContent.DetailsInitialValues | src/features/projects/modals/ProjectCreationDialogContent.tsx:51-57 | title, detection, targets and speaker count are copied; an empty source language becomes `한국어`, a non-empty one is kept |
| DialogContent.Render | src/features/projects/modals/ProjectCreationDialogContent.tsx:39-63 | the source step shows exactly when `isSourceStep`, with the draft's mode, link and the summary; the details step shows exactly when `isDetailsStep`, with the initial values and the draft |
| DialogContent.AtMostOneStepShown | src/features/projects/modals/ProjectCreationDialogContent.tsx:39-49 | the two steps never show together, and the store's three declared steps show neither |
| DialogContent.InitialValuesHaveSourceLanguage | src/features/projects/modals/ProjectCreationDialogContent.tsx:54 | the details step never starts with a missing source language |
| DialogContent.InitialDraftIssues | src/features/projects/modals/ProjectCreationDialogContent.tsx:51-57 | from a fresh draft, the settings form lacks exactly a title and a target |
| AutoDubbingSettings.FieldIssues | src/features/projects/modals/steps/AutoDubbingSettingsStep.tsx:23-30 | each field rule fails exactly when its bound is missed: title under 2, empty source, no target, speakers outside 1..10 |
| AutoDubbingSettings.SettingsIssues | src/features/projects/modals/steps/AutoDubbingSettingsStep.tsx:23-34 | the schema accepts exactly when all four field bounds hold; the refinement adds nothing |
| AutoDubbingSettings.RefinementSubsumed | src/features/projects/modals/steps/AutoDubbingSettingsStep.tsx:27-34 | the refinement only reports what the source-language rule already reports |
| AutoDubbingSettings.DetectionIrrelevantToValidity | src/features/projects/modals/steps/AutoDubbingSettingsStep.tsx:31-34 | changing the detection switch never changes the issues |
| AutoDubbingSettings.LanguagesDistinct | src/features/projects/modals/steps/AutoDubbingSettingsStep.tsx:21 | the language list has no repeats |
| AutoDubbingSettings.Unchosen | src/features/projects/modals/steps/AutoDubbingSettingsStep.tsx:74 | a language is kept exactly when it is in the list and not chosen |
| AutoDubbingSettings.UnchosenIsFilter | src/features/projects/modals/steps/AutoDubbingSettingsStep.tsx:74 | it equals the generic filter with the not-chosen predicate |
| AutoDubbingSettings.AvailableTargetOptions | src/features/projects/modals/steps/AutoDubbingSettingsStep.tsx:73-76 | offered are exactly the listed languages not yet chosen |
| AutoDubbingSettings.AvailableTargetOptionsInListOrder | src/features/projects/modals/steps/AutoDubbingSettingsStep.tsx:73-76 | the offered languages are a subsequence of the list and have no repeats |
| AutoDubbingSettings.NormalizePendingTarget | src/features/projects/modals/steps/AutoDubbingSettingsStep.tsx:78-86 | an offered pending target is kept; an empty or no longer offered one becomes the first offered language, or empty when nothing is offered |
| AutoDubbingSettings.NormalizePendingTargetIdempotent | src/features/projects/modals/steps/AutoDubbingSettingsStep.tsx:78-86 | a second run changes nothing |
| AutoDubbingSettings.SettledPendingIsOffered | src/features/projects/modals/steps/AutoDubbingSettingsStep.tsx:78-86 | a settled, non-empty pending target is a listed language not yet chosen |
| AutoDubbingSettings.AddingSettledTargetKeepsNoDuplicates | src/features/projects/modals/steps/AutoDubbingSettingsStep.tsx:106-113 | adding a settled pending target never repeats a chosen language |
| AutoDubbingSettings.ProgressLabel | src/features/projects/modals/steps/AutoDubbingSettingsStep.tsx:127 | the message when there is one, else the stage's default |
| AutoDubbingSettings.ProcessingShowsPanel | src/features/projects/modals/steps/AutoDubbingSettingsStep.tsx:123-126 | while processing, the progress panel is shown |
| AutoDubbingSettings.DefaultProgressLabelShown | src/shared/ui/Progress.tsx:9 | without a message the bar shows the stage default as its label |
| AutoDubbingSettings.EmptyStatusHidesLabel | src/shared/ui/Progress.tsx:9 | an empty status from the stream empties the message, and the bar then shows no label |
| AutoDubbingSettings.SourceSummary | src/features/projects/modals/steps/AutoDubbingSettingsStep.tsx:224-229 | the link, or `YouTube 링크 미입력`, in YouTube mode; `파일 미선택` without a file name; otherwise the name, then in brackets the megabytes followed by `MB`, or `크기 미상` for an absent or zero size |
| AutoDubbingSettings.SettingsSummary | src/features/projects/modals/steps/AutoDubbingSettingsStep.tsx:235-239 | the title or `제목 미입력`; the source summary; `자동 인식` when detecting; the targets joined with `, `, or `미선택` when that text is empty; the speaker count followed by `명` |
| AutoDubbingSettings.SettingsForm.constructor | src/features/projects/modals/steps/AutoDubbingSettingsStep.tsx:53-86 | the form starts from the initial values, with the pending target the first offered language, or empty when every language is chosen |
| AutoDubbingSettings.SettingsForm.SetPendingTarget | src/features/projects/modals/steps/AutoDubbingSettingsStep.tsx:78-86 | a choice is settled by the pending-target effect |
| AutoDubbingSettings.SettingsForm.HandleAddTarget | src/features/projects/modals/steps/AutoDubbingSettingsStep.tsx:106-113 | an empty pending target changes nothing; otherwise it is appended and the next offered one is pending; a target list without repeats keeps none |
| AutoDubbingSettings.SettingsForm.HandleRemoveTarget | src/features/projects/modals/steps/AutoDubbingSettingsStep.tsx:115-121 | every occurrence of the language is removed, the rest kept in order, and the pending target resettled |
| AutoDubbingSettings.SettingsForm.HandleDetectChange | src/features/projects/modals/steps/AutoDubbingSettingsStep.tsx:98-100 | only the detection switch changes |
| AutoDubbingSettings.SettingsForm.HandleSourceLanguageChange | src/features/projects/modals/steps/AutoDubbingSettingsStep.tsx:102-104 | only the source language changes |
| AutoDubbingSettings.SettingsForm.Submit | src/features/projects/modals/steps/AutoDubbingSettingsStep.tsx:88-96 | the values are handed on exactly when the schema reports no issue |
| SourceSelection.SourceSelectionStep.constructor | src/features/projects/modals/steps/SourceSelectionStep.tsx:24-34 | mode defaults to file, link to empty; no file and no error |
| SourceSelection.SourceSelectionStep.FileSummary | src/features/projects/modals/steps/SourceSelectionStep.tsx:41-47 | the chosen file's name and megabytes, or else the earlier summary |
| SourceSelection.SourceSelectionStep.FileModeFlagsEveryLink | src/features/projects/modals/steps/SourceSelectionStep.tsx:105 | in file mode the link error shows exactly for a non-blank link |
| SourceSelection.SourceSelectionStep.SetYoutubeUrl | src/features/projects/modals/steps/SourceSelectionStep.tsx:101 | the link field takes the typed value |
| SourceSelection.SourceSelectionStep.HandleFileChange | src/features/projects/modals/steps/SourceSelectionStep.tsx:49-59 | no file is ignored; a file over 1024³ bytes only sets the error; any other file is taken and clears the error; a held file is never over the limit |
| SourceSelection.SourceSelectionStep.HandleSubmit | src/features/projects/modals/steps/SourceSelectionStep.tsx:61-68 | a result exactly when the step may proceed, carrying the mode, the trimmed link only in YouTube mode and the file only in file mode |
| SourceSelection.SubmittedLinkMatches | src/features/projects/modals/steps/SourceSelectionStep.tsx:36-39 | a submitted link is one the pattern describes |
| YoutubePattern.IsYoutubeLinkMatchesPattern | src/features/projects/modals/steps/SourceSelectionStep.tsx:13-14 | the scan accepts exactly the strings the regular expression describes |
| YoutubePattern.ScannedSplit | src/features/projects/modals/steps/SourceSelectionStep.tsx:13-14 | a string the scan accepts splits into the pattern's five parts |
| YoutubePattern.MatchIsScanned | src/features/projects/modals/steps/SourceSelectionStep.tsx:13-14 | a string the pattern describes is accepted by the scan |
| YoutubePattern.PartsFormLink | src/features/projects/modals/steps/SourceSelectionStep.tsx:13-14 | every scheme, `www.`, host, id of at least five characters and tail concatenate to an accepted link |
| YoutubePattern.IdRunLengthUnique | src/features/projects/modals/steps/SourceSelectionStep.tsx:14 | `[\w-]{5,}` is read greedily: a run that cannot be extended is the one the scan measures |
| YoutubePattern.ShortLinkAccepted | src/features/projects/modals/steps/SourceSelectionStep.tsx:13-14 | `youtu.be/abc12` is accepted |
| YoutubePattern.LinkWithSchemeAndParametersAccepted | src/features/projects/modals/steps/SourceSelectionStep.tsx:13-14 | `https://youtu.be/a_b-c&t=42` is accepted |
| YoutubePattern.TrailingTextRejected | src/features/projects/modals/steps/SourceSelectionStep.tsx:14 | white space after the id is rejected |
| YoutubePattern.FourCharacterIdRejected | src/features/projects/modals/steps/SourceSelectionStep.tsx:14 | a four-character id is rejected |
| ProjectsList.SearchProjects | src/pages/projects/ProjectsListPage.tsx:24-32 | the kept projects are exactly those matching the trimmed, lower-cased query, in input order, each as often as in the input |
| ProjectsList.BlankQueryKeepsAll | src/pages/projects/ProjectsListPage.tsx:26-27 | a blank or all-space query keeps every project |
| ProjectsList.MissingCreationSortsLast | src/pages/projects/ProjectsListPage.tsx:41-43 | under `recent`, a project without a creation time sorts after any created after the epoch |
| ProjectsList.Insert | src/pages/projects/ProjectsListPage.tsx:34-44 | inserting adds exactly the one element |
| ProjectsList.InsertSorted | src/pages/projects/ProjectsListPage.tsx:34-44 | inserting into a sorted list keeps it sorted |
| ProjectsList.SortProjects | src/pages/projects/ProjectsListPage.tsx:34-44 | the sorted list is a permutation of its input |
| ProjectsList.SortProjectsSorted | src/pages/projects/ProjectsListPage.tsx:35-43 | the result is ordered by progress descending, due date ascending, or creation time descending |
| ProjectsList.SortProjectsStable | src/pages/projects/ProjectsListPage.tsx:34 | projects that compare equal keep their relative order |
| ProjectsList.TabProjects | src/pages/projects/ProjectsListPage.tsx:46-50 | the `done` tab shows exactly the done projects, and every other tab exactly the rest |
| ProjectsList.TabsPartition | src/pages/projects/ProjectsListPage.tsx:46-50 | the two tabs together hold the list, each project once |
| ProjectsList.FilteredProjectsContents | src/pages/projects/ProjectsListPage.tsx:23-51 | shown are exactly the input projects matching the query and the tab |
| ProjectsList.FilteredProjectsSorted | src/pages/projects/ProjectsListPage.tsx:23-51 | the shown list is in sort order |
| ProjectDetailPage.OfLanguageMembers | src/pages/projects/ProjectDetailPage.tsx:23-29 | a language's group holds its assets and nothing else |
| ProjectDetailPage.GroupedIsOfLanguage | src/pages/projects/ProjectDetailPage.tsx:23-29 | one group per asset language, each holding that language's assets in input order |
| ProjectDetailPage.AssetsByLanguage | src/pages/projects/ProjectDetailPage.tsx:23-29 | no project gives no groups; otherwise the loop builds the reference grouping |
| ProjectDetailPage.GroupsHoldEachAssetOnce | src/pages/projects/ProjectDetailPage.tsx:23-29 | every asset is in its own language's group, as often as in the project, and in no other group |
| ProjectDetailPage.GroupedKeys | src/pages/projects/ProjectDetailPage.tsx:25-26 | the groups are exactly the languages some asset is in |
| ProjectDetailPage.ActiveLanguage | src/pages/projects/ProjectDetailPage.tsx:51 | the chosen language, else the first target, else the source language |
| ProjectDetailPage.DefaultLanguageIsATab | src/pages/projects/ProjectDetailPage.tsx:51 | until a tab is chosen, the shown language is one of the tabs |
| ProjectDetailPage.StatusTone | src/pages/projects/ProjectDetailPage.tsx:110-119 | done, review and editing have their own tone, and exactly processing has the processing tone |
| ProjectDetailPage.SignedOutHidesEditButton | src/pages/projects/ProjectDetailPage.tsx:67 | nobody signed in sees the edit button |
| ProjectDetailPage.EditButtonAfterLogin | src/pages/projects/ProjectDetailPage.tsx:67 | after a sign-in the edit button shows exactly when the editor role was asked for |
| ProjectDetailPage.EditButtonIgnoresRoleRepeats | src/pages/projects/ProjectDetailPage.tsx:67 | removing repeated roles never changes whether the edit button shows |
| ProjectDetailPage.SelectedAsset | src/pages/projects/ProjectDetailPage.tsx:161 | the first video of the list, and none exactly when there is no video |
| ProjectDetailPage.CodecOverlayNeedsVideo | src/pages/projects/ProjectDetailPage.tsx:189 | the codec overlay shows exactly when the language has a video |
| ProjectDetailPage.SubtitlesDoNotCount | src/pages/projects/ProjectDetailPage.tsx:161 | subtitles before the first video do not change the preview asset |
| LanguagePanel.PreviewSource | src/pages/projects/components/ProjectLanguagePanel.tsx:67-69 | `original` shows the project source; `translated` shows the first video's URL, else the project source |
| LanguagePanel.VideoSrc | src/pages/projects/components/ProjectLanguagePanel.tsx:70 | the address is `/api/storage/media/` followed by the source |
| LanguagePanel.PreviewArea | src/pages/projects/components/ProjectLanguagePanel.tsx:93-109 | a player exactly for a non-empty source, at its address; the placeholder otherwise |
| LanguagePanel.SubtitlesAreNeverPreviewed | src/pages/projects/components/ProjectLanguagePanel.tsx:67-69 | with only subtitles, the translated view falls back to the project source |
| LanguagePanel.EmptyVideoUrlHidesPlayer | src/pages/projects/components/ProjectLanguagePanel.tsx:69 | a first video with an empty URL hides the player, since `??` only falls back on absence |
| LanguagePanel.NoOutputsFallsBack | src/pages/projects/components/ProjectLanguagePanel.tsx:153 | with no assets the notice shows and the translated view uses the project source |
| LoginForm.LoginIssues | src/features/auth/components/LoginForm.tsx:17-23 | the e-mail, the password of at least 8 characters and a non-empty role list are each rejected exactly when they fail |
| LoginForm.DefaultLoginValues | src/features/auth/components/LoginForm.tsx:40-44 | empty e-mail and password, the store's requested roles |
| LoginForm.DefaultLoginValuesInvalid | src/features/auth/components/LoginForm.tsx:21 | the untouched form fails on the password |
| LoginForm.SubmitLogin | src/features/auth/components/LoginForm.tsx:53-56 | a valid form stores its roles as requested and hands on the values; an invalid one changes nothing |
| SignupForm.SignupFieldIssues | src/features/auth/components/SignupForm.tsx:17-25 | e-mail, password of at least 8, user name of 2 to 32, non-empty roles and accepted terms are each rejected exactly when they fail |
| SignupForm.SignupIssues | src/features/auth/components/SignupForm.tsx:26-29 | the mismatch is reported on the confirmation exactly when the terms are accepted and the passwords differ |
| SignupForm.SignupValidity | src/features/auth/components/SignupForm.tsx:17-29 | the form passes exactly when every rule holds and the passwords match |
| SignupForm.MismatchHiddenWithoutTerms | src/features/auth/components/SignupForm.tsx:24-29 | without the terms, the mismatch is not reported, whatever the passwords |
| SignupForm.DefaultSignupValues | src/features/auth/components/SignupForm.tsx:46-53 | empty text fields, the requested roles, terms unchecked |
| SignupForm.DefaultSignupValuesInvalid | src/features/auth/components/SignupForm.tsx:46-53 | the untouched form fails on the terms |
| SignupForm.SubmitSignup | src/features/auth/components/SignupForm.tsx:65-68 | a valid form stores its roles and hands on the values; an invalid one changes nothing |
| AuthMutations.UserNameOf | src/features/auth/hooks/useAuthMutations.ts:34 | the name is an `@`-free prefix of the address, followed by `@` unless it is the whole address |
| AuthMutations.UserNameWithoutAt | src/features/auth/hooks/useAuthMutations.ts:34 | an address without `@` is its own user name |
| AuthMutations.UserNameBeforeFirstAt | src/features/auth/hooks/useAuthMutations.ts:34 | otherwise the name is what precedes the first `@` |
| AuthMutations.Login | src/features/auth/hooks/useAuthMutations.ts:28-37 | refused with `Missing credentials` exactly when e-mail or password is empty; otherwise the address's user name and the roles unchanged |
| AuthMutations.Signup | src/features/auth/hooks/useAuthMutations.ts:56-66 | refused exactly without the terms; otherwise it echoes e-mail, name and roles |
| AuthMutations.SignupSuccessToast | src/features/auth/hooks/useAuthMutations.ts:69-74 | the sign-up toast names the user and dismisses after 4000 ms |
| AuthMutations.OnLoginSuccess | src/features/auth/hooks/useAuthMutations.ts:38-47 | the store is authenticated with the result's name and roles, the requested roles stay, the login toast shows |
| AuthMutations.OnSignupSuccess | src/features/auth/hooks/useAuthMutations.ts:67-75 | only the toast changes: nobody is signed in |
| RoleToggle.Selected | src/features/auth/components/RoleToggle.tsx:18 | the given value, else the store's requested roles |
| RoleToggle.Dedup | src/features/auth/components/RoleToggle.tsx:19 | the same roles, without repeats, no longer than the input, led by the input's first role; with two roles this fixes first-occurrence order |
| RoleToggle.DedupKeepsDistinct | src/features/auth/components/RoleToggle.tsx:19 | a list without repeats is kept as it is, order included |
| RoleToggle.DedupIdempotent | src/features/auth/components/RoleToggle.tsx:19 | de-duplicating twice is de-duplicating once |
| RoleToggle.DedupKeepsFirstOccurrenceOrder | src/features/auth/components/RoleToggle.tsx:19 | for `[editor, distributor, editor]`, the result is `[editor, distributor]`: first occurrence, not the options' order |
| RoleToggle.OnValueChange | src/features/auth/components/RoleToggle.tsx:25-30 | an empty selection is dropped; any other is handed on unchanged |
| AuthStore.AuthStore.constructor | src/shared/store/useAuthStore.ts:17-21 | signed out, requested roles `[distributor]` |
| AuthStore.AuthStore.SetRequestedRoles | src/shared/store/useAuthStore.ts:22-29 | only the requested roles change |
| AuthStore.AuthStore.Authenticate | src/shared/store/useAuthStore.ts:30-39 | signed in with the name and roles; requested roles untouched |
| AuthStore.AuthStore.SignOut | src/shared/store/useAuthStore.ts:40-49 | back to the initial authentication fields from any state; requested roles untouched |
| EditorStore.EditorStore.constructor | src/shared/store/useEditorStore.ts:16-20 | no segment, rate 1, split mode off, no track |
| EditorStore.EditorStore.SetActiveSegment | src/shared/store/useEditorStore.ts:21-22 | only the active segment changes |
| EditorStore.EditorStore.SetPlaybackRate | src/shared/store/useEditorStore.ts:23-24 | only the rate changes, to the value given, unclamped |
| EditorStore.EditorStore.ToggleSplitMode | src/shared/store/useEditorStore.ts:25-26 | only the split mode changes, to its negation, so two toggles restore it |
| EditorStore.EditorStore.SelectTrack | src/shared/store/useEditorStore.ts:27-28 | only the selected track changes |
| VoiceAssign.TrackId | src/features/editor/components/VoiceAssign.tsx:34 | the segment id, `-`, the voice id |
| VoiceAssign.TrackIdInjective | src/features/editor/components/VoiceAssign.tsx:34 | without `-` in segment ids the track id determines segment and voice |
| VoiceAssign.TrackIdAmbiguous | src/features/editor/components/VoiceAssign.tsx:34 | with `-` in a segment id two buttons share a track id |
| VoiceAssign.NextSelection | src/features/editor/components/VoiceAssign.tsx:41 | clicking the selected track clears it; clicking any other selects it |
| VoiceAssign.ClickTwiceClears | src/features/editor/components/VoiceAssign.tsx:41 | two clicks on an unselected track leave nothing selected |
| VoiceAssign.Snippet | src/features/editor/components/VoiceAssign.tsx:28-29 | the text itself up to 26 characters; otherwise its first 26 and `…`; never over 27 |
| AppHeader.ContainerWidthClass | src/features/layout/components/header/AppHeader.tsx:22-24 | `max-w-screen` exactly on paths starting with `/workspace` or `/editor`, else `max-w-6xl` |
| AppHeader.WideLayoutIsAPrefixTest | src/features/layout/components/header/AppHeader.tsx:22-23 | any path starting with those words is wide |
| AppHeader.FirstChars | src/features/layout/components/header/AppHeader.tsx:28-29 | at most one character per word |
| AppHeader.FirstCharsSkipsEmptyWords | src/features/layout/components/header/AppHeader.tsx:28-29 | empty words, whose `word[0]` is `undefined`, contribute nothing: the result is that of the non-empty words alone |
| AppHeader.FirstCharsOfNonEmpty | src/features/layout/components/header/AppHeader.tsx:28-29 | for non-empty words, exactly the first character of each |
| AppHeader.Initials | src/features/layout/components/header/AppHeader.tsx:25-31 | `DP` without a name; otherwise at most two upper-cased first letters of the space-separated words |
| AppHeader.EmptyNameHasNoInitials | src/features/layout/components/header/AppHeader.tsx:25-31 | the empty name gives no initials rather than `DP` |
| AppHeader.TwoWordInitials | src/features/layout/components/header/AppHeader.tsx:26-30 | a two-word name gives its two first letters, upper-cased |
| SideNav.QueryPart | src/widgets/sidenav/WorkspaceSideNav.tsx:34 | there is a query part exactly when the link has a `?` |
| SideNav.QueryPartAfterMark | src/widgets/sidenav/WorkspaceSideNav.tsx:34 | the query part of `path?query` is `query` |
| SideNav.NothingActiveElsewhere | src/widgets/sidenav/WorkspaceSideNav.tsx:33 | no item is highlighted off `/workspace` |
| SideNav.ProjectsItemAlwaysActive | src/widgets/sidenav/WorkspaceSideNav.tsx:8-12 | the projects item is highlighted on every workspace visit, so with a section item too |
| SideNav.VoicesItemFollowsSearch | src/widgets/sidenav/WorkspaceSideNav.tsx:13-17 | the voices item is highlighted exactly when the search contains `section=voices` |
| SideNav.GlossaryItemFollowsSearch | src/widgets/sidenav/WorkspaceSideNav.tsx:18-22 | the glossary item is highlighted exactly when the search contains `section=glossary` |
| ApiClient.AuthorizationValue | src/shared/api/client.tsx:28 | `Bearer` followed directly by the token |
| ApiClient.NoSpaceAfterBearer | src/shared/api/client.tsx:28 | there is no space between `Bearer` and the token |
| ApiClient.RequestHeaders.BeforeRequest | src/shared/api/client.tsx:23-29 | `Accept` and `Content-Type` become JSON; `Authorization` is set exactly for a stored non-empty token; every other header is kept |
| ApiClient.OkResponsesAreNotLogged | src/shared/api/client.tsx:35-37 | a successful response is never logged |
| ApiClient.FailedResponsesLoggedFromStatus500 | src/shared/api/client.tsx:35-37 | a failed response is logged exactly when its status is 500 or more |
| ApiClient.RetryDelay | src/shared/api/client.tsx:46 | the delay never exceeds 5000 ms |
| ApiClient.RetryDelayValues | src/shared/api/client.tsx:46 | 1000, 2000, 4000, then 5000 from the fourth attempt on |
| ApiClient.RetryDelayMonotone | src/shared/api/client.tsx:46 | a later attempt never waits less |
| MockHandlers.Summary | src/shared/api/msw/handlers.ts:10-20 | the list row copies exactly the nine summary fields |
| MockHandlers.ListProjects | src/shared/api/msw/handlers.ts:9-22 | one row per sample, in the samples' order |
| MockHandlers.FindProject | src/shared/api/msw/handlers.ts:26 | the first sample with the id, or none exactly when no sample has it |
| MockHandlers.GetProject | src/shared/api/msw/handlers.ts:25-31 | a 404 `Not found` exactly for an unknown id; otherwise the first sample with that id |
| MockHandlers.PlaybackOf | src/shared/api/msw/handlers.ts:45-49 | the first asset's duration or 0, the first target language, rate 1 |
| MockHandlers.GetEditorState | src/shared/api/msw/handlers.ts:33-50 | a 404 `Editor state not found` exactly for an unknown id; otherwise the project's id and targets, the fixed samples and its playback |
| MockHandlers.EditorSamplesIndependentOfId | src/shared/api/msw/handlers.ts:42-44 | segments and voices do not depend on the project asked for |
| MockHandlers.ListedProjectsCanBeFetched | src/shared/api/msw/handlers.ts:9-31 | every listed project can be fetched under its id |
| Utils.FormatPercent | src/shared/lib/utils.ts:8-10 | the decimal form of the integer followed by `%` |
| Utils.FormatPercentInjective | src/shared/lib/utils.ts:8-10 | different integers give different texts |
| Utils.TwoDigits | src/shared/lib/utils.ts:15 | two digits whose value is the number |
| Utils.Clock | src/shared/lib/utils.ts:15 | five characters, a colon at index 2, two two-digit fields |
| Utils.ClockRoundTrip | src/shared/lib/utils.ts:15 | both fields read back to their numbers |
| Utils.SecondsToTimestamp | src/shared/lib/utils.ts:12-16 | fails exactly past the last representable second; `mm:ss` of the duration up to the year 9999; `hh:mm` with a six-digit year |
| Utils.HoursDropped | src/shared/lib/utils.ts:15 | a duration and the same duration an hour longer read the same |
| ProgressBar.WidthPercent | src/shared/ui/Progress.tsx:13 | always within 0..100, the identity inside, 0 below and 100 above |
| ProgressBar.WidthIdempotent | src/shared/ui/Progress.tsx:13 | clamping twice is clamping once |
| ProgressBar.WidthMonotone | src/shared/ui/Progress.tsx:13 | a larger value never gives a narrower bar |
| ModalTypes.TenthsOfMebibyte | src/features/projects/modals/useProjectCreationModal.ts:51 | the size in tenths of a mebibyte, within half a tenth |
| ModalTypes.MegabytesLabel | src/features/projects/modals/useProjectCreationModal.ts:51 | digits, a point and one decimal, reading back as the tenths of a mebibyte |
| JsString.Trim | src/features/projects/modals/steps/SourceSelectionStep.tsx:36 | the infix left after removing leading and trailing white space: it neither starts nor ends with white space, and everything before and after it is white space; empty exactly for all-space input |
| JsString.TrimIdempotent | src/pages/projects/ProjectsListPage.tsx:24 | trimming twice is trimming once |
| JsString.Includes | src/pages/projects/ProjectsListPage.tsx:31 | true exactly when the needle occurs at some offset |
| JsString.Split | src/features/auth/hooks/useAuthMutations.ts:34 | at least one piece, none holding the separator, joining back to the input |
| JsString.SplitUnique | src/features/layout/components/header/AppHeader.tsx:27 | the split is the only separator-free cutting that joins back |
| JsString.NatToDecimalRoundTrip | src/shared/lib/utils.ts:9 | the printed digits read back as the number |
| JsString.IntToDecimalInjective | src/shared/lib/utils.ts:9 | different integers print differently |

## Left out

- The transport is not modelled: `EventSource` (the server-sent events of the HTML Living Standard), `JSON.parse`, ky's HTTP and retry engine, react-query, `uploadFile` and the storage hooks. A stream message arrives already parsed, and each backend call is a success flag.
- Timers are not modelled: the 400 ms delay before the wizard closes (an event, `FinishScheduled`), the toast auto-dismiss, the 800 ms mutation delay and the 300 ms analytics timer.
- `trackEvent` analytics and `console` logging are not modelled. `ApiClient.LogsServerError` only states when the client logs.
- React render semantics are not modelled: effect order, re-render loops, selector identity, and the `onAction` toast callback.
- The stale `draft` captured by `handleDetailsSubmit` is not modelled. Each method reads the current draft.
- Tokens that name `Object.prototype` members (such as `constructor`) are not modelled. The workspace page's `stepMap` lookup and the group-by accumulator would find an inherited value for them. The model treats such a token as unmapped and such a language as an ordinary key.
- UploadProgress.DecodeEvent: a `stage` that is not one of the eight stage names is read as absent. This covers other strings, numbers, booleans, arrays and objects. The source's `??` passes any non-null value through and stores it unchecked, and the default message looked up for such a stage is `undefined`.
- UploadProgress.DecodeEvent: a `status` that is not a string is read as absent. The source would use any non-null value.
- Numbers are integers throughout: the progress value, the speaker count and the percentage. `Math.round` therefore leaves them alone. `z.coerce.number()` is not modelled.
- Utils.FormatPercent: prints every integer in plain decimal; the source's `${value}%` switches to exponent notation once the magnitude reaches 1e21.
- Dates are integers as well: `dueDate` and `createdAt` are the timestamps that `Date` parsing yields. The parsing itself, an invalid date's `NaN` in the sort comparator, `toLocaleString` and `toISOString` internals are not modelled.
- SecondsToTimestamp: it takes a natural number of seconds and a process time zone of UTC. Negative and fractional inputs are not modelled.
- The megabyte labels are exact for file sizes below 2^53 bytes. The floating-point division behind `toFixed(1)` is not modelled beyond that.
- The e-mail rule of the validation library is a parameter, and `toLowerCase`/`toUpperCase` act on ASCII letters only.
- String lengths count characters, not UTF-16 code units, so a title of one astral character has length 1 here.
- Query strings are maps from a name to one value. Repeated parameters and parameter order are not modelled.
- Headers are a map with case-sensitive names.
- The mock API's sample projects, segments, voices and glossaries are parameters, not their literal contents.
- The retry engine's limit of 3 retries is not modelled. `RetryDelay` is stated for every attempt number.
- The playback-rate nudges of the waveform editor, rendering, styling and the page components around the modelled logic are not modelled.
- The login and sign-up forms' `handleRoleChange` is not modelled separately. It only writes the form's role value, which `RoleToggle.OnValueChange` hands on.
- The header's sign-out handler is not modelled separately. It calls `AuthStore.AuthStore.SignOut` and then navigates, and navigation is outside the model.
- HandleFileUpload: the three awaited calls run as one uninterrupted step. A close of the wizard or a stream message cannot fall between them, so the model does not show a close during an upload, after which the remaining checkpoints write into the freshly reset tracker and `finishCreation` still runs.
- HandleRegisterYoutube: the awaited registration runs as one uninterrupted step. A stream message cannot arrive between the two progress writes, so the model does not show the final write of 5 overwriting a larger progress the stream has already reported.
- HandleDetailsSubmit: the creation request and the follow-up flow run as one uninterrupted step, with the same consequences as for the two flows it calls.
