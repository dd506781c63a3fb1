/** The global UI store: the one toast on screen and the project-creation wizard's open flag
    and step. */
module UiStore {
  import opened Wrappers

  /** The wizard steps. The declared type names the first three; the wizard also writes
      `source` and `details`, and the store keeps whatever it is given. */
  datatype ProjectCreationStep = Upload | SettingsA | SettingsB | Source | Details

  /** A toast. The `onAction` callback is not modelled. */
  datatype ToastPayload = ToastPayload(
    id: string,
    title: Option<string>,
    description: Option<string>,
    actionLabel: Option<string>,
    autoDismiss: Option<int>)

  datatype ProjectCreationState = ProjectCreationState(open: bool, step: ProjectCreationStep)

  const ClosedProjectCreation := ProjectCreationState(false, Upload)

  class UiStore {
    var activeToast: Option<ToastPayload>
    var projectCreation: ProjectCreationState

    constructor()
      ensures activeToast == None
      ensures projectCreation == ClosedProjectCreation
    {
      activeToast := None;
      projectCreation := ClosedProjectCreation;
    }

    /** Replaces whatever toast is showing. */
    method ShowToast(toast: ToastPayload)
      modifies this`activeToast
      ensures activeToast == Some(toast)
      ensures projectCreation == old(projectCreation)
    {
      activeToast := Some(toast);
    }

    /** Removes the toast only when it is the one named. */
    method DismissToast(id: string)
      modifies this`activeToast
      ensures old(activeToast).Some? && old(activeToast).value.id == id ==> activeToast == None
      ensures !(old(activeToast).Some? && old(activeToast).value.id == id) ==> activeToast == old(activeToast)
      ensures projectCreation == old(projectCreation)
    {
      if activeToast.Some? && activeToast.value.id == id {
        activeToast := None;
      }
    }

    /** Opens the wizard at the given step, `upload` when none is given. */
    method OpenProjectCreation(step: Option<ProjectCreationStep>)
      modifies this`projectCreation
      ensures projectCreation == ProjectCreationState(true, step.GetOr(Upload))
      ensures activeToast == old(activeToast)
    {
      projectCreation := ProjectCreationState(true, step.GetOr(Upload));
    }

    /** Closes the wizard and rewinds its step to `upload`. */
    method CloseProjectCreation()
      modifies this`projectCreation
      ensures projectCreation == ClosedProjectCreation
      ensures activeToast == old(activeToast)
    {
      projectCreation := ClosedProjectCreation;
    }

    /** Changes the step and keeps the open flag. */
    method SetProjectCreationStep(step: ProjectCreationStep)
      modifies this`projectCreation
      ensures projectCreation == ProjectCreationState(old(projectCreation).open, step)
      ensures activeToast == old(activeToast)
    {
      projectCreation := projectCreation.(step := step);
    }
  }
}
