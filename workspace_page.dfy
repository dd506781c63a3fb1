/** The workspace page's two-way link between the `create` query parameter and the wizard's
    open flag and step. The query is a map from parameter names to their (first) values. */
module WorkspacePage {
  import opened Wrappers
  import opened UiStore
  import opened Routes

  type Query = map<string, string>

  /** `stepMap`: the URL tokens and the steps they stand for. */
  function StepForToken(token: string): (step: Option<ProjectCreationStep>)
    ensures step.Some? ==> step.value in {Upload, SettingsA, SettingsB}
  {
    if token == "upload" then Some(Upload)
    else if token == "settings" then Some(SettingsA)
    else if token == "assign" then Some(SettingsB)
    else None
  }

  /** The first entry of `stepMap` whose value is `step`. */
  function TokenForStep(step: ProjectCreationStep): (token: Option<string>)
    ensures token.Some? <==> step in {Upload, SettingsA, SettingsB}
  {
    match step
    case Upload => Some("upload")
    case SettingsA => Some("settings")
    case SettingsB => Some("assign")
    case _ => None
  }

  /** The two lookups are inverse to each other on the mapped steps. */
  lemma TokenStepRoundTrip(token: string, step: ProjectCreationStep)
    ensures StepForToken(token) == Some(step) <==> TokenForStep(step) == Some(token)
  {
  }

  /** `source` and `details` have no token, so the URL cannot carry them. */
  lemma WizardStepsHaveNoToken(token: string)
    ensures StepForToken(token) != Some(Source) && StepForToken(token) != Some(Details)
    ensures TokenForStep(Source) == None && TokenForStep(Details) == None
  {
  }

  /** `searchParams.get('create')` is truthy: present and not empty. */
  predicate HasStepParam(q: Query) {
    CreateStepKey in q && q[CreateStepKey] != ""
  }

  /** `derivedStep` */
  function DerivedStep(q: Query): (step: Option<ProjectCreationStep>)
    ensures step.Some? ==> HasStepParam(q) && StepForToken(q[CreateStepKey]) == step
    ensures HasStepParam(q) ==> step == StepForToken(q[CreateStepKey])
  {
    if HasStepParam(q) then StepForToken(q[CreateStepKey]) else None
  }

  /** The query the second effect writes back for the store's open flag and step. */
  function SyncedQuery(prev: Query, open: bool, step: ProjectCreationStep): (next: Query)
    ensures !open ==> CreateStepKey !in next
    ensures open && TokenForStep(step).Some? ==>
      CreateStepKey in next && next[CreateStepKey] == TokenForStep(step).value
    ensures open && TokenForStep(step).None? ==> next == prev
    ensures forall k :: k != CreateStepKey ==> (k in next <==> k in prev)
    ensures forall k :: k != CreateStepKey && k in prev ==> next[k] == prev[k]
  {
    if !open then prev - {CreateStepKey}
    else
      match TokenForStep(step)
      case Some(token) => prev[CreateStepKey := token]
      case None => prev
  }

  /** A step written to the URL is the step read back from it. */
  lemma SyncThenDerive(prev: Query, step: ProjectCreationStep)
    requires TokenForStep(step).Some?
    ensures DerivedStep(SyncedQuery(prev, true, step)) == Some(step)
  {
    TokenStepRoundTrip(TokenForStep(step).value, step);
  }

  /** A closed wizard leaves no step in the URL, so reading it back closes the wizard. */
  lemma ClosedSyncClears(prev: Query, step: ProjectCreationStep)
    ensures !HasStepParam(SyncedQuery(prev, false, step))
    ensures DerivedStep(SyncedQuery(prev, false, step)) == None
  {
  }

  /** At `source` or `details` the URL keeps whatever token it had, so reloading the page
      opens the wizard at the earlier mapped step, or not at all. */
  lemma DetailsStepIsNotRestorable(prev: Query)
    ensures DerivedStep(SyncedQuery(prev, true, Details)) == DerivedStep(prev)
    ensures DerivedStep(SyncedQuery(prev, true, Source)) == DerivedStep(prev)
  {
  }

  /** After the store has taken the URL's mapped step, syncing leaves the URL as it is. */
  lemma RestoredStepIsStable(q: Query)
    requires DerivedStep(q).Some?
    ensures SyncedQuery(q, true, DerivedStep(q).value) == q
  {
    var step := DerivedStep(q).value;
    TokenStepRoundTrip(q[CreateStepKey], step);
    assert q[CreateStepKey := q[CreateStepKey]] == q;
  }

  /** The first and third effects: a mapped token opens the wizard at its step, and a
      missing or empty parameter closes it. */
  method ApplyQuery(ui: UiStore, q: Query)
    modifies ui`projectCreation
    ensures DerivedStep(q).Some? ==> ui.projectCreation == ProjectCreationState(true, DerivedStep(q).value)
    ensures !HasStepParam(q) ==> ui.projectCreation == ClosedProjectCreation
    ensures HasStepParam(q) && DerivedStep(q).None? ==> ui.projectCreation == old(ui.projectCreation)
    ensures ui.activeToast == old(ui.activeToast)
  {
    var derived := DerivedStep(q);
    if derived.Some? {
      ui.OpenProjectCreation(derived);
    }
    if !HasStepParam(q) {
      ui.CloseProjectCreation();
    }
  }
}
