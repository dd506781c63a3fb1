/** The project entities the pages and the mock API exchange. Dates are integer timestamps. */
module ProjectTypes {
  import opened Wrappers

  datatype ProjectStatus = Processing | Editing | Review | Done

  datatype AssetType = Video | Subtitle

  /** A row of the project list. `dueDate` and `createdAt` are the timestamps the page's
      `Date` parsing yields; an absent `createdAt` is `None`. */
  datatype ProjectSummary = ProjectSummary(
    id: string,
    title: string,
    sourceLanguage: string,
    targetLanguages: seq<string>,
    status: ProjectStatus,
    progress: int,
    dueDate: int,
    assignedEditor: Option<string>,
    createdAt: Option<int>)

  datatype ProjectAsset = ProjectAsset(
    id: string,
    language: string,
    assetType: AssetType,
    url: string,
    duration: int,
    codec: string,
    resolution: string,
    sizeMb: real)

  /** A project with its assets. `videoSource` is the `video_source` field the language panel
      reads although the declared type does not list it. */
  datatype ProjectDetail = ProjectDetail(
    id: string,
    title: string,
    sourceLanguage: string,
    targetLanguages: seq<string>,
    status: ProjectStatus,
    progress: int,
    dueDate: int,
    assignedEditor: Option<string>,
    description: Option<string>,
    createdAt: int,
    glossaryName: Option<string>,
    speakerCount: int,
    assets: seq<ProjectAsset>,
    notes: Option<string>,
    videoSource: Option<string>)
}
