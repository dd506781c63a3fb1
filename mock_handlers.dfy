/** The mock backend's three read endpoints over a fixed list of sample projects: the
    project list, one project, and the editor state of one project. The samples are
    parameters here. */
module MockHandlers {
  import opened Wrappers
  import opened Seqs
  import opened ProjectTypes
  import opened EditorTypes

  /** A JSON reply, or an error status with its message. */
  datatype Reply<T> = Found(body: T) | Failure(status: int, message: string)

  const NotFoundMessage := "Not found"
  const EditorNotFoundMessage := "Editor state not found"

  /** The list row of a project: its nine summary fields. */
  function Summary(p: ProjectDetail): (s: ProjectSummary)
    ensures s.id == p.id && s.title == p.title && s.sourceLanguage == p.sourceLanguage
    ensures s.targetLanguages == p.targetLanguages && s.status == p.status && s.progress == p.progress
    ensures s.dueDate == p.dueDate && s.assignedEditor == p.assignedEditor && s.createdAt == Some(p.createdAt)
  {
    ProjectSummary(p.id, p.title, p.sourceLanguage, p.targetLanguages, p.status, p.progress,
      p.dueDate, p.assignedEditor, Some(p.createdAt))
  }

  /** `GET /api/projects`: one row per sample, in their order. */
  function ListProjects(samples: seq<ProjectDetail>): (items: seq<ProjectSummary>)
    ensures |items| == |samples|
    ensures forall i :: 0 <= i < |samples| ==> items[i] == Summary(samples[i])
  {
    seq(|samples|, i requires 0 <= i < |samples| => Summary(samples[i]))
  }

  predicate HasId(id: string, p: ProjectDetail) {
    p.id == id
  }

  /** `sampleProjects.find((item) => item.id === id)` */
  function FindProject(samples: seq<ProjectDetail>, id: string): (r: Option<ProjectDetail>)
    ensures r.None? <==> forall i :: 0 <= i < |samples| ==> samples[i].id != id
    ensures r.Some? ==>
      exists i :: 0 <= i < |samples| && samples[i] == r.value && r.value.id == id && forall j :: 0 <= j < i ==> samples[j].id != id
  {
    FindFirst(samples, p => HasId(id, p))
  }

  /** `GET /api/projects/:id`: the first sample with the id, or a 404. */
  function GetProject(samples: seq<ProjectDetail>, id: string): (r: Reply<ProjectDetail>)
    ensures r.Failure? <==> forall p :: p in samples ==> p.id != id
    ensures r.Failure? ==> r.status == 404 && r.message == NotFoundMessage
    ensures r.Found? ==> r.body.id == id && r.body in samples
    ensures r.Found? ==> FindProject(samples, id) == Some(r.body)
  {
    match FindProject(samples, id)
    case Some(p) => Found(p)
    case None => Failure(404, NotFoundMessage)
  }

  datatype Playback = Playback(duration: int, activeLanguage: Option<string>, playbackRate: real)

  datatype EditorState = EditorState(
    projectId: string,
    targetLanguages: seq<string>,
    segments: seq<Segment>,
    voices: seq<VoiceSample>,
    glossaries: seq<Glossary>,
    playback: Playback)

  /** The editor's playback settings for a project: the first asset's duration (0 without
      assets), the first target language, and rate 1. */
  function PlaybackOf(p: ProjectDetail): (pb: Playback)
    ensures p.assets != [] ==> pb.duration == p.assets[0].duration
    ensures p.assets == [] ==> pb.duration == 0
    ensures p.targetLanguages != [] ==> pb.activeLanguage == Some(p.targetLanguages[0])
    ensures p.targetLanguages == [] ==> pb.activeLanguage == None
    ensures pb.playbackRate == 1.0
  {
    Playback(
      if p.assets != [] then p.assets[0].duration else 0,
      if p.targetLanguages != [] then Some(p.targetLanguages[0]) else None,
      1.0)
  }

  /** `GET /api/editor/:id`: a 404 for an unknown id; otherwise the project's id and target
      languages, the fixed sample segments, voices and glossaries, and its playback. */
  function GetEditorState(samples: seq<ProjectDetail>, segments: seq<Segment>, voices: seq<VoiceSample>,
                          glossaries: seq<Glossary>, id: string): (r: Reply<EditorState>)
    ensures r.Failure? <==> GetProject(samples, id).Failure?
    ensures r.Failure? ==> r.status == 404 && r.message == EditorNotFoundMessage
    ensures r.Found? ==> r.body.projectId == id
    ensures r.Found? ==> r.body.segments == segments && r.body.voices == voices && r.body.glossaries == glossaries
    ensures r.Found? ==> r.body.targetLanguages == GetProject(samples, id).body.targetLanguages
    ensures r.Found? ==> r.body.playback == PlaybackOf(GetProject(samples, id).body)
  {
    match FindProject(samples, id)
    case Some(p) => Found(EditorState(p.id, p.targetLanguages, segments, voices, glossaries, PlaybackOf(p)))
    case None => Failure(404, EditorNotFoundMessage)
  }

  /** The segments, voices and glossaries do not depend on which project is asked for. */
  lemma EditorSamplesIndependentOfId(samples: seq<ProjectDetail>, segments: seq<Segment>, voices: seq<VoiceSample>,
                                     glossaries: seq<Glossary>, a: string, b: string)
    requires GetEditorState(samples, segments, voices, glossaries, a).Found?
    requires GetEditorState(samples, segments, voices, glossaries, b).Found?
    ensures GetEditorState(samples, segments, voices, glossaries, a).body.segments ==
      GetEditorState(samples, segments, voices, glossaries, b).body.segments
    ensures GetEditorState(samples, segments, voices, glossaries, a).body.voices ==
      GetEditorState(samples, segments, voices, glossaries, b).body.voices
  {
  }

  /** Every listed project can be fetched, and the fetched one has the listed id. */
  lemma ListedProjectsCanBeFetched(samples: seq<ProjectDetail>, i: nat)
    requires i < |samples|
    ensures GetProject(samples, ListProjects(samples)[i].id).Found?
    ensures GetProject(samples, ListProjects(samples)[i].id).body.id == samples[i].id
  {
    assert samples[i] in samples;
  }
}
