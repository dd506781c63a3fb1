/** The application's paths and the query key of the project-creation wizard. */
module Routes {
  import opened Wrappers
  import opened JsString

  const Home := "/"
  const Login := "/auth/login"
  const Signup := "/auth/signup"
  const Workspace := "/workspace"
  const Projects := "/projects"

  /** The query parameter that carries the wizard's step. */
  const CreateStepKey := "create"

  const ProjectDetailPrefix := Projects + "/"
  const EditorPrefix := "/editor/"

  /** `/projects/${id}` */
  function ProjectDetail(id: string): (path: string)
    ensures StartsWith(path, ProjectDetailPrefix)
    ensures path[|ProjectDetailPrefix|..] == id
  {
    ProjectDetailPrefix + id
  }

  /** `/editor/${id}` */
  function Editor(id: string): (path: string)
    ensures StartsWith(path, EditorPrefix)
    ensures path[|EditorPrefix|..] == id
  {
    EditorPrefix + id
  }

  /** The id a path under `prefix` names, when it is under `prefix`. */
  function IdAfter(prefix: string, path: string): (id: Option<string>)
    ensures id.Some? <==> StartsWith(path, prefix)
    ensures id.Some? ==> prefix + id.value == path
  {
    if StartsWith(path, prefix) then
      assert prefix + path[|prefix|..] == path[..|prefix|] + path[|prefix|..];
      Some(path[|prefix|..])
    else None
  }

  /** Stripping the fixed prefix gives back the id. */
  lemma ProjectDetailRoundTrip(id: string)
    ensures IdAfter(ProjectDetailPrefix, ProjectDetail(id)) == Some(id)
  {
  }

  lemma EditorRoundTrip(id: string)
    ensures IdAfter(EditorPrefix, Editor(id)) == Some(id)
  {
  }

  lemma ProjectDetailInjective(a: string, b: string)
    requires ProjectDetail(a) == ProjectDetail(b)
    ensures a == b
  {
    ProjectDetailRoundTrip(a);
    ProjectDetailRoundTrip(b);
  }

  lemma EditorInjective(a: string, b: string)
    requires Editor(a) == Editor(b)
    ensures a == b
  {
    EditorRoundTrip(a);
    EditorRoundTrip(b);
  }

  /** A project page and an editor page never share a path. */
  lemma DetailAndEditorPathsDiffer(a: string, b: string)
    ensures ProjectDetail(a) != Editor(b)
  {
    assert ProjectDetail(a)[1] == 'p' && Editor(b)[1] == 'e';
  }
}
