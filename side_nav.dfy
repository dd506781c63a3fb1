/** The workspace side navigation: which of its three links is highlighted. */
module SideNav {
  import opened Wrappers
  import opened JsString
  import opened Routes

  const ProjectsItem := Workspace
  const VoicesItem := Workspace + "?section=voices"
  const GlossaryItem := Workspace + "?section=glossary"

  /** `to.split('?')[1]`: the text after the first `?`, up to a second one. */
  function QueryPart(to: string): (q: Option<string>)
    ensures q.None? <==> '?' !in to
  {
    var parts := Split(to, '?');
    if |parts| > 1 then Some(parts[1])
    else
      assert Join(parts, ['?']) == parts[0];
      None
  }

  lemma QueryPartOfPlainPath(path: string)
    requires '?' !in path
    ensures QueryPart(path) == None
  {
  }

  lemma QueryPartAfterMark(path: string, query: string)
    requires '?' !in path && '?' !in query
    ensures QueryPart(path + "?" + query) == Some(query)
  {
    var parts := [path, query];
    assert Join(parts, ['?']) == path + "?" + query by {
      assert parts[1..] == [query];
    }
    SplitUnique(path + "?" + query, '?', parts);
  }

  /** An item is highlighted on the workspace path when the search string contains its
      query part; an item without one counts as matching every search. */
  predicate IsActive(pathname: string, search: string, to: string) {
    pathname == Workspace && Includes(search, QueryPart(to).GetOr(""))
  }

  /** Off the workspace path nothing is highlighted. */
  lemma NothingActiveElsewhere(pathname: string, search: string, to: string)
    requires pathname != Workspace
    ensures !IsActive(pathname, search, to)
  {
  }

  /** The projects item is highlighted on every workspace visit, so together with a
      section item when one is open. */
  lemma ProjectsItemAlwaysActive(search: string)
    ensures IsActive(Workspace, search, ProjectsItem)
  {
    assert '?' !in Workspace;
    QueryPartOfPlainPath(Workspace);
    IncludesEmpty(search);
  }

  /** The voices and glossary items follow their section in the search string. */
  lemma VoicesItemFollowsSearch(search: string)
    ensures IsActive(Workspace, search, VoicesItem) <==> Includes(search, "section=voices")
  {
    assert '?' !in Workspace;
    assert '?' !in "section=voices";
    assert VoicesItem == Workspace + "?" + "section=voices";
    QueryPartAfterMark(Workspace, "section=voices");
  }

  lemma GlossaryItemFollowsSearch(search: string)
    ensures IsActive(Workspace, search, GlossaryItem) <==> Includes(search, "section=glossary")
  {
    assert '?' !in Workspace;
    assert '?' !in "section=glossary";
    assert GlossaryItem == Workspace + "?" + "section=glossary";
    QueryPartAfterMark(Workspace, "section=glossary");
  }
}
