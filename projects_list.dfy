/** The project list page's view: a text search, one of three sort orders, and a tab that
    shows either the finished projects or the rest. */
module ProjectsList {
  import opened Seqs
  import opened JsString
  import opened ProjectTypes

  datatype SortKey = Recent | DueDate | ProgressKey

  /** The text a query is looked up in: title, source and target languages joined by spaces,
      lower-cased. */
  function SearchText(p: ProjectSummary): string {
    ToLower(Join([p.title, p.sourceLanguage] + p.targetLanguages, " "))
  }

  /** The query as the page compares it: trimmed and lower-cased. */
  function NormalizedQuery(query: string): string {
    ToLower(Trim(query))
  }

  predicate MatchesQuery(p: ProjectSummary, query: string) {
    |NormalizedQuery(query)| == 0 || Includes(SearchText(p), NormalizedQuery(query))
  }

  /** The search step: the projects whose text contains the query, in their order. */
  function SearchProjects(projects: seq<ProjectSummary>, query: string): (r: seq<ProjectSummary>)
    ensures forall p :: p in r <==> p in projects && MatchesQuery(p, query)
    ensures IsSubsequence(r, projects)
    ensures forall p :: multiset(r)[p] == if MatchesQuery(p, query) then multiset(projects)[p] else 0
  {
    FilterIsSubsequence(projects, p => MatchesQuery(p, query));
    FilterCounts(projects, p => MatchesQuery(p, query));
    Filter(projects, p => MatchesQuery(p, query))
  }

  /** A blank query, even one of spaces only, keeps every project. */
  lemma BlankQueryKeepsAll(projects: seq<ProjectSummary>, query: string)
    requires Trim(query) == ""
    ensures SearchProjects(projects, query) == projects
  {
    FilterKeepsAll(projects, p => MatchesQuery(p, query));
  }

  /** The number a project sorts by, smallest first: progress descending, due date
      ascending, creation time descending with an absent creation time counted as 0. */
  function Rank(p: ProjectSummary, key: SortKey): int {
    match key
    case ProgressKey => -p.progress
    case DueDate => p.dueDate
    case Recent => -(if p.createdAt.Some? then p.createdAt.value else 0)
  }

  /** Under `recent`, a project without a creation time sorts after every project created
      later than the epoch. */
  lemma MissingCreationSortsLast(a: ProjectSummary, b: ProjectSummary)
    requires a.createdAt.None? && b.createdAt.Some? && b.createdAt.value > 0
    ensures Rank(b, Recent) < Rank(a, Recent)
  {
  }

  predicate SortedBy(s: seq<ProjectSummary>, key: SortKey) {
    forall i, j :: 0 <= i < j < |s| ==> Rank(s[i], key) <= Rank(s[j], key)
  }

  /** The projects of rank `k`, in order. */
  function WithRank(s: seq<ProjectSummary>, key: SortKey, k: int): (r: seq<ProjectSummary>)
    ensures |r| <= |s|
  {
    if s == [] then []
    else if Rank(s[0], key) == k then [s[0]] + WithRank(s[1..], key, k)
    else WithRank(s[1..], key, k)
  }

  /** Puts `x` in front of the first project that does not rank below it. */
  function Insert(x: ProjectSummary, s: seq<ProjectSummary>, key: SortKey): (r: seq<ProjectSummary>)
    ensures multiset(r) == multiset{x} + multiset(s)
    ensures |r| == |s| + 1
    ensures forall y :: y in r <==> y == x || y in s
  {
    if s == [] || Rank(x, key) <= Rank(s[0], key) then [x] + s
    else
      assert s == [s[0]] + s[1..];
      [s[0]] + Insert(x, s[1..], key)
  }

  lemma {:induction false} InsertSorted(x: ProjectSummary, s: seq<ProjectSummary>, key: SortKey)
    requires SortedBy(s, key)
    ensures SortedBy(Insert(x, s, key), key)
  {
    if s != [] && Rank(x, key) > Rank(s[0], key) {
      assert SortedBy(s[1..], key);
      InsertSorted(x, s[1..], key);
      var t := Insert(x, s[1..], key);
      forall j | 0 <= j < |t|
        ensures Rank(s[0], key) <= Rank(t[j], key)
      {
        assert t[j] in t;
        if t[j] != x {
          assert t[j] in s[1..];
          var i :| 0 <= i < |s[1..]| && s[1..][i] == t[j];
          assert s[i + 1] == t[j];
        }
      }
    }
  }

  /** Projects of the same rank as `x` all come after it; the others are untouched. */
  lemma {:induction false} InsertWithRank(x: ProjectSummary, s: seq<ProjectSummary>, key: SortKey, k: int)
    ensures WithRank(Insert(x, s, key), key, k) ==
      (if Rank(x, key) == k then [x] + WithRank(s, key, k) else WithRank(s, key, k))
  {
    if s == [] || Rank(x, key) <= Rank(s[0], key) {
      assert ([x] + s)[1..] == s;
    } else {
      InsertWithRank(x, s[1..], key, k);
      assert ([s[0]] + Insert(x, s[1..], key))[1..] == Insert(x, s[1..], key);
    }
  }

  /** `list.slice().sort(comparator)`: a stable sort by rank. */
  function SortProjects(s: seq<ProjectSummary>, key: SortKey): (r: seq<ProjectSummary>)
    ensures multiset(r) == multiset(s) && |r| == |s|
  {
    if s == [] then []
    else
      assert s == [s[0]] + s[1..];
      Insert(s[0], SortProjects(s[1..], key), key)
  }

  lemma {:induction false} SortProjectsSorted(s: seq<ProjectSummary>, key: SortKey)
    ensures SortedBy(SortProjects(s, key), key)
  {
    if s != [] {
      SortProjectsSorted(s[1..], key);
      InsertSorted(s[0], SortProjects(s[1..], key), key);
    }
  }

  /** Stability: projects that compare equal keep their order. */
  lemma {:induction false} SortProjectsStable(s: seq<ProjectSummary>, key: SortKey, k: int)
    ensures WithRank(SortProjects(s, key), key, k) == WithRank(s, key, k)
  {
    if s != [] {
      SortProjectsStable(s[1..], key, k);
      InsertWithRank(s[0], SortProjects(s[1..], key), key, k);
    }
  }

  predicate IsDone(p: ProjectSummary) {
    p.status == Done
  }

  /** The `done` tab shows the finished projects; every other tab shows the rest. */
  function TabProjects(s: seq<ProjectSummary>, tab: string): (r: seq<ProjectSummary>)
    ensures tab == "done" ==> forall p :: p in r <==> p in s && IsDone(p)
    ensures tab != "done" ==> forall p :: p in r <==> p in s && !IsDone(p)
  {
    if tab == "done" then Filter(s, IsDone) else Filter(s, p => !IsDone(p))
  }

  /** The two tabs split the list between them. */
  lemma TabsPartition(s: seq<ProjectSummary>, other: string)
    requires other != "done"
    ensures multiset(TabProjects(s, "done")) + multiset(TabProjects(s, other)) == multiset(s)
  {
    FilterPartition(s, IsDone, p => !IsDone(p));
  }

  /** `filteredProjects` */
  function FilteredProjects(projects: seq<ProjectSummary>, query: string, key: SortKey, tab: string): seq<ProjectSummary> {
    TabProjects(SortProjects(SearchProjects(projects, query), key), tab)
  }

  /** Everything shown is a project of the input that matches the query and the tab, and
      every such project is shown. */
  lemma FilteredProjectsContents(projects: seq<ProjectSummary>, query: string, key: SortKey, tab: string)
    ensures forall p :: p in FilteredProjects(projects, query, key, tab) <==>
      p in projects && MatchesQuery(p, query) && (IsDone(p) <==> tab == "done")
  {
    var found := SearchProjects(projects, query);
    var sorted := SortProjects(found, key);
    assert forall p :: p in sorted <==> p in multiset(found);
  }

  /** The shown list is in sort order. */
  lemma FilteredProjectsSorted(projects: seq<ProjectSummary>, query: string, key: SortKey, tab: string)
    ensures SortedBy(FilteredProjects(projects, query, key, tab), key)
  {
    var sorted := SortProjects(SearchProjects(projects, query), key);
    SortProjectsSorted(SearchProjects(projects, query), key);
    if tab == "done" {
      FilterIsSubsequence(sorted, IsDone);
    } else {
      FilterIsSubsequence(sorted, p => !IsDone(p));
    }
    SubsequenceSorted(FilteredProjects(projects, query, key, tab), sorted, key);
  }

  lemma {:induction false} SubsequenceSorted(a: seq<ProjectSummary>, b: seq<ProjectSummary>, key: SortKey)
    requires IsSubsequence(a, b) && SortedBy(b, key)
    ensures SortedBy(a, key)
  {
    if a != [] {
      assert SortedBy(b[1..], key);
      if a[0] == b[0] && IsSubsequence(a[1..], b[1..]) {
        SubsequenceSorted(a[1..], b[1..], key);
        SubsequenceElements(a[1..], b[1..]);
        forall j | 0 < j < |a| ensures Rank(a[0], key) <= Rank(a[j], key) {
          assert a[j] == a[1..][j - 1];
          assert a[j] in b[1..];
          var i :| 0 <= i < |b[1..]| && b[1..][i] == a[j];
          assert b[i + 1] == a[j];
        }
      } else {
        SubsequenceSorted(a, b[1..], key);
      }
    }
  }

  lemma {:induction false} SubsequenceElements(a: seq<ProjectSummary>, b: seq<ProjectSummary>)
    requires IsSubsequence(a, b)
    ensures forall x :: x in a ==> x in b
  {
    if a != [] {
      if a[0] == b[0] && IsSubsequence(a[1..], b[1..]) {
        SubsequenceElements(a[1..], b[1..]);
        assert a == [a[0]] + a[1..];
      } else {
        SubsequenceElements(a, b[1..]);
      }
      assert b == [b[0]] + b[1..];
    }
  }
}
