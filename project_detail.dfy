/** The project detail page: assets grouped by language, the language tab shown, the status
    badge's tone, the editor button and the preview player's asset and address. */
module ProjectDetailPage {
  import opened Wrappers
  import opened Seqs
  import opened ProjectTypes
  import opened AuthStore
  import AuthMutations
  import RoleToggle

  /** The assets of one language, in their order: the reference the grouping is checked
      against. */
  function OfLanguage(assets: seq<ProjectAsset>, language: string): seq<ProjectAsset> {
    if assets == [] then []
    else
      var last := assets[|assets| - 1];
      OfLanguage(assets[..|assets| - 1], language) + (if last.language == language then [last] else [])
  }

  /** A group holds the assets of its language and nothing else. */
  lemma {:induction false} OfLanguageMembers(assets: seq<ProjectAsset>, language: string)
    ensures forall a :: a in OfLanguage(assets, language) <==> a in assets && a.language == language
  {
    if assets != [] {
      var init := assets[..|assets| - 1];
      OfLanguageMembers(init, language);
      assert assets == init + [assets[|assets| - 1]];
    }
  }

  /** Each asset occurs in its language's group as often as in the whole list. */
  lemma {:induction false} OfLanguageKeepsCount(assets: seq<ProjectAsset>, a: ProjectAsset)
    ensures multiset(OfLanguage(assets, a.language))[a] == multiset(assets)[a]
  {
    if assets != [] {
      var init := assets[..|assets| - 1];
      OfLanguageKeepsCount(init, a);
      assert assets == init + [assets[|assets| - 1]];
    }
  }

  /** The languages some asset is in. */
  function LanguagesOf(assets: seq<ProjectAsset>): set<string> {
    if assets == [] then {}
    else LanguagesOf(assets[..|assets| - 1]) + {assets[|assets| - 1].language}
  }

  lemma {:induction false} LanguagesOfMembers(assets: seq<ProjectAsset>)
    ensures forall l :: l in LanguagesOf(assets) <==> exists a :: a in assets && a.language == l
  {
    if assets != [] {
      var init := assets[..|assets| - 1];
      LanguagesOfMembers(init);
      assert assets == init + [assets[|assets| - 1]];
    }
  }

  /** A language no asset is in has an empty group. */
  lemma {:induction false} OfOtherLanguage(assets: seq<ProjectAsset>, language: string)
    requires language !in LanguagesOf(assets)
    ensures OfLanguage(assets, language) == []
  {
    if assets != [] {
      OfOtherLanguage(assets[..|assets| - 1], language);
    }
  }

  /** Adds an asset to the end of its language's group, starting the group if need be. */
  function AddToGroup(groups: map<string, seq<ProjectAsset>>, asset: ProjectAsset): (r: map<string, seq<ProjectAsset>>)
    ensures r.Keys == groups.Keys + {asset.language}
  {
    groups[asset.language := (if asset.language in groups then groups[asset.language] else []) + [asset]]
  }

  /** The grouping the page builds, as a value: the assets added one after the other. */
  function Grouped(assets: seq<ProjectAsset>): map<string, seq<ProjectAsset>> {
    if assets == [] then map[]
    else AddToGroup(Grouped(assets[..|assets| - 1]), assets[|assets| - 1])
  }

  /** The grouping has one entry per language, holding that language's assets in order. */
  lemma {:induction false} GroupedIsOfLanguage(assets: seq<ProjectAsset>)
    ensures Grouped(assets).Keys == LanguagesOf(assets)
    ensures forall l :: l in Grouped(assets) ==> Grouped(assets)[l] == OfLanguage(assets, l)
  {
    if assets != [] {
      var init := assets[..|assets| - 1];
      var x := assets[|assets| - 1];
      GroupedIsOfLanguage(init);
      if x.language !in Grouped(init) {
        OfOtherLanguage(init, x.language);
      }
    }
  }

  /** `assetsByLanguage`: the absent project groups nothing; otherwise the `reduce` adds each
      asset to the end of its language's list. */
  method AssetsByLanguage(project: Option<ProjectDetail>) returns (groups: map<string, seq<ProjectAsset>>)
    ensures project.None? ==> groups == map[]
    ensures project.Some? ==> groups == Grouped(project.value.assets)
  {
    groups := map[];
    if project.None? {
      return;
    }
    var assets := project.value.assets;
    for i := 0 to |assets|
      invariant groups == Grouped(assets[..i])
    {
      var asset := assets[i];
      ghost var prev := groups;
      assert assets[..i + 1][..i] == assets[..i] && assets[..i + 1][i] == asset;
      assert Grouped(assets[..i + 1]) == AddToGroup(prev, asset);
      if asset.language in groups {
        groups := groups[asset.language := groups[asset.language] + [asset]];
      } else {
        groups := groups[asset.language := [asset]];
        assert [asset] == [] + [asset];
      }
      assert groups == AddToGroup(prev, asset);
    }
    assert assets[..|assets|] == assets;
  }

  /** Every asset is in the group of its own language, exactly as often as in the project,
      and in no other group. */
  lemma GroupsHoldEachAssetOnce(assets: seq<ProjectAsset>, a: ProjectAsset)
    requires a in assets
    ensures a.language in Grouped(assets)
    ensures multiset(Grouped(assets)[a.language])[a] == multiset(assets)[a]
    ensures forall l :: l in Grouped(assets) && l != a.language ==> a !in Grouped(assets)[l]
  {
    GroupedIsOfLanguage(assets);
    LanguagesOfMembers(assets);
    OfLanguageKeepsCount(assets, a);
    forall l | l in Grouped(assets) && l != a.language
      ensures a !in Grouped(assets)[l]
    {
      OfLanguageMembers(assets, l);
    }
  }

  /** The keys are exactly the languages of the assets. */
  lemma GroupedKeys(assets: seq<ProjectAsset>)
    ensures forall l :: l in Grouped(assets) <==> exists a :: a in assets && a.language == l
  {
    GroupedIsOfLanguage(assets);
    LanguagesOfMembers(assets);
  }

  /** `language ?? project.targetLanguages[0] ?? project.sourceLanguage` */
  function ActiveLanguage(chosen: Option<string>, project: ProjectDetail): (l: string)
    ensures chosen.Some? ==> l == chosen.value
    ensures chosen.None? && project.targetLanguages != [] ==> l == project.targetLanguages[0]
    ensures chosen.None? && project.targetLanguages == [] ==> l == project.sourceLanguage
  {
    match chosen
    case Some(language) => language
    case None => if project.targetLanguages != [] then project.targetLanguages[0] else project.sourceLanguage
  }

  /** Until a tab is chosen the first target language is shown, so it is one of the tabs
      whenever there is any tab. */
  lemma DefaultLanguageIsATab(project: ProjectDetail)
    requires project.targetLanguages != []
    ensures ActiveLanguage(None, project) in project.targetLanguages
  {
  }

  datatype Tone = DoneTone | ReviewTone | EditingTone | ProcessingTone

  /** The status badge's tone. */
  function StatusTone(status: ProjectStatus): (t: Tone)
    ensures t == DoneTone <==> status == Done
    ensures t == ReviewTone <==> status == Review
    ensures t == EditingTone <==> status == Editing
    ensures t == ProcessingTone <==> status == Processing
  {
    match status
    case Done => DoneTone
    case Review => ReviewTone
    case Editing => EditingTone
    case _ => ProcessingTone
  }

  /** The edit button is there exactly for editors. */
  predicate ShowsEditButton(roles: seq<UserRole>) {
    Editor in roles
  }

  /** Nobody signed in sees the edit button. */
  lemma SignedOutHidesEditButton(store: AuthStore)
    requires store.SignedOut()
    ensures !ShowsEditButton(store.roles)
  {
  }

  /** After a sign-in the button is there exactly when the editor role was asked for. */
  lemma EditButtonAfterLogin(c: AuthMutations.Credentials)
    requires AuthMutations.Login(c).Ok?
    ensures ShowsEditButton(AuthMutations.Login(c).value.roles) <==> Editor in c.roles
  {
  }

  /** The role picker's de-duplication never changes the gate. */
  lemma EditButtonIgnoresRoleRepeats(roles: seq<UserRole>)
    ensures ShowsEditButton(RoleToggle.Dedup(roles)) <==> ShowsEditButton(roles)
  {
  }

  predicate IsVideo(a: ProjectAsset) {
    a.assetType == Video
  }

  /** The asset the preview describes: the first video of the language. */
  function SelectedAsset(assets: seq<ProjectAsset>): (r: Option<ProjectAsset>)
    ensures r.Some? ==> r.value in assets && r.value.assetType == Video
    ensures r.Some? ==>
      exists i :: 0 <= i < |assets| && assets[i] == r.value && forall j :: 0 <= j < i ==> assets[j].assetType != Video
    ensures r.None? <==> forall a :: a in assets ==> a.assetType != Video
  {
    FindFirst(assets, IsVideo)
  }

  /** The preview's codec overlay shows exactly when the language has a video. */
  lemma CodecOverlayNeedsVideo(assets: seq<ProjectAsset>)
    ensures SelectedAsset(assets).Some? <==> exists a :: a in assets && a.assetType == Video
  {
  }

  /** Subtitles placed before a video do not change the preview. */
  lemma SubtitlesDoNotCount(subtitles: seq<ProjectAsset>, rest: seq<ProjectAsset>)
    requires forall a :: a in subtitles ==> a.assetType == Subtitle
    ensures SelectedAsset(subtitles + rest) == SelectedAsset(rest)
  {
    FirstNotIn(subtitles, rest);
  }

  lemma {:induction false} FirstNotIn(subtitles: seq<ProjectAsset>, rest: seq<ProjectAsset>)
    requires forall a :: a in subtitles ==> !IsVideo(a)
    ensures FindFirst(subtitles + rest, IsVideo) == FindFirst(rest, IsVideo)
  {
    if subtitles != [] {
      var s := subtitles + rest;
      assert s[0] == subtitles[0];
      assert !IsVideo(s[0]);
      assert s[1..] == subtitles[1..] + rest;
      FirstNotIn(subtitles[1..], rest);
      assert FindFirst(s, IsVideo) == FindFirst(s[1..], IsVideo);
    } else {
      assert subtitles + rest == rest;
    }
  }
}
