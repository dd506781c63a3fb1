/** The project page's language panel: which video the player is given and whether it
    renders. JavaScript's "truthy" for an optional string is `Some` of a non-empty one. */
module LanguagePanel {
  import opened Wrappers
  import opened ProjectTypes
  import ProjectDetailPage

  datatype Version = Original | Translated

  const MediaPrefix := "/api/storage/media/"

  predicate Truthy(s: Option<string>) {
    s.Some? && s.value != ""
  }

  /** `version === 'original' ? videoSource : (translatedSource ?? videoSource)`, where the
      translated source is the URL of the first video asset. */
  function PreviewSource(version: Version, assets: seq<ProjectAsset>, videoSource: Option<string>): (src: Option<string>)
    ensures version == Original ==> src == videoSource
    ensures version == Translated && ProjectDetailPage.SelectedAsset(assets).Some? ==>
      src == Some(ProjectDetailPage.SelectedAsset(assets).value.url)
    ensures version == Translated && ProjectDetailPage.SelectedAsset(assets).None? ==> src == videoSource
  {
    match version
    case Original => videoSource
    case Translated =>
      match ProjectDetailPage.SelectedAsset(assets)
      case Some(asset) => Some(asset.url)
      case None => videoSource
  }

  /** The player's address; it is only used when the player renders. */
  function VideoSrc(src: string): (path: string)
    ensures |path| == |MediaPrefix| + |src|
    ensures path[..|MediaPrefix|] == MediaPrefix && path[|MediaPrefix|..] == src
  {
    MediaPrefix + src
  }

  /** What the preview area shows: a player for a source, or the placeholder. */
  datatype Preview = Player(src: string) | Placeholder

  function PreviewArea(version: Version, assets: seq<ProjectAsset>, videoSource: Option<string>): (p: Preview)
    ensures p.Player? <==> Truthy(PreviewSource(version, assets, videoSource))
    ensures p.Player? ==> p.src == VideoSrc(PreviewSource(version, assets, videoSource).value)
  {
    var source := PreviewSource(version, assets, videoSource);
    if Truthy(source) then Player(VideoSrc(source.value)) else Placeholder
  }

  /** A subtitle is never previewed: whatever subtitles a language has, the translated view
      shows the first video's URL, or the project's own source when it has no video. */
  lemma SubtitlesAreNeverPreviewed(subtitles: seq<ProjectAsset>, videoSource: Option<string>)
    requires forall a :: a in subtitles ==> a.assetType == Subtitle
    ensures PreviewSource(Translated, subtitles, videoSource) == videoSource
  {
  }

  /** A video asset with an empty URL hides the player even when the project has its own
      source: `??` only falls back on an absent value. */
  lemma EmptyVideoUrlHidesPlayer(asset: ProjectAsset, rest: seq<ProjectAsset>, videoSource: Option<string>)
    requires asset.assetType == Video && asset.url == ""
    ensures PreviewArea(Translated, [asset] + rest, videoSource) == Placeholder
  {
    assert ProjectDetailPage.SelectedAsset([asset] + rest) == Some(asset) by {
      assert ([asset] + rest)[0] == asset;
    }
  }

  /** The "no outputs yet" notice. */
  predicate ShowsNoOutputsNotice(assets: seq<ProjectAsset>) {
    |assets| == 0
  }

  /** With no assets at all, the translated view falls back to the project's source. */
  lemma NoOutputsFallsBack(videoSource: Option<string>)
    ensures ShowsNoOutputsNotice([])
    ensures PreviewSource(Translated, [], videoSource) == videoSource
  {
  }
}
