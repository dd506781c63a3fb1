/** The editor's speaker-to-voice mapping panel: one button per segment and voice, at most
    one of them selected, and a short preview of each segment's text. */
module VoiceAssign {
  import opened Wrappers
  import opened JsString

  /** `${segment.id}-${voice.id}` */
  function TrackId(segmentId: string, voiceId: string): (id: string)
    ensures |id| == |segmentId| + 1 + |voiceId|
    ensures id[..|segmentId|] == segmentId && id[|segmentId|] == '-' && id[|segmentId| + 1..] == voiceId
  {
    segmentId + "-" + voiceId
  }

  /** Without `-` in segment ids the track id names its segment and voice. */
  lemma TrackIdInjective(s1: string, v1: string, s2: string, v2: string)
    requires '-' !in s1 && '-' !in s2
    requires TrackId(s1, v1) == TrackId(s2, v2)
    ensures s1 == s2 && v1 == v2
  {
  }

  /** With `-` in an id, two buttons share a track id and light up together. */
  lemma TrackIdAmbiguous()
    ensures TrackId("a-b", "c") == TrackId("a", "b-c")
  {
  }

  /** A click: on the selected track it clears the selection, on any other it selects it. */
  function NextSelection(selected: Option<string>, trackId: string): (r: Option<string>)
    ensures selected == Some(trackId) ==> r == None
    ensures selected != Some(trackId) ==> r == Some(trackId)
  {
    if selected == Some(trackId) then None else Some(trackId)
  }

  /** Clicking the same button twice from a state where it was not selected leaves it
      selected after the first click and clears it after the second. */
  lemma ClickTwiceClears(selected: Option<string>, trackId: string)
    requires selected != Some(trackId)
    ensures NextSelection(NextSelection(selected, trackId), trackId) == None
  {
  }

  const SnippetLength := 26

  /** The first 26 characters, with `…` when something was cut. */
  function Snippet(text: string): (s: string)
    ensures |s| <= SnippetLength + 1
    ensures |text| <= SnippetLength ==> s == text
    ensures |text| > SnippetLength ==> s == text[..SnippetLength] + "…"
  {
    Prefix(text, SnippetLength) + (if |text| > SnippetLength then "…" else "")
  }
}
