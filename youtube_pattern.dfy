/** The YouTube link pattern of the source step,
    `^(https?:\/\/)?(www\.)?(youtube\.com\/watch\?v=|youtu\.be\/)[\w-]{5,}(?:&\S*)?$`,
    given twice: as the set of strings the regular expression describes, and as the
    left-to-right scan that decides it. */
module YoutubePattern {
  import opened JsString

  /** `\w`: ASCII letters, digits and the underscore. */
  predicate IsWordChar(c: char) {
    'a' <= c <= 'z' || 'A' <= c <= 'Z' || '0' <= c <= '9' || c == '_'
  }

  /** `[\w-]` */
  predicate IsIdChar(c: char) {
    IsWordChar(c) || c == '-'
  }

  predicate IsScheme(x: string) {
    x == "" || x == "http://" || x == "https://"
  }

  predicate IsWww(x: string) {
    x == "" || x == "www."
  }

  predicate IsHost(x: string) {
    x == "youtube.com/watch?v=" || x == "youtu.be/"
  }

  predicate IsIdRun(x: string) {
    forall i :: 0 <= i < |x| ==> IsIdChar(x[i])
  }

  /** `(?:&\S*)?$`: nothing, or `&` followed by characters that are not white space. */
  predicate IsTail(x: string) {
    x == "" || (x[0] == '&' && forall i :: 1 <= i < |x| ==> !IsWhiteSpace(x[i]))
  }

  /** Cutting `s` at `i`, `j`, `k` and `m` gives a scheme, a `www.`, a host, an id of at
      least five characters and a tail. */
  predicate SplitsAsLink(s: string, i: nat, j: nat, k: nat, m: nat) {
    i <= j <= k <= m <= |s| &&
    IsScheme(s[..i]) && IsWww(s[i..j]) && IsHost(s[j..k]) && IsIdRun(s[k..m]) && m - k >= 5 && IsTail(s[m..])
  }

  /** `s` belongs to the language of the pattern. */
  ghost predicate MatchesPattern(s: string) {
    exists i: nat, j: nat, k: nat, m: nat :: SplitsAsLink(s, i, j, k, m)
  }

  function SchemeLength(s: string): (n: nat)
    ensures n <= |s| && IsScheme(s[..n])
  {
    if StartsWith(s, "https://") then 8 else if StartsWith(s, "http://") then 7 else 0
  }

  function WwwLength(s: string): (n: nat)
    ensures n <= |s| && IsWww(s[..n])
  {
    if StartsWith(s, "www.") then 4 else 0
  }

  /** The length of the host at the start of `s`, or 0 when there is none. */
  function HostLength(s: string): (n: nat)
    ensures n <= |s|
    ensures n > 0 ==> IsHost(s[..n])
  {
    if StartsWith(s, "youtube.com/watch?v=") then 20 else if StartsWith(s, "youtu.be/") then 9 else 0
  }

  /** The length of the longest run of id characters at the start of `s`. */
  function IdRunLength(s: string): (n: nat)
    ensures n <= |s| && IsIdRun(s[..n])
    ensures n < |s| ==> !IsIdChar(s[n])
  {
    if s == [] || !IsIdChar(s[0]) then 0
    else
      var n := 1 + IdRunLength(s[1..]);
      assert forall i :: 1 <= i < n ==> s[..n][i] == s[1..][..n - 1][i - 1];
      n
  }

  /** A run of id characters that cannot be extended is the longest one. */
  lemma {:induction false} IdRunLengthUnique(s: string, n: nat)
    requires n <= |s| && IsIdRun(s[..n])
    requires n < |s| ==> !IsIdChar(s[n])
    ensures IdRunLength(s) == n
  {
    if n > 0 {
      assert s[0] == s[..n][0];
      assert s[1..][..n - 1] == s[..n][1..];
      IdRunLengthUnique(s[1..], n - 1);
    }
  }

  /** `YOUTUBE_PATTERN.test(s)`: scan the optional parts, the host, the longest id run and
      the tail. */
  function IsYoutubeLink(s: string): bool {
    var a := SchemeLength(s);
    var b := a + WwwLength(s[a..]);
    var h := HostLength(s[b..]);
    h > 0 &&
      var c := b + h;
      var n := IdRunLength(s[c..]);
      n >= 5 && IsTail(s[c + n..])
  }

  lemma SchemeScanned(s: string, i: nat, j: nat)
    requires i <= j < |s| && IsScheme(s[..i]) && (s[j] == 'y' || (s[j] == 'w' && j > i))
    requires j == i || s[i] == 'w'
    ensures i == SchemeLength(s)
  {
    if i == 8 {
      assert StartsWith(s, "https://");
    } else if i == 7 {
      assert s[..i][4] == s[4] == ':';
      assert StartsWith(s, "http://");
    } else {
      assert s[0] == 'w' || s[0] == 'y';
    }
  }

  lemma WwwScanned(s: string, i: nat, j: nat)
    requires i <= j < |s| && IsWww(s[i..j]) && s[j] == 'y'
    ensures j == i + WwwLength(s[i..])
  {
    if j == i {
      assert s[i..][0] == s[i];
    } else {
      assert s[i..][..4] == s[i..j];
    }
  }

  lemma HostScanned(s: string, j: nat, k: nat)
    requires j <= k <= |s| && IsHost(s[j..k])
    ensures k == j + HostLength(s[j..])
  {
    assert s[j..][..k - j] == s[j..k];
    if k - j == 9 {
      assert s[j..k][5] == s[j..][5] == '.';
    }
  }

  lemma IdScanned(s: string, k: nat, m: nat)
    requires k <= m <= |s| && IsIdRun(s[k..m]) && IsTail(s[m..])
    ensures m == k + IdRunLength(s[k..])
  {
    assert s[k..][..m - k] == s[k..m];
    if m < |s| {
      assert s[k..][m - k] == s[m..][0] == '&';
    }
    IdRunLengthUnique(s[k..], m - k);
  }

  /** The cut points of a match are the ones the scan finds. */
  lemma SplitIsScanned(s: string, i: nat, j: nat, k: nat, m: nat)
    requires SplitsAsLink(s, i, j, k, m)
    ensures i == SchemeLength(s)
    ensures j == i + WwwLength(s[i..])
    ensures k == j + HostLength(s[j..])
    ensures m == k + IdRunLength(s[k..])
  {
    assert s[j..k][0] == s[j] == 'y';
    if j > i {
      assert s[i..j][0] == s[i] == 'w';
    }
    SchemeScanned(s, i, j);
    WwwScanned(s, i, j);
    HostScanned(s, j, k);
    IdScanned(s, k, m);
  }

  /** The cut points the scan finds split an accepted string as the pattern does. */
  lemma ScannedSplit(s: string)
    requires IsYoutubeLink(s)
    ensures MatchesPattern(s)
  {
    var a := SchemeLength(s);
    var b := a + WwwLength(s[a..]);
    var c := b + HostLength(s[b..]);
    var n := IdRunLength(s[c..]);
    var m := c + n;
    assert IsWww(s[a..b]) by {
      assert s[a..][..b - a] == s[a..b];
    }
    assert IsHost(s[b..c]) by {
      assert s[b..][..c - b] == s[b..c];
    }
    assert IsIdRun(s[c..m]) by {
      assert s[c..][..n] == s[c..m];
    }
    assert IsTail(s[m..]) by {
      assert s[c..][n..] == s[m..];
    }
    assert SplitsAsLink(s, a, b, c, m);
  }

  lemma MatchIsScanned(s: string)
    requires MatchesPattern(s)
    ensures IsYoutubeLink(s)
  {
    var i: nat, j: nat, k: nat, m: nat :| SplitsAsLink(s, i, j, k, m);
    SplitIsScanned(s, i, j, k, m);
    assert HostLength(s[j..]) == k - j >= 9;
    assert IdRunLength(s[k..]) == m - k >= 5;
  }

  /** The scan accepts exactly the strings the pattern describes. */
  lemma IsYoutubeLinkMatchesPattern(s: string)
    ensures IsYoutubeLink(s) <==> MatchesPattern(s)
  {
    if MatchesPattern(s) {
      MatchIsScanned(s);
    }
    if IsYoutubeLink(s) {
      ScannedSplit(s);
    }
  }

  /** Every concatenation of the five parts is a link. */
  lemma PartsMatchPattern(scheme: string, www: string, host: string, id: string, tail: string)
    requires IsScheme(scheme) && IsWww(www) && IsHost(host) && IsIdRun(id) && |id| >= 5 && IsTail(tail)
    ensures MatchesPattern(scheme + www + host + id + tail)
  {
    var p1 := scheme + www;
    var p2 := p1 + host;
    var p3 := p2 + id;
    var s := p3 + tail;
    assert s[..|p3|] == p3 && s[|p3|..] == tail;
    assert p3[..|p2|] == p2 && p3[|p2|..] == id;
    assert p2[..|p1|] == p1 && p2[|p1|..] == host;
    assert p1[..|scheme|] == scheme && p1[|scheme|..] == www;
    assert s[..|scheme|] == scheme;
    assert s[|scheme|..|p1|] == www;
    assert s[|p1|..|p2|] == host;
    assert s[|p2|..|p3|] == id;
    assert SplitsAsLink(s, |scheme|, |p1|, |p2|, |p3|);
  }

  lemma PartsFormLink(scheme: string, www: string, host: string, id: string, tail: string)
    requires IsScheme(scheme) && IsWww(www) && IsHost(host) && IsIdRun(id) && |id| >= 5 && IsTail(tail)
    ensures IsYoutubeLink(scheme + www + host + id + tail)
  {
    PartsMatchPattern(scheme, www, host, id, tail);
    IsYoutubeLinkMatchesPattern(scheme + www + host + id + tail);
  }

  lemma ShortLinkAccepted()
    ensures IsYoutubeLink("youtu.be/abc12")
  {
    var s := "" + "" + "youtu.be/" + "abc12" + "";
    assert s == "youtu.be/abc12";
    PartsFormLink("", "", "youtu.be/", "abc12", "");
  }

  lemma LinkWithSchemeAndParametersAccepted()
    ensures IsYoutubeLink("https://youtu.be/a_b-c&t=42")
  {
    var s := "https://" + "" + "youtu.be/" + "a_b-c" + "&t=42";
    assert s == "https://youtu.be/a_b-c&t=42";
    PartsFormLink("https://", "", "youtu.be/", "a_b-c", "&t=42");
  }

  /** White space after the id is not part of any tail. */
  lemma TrailingTextRejected()
    ensures !IsYoutubeLink("youtu.be/abcde x")
  {
    IdRunLengthUnique("abcde x", 5);
  }

  /** Four id characters are too few. */
  lemma FourCharacterIdRejected()
    ensures !IsYoutubeLink("youtu.be/abcd")
  {
    IdRunLengthUnique("abcd", 4);
  }
}
