/** The application header: how wide its container is on a path, and the initials of the
    signed-in user. */
module AppHeader {
  import opened Wrappers
  import opened JsString
  import opened Seqs

  /** The workspace and the editor use the full width. */
  predicate IsWideLayout(pathname: string) {
    StartsWith(pathname, "/workspace") || StartsWith(pathname, "/editor")
  }

  function ContainerWidthClass(pathname: string): (c: string)
    ensures IsWideLayout(pathname) ==> c == "max-w-screen"
    ensures !IsWideLayout(pathname) ==> c == "max-w-6xl"
  {
    if IsWideLayout(pathname) then "max-w-screen" else "max-w-6xl"
  }

  /** The prefix test also takes paths that only start like a wide page. */
  lemma WideLayoutIsAPrefixTest(rest: string)
    ensures IsWideLayout("/workspace" + rest) && IsWideLayout("/editor" + rest)
  {
    assert ("/workspace" + rest)[..10] == "/workspace";
    assert ("/editor" + rest)[..7] == "/editor";
  }

  /** `words.map((word) => word[0]).join('')`: the first character of each word; an empty
      word gives `undefined`, which `join` writes as nothing. */
  function FirstChars(words: seq<string>): (r: string)
    ensures |r| <= |words|
  {
    if words == [] then ""
    else (if words[0] == "" then "" else [words[0][0]]) + FirstChars(words[1..])
  }

  /** `FirstChars` takes exactly the non-empty words' first characters. */
  lemma {:induction false} FirstCharsOfNonEmpty(words: seq<string>)
    requires forall i :: 0 <= i < |words| ==> words[i] != ""
    ensures |FirstChars(words)| == |words|
    ensures forall i :: 0 <= i < |words| ==> FirstChars(words)[i] == words[i][0]
  {
    if words != [] {
      FirstCharsOfNonEmpty(words[1..]);
    }
  }

  predicate NonEmptyWord(w: string) {
    w != ""
  }

  /** Empty words, from doubled, leading or trailing spaces, contribute nothing. */
  lemma {:induction false} FirstCharsSkipsEmptyWords(words: seq<string>)
    ensures FirstChars(words) == FirstChars(Filter(words, NonEmptyWord))
  {
    if words != [] {
      FirstCharsSkipsEmptyWords(words[1..]);
      var rest := Filter(words[1..], NonEmptyWord);
      if words[0] != "" {
        var kept := [words[0]] + rest;
        assert Filter(words, NonEmptyWord) == kept;
        assert kept[0] == words[0] && kept[1..] == rest;
        assert FirstChars(kept) == [words[0][0]] + FirstChars(rest);
      } else {
        assert Filter(words, NonEmptyWord) == rest;
        assert FirstChars(words) == FirstChars(words[1..]);
      }
    }
  }

  const DefaultInitials := "DP"

  /** The initials: up to two first letters of the space-separated words, upper-cased, or
      `DP` when nobody is named. */
  function Initials(userName: Option<string>): (r: string)
    ensures userName.None? ==> r == DefaultInitials
    ensures userName.Some? ==> |r| <= 2
    ensures userName.Some? ==> r == ToUpper(Prefix(FirstChars(Split(userName.value, ' ')), 2))
  {
    match userName
    case None => DefaultInitials
    case Some(name) => ToUpper(Prefix(FirstChars(Split(name, ' ')), 2))
  }

  /** An empty name gives no initials rather than the default. */
  lemma EmptyNameHasNoInitials()
    ensures Initials(Some("")) == ""
  {
    assert Split("", ' ') == [""];
  }

  /** A two-word name gives the two first letters. */
  lemma TwoWordInitials(first: string, last: string)
    requires first != "" && last != "" && ' ' !in first && ' ' !in last
    ensures Initials(Some(first + " " + last)) == ToUpper([first[0], last[0]])
  {
    var words := [first, last];
    assert Join(words, [' ']) == first + " " + last by {
      assert words[1..] == [last];
    }
    SplitUnique(first + " " + last, ' ', words);
    FirstCharsOfNonEmpty(words);
  }
}
