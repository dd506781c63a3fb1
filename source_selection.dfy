/** The wizard's first step: a YouTube link field, a file picker, and the rule that decides
    whether the step may be submitted. */
module SourceSelection {
  import opened Wrappers
  import opened ModalTypes
  import JsString
  import YoutubePattern

  /** 1 GiB, the largest file the picker takes. */
  const MaxFileSize: nat := 1024 * 1024 * 1024

  const FileTooLargeMessage := "1GB 이하의 파일만 업로드 가능합니다."

  /** The step's state. No code changes the mode after the step is created, so it is a
      constant here, as is the summary of the previously chosen file the wizard passes in. */
  class SourceSelectionStep {
    const mode: SourceMode
    const previousUploadSummary: Option<string>
    var youtubeUrl: string
    var file: Option<FileHandle>
    var fileError: Option<string>

    constructor(initialMode: Option<SourceMode>, initialYoutubeUrl: Option<string>, previousUploadSummary: Option<string>)
      ensures mode == initialMode.GetOr(FileSource)
      ensures youtubeUrl == initialYoutubeUrl.GetOr("")
      ensures this.previousUploadSummary == previousUploadSummary
      ensures file == None && fileError == None
      ensures Valid()
    {
      mode := initialMode.GetOr(FileSource);
      youtubeUrl := initialYoutubeUrl.GetOr("");
      this.previousUploadSummary := previousUploadSummary;
      file := None;
      fileError := None;
    }

    /** The trimmed link matches the pattern, and only in YouTube mode. */
    predicate IsYoutubeValid()
      reads this
    {
      mode == YoutubeSource && YoutubePattern.IsYoutubeLink(JsString.Trim(youtubeUrl))
    }

    predicate HasPersistedFile()
      reads this
    {
      previousUploadSummary.Some? && previousUploadSummary.value != ""
    }

    /** The step may be submitted: a valid link in YouTube mode; in file mode a chosen file
        or one chosen earlier. */
    predicate CanProceed()
      reads this
    {
      if mode == YoutubeSource then IsYoutubeValid() else file.Some? || HasPersistedFile()
    }

    /** The link field shows its error for any link that is not blank and not valid. */
    predicate ShowsLinkError()
      reads this
    {
      !IsYoutubeValid() && |JsString.Trim(youtubeUrl)| > 0
    }

    /** The line describing the chosen file, or the earlier one. */
    function FileSummary(): (r: Option<string>)
      reads this
      ensures file.Some? ==> r == Some(file.value.name + " • " + MegabytesLabel(file.value.size) + "MB")
      ensures file.None? ==> r == previousUploadSummary
    {
      if file.Some? then Some(file.value.name + " • " + MegabytesLabel(file.value.size) + "MB")
      else previousUploadSummary
    }

    /** In file mode every link typed into the (always visible) field is flagged, a correct
        one included. */
    lemma FileModeFlagsEveryLink()
      requires mode == FileSource
      ensures ShowsLinkError() <==> |JsString.Trim(youtubeUrl)| > 0
    {
    }

    method SetYoutubeUrl(value: string)
      modifies this`youtubeUrl
      ensures youtubeUrl == value
    {
      youtubeUrl := value;
    }

    /** The picker's change handler: no file is ignored, a file over 1 GiB only sets the
        error, any other file is taken and clears the error. */
    method HandleFileChange(next: Option<FileHandle>)
      requires Valid()
      modifies this`file, this`fileError
      ensures Valid()
      ensures next.None? ==> file == old(file) && fileError == old(fileError)
      ensures next.Some? && next.value.size > MaxFileSize ==>
        file == old(file) && fileError == Some(FileTooLargeMessage)
      ensures next.Some? && next.value.size <= MaxFileSize ==> file == next && fileError == None
    {
      if next.None? {
        return;
      }
      if next.value.size > MaxFileSize {
        fileError := Some(FileTooLargeMessage);
        return;
      }
      fileError := None;
      file := next;
    }

    /** A file the step holds is never over the limit, since only the handler sets it. */
    ghost predicate Valid()
      reads this
    {
      file.Some? ==> file.value.size <= MaxFileSize
    }

    /** The submit handler: nothing when the step may not proceed; otherwise the mode with
        the trimmed link in YouTube mode or the file in file mode. */
    method HandleSubmit() returns (r: Option<SourceSelectionResult>)
      ensures r.Some? <==> CanProceed()
      ensures r.Some? ==> r.value.mode == mode
      ensures r.Some? ==> r.value.youtubeUrl == (if mode == YoutubeSource then Some(JsString.Trim(youtubeUrl)) else None)
      ensures r.Some? ==> r.value.file == (if mode == FileSource then file else None)
    {
      if !CanProceed() {
        return None;
      }
      r := Some(SourceSelectionResult(
        mode,
        if mode == YoutubeSource then Some(JsString.Trim(youtubeUrl)) else None,
        if mode == FileSource then file else None));
    }
  }

  /** A submitted link is always one the pattern accepts. */
  lemma SubmittedLinkMatches(step: SourceSelectionStep, r: SourceSelectionResult)
    requires step.CanProceed() && step.mode == YoutubeSource
    requires r.youtubeUrl == Some(JsString.Trim(step.youtubeUrl))
    ensures YoutubePattern.MatchesPattern(r.youtubeUrl.value)
  {
    YoutubePattern.IsYoutubeLinkMatchesPattern(JsString.Trim(step.youtubeUrl));
  }
}
