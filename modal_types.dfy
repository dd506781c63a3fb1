/** The records the project-creation wizard passes between its steps. */
module ModalTypes {
  import opened Wrappers
  import JsString

  datatype SourceMode = YoutubeSource | FileSource

  /** A browser `File`: its name, its size in bytes and its MIME type (`""` when unknown). */
  datatype FileHandle = FileHandle(name: string, size: nat, mimeType: string)

  /** What the source step hands to the wizard. */
  datatype SourceSelectionResult = SourceSelectionResult(
    mode: SourceMode,
    youtubeUrl: Option<string>,
    file: Option<FileHandle>)

  /** The form data collected across the wizard's steps. */
  datatype ProjectCreationDraft = ProjectCreationDraft(
    sourceType: SourceMode,
    youtubeUrl: Option<string>,
    file: Option<FileHandle>,
    fileName: Option<string>,
    fileSize: Option<nat>,
    title: string,
    detectAutomatically: bool,
    sourceLanguage: string,
    targetLanguages: seq<string>,
    speakerCount: int)

  datatype UploadStage = Idle | Preparing | Uploading | Finalizing | Processing | Downloading | Done | Error

  datatype UploadProgressState = UploadProgressState(stage: UploadStage, progress: int, message: Option<string>)

  const Mebibyte: nat := 1024 * 1024

  /** Tenths of a mebibyte in `size` bytes, rounded to nearest with halves rounded up: the
      digits of `(size / (1024 * 1024)).toFixed(1)`. The quotient is exact in floating point
      for every size below 2^53 bytes, so the rounding is the only approximation. */
  function TenthsOfMebibyte(size: nat): (n: nat)
    ensures -(Mebibyte / 2) <= 10 * size - n * Mebibyte < Mebibyte / 2
  {
    (20 * size + Mebibyte) / (2 * Mebibyte)
  }

  /** `(size / (1024 * 1024)).toFixed(1)`: whole mebibytes, a point, one decimal. */
  function MegabytesLabel(size: nat): (s: string)
    ensures |s| >= 3 && s[|s| - 2] == '.'
    ensures forall i :: 0 <= i < |s| && i != |s| - 2 ==> JsString.IsDigit(s[i])
    ensures JsString.DecimalValue(s[..|s| - 2]) * 10 + (s[|s| - 1] as int - '0' as int) == TenthsOfMebibyte(size)
  {
    var n := TenthsOfMebibyte(size);
    var whole := JsString.NatToDecimal(n / 10);
    JsString.NatToDecimalRoundTrip(n / 10);
    var s := whole + "." + [JsString.DigitChar(n % 10)];
    assert s[..|s| - 2] == whole;
    s
  }
}
