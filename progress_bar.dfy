/** The progress bar: its fill width and its optional label. */
module ProgressBar {
  import opened Wrappers

  /** `Math.min(Math.max(value, 0), 100)` */
  function WidthPercent(value: int): (w: int)
    ensures 0 <= w <= 100
    ensures 0 <= value <= 100 ==> w == value
    ensures value < 0 ==> w == 0
    ensures value > 100 ==> w == 100
  {
    if value < 0 then 0 else if value > 100 then 100 else value
  }

  lemma WidthIdempotent(value: int)
    ensures WidthPercent(WidthPercent(value)) == WidthPercent(value)
  {
  }

  lemma WidthMonotone(a: int, b: int)
    requires a <= b
    ensures WidthPercent(a) <= WidthPercent(b)
  {
  }

  /** The label shows when it is a non-empty string. */
  predicate ShowsLabel(text: Option<string>) {
    text.Some? && text.value != ""
  }
}
