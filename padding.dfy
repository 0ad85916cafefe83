/**
 * The padding rule of the sequence navigator: the size of the diagram's
 * viewBox decides how much room is left around a focused step marker.
 */
module ViewportPadding {
  import opened Wrappers

  /** The width and height read from the `viewBox` attribute. */
  datatype ViewBoxSize = ViewBoxSize(width: real, height: real)

  /**
   * The size taken from the viewBox fields (`min-x min-y width height`, already
   * split on spaces and converted to numbers): field 2 is the width and field 3
   * the height; a missing attribute or a missing field reads as 0.
   */
  function SizeOfViewBox(fields: Option<seq<real>>): (s: ViewBoxSize)
    ensures fields.Some? && |fields.value| >= 4 ==> s == ViewBoxSize(fields.value[2], fields.value[3])
    ensures fields.Some? && |fields.value| == 3 ==> s == ViewBoxSize(fields.value[2], 0.0)
    ensures fields.None? || |fields.value| < 3 ==> s == ViewBoxSize(0.0, 0.0)
  {
    match fields
    case None => ViewBoxSize(0.0, 0.0)
    case Some(f) =>
      ViewBoxSize(if |f| > 2 then f[2] else 0.0, if |f| > 3 then f[3] else 0.0)
  }

  /** The unclamped line `y = -1/5 x + 700`. */
  function CalcPadding(d: real): real
  {
    -1.0 / 5.0 * d + 700.0
  }

  function Min(a: real, b: real): real { if a <= b then a else b }
  function Max(a: real, b: real): real { if a >= b then a else b }

  /** `Math.max(100, Math.min(600, calc))`. */
  function RectanglePadding(d: real): (p: real)
    ensures 100.0 <= p <= 600.0
    ensures p == CalcPadding(d) <==> 500.0 <= d <= 3000.0
    ensures d <= 500.0 ==> p == 600.0
    ensures d >= 3000.0 ==> p == 100.0
  {
    Max(100.0, Min(600.0, CalcPadding(d)))
  }

  /** Block (vertical) padding follows the height, inline padding the width. */
  function PaddingBlock(s: ViewBoxSize): real { RectanglePadding(s.height) }
  function PaddingInline(s: ViewBoxSize): real { RectanglePadding(s.width) }

  /** A larger viewBox never gets more padding. */
  lemma PaddingNonIncreasing(d1: real, d2: real)
    requires d1 <= d2
    ensures RectanglePadding(d2) <= RectanglePadding(d1)
  {
  }

  /** The padding the code actually yields at the viewport sizes listed in the
      comment above the formula. */
  lemma PaddingAtListedSizes()
    ensures RectanglePadding(1000.0) == 500.0
    ensures RectanglePadding(2000.0) == 300.0
    ensures RectanglePadding(3000.0) == 100.0
    ensures RectanglePadding(4000.0) == 100.0
    ensures RectanglePadding(4500.0) == 100.0
  {
  }

  /** Without a usable viewBox both paddings are the maximum, 600; with only
      three fields the block padding still is. */
  lemma MissingViewBoxGivesMaximumPadding(fields: Option<seq<real>>)
    ensures fields.None? || |fields.value| < 3 ==>
      PaddingBlock(SizeOfViewBox(fields)) == 600.0 && PaddingInline(SizeOfViewBox(fields)) == 600.0
    ensures fields.None? || |fields.value| < 4 ==> PaddingBlock(SizeOfViewBox(fields)) == 600.0
  {
  }
}
