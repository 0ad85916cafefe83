/**
 * Rectangles as the browser reports them (the JSON form of a DOMRect) and the
 * padding that the sequence navigator puts around a step marker before it asks
 * the pan/zoom engine to show it.
 */
module Geometry {

  /** The eight fields of `DOMRect.toJSON()`. */
  datatype Rect = Rect(x: real, y: real, width: real, height: real,
                       top: real, right: real, bottom: real, left: real)

  /** A DOMRect keeps its sides in step with its origin and size. */
  predicate Consistent(r: Rect)
  {
    && r.left == (if r.width < 0.0 then r.x + r.width else r.x)
    && r.right == (if r.width < 0.0 then r.x else r.x + r.width)
    && r.top == (if r.height < 0.0 then r.y + r.height else r.y)
    && r.bottom == (if r.height < 0.0 then r.y else r.y + r.height)
  }

  /**
   * The object handed to `smoothShowRectangle`: the spread of `rect.toJSON()`
   * with the four sides overridden. `x`, `y`, `width` and `height` are carried
   * over from the marker unchanged.
   */
  function Padded(r: Rect, block: real, inline: real): Rect
  {
    r.(left := r.left - inline, top := r.top - block,
       right := r.right + inline, bottom := r.bottom + block)
  }

  /** With non-negative paddings the padded rectangle encloses the marker's, with
      exactly `inline` to spare left and right and `block` above and below. */
  lemma PaddedEncloses(r: Rect, block: real, inline: real)
    requires block >= 0.0 && inline >= 0.0
    ensures var p := Padded(r, block, inline);
      && p.left <= r.left && p.top <= r.top && r.right <= p.right && r.bottom <= p.bottom
      && r.left - p.left == inline && p.right - r.right == inline
      && r.top - p.top == block && p.bottom - r.bottom == block
      && (p.right - p.left) == (r.right - r.left) + 2.0 * inline
      && (p.bottom - p.top) == (r.bottom - r.top) + 2.0 * block
  {
  }

  /** The spread keeps the marker's origin and size: once any padding is
      non-zero, the request is no longer a consistent DOMRect, although its four
      sides (the ones the pan engine reads) are the padded ones. */
  lemma PaddedKeepsStaleSize(r: Rect, block: real, inline: real)
    requires Consistent(r)
    requires block != 0.0 || inline != 0.0
    ensures var p := Padded(r, block, inline);
      p.x == r.x && p.y == r.y && p.width == r.width && p.height == r.height && !Consistent(p)
  {
  }
}
