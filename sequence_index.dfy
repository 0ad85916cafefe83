/**
 * The step index of a rendered sequence diagram: one marker per numbered step
 * label, in document order, snapshotted once when the navigator is created.
 */
module SequenceIndex {
  import opened Wrappers
  import opened Geometry
  import opened ViewportPadding

  /** A step label: the number it shows and where it was on screen. */
  datatype Marker = Marker(number: int, rect: Rect)

  /** What one navigator closes over: the viewBox size and the marker snapshot. */
  datatype SequenceController = SequenceController(size: ViewBoxSize, index: seq<Marker>)

  /** Some marker in the snapshot carries number `n`. */
  predicate HasMarker(index: seq<Marker>, n: int)
  {
    exists i :: 0 <= i < |index| && index[i].number == n
  }

  /** Marker `i` is the first one, in snapshot order, that carries `n`. */
  predicate IsFirstMatch(index: seq<Marker>, n: int, i: int)
  {
    && 0 <= i < |index|
    && index[i].number == n
    && forall j :: 0 <= j < i ==> index[j].number != n
  }

  /** `Array.prototype.find` over the snapshot: the first marker numbered `n`. */
  function GetSequenceElement(index: seq<Marker>, n: int): (r: Option<Marker>)
    ensures r.Some? ==> r.value in index && r.value.number == n
    ensures r.None? <==> !HasMarker(index, n)
  {
    if |index| == 0 then None
    else if index[0].number == n then Some(index[0])
    else
      var r := GetSequenceElement(index[1..], n);
      assert HasMarker(index[1..], n) ==> HasMarker(index, n) by {
        if HasMarker(index[1..], n) {
          var i :| 0 <= i < |index[1..]| && index[1..][i].number == n;
          assert index[i + 1].number == n;
        }
      }
      r
  }

  /** The first match is what the lookup returns. */
  lemma {:induction false} GetSequenceElementIsFirst(index: seq<Marker>, n: int, i: int)
    requires IsFirstMatch(index, n, i)
    ensures GetSequenceElement(index, n) == Some(index[i])
  {
    if i > 0 {
      assert index[0].number != n;
      assert IsFirstMatch(index[1..], n, i - 1) by {
        forall j | 0 <= j < i - 1 ensures index[1..][j].number != n {
          assert index[1..][j] == index[j + 1];
        }
      }
      GetSequenceElementIsFirst(index[1..], n, i - 1);
    }
  }

  /** Whatever the lookup returns is the first match. */
  lemma {:induction false} GetSequenceElementFound(index: seq<Marker>, n: int)
    requires GetSequenceElement(index, n).Some?
    ensures exists i :: IsFirstMatch(index, n, i) && GetSequenceElement(index, n) == Some(index[i])
  {
    if index[0].number == n {
      assert IsFirstMatch(index, n, 0);
    } else {
      GetSequenceElementFound(index[1..], n);
      var i :| IsFirstMatch(index[1..], n, i) && GetSequenceElement(index[1..], n) == Some(index[1..][i]);
      assert IsFirstMatch(index, n, i + 1) by {
        forall j | 0 <= j < i + 1 ensures index[j].number != n {
          if j > 0 { assert index[j] == index[1..][j - 1]; }
        }
      }
    }
  }

  /** The navigator built from a viewBox reading and the step labels found. */
  function CreateSequenceController(viewBox: Option<seq<real>>, markers: seq<Marker>): SequenceController
  {
    SequenceController(SizeOfViewBox(viewBox), markers)
  }

  /** `totalSequenceNumber`: how many step labels were found, duplicates included. */
  function TotalSequenceNumber(c: SequenceController): nat
  {
    |c.index|
  }

  /** The rectangle `panElement` asks the pan engine to show for marker `m`. */
  function PanTarget(c: SequenceController, m: Marker): Rect
  {
    Padded(m.rect, PaddingBlock(c.size), PaddingInline(c.size))
  }

  /** The requested rectangle is the marker's, enlarged on every side by the
      viewBox-dependent padding, which is between 100 and 600. */
  lemma PanTargetSides(c: SequenceController, m: Marker)
    ensures var p := PanTarget(c, m);
      && p.left == m.rect.left - PaddingInline(c.size)
      && p.top == m.rect.top - PaddingBlock(c.size)
      && p.right == m.rect.right + PaddingInline(c.size)
      && p.bottom == m.rect.bottom + PaddingBlock(c.size)
      && 100.0 <= m.rect.left - p.left <= 600.0
      && 100.0 <= m.rect.top - p.top <= 600.0
      && 100.0 <= p.right - m.rect.right <= 600.0
      && 100.0 <= p.bottom - m.rect.bottom <= 600.0
  {
  }
}
