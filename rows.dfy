/**
 * Drawing a row of stamps (CPageStampRow::drawToPdf and CPageStampRow::drawStamp): where the
 * first stamp starts and the gap between stamps for each row style, the outline and the texts
 * of each stamp, and how far the row moves the cursor down the page.
 *
 * As for text items, drawing calls are entries of a log and the width of a text is a function
 * given by the caller. Lengths are points; the cursor `ypos` runs down from the top of the page.
 */
module StampRows {
  import opened Text
  import opened Album
  import opened Layout
  import Fonts

  // ---------------------------------------------------------------------------------------
  // Horizontal distribution.
  // ---------------------------------------------------------------------------------------

  /** The sum of the stamp widths. */
  function RowWidth(stamps: seq<Stamp>): real
  {
    if stamps == [] then 0.0 else RowWidth(stamps[..|stamps| - 1]) + stamps[|stamps| - 1].width
  }

  /** Where the first stamp of a row starts, and the gap after each stamp. */
  datatype Placement = Placement(start: real, gap: real)

  /** The gap of an Equal row: the drawing area widened by the horizontal spacing on each side,
      and what the stamps leave of it shared among the n + 1 gaps before, between and after
      them; the spacing itself when the stamps do not fit. */
  function EqualGap(n: nat, rowWidth: real, drawWidth: real, hspacing: real): real
  {
    var pw := drawWidth + 2.0 * hspacing;
    if rowWidth < pw then (pw - rowWidth) / (n + 1) as real else hspacing
  }

  /** A justified row: the first stamp at the left edge of the drawing area and the rest of the
      area shared among the n - 1 gaps; the spacing itself when the stamps do not fit. */
  function Justified(n: nat, rowWidth: real, xpos: real, drawWidth: real, hspacing: real): Placement
    requires n >= 2
  {
    Placement(xpos, if rowWidth < drawWidth then (drawWidth - rowWidth) / (n - 1) as real else hspacing)
  }

  /** The distribution of n stamps of total width rowWidth in the drawing area that starts at
      xpos: a single stamp at the left edge of a Justify row and centred otherwise; an Equal row
      that would put its stamps closer than the spacing is laid out as a Justify row; a Fixed
      row keeps its own spacing and is centred when it fits. */
  function Distribute(style: RowStyle, n: nat, rowWidth: real, fixedSpacing: real,
                      xpos: real, drawWidth: real, hspacing: real): Placement
  {
    if n < 2 then
      Placement(if style == JustifyRow then xpos else xpos + drawWidth / 2.0 - rowWidth / 2.0, hspacing)
    else
      match style
      case EqualRow =>
        var gap := EqualGap(n, rowWidth, drawWidth, hspacing);
        if gap < hspacing then Justified(n, rowWidth, xpos, drawWidth, hspacing)
        else Placement(xpos - hspacing + gap, gap)
      case JustifyRow => Justified(n, rowWidth, xpos, drawWidth, hspacing)
      case FixedRow =>
        var total := rowWidth + (n - 1) as real * fixedSpacing;
        Placement(if total < drawWidth then xpos + (drawWidth - total) / 2.0 else xpos, fixedSpacing)
  }

  /** The right edge of the last of n stamps placed from p. */
  function RowEnd(p: Placement, n: nat, rowWidth: real): real
  {
    p.start + rowWidth + (n - 1) as real * p.gap
  }

  /** A single stamp sits at the left edge of a Justify row and in the middle of any other. */
  lemma SingleStampPlaced(style: RowStyle, rowWidth: real, fixedSpacing: real, xpos: real, drawWidth: real, hspacing: real)
    ensures var p := Distribute(style, 1, rowWidth, fixedSpacing, xpos, drawWidth, hspacing);
            && (style == JustifyRow ==> p.start == xpos)
            && (style != JustifyRow ==> p.start + rowWidth / 2.0 == xpos + drawWidth / 2.0)
  {
  }

  /** An Equal row that keeps at least the spacing between its stamps has the same gap before
      the first stamp, between stamps and after the last one, counted from the drawing area
      widened by the spacing on each side. */
  lemma EqualRowEvenlySpaced(n: nat, rowWidth: real, fixedSpacing: real, xpos: real, drawWidth: real, hspacing: real)
    requires n >= 2
    requires EqualGap(n, rowWidth, drawWidth, hspacing) >= hspacing
    requires rowWidth < drawWidth + 2.0 * hspacing
    ensures var p := Distribute(EqualRow, n, rowWidth, fixedSpacing, xpos, drawWidth, hspacing);
            && p.gap >= hspacing
            && p.start - (xpos - hspacing) == p.gap
            && (xpos + drawWidth + hspacing) - RowEnd(p, n, rowWidth) == p.gap
  {
    var pw := drawWidth + 2.0 * hspacing;
    var g := EqualGap(n, rowWidth, drawWidth, hspacing);
    assert g * (n + 1) as real == pw - rowWidth;
    assert (n - 1) as real * g + 2.0 * g == g * (n + 1) as real;
  }

  /** An Equal row falls back to the Justify layout exactly when its stamps would come closer
      than the spacing; when they do not fit at all it is placed as a Justify row too. */
  lemma EqualRowFallsBack(n: nat, rowWidth: real, fixedSpacing: real, xpos: real, drawWidth: real, hspacing: real)
    requires n >= 2 && hspacing >= 0.0
    ensures EqualGap(n, rowWidth, drawWidth, hspacing) < hspacing ==>
              Distribute(EqualRow, n, rowWidth, fixedSpacing, xpos, drawWidth, hspacing)
              == Distribute(JustifyRow, n, rowWidth, fixedSpacing, xpos, drawWidth, hspacing)
    ensures rowWidth >= drawWidth + 2.0 * hspacing ==>
              Distribute(EqualRow, n, rowWidth, fixedSpacing, xpos, drawWidth, hspacing)
              == Distribute(JustifyRow, n, rowWidth, fixedSpacing, xpos, drawWidth, hspacing)
  {
  }

  /** A Justify row that fits starts at the left edge of the drawing area and ends at its right
      edge; one that does not fit is spaced by the spacing. */
  lemma JustifiedRowFills(n: nat, rowWidth: real, fixedSpacing: real, xpos: real, drawWidth: real, hspacing: real)
    requires n >= 2
    ensures var p := Distribute(JustifyRow, n, rowWidth, fixedSpacing, xpos, drawWidth, hspacing);
            && p.start == xpos
            && (rowWidth < drawWidth ==> RowEnd(p, n, rowWidth) == xpos + drawWidth && p.gap > 0.0)
            && (rowWidth >= drawWidth ==> p.gap == hspacing)
  {
    if rowWidth < drawWidth {
      var g := (drawWidth - rowWidth) / (n - 1) as real;
      assert (n - 1) as real * g == drawWidth - rowWidth;
    }
  }

  /** A Fixed row keeps its own spacing, and is centred in the drawing area when it fits and
      starts at its left edge when it does not. */
  lemma FixedRowCentred(n: nat, rowWidth: real, fixedSpacing: real, xpos: real, drawWidth: real, hspacing: real)
    requires n >= 2
    ensures var p := Distribute(FixedRow, n, rowWidth, fixedSpacing, xpos, drawWidth, hspacing);
            && p.gap == fixedSpacing
            && (RowEnd(p, n, rowWidth) - p.start < drawWidth ==>
                  p.start - xpos == (xpos + drawWidth) - RowEnd(p, n, rowWidth))
            && (RowEnd(p, n, rowWidth) - p.start >= drawWidth ==> p.start == xpos)
  {
  }

  // ---------------------------------------------------------------------------------------
  // One stamp (drawStamp).
  // ---------------------------------------------------------------------------------------

  /** How far a stamp is moved down so that it lines up with the tallest stamp of its row. */
  function VOffset(align: RowAlign, maxHeight: real, height: real): real
  {
    match align
    case AlignTop => 0.0
    case AlignMiddle => (maxHeight - height) / 2.0
    case AlignBottom => maxHeight - height
  }

  /** Top-aligned stamps share their top edge with the tallest stamp, middle-aligned ones its
      centre line, bottom-aligned ones its bottom edge. */
  lemma StampsLineUp(align: RowAlign, maxHeight: real, height: real, ypos: real)
    ensures var top := ypos - VOffset(align, maxHeight, height);
            && (align == AlignTop ==> top == ypos)
            && (align == AlignMiddle ==> top - height / 2.0 == ypos - maxHeight / 2.0)
            && (align == AlignBottom ==> top - height == ypos - maxHeight)
  {
  }

  /** The outline of a stamp whose top edge is at top: a rectangle, a triangle standing on its
      base or on its point, a diamond, or nothing for a blank stamp. */
  function Outline(style: StampStyle, x: real, top: real, w: real, h: real): seq<Draw>
  {
    match style
    case Blank => []
    case Block => [Rectangle(x, top - h, w, h)]
    case BlockX => [Rectangle(x, top - h, w, h)]
    case Triangle =>
      [Line(x, top - h, x + w / 2.0, top), Line(x + w / 2.0, top, x + w, top - h), Line(x + w, top - h, x, top - h)]
    case TriangleInv =>
      [Line(x, top, x + w / 2.0, top - h), Line(x + w / 2.0, top - h, x + w, top), Line(x + w, top, x, top)]
    case Diamond =>
      [Line(x + w / 2.0, top, x, top - h / 2.0), Line(x, top - h / 2.0, x + w / 2.0, top - h),
       Line(x + w / 2.0, top - h, x + w, top - h / 2.0), Line(x + w, top - h / 2.0, x + w / 2.0, top)]
  }

  /** The number of non-empty texts of a stamp with index in lo..hi-1. */
  function CountTexts(stamp: Stamp, lo: nat, hi: nat): nat
    decreases hi
  {
    if hi <= lo then 0 else CountTexts(stamp, lo, hi - 1) + (if stamp.Text(hi - 1) != [] then 1 else 0)
  }

  /** The texts with index in lo..hi-1, one after the other. */
  function TextsOf(stamp: Stamp, lo: nat, hi: nat): string
    decreases hi - lo
  {
    if hi <= lo then [] else stamp.Text(lo) + TextsOf(stamp, lo + 1, hi)
  }

  /** The texts inside a stamp from index i on: each non-empty one centred across the stamp,
      the first at baseline ty and each further one a line lower. */
  function InsideFrom(stamp: Stamp, i: nat, measure: string -> real, x: real, ty: real, fsize: real, voff: real)
    : seq<Draw>
    decreases 3 - i
  {
    if i >= 3 then []
    else InsideLine(stamp, i, measure, x, ty - voff) + InsideFrom(stamp, i + 1, measure, x, NextLine(stamp, i, ty, fsize), fsize, voff)
  }

  /** Text i of a stamp centred across it at baseline y, or nothing when the text is empty. */
  function InsideLine(stamp: Stamp, i: nat, measure: string -> real, x: real, y: real): seq<Draw>
  {
    var s := stamp.Text(i);
    if s == [] then [] else [TextOut(x + (stamp.width - measure(s)) / 2.0, y, s)]
  }

  /** The baseline after text i of a stamp: a line lower when the text was drawn. */
  function NextLine(stamp: Stamp, i: nat, ty: real, fsize: real): real
  {
    if stamp.Text(i) == [] then ty else ty - fsize
  }

  /** Where a text under a stamp starts: at the left edge, centred, or ending at the right edge,
      for the first, second and third text of its line. */
  function ColumnX(i: nat, x: real, w: real, sw: real): real
  {
    if i % 3 == 0 then x else if i % 3 == 1 then x + (w - sw) / 2.0 else x + w - sw
  }

  /** The texts of one line under a stamp from index i to hi - 1, at baseline ty. */
  function UnderFrom(stamp: Stamp, i: nat, hi: nat, measure: string -> real, x: real, ty: real): seq<Draw>
    decreases hi - i
  {
    if i >= hi then [] else UnderText(stamp, i, measure, x, ty) + UnderFrom(stamp, i + 1, hi, measure, x, ty)
  }

  /** Text i of a stamp in its column under the stamp at baseline ty, or nothing when empty. */
  function UnderText(stamp: Stamp, i: nat, measure: string -> real, x: real, ty: real): seq<Draw>
  {
    var s := stamp.Text(i);
    if s == [] then [] else [TextOut(ColumnX(i, x, stamp.width, measure(s)), ty, s)]
  }

  /** The room taken by a line of texts under a stamp: gap when the line has a text, else 0. */
  function UnderGap(stamp: Stamp, lo: nat, gap: real): real
  {
    if CountTexts(stamp, lo, lo + 3) > 0 then gap else 0.0
  }

  /** The height drawStamp reports: the stamp, the first line of texts under it with a gap of
      two points, the second with a gap of one, and the offset that aligns it in its row. A
      blank stamp has no texts. */
  function StampHeight(row: StampRow, stamp: Stamp): real
  {
    var voff := VOffset(row.rowAlign, row.maxStampHeight, stamp.height);
    if stamp.style == Blank then stamp.height + voff
    else stamp.height + UnderGap(stamp, 3, row.fsize + 2.0) + UnderGap(stamp, 6, row.fsize + 1.0) + voff
  }

  /** The baseline of the first text inside a stamp whose top edge is at top: the n lines of
      fsize points are centred on the stamp. */
  function InsideBaseline(height: real, n: nat, fsize: real, top: real): real
  {
    top - (height - n as real * fsize) / 2.0 - fsize
  }

  /** The number of non-empty texts inside a stamp. */
  function InsideCount(stamp: Stamp): nat
  {
    CountTexts(stamp, 0, 3)
  }

  /** The texts of a stamp that is not blank: those inside it from baseline inside down, then
      the first line under it at baseline under1, then the second at baseline under2. */
  function TextsAt(stamp: Stamp, measure: string -> real, x: real, inside: real, fsize: real, voff: real,
                   under1: real, under2: real): seq<Draw>
  {
    InsideFrom(stamp, 0, measure, x, inside, fsize, voff) + UnderFrom(stamp, 3, 6, measure, x, under1)
    + UnderFrom(stamp, 6, 9, measure, x, under2)
  }

  /** How far a stamp of a row is moved down to line up with the row. */
  function StampOffset(row: StampRow, stamp: Stamp): real
  {
    VOffset(row.rowAlign, row.maxStampHeight, stamp.height)
  }

  /** The top edge of a stamp whose row places it at ypos, lined up with the row. */
  function StampTop(row: StampRow, stamp: Stamp, ypos: real): real
  {
    ypos - StampOffset(row, stamp)
  }

  /** The line width and the outline of a stamp whose row places it at (x, ypos). */
  function Frame(row: StampRow, stamp: Stamp, x: real, ypos: real): seq<Draw>
  {
    [SetLineWidth(row.lineWidth)] + Outline(stamp.style, x, StampTop(row, stamp, ypos), stamp.width, stamp.height)
  }

  /** The baseline of the first line of texts under a stamp whose row places it at ypos: the
      font size and two points below the stamp. */
  function FirstUnderBaseline(row: StampRow, stamp: Stamp, ypos: real): real
  {
    ypos - stamp.height - (row.fsize + 2.0) - StampOffset(row, stamp)
  }

  /** The baseline of the second line of texts under a stamp: the font size and one point below
      the first line, or below the stamp when the first line is empty. */
  function SecondUnderBaseline(row: StampRow, stamp: Stamp, ypos: real): real
  {
    ypos - stamp.height - UnderGap(stamp, 3, row.fsize + 2.0) - (row.fsize + 1.0) - StampOffset(row, stamp)
  }

  /** The texts of a stamp whose row places it at (x, ypos), none for a blank stamp. */
  function StampTexts(row: StampRow, stamp: Stamp, measure: string -> real, x: real, ypos: real): seq<Draw>
  {
    if stamp.style == Blank then []
    else TextsAt(stamp, measure, x, InsideBaseline(stamp.height, InsideCount(stamp), row.fsize, ypos), row.fsize,
                 StampOffset(row, stamp), FirstUnderBaseline(row, stamp, ypos), SecondUnderBaseline(row, stamp, ypos))
  }

  /** The drawing calls of drawStamp for a stamp whose row places it at (x, ypos). */
  function StampLog(row: StampRow, stamp: Stamp, measure: string -> real, x: real, ypos: real): seq<Draw>
  {
    Frame(row, stamp, x, ypos) + StampTexts(row, stamp, measure, x, ypos)
  }

  /** A log without text output. */
  predicate NoText(log: seq<Draw>)
  {
    forall k :: 0 <= k < |log| ==> !log[k].TextOut?
  }

  lemma {:induction false} NoTextDrawsNothing(log: seq<Draw>)
    requires NoText(log)
    ensures DrawnText(log) == []
    decreases |log|
  {
    if log != [] {
      NoTextDrawsNothing(log[1..]);
    }
  }

  lemma {:induction false} InsideTexts(stamp: Stamp, i: nat, measure: string -> real, x: real, ty: real, fsize: real, voff: real)
    ensures DrawnText(InsideFrom(stamp, i, measure, x, ty, fsize, voff)) == TextsOf(stamp, i, 3)
    decreases 3 - i
  {
    if i < 3 {
      var line := InsideLine(stamp, i, measure, x, ty - voff);
      var next := NextLine(stamp, i, ty, fsize);
      InsideTexts(stamp, i + 1, measure, x, next, fsize, voff);
      DrawnTextAppend(line, InsideFrom(stamp, i + 1, measure, x, next, fsize, voff));
      if line != [] {
        DrawnTextCons(line[0], []);
      }
    }
  }

  lemma {:induction false} UnderTexts(stamp: Stamp, i: nat, hi: nat, measure: string -> real, x: real, ty: real)
    ensures DrawnText(UnderFrom(stamp, i, hi, measure, x, ty)) == TextsOf(stamp, i, hi)
    decreases hi - i
  {
    if i < hi {
      var line := UnderText(stamp, i, measure, x, ty);
      UnderTexts(stamp, i + 1, hi, measure, x, ty);
      DrawnTextAppend(line, UnderFrom(stamp, i + 1, hi, measure, x, ty));
      if line != [] {
        DrawnTextCons(line[0], []);
      }
    }
  }

  lemma {:induction false} TextsOfSplit(stamp: Stamp, lo: nat, mid: nat, hi: nat)
    requires lo <= mid <= hi
    ensures TextsOf(stamp, lo, hi) == TextsOf(stamp, lo, mid) + TextsOf(stamp, mid, hi)
    decreases mid - lo
  {
    if lo < mid {
      TextsOfSplit(stamp, lo + 1, mid, hi);
    }
  }

  lemma FrameHasNoText(row: StampRow, stamp: Stamp, x: real, ypos: real)
    ensures DrawnText(Frame(row, stamp, x, ypos)) == []
  {
    NoTextDrawsNothing(Frame(row, stamp, x, ypos));
  }

  lemma TextsInOrder(stamp: Stamp, measure: string -> real, x: real, inside: real, fsize: real, voff: real,
                      under1: real, under2: real)
    ensures DrawnText(TextsAt(stamp, measure, x, inside, fsize, voff, under1, under2)) == TextsOf(stamp, 0, 9)
  {
    InsideTexts(stamp, 0, measure, x, inside, fsize, voff);
    UnderTexts(stamp, 3, 6, measure, x, under1);
    UnderTexts(stamp, 6, 9, measure, x, under2);
    TextsOfThirds(stamp);
    ThreeParts(InsideFrom(stamp, 0, measure, x, inside, fsize, voff), UnderFrom(stamp, 3, 6, measure, x, under1),
               UnderFrom(stamp, 6, 9, measure, x, under2), TextsOf(stamp, 0, 3), TextsOf(stamp, 3, 6), TextsOf(stamp, 6, 9));
  }

  lemma TextsOfThirds(stamp: Stamp)
    ensures TextsOf(stamp, 0, 9) == TextsOf(stamp, 0, 3) + (TextsOf(stamp, 3, 6) + TextsOf(stamp, 6, 9))
  {
    TextsOfSplit(stamp, 0, 3, 9);
    TextsOfSplit(stamp, 3, 6, 9);
  }

  lemma ThreeParts(a: seq<Draw>, b: seq<Draw>, c: seq<Draw>, ta: string, tb: string, tc: string)
    requires DrawnText(a) == ta && DrawnText(b) == tb && DrawnText(c) == tc
    ensures DrawnText(a + b + c) == ta + (tb + tc)
  {
    DrawnTextAppend(a + b, c);
    DrawnTextAppend(a, b);
  }

  /** A stamp that is not blank draws each of its nine texts once, in order, and nothing else
      as text; a blank stamp draws no text at all. */
  lemma StampDrawsItsTexts(row: StampRow, stamp: Stamp, measure: string -> real, x: real, ypos: real)
    ensures DrawnText(StampLog(row, stamp, measure, x, ypos)) == if stamp.style == Blank then [] else TextsOf(stamp, 0, 9)
  {
    FrameHasNoText(row, stamp, x, ypos);
    NothingAfter(Frame(row, stamp, x, ypos), StampTexts(row, stamp, measure, x, ypos));
    if stamp.style != Blank {
      TextsInOrder(stamp, measure, x, InsideBaseline(stamp.height, InsideCount(stamp), row.fsize, ypos), row.fsize,
                   StampOffset(row, stamp), FirstUnderBaseline(row, stamp, ypos), SecondUnderBaseline(row, stamp, ypos));
    }
  }

  lemma NothingAfter(head: seq<Draw>, tail: seq<Draw>)
    requires DrawnText(head) == []
    ensures DrawnText(head + tail) == DrawnText(tail)
  {
    DrawnTextAppend(head, tail);
  }

  lemma {:induction false} CountTextsSplit(stamp: Stamp, lo: nat, mid: nat, hi: nat)
    requires lo <= mid <= hi
    ensures CountTexts(stamp, lo, hi) == CountTexts(stamp, lo, mid) + CountTexts(stamp, mid, hi)
    decreases hi
  {
    if mid < hi {
      CountTextsSplit(stamp, lo, mid, hi - 1);
    }
  }

  /** With a font size that is not negative, a stamp takes its own height below its aligned top
      edge and, for a stamp that is not blank, the lines of texts under it: nothing when it has
      none, the font size and two points for the first line and the font size and one point for
      the second. */
  lemma StampHeightParts(row: StampRow, stamp: Stamp)
    requires row.fsize >= 0.0
    ensures var voff := VOffset(row.rowAlign, row.maxStampHeight, stamp.height);
            var below := StampHeight(row, stamp) - stamp.height - voff;
            && (stamp.style == Blank ==> below == 0.0)
            && (stamp.style != Blank ==>
                  below in {0.0, row.fsize + 1.0, row.fsize + 2.0, 2.0 * row.fsize + 3.0}
                  && (below == 0.0 <==> CountTexts(stamp, 3, 9) == 0))
  {
    CountTextsSplit(stamp, 3, 6, 9);
  }

  /** Consecutive lines: the k-th entry of log is a text at baseline top less k lines. */
  predicate LinesFrom(log: seq<Draw>, top: real, fsize: real)
  {
    forall k :: 0 <= k < |log| ==> log[k].TextOut? && log[k].y == top - k as real * fsize
  }

  lemma ShiftLines(first: Draw, rest: seq<Draw>, top: real, fsize: real)
    requires first.TextOut? && first.y == top && LinesFrom(rest, top - fsize, fsize)
    ensures LinesFrom([first] + rest, top, fsize)
  {
    var log := [first] + rest;
    forall k | 0 <= k < |log|
      ensures log[k].TextOut? && log[k].y == top - k as real * fsize
    {
      if k > 0 {
        assert log[k] == rest[k - 1];
        OneLineLower(top, fsize, k);
      }
    }
  }

  /** The texts inside a stamp from index i on are on consecutive lines, the first at baseline
      ty moved down by the row alignment offset. */
  lemma {:induction false} InsideLines(stamp: Stamp, i: nat, measure: string -> real, x: real, ty: real, fsize: real, voff: real)
    ensures LinesFrom(InsideFrom(stamp, i, measure, x, ty, fsize, voff), ty - voff, fsize)
    decreases 3 - i
  {
    if i < 3 {
      var line := InsideLine(stamp, i, measure, x, ty - voff);
      var next := NextLine(stamp, i, ty, fsize);
      var rest := InsideFrom(stamp, i + 1, measure, x, next, fsize, voff);
      InsideLines(stamp, i + 1, measure, x, next, fsize, voff);
      assert InsideFrom(stamp, i, measure, x, ty, fsize, voff) == line + rest;
      if line == [] {
        assert line + rest == rest;
      } else {
        var first := line[0];
        assert line == [first] && first.TextOut? && first.y == ty - voff;
        assert next - voff == ty - voff - fsize;
        ShiftLines(first, rest, ty - voff, fsize);
      }
    }
  }

  lemma OneLineLower(ty: real, fsize: real, k: nat)
    requires k >= 1
    ensures (ty - fsize) - (k - 1) as real * fsize == ty - k as real * fsize
  {
    assert (k - 1) as real * fsize + fsize == k as real * fsize;
  }

  /** The lines inside a stamp are centred vertically on it: the block of n lines of fsize
      points below the first baseline's line has its top and bottom equally far from the
      stamp's top and bottom edges. */
  lemma InsideBlockCentred(height: real, n: nat, fsize: real, top: real)
    ensures var blockTop := InsideBaseline(height, n, fsize, top) + fsize;
            var blockBottom := blockTop - n as real * fsize;
            top - blockTop == blockBottom - (top - height)
  {
  }

  /** The first loop of drawStamp: how many of the texts inside the stamp are not empty. */
  method CountInside(stamp: Stamp) returns (txtRows: nat)
    ensures txtRows == CountTexts(stamp, 0, 3)
  {
    txtRows := 0;
    for i := 0 to 3
      invariant txtRows == CountTexts(stamp, 0, i)
    {
      if |stamp.Text(i)| > 0 {
        txtRows := txtRows + 1;
      }
    }
  }

  /** The body of the second loop of drawStamp: text i centred across the stamp, and the next
      baseline. */
  method CentreText(stamp: Stamp, i: nat, measure: string -> real, x: real, txtYpos: real, fsize: real, voff: real)
    returns (line: seq<Draw>, next: real)
    ensures line == InsideLine(stamp, i, measure, x, txtYpos - voff) && next == NextLine(stamp, i, txtYpos, fsize)
  {
    var str := stamp.Text(i);
    line, next := [], txtYpos;
    if |str| > 0 {
      line := [TextOut(x + (stamp.width - measure(str)) / 2.0, txtYpos - voff, str)];
      next := txtYpos - fsize;
    }
  }

  /** The second loop of drawStamp: the texts inside the stamp, one line apart. */
  method DrawInside(stamp: Stamp, measure: string -> real, x: real, ty: real, fsize: real, voff: real)
    returns (log: seq<Draw>)
    ensures log == InsideFrom(stamp, 0, measure, x, ty, fsize, voff)
  {
    log := [];
    var txtYpos := ty;
    ghost var rest := InsideFrom(stamp, 0, measure, x, ty, fsize, voff);
    ghost var all := rest;
    for i := 0 to 3
      invariant rest == InsideFrom(stamp, i, measure, x, txtYpos, fsize, voff)
      invariant log + rest == all
    {
      var line, next := CentreText(stamp, i, measure, x, txtYpos, fsize, voff);
      rest := InsideFrom(stamp, i + 1, measure, x, next, fsize, voff);
      AppendAssoc(log, line, rest);
      log := log + line;
      txtYpos := next;
    }
    assert log + [] == log;
  }

  /** The body of a loop of drawStamp over a line of texts under the stamp: text i in its
      column. */
  method PlaceUnder(stamp: Stamp, i: nat, measure: string -> real, x: real, ty: real)
    returns (line: seq<Draw>, drawn: bool)
    ensures line == UnderText(stamp, i, measure, x, ty)
    ensures drawn == (stamp.Text(i) != [])
  {
    var str := stamp.Text(i);
    line, drawn := [], false;
    if |str| > 0 {
      line, drawn := [TextOut(ColumnX(i, x, stamp.width, measure(str)), ty, str)], true;
    }
  }

  /** Counting one more index finds a text exactly when one was found before or it has one. */
  lemma CountStep(stamp: Stamp, lo: nat, i: nat)
    requires lo <= i
    ensures (CountTexts(stamp, lo, i + 1) > 0) == (CountTexts(stamp, lo, i) > 0 || stamp.Text(i) != [])
  {
  }

  /** One of the loops of drawStamp over a line of texts under the stamp, index lo to lo + 2,
      at baseline ty; whether the line had a text. */
  method DrawUnder(stamp: Stamp, lo: nat, measure: string -> real, x: real, ty: real)
    returns (log: seq<Draw>, found: bool)
    ensures log == UnderFrom(stamp, lo, lo + 3, measure, x, ty)
    ensures found == (CountTexts(stamp, lo, lo + 3) > 0)
  {
    log, found := [], false;
    ghost var rest := UnderFrom(stamp, lo, lo + 3, measure, x, ty);
    ghost var all := rest;
    for i := lo to lo + 3
      invariant rest == UnderFrom(stamp, i, lo + 3, measure, x, ty)
      invariant log + rest == all
      invariant found == (CountTexts(stamp, lo, i) > 0)
    {
      var line, drawn := PlaceUnder(stamp, i, measure, x, ty);
      rest := UnderFrom(stamp, i + 1, lo + 3, measure, x, ty);
      AppendAssoc(log, line, rest);
      CountStep(stamp, lo, i);
      log := log + line;
      found := found || drawn;
    }
    assert log + [] == log;
  }

  /** The start of drawStamp: how far the stamp is moved down to line up with its row. */
  method AlignOffset(align: RowAlign, maxHeight: real, height: real) returns (voffset: real)
    ensures voffset == VOffset(align, maxHeight, height)
  {
    voffset := 0.0;
    if align == AlignBottom {
      voffset := maxHeight - height;
    } else if align == AlignMiddle {
      voffset := (maxHeight - height) / 2.0;
    }
  }

  /** drawStamp: the stamp's outline lined up with its row, and its texts when it is not blank. */
  method DrawStamp(row: StampRow, stamp: Stamp, measure: string -> real, xpos: real, ypos: real)
    returns (log: seq<Draw>, height: real)
    ensures log == StampLog(row, stamp, measure, xpos, ypos)
    ensures height == StampHeight(row, stamp)
  {
    var voffset := AlignOffset(row.rowAlign, row.maxStampHeight, stamp.height);
    assert voffset == StampOffset(row, stamp);
    var top := ypos - voffset;
    assert top == StampTop(row, stamp, ypos);
    var frame := [SetLineWidth(row.lineWidth)] + Outline(stamp.style, xpos, top, stamp.width, stamp.height);
    assert frame == Frame(row, stamp, xpos, ypos);
    var texts := [];
    var txtHeight := 0.0;
    var stampHeight := stamp.height;
    if stamp.style != Blank {
      texts, stampHeight, txtHeight := DrawTexts(row, stamp, measure, xpos, ypos, voffset);
    }
    log := frame + texts;
    height := stampHeight + txtHeight + voffset;
  }

  /** The texts inside a stamp whose top edge is at ypos before alignment: counted, then
      drawn centred on the stamp. */
  method DrawCentred(stamp: Stamp, measure: string -> real, xpos: real, ypos: real, f: real, voffset: real)
    returns (inside: seq<Draw>)
    ensures inside == InsideFrom(stamp, 0, measure, xpos, InsideBaseline(stamp.height, InsideCount(stamp), f, ypos), f, voffset)
  {
    var txtRows := CountInside(stamp);
    var txtYpos := ypos - (stamp.height - txtRows as real * f) / 2.0 - f;
    assert txtYpos == InsideBaseline(stamp.height, InsideCount(stamp), f, ypos);
    inside := DrawInside(stamp, measure, xpos, txtYpos, f, voffset);
  }

  /** A line of texts under a stamp with the room it takes: gap when it has a text, else 0. */
  method DrawUnderLine(stamp: Stamp, lo: nat, measure: string -> real, x: real, ty: real, gap: real)
    returns (log: seq<Draw>, height: real)
    ensures log == UnderFrom(stamp, lo, lo + 3, measure, x, ty)
    ensures height == UnderGap(stamp, lo, gap)
  {
    var found;
    log, found := DrawUnder(stamp, lo, measure, x, ty);
    height := if found then gap else 0.0;
  }

  /** The texts part of drawStamp, for a stamp that is not blank and is moved down by voffset:
      the texts, the height of the stamp with its first line of texts under it, and the room
      the second line takes. */
  method DrawTexts(row: StampRow, stamp: Stamp, measure: string -> real, xpos: real, ypos: real, voffset: real)
    returns (texts: seq<Draw>, stampHeight: real, txtHeight: real)
    requires stamp.style != Blank && voffset == StampOffset(row, stamp)
    ensures texts == StampTexts(row, stamp, measure, xpos, ypos)
    ensures stampHeight == stamp.height + UnderGap(stamp, 3, row.fsize + 2.0)
    ensures txtHeight == UnderGap(stamp, 6, row.fsize + 1.0)
  {
    var f := row.fsize;
    var inside := DrawCentred(stamp, measure, xpos, ypos, f, voffset);
    var ty1 := ypos - stamp.height - (f + 2.0) - voffset;
    assert ty1 == FirstUnderBaseline(row, stamp, ypos);
    var under1, gap1 := DrawUnderLine(stamp, 3, measure, xpos, ty1, f + 2.0);
    stampHeight := stamp.height + gap1;
    var ty2 := ypos - stampHeight - (f + 1.0) - voffset;
    assert ty2 == SecondUnderBaseline(row, stamp, ypos);
    var under2, gap2 := DrawUnderLine(stamp, 6, measure, xpos, ty2, f + 1.0);
    txtHeight := gap2;
    texts := inside + under1 + under2;
  }

  // ---------------------------------------------------------------------------------------
  // The row (CPageStampRow::drawToPdf).
  // ---------------------------------------------------------------------------------------

  /** Where the stamp after one that starts at sx starts. */
  function After(stamp: Stamp, sx: real, gap: real): real
  {
    sx + stamp.width + gap
  }

  /** The stamps from index i on, the next one starting at sx, where draw gives the drawing
      calls of a stamp at an x position and height the height it takes: a stamp is drawn only
      when it starts before limit and the cursor is above the bottom of the page, and only a
      drawn stamp moves sx on, by its width and the gap. The result is the drawing calls, the
      height of the tallest drawn stamp (0 when none), and where the next stamp would start. */
  function PlaceStamps(stamps: seq<Stamp>, draw: (Stamp, real) -> seq<Draw>, height: Stamp -> real, i: nat,
                       sx: real, gap: real, limit: real, ypos: real): (seq<Draw>, real, real)
    decreases |stamps| - i
  {
    if i >= |stamps| then ([], 0.0, sx)
    else if sx < limit && ypos > 0.0 then
      var rest := PlaceStamps(stamps, draw, height, i + 1, After(stamps[i], sx, gap), gap, limit, ypos);
      (draw(stamps[i], sx) + rest.0, Max(height(stamps[i]), rest.1), rest.2)
    else PlaceStamps(stamps, draw, height, i + 1, sx, gap, limit, ypos)
  }

  /** How drawStamp draws the stamps of a row at a cursor position ypos. */
  function DrawAt(row: StampRow, measure: string -> real, ypos: real): (Stamp, real) -> seq<Draw>
  {
    (s, x) => StampLog(row, s, measure, x, ypos)
  }

  /** The height drawStamp reports for the stamps of a row. */
  function HeightOf(row: StampRow): Stamp -> real
  {
    s => StampHeight(row, s)
  }

  /** A row: without its font nothing is drawn, the cursor stays and the error flag is raised;
      otherwise the font is set, the stamps are placed as the row style says, and the cursor
      goes down by the height of the row and the vertical spacing when the row has a height. */
  function RenderRow(row: StampRow, font: Fonts.FontResult, textWidth: TextWidth, xpos: real, ypos: real,
                     drawWidth: real, pageWidth: real, hspacing: real, vspacing: real): Drawn
  {
    match font
    case NoFont(_) => Drawn([], ypos, false)
    case Font(req) =>
      PlacedRow(row, req, MeasureWith(textWidth, req, row.fsize),
                Distribute(row.style, |row.stamps|, RowWidth(row.stamps), row.spacing, xpos, drawWidth, hspacing),
                StampLimit(xpos, pageWidth), ypos, vspacing)
  }

  /** The right-hand bound on where a stamp may start: the left edge plus the page width. */
  function StampLimit(xpos: real, pageWidth: real): real
  {
    xpos + pageWidth
  }

  /** A row with its font: the font set, the stamps placed as p says, and the cursor moved
      down past the row when it has a height. */
  function PlacedRow(row: StampRow, req: Fonts.FontRequest, measure: string -> real, p: Placement,
                     limit: real, ypos: real, vspacing: real): Drawn
  {
    var r := PlaceStamps(row.stamps, DrawAt(row, measure, ypos), HeightOf(row), 0, p.start, p.gap, limit, ypos);
    Drawn([SetFont(req, row.fsize)] + r.0, if r.1 > 0.0 then ypos - r.1 - vspacing else ypos, true)
  }

  /** The tallest of the heights of the stamps from index i on, or 0. */
  function TallestFrom(stamps: seq<Stamp>, height: Stamp -> real, i: nat): real
    decreases |stamps| - i
  {
    if i >= |stamps| then 0.0 else Max(height(stamps[i]), TallestFrom(stamps, height, i + 1))
  }

  lemma {:induction false} RowWidthCons(s: seq<Stamp>)
    requires s != []
    ensures RowWidth(s) == s[0].width + RowWidth(s[1..])
    decreases |s|
  {
    if |s| > 1 {
      RowWidthCons(s[..|s| - 1]);
      assert s[..|s| - 1][1..] == s[1..][..|s[1..]| - 1];
    } else {
      assert s[1..] == [];
    }
  }

  lemma {:induction false} RowWidthPositive(s: seq<Stamp>)
    requires forall k :: 0 <= k < |s| ==> s[k].width > 0.0
    ensures RowWidth(s) >= 0.0
    decreases |s|
  {
    if s != [] {
      RowWidthPositive(s[..|s| - 1]);
    }
  }

  /** When the cursor is above the bottom of the page, the stamps have widths, the gap is not
      negative and the last stamp ends before limit, every stamp is drawn: the row is as tall
      as its tallest stamp and the next stamp would start where the widths and the gaps say. */
  lemma {:induction false} AllStampsPlaced(stamps: seq<Stamp>, draw: (Stamp, real) -> seq<Draw>, height: Stamp -> real,
                                            i: nat, sx: real, gap: real, limit: real, ypos: real)
    requires i <= |stamps| && ypos > 0.0 && gap >= 0.0
    requires forall k :: 0 <= k < |stamps| ==> stamps[k].width > 0.0
    requires i < |stamps| ==> sx + RowWidth(stamps[i..]) + (|stamps| - i - 1) as real * gap < limit
    ensures var r := PlaceStamps(stamps, draw, height, i, sx, gap, limit, ypos);
            r.1 == TallestFrom(stamps, height, i) && r.2 == sx + RowWidth(stamps[i..]) + (|stamps| - i) as real * gap
    decreases |stamps| - i
  {
    var n := |stamps|;
    if i < n {
      var s := stamps[i..];
      RowWidthCons(s);
      assert s[1..] == stamps[i + 1..];
      RowWidthPositive(stamps[i + 1..]);
      var m := (n - i - 1) as real;
      assert (n - i) as real * gap == gap + m * gap;
      assert m * gap >= 0.0;
      if i + 1 < n {
        assert (n - i - 1) as real * gap == gap + (n - i - 2) as real * gap;
      }
      AllStampsPlaced(stamps, draw, height, i + 1, After(stamps[i], sx, gap), gap, limit, ypos);
    } else {
      assert stamps[i..] == [];
    }
  }

  /** A justified row whose stamps fit and are all drawn ends exactly at the right edge of the
      drawing area: where the next stamp would start, less one gap; the row is as tall as its
      tallest stamp. */
  lemma JustifiedRowEndsAtMargin(stamps: seq<Stamp>, draw: (Stamp, real) -> seq<Draw>, height: Stamp -> real,
                                 fixedSpacing: real, xpos: real, ypos: real, drawWidth: real, pageWidth: real, hspacing: real)
    requires |stamps| >= 2 && ypos > 0.0 && pageWidth > drawWidth
    requires forall k :: 0 <= k < |stamps| ==> stamps[k].width > 0.0
    requires RowWidth(stamps) < drawWidth
    ensures var p := Distribute(JustifyRow, |stamps|, RowWidth(stamps), fixedSpacing, xpos, drawWidth, hspacing);
            var r := PlaceStamps(stamps, draw, height, 0, p.start, p.gap, xpos + pageWidth, ypos);
            r.2 - p.gap == xpos + drawWidth && r.1 == TallestFrom(stamps, height, 0)
  {
    var n := |stamps|;
    var w := RowWidth(stamps);
    var p := Distribute(JustifyRow, n, w, fixedSpacing, xpos, drawWidth, hspacing);
    JustifiedRowFills(n, w, fixedSpacing, xpos, drawWidth, hspacing);
    assert stamps[0..] == stamps;
    assert n as real * p.gap == (n - 1) as real * p.gap + p.gap;
    AllStampsPlaced(stamps, draw, height, 0, p.start, p.gap, xpos + pageWidth, ypos);
  }

  /** The tallest drawn stamp: the height is 0 or the height of one of the stamps, never
      negative, and 0 when the cursor is at or below the bottom of the page. */
  lemma {:induction false} PlacedHeight(stamps: seq<Stamp>, draw: (Stamp, real) -> seq<Draw>, height: Stamp -> real,
                                         i: nat, sx: real, gap: real, limit: real, ypos: real)
    ensures var h := PlaceStamps(stamps, draw, height, i, sx, gap, limit, ypos).1;
            && h >= 0.0
            && (h > 0.0 ==> exists k :: i <= k < |stamps| && h == height(stamps[k]))
            && (ypos <= 0.0 ==> h == 0.0)
    decreases |stamps| - i
  {
    if i < |stamps| {
      if sx < limit && ypos > 0.0 {
        PlacedHeight(stamps, draw, height, i + 1, After(stamps[i], sx, gap), gap, limit, ypos);
      } else {
        PlacedHeight(stamps, draw, height, i + 1, sx, gap, limit, ypos);
      }
    }
  }

  /** A row moves the cursor down by its height and the vertical spacing when its height is
      positive, and leaves the cursor where it was otherwise (in particular when it starts at
      or below the bottom of the page). */
  lemma RowDrop(row: StampRow, font: Fonts.FontResult, textWidth: TextWidth, xpos: real, ypos: real,
                drawWidth: real, pageWidth: real, hspacing: real, vspacing: real)
    ensures var d := RenderRow(row, font, textWidth, xpos, ypos, drawWidth, pageWidth, hspacing, vspacing);
            && (font.NoFont? ==> d == Drawn([], ypos, false))
            && (font.Font? ==> d.ok && (d.ypos != ypos ==> d.ypos < ypos - vspacing))
            && (ypos <= 0.0 ==> d.ypos == ypos)
  {
    if font.Font? {
      var measure := MeasureWith(textWidth, font.request, row.fsize);
      var p := Distribute(row.style, |row.stamps|, RowWidth(row.stamps), row.spacing, xpos, drawWidth, hspacing);
      PlacedHeight(row.stamps, DrawAt(row, measure, ypos), HeightOf(row),
                   0, p.start, p.gap, StampLimit(xpos, pageWidth), ypos);
    }
  }

  lemma MaxAssoc(a: real, b: real, c: real)
    ensures Max(Max(a, b), c) == Max(a, Max(b, c))
  {
  }

  /** The loop of drawToPdf that adds up the widths of the stamps. */
  method SumWidths(stamps: seq<Stamp>) returns (rowWidth: real, count: nat)
    ensures rowWidth == RowWidth(stamps) && count == |stamps|
  {
    rowWidth, count := 0.0, 0;
    for i := 0 to |stamps|
      invariant rowWidth == RowWidth(stamps[..i]) && count == i
    {
      assert stamps[..i + 1][..i] == stamps[..i];
      rowWidth := rowWidth + stamps[i].width;
      count := count + 1;
    }
    assert stamps[..|stamps|] == stamps;
  }

  /** The start and the gap, worked out as drawToPdf does, one style test after the other. */
  method PlaceRow(style: RowStyle, n: nat, rowWidth: real, fixedSpacing: real, xpos: real, drawWidth: real,
                  hspacing: real) returns (sxpos: real, stampSpace: real)
    ensures Placement(sxpos, stampSpace) == Distribute(style, n, rowWidth, fixedSpacing, xpos, drawWidth, hspacing)
  {
    if n < 2 {
      if style == JustifyRow {
        sxpos := xpos;
      } else {
        sxpos := xpos + drawWidth / 2.0 - rowWidth / 2.0;
      }
      stampSpace := hspacing;
    } else {
      var treatAsJustify := false;
      stampSpace := hspacing;
      sxpos := xpos;
      if style == EqualRow {
        var l := xpos - hspacing;
        var r := xpos + drawWidth + hspacing;
        var pw := r - l;
        if rowWidth < pw {
          stampSpace := (pw - rowWidth) / (n + 1) as real;
        } else {
          stampSpace := hspacing;
        }
        if stampSpace < hspacing {
          treatAsJustify := true;
        } else {
          sxpos := l + stampSpace;
        }
      }
      if style == JustifyRow || treatAsJustify {
        sxpos := xpos;
        if rowWidth < drawWidth {
          stampSpace := (drawWidth - rowWidth) / (n - 1) as real;
        } else {
          stampSpace := hspacing;
        }
      }
      if style == FixedRow {
        stampSpace := fixedSpacing;
        var total := rowWidth + (n - 1) as real * stampSpace;
        if total < drawWidth {
          sxpos := xpos + (drawWidth - total) / 2.0;
        } else {
          sxpos := xpos;
        }
      }
    }
  }

  /** The body of the stamp loop of CPageStampRow::drawToPdf: one stamp drawn at sx, its
      height, and where the next stamp starts. */
  method DrawNext(row: StampRow, stamp: Stamp, measure: string -> real, sx: real, gap: real, ypos: real)
    returns (log: seq<Draw>, height: real, next: real)
    ensures log == DrawAt(row, measure, ypos)(stamp, sx)
    ensures height == HeightOf(row)(stamp)
    ensures next == After(stamp, sx, gap)
  {
    log, height := DrawStamp(row, stamp, measure, sx, ypos);
    next := sx + stamp.width + gap;
  }

  /** A stamp that starts before the limit, on a page with room left, is drawn. */
  lemma PlaceStep(stamps: seq<Stamp>, draw: (Stamp, real) -> seq<Draw>, height: Stamp -> real, i: nat,
                  sx: real, gap: real, limit: real, ypos: real)
    requires i < |stamps| && sx < limit && ypos > 0.0
    ensures var rest := PlaceStamps(stamps, draw, height, i + 1, After(stamps[i], sx, gap), gap, limit, ypos);
            PlaceStamps(stamps, draw, height, i, sx, gap, limit, ypos)
            == (draw(stamps[i], sx) + rest.0, Max(height(stamps[i]), rest.1), rest.2)
  {
  }

  /** A stamp that starts at or past the limit, or on a page with no room left, is skipped
      and the cursor stays. */
  lemma PlaceSkip(stamps: seq<Stamp>, draw: (Stamp, real) -> seq<Draw>, height: Stamp -> real, i: nat,
                  sx: real, gap: real, limit: real, ypos: real)
    requires i < |stamps| && !(sx < limit && ypos > 0.0)
    ensures PlaceStamps(stamps, draw, height, i, sx, gap, limit, ypos)
            == PlaceStamps(stamps, draw, height, i + 1, sx, gap, limit, ypos)
  {
  }

  /** The stamp loop of drawToPdf: each stamp that starts on the page while the cursor is above
      its bottom is drawn, the row height follows the tallest, and the next stamp starts after
      this one and the gap. */
  method DrawStamps(row: StampRow, measure: string -> real, sxpos: real, stampSpace: real, limit: real, ypos: real)
    returns (log: seq<Draw>, rowHeight: real)
    ensures var r := PlaceStamps(row.stamps, DrawAt(row, measure, ypos), HeightOf(row),
                                 0, sxpos, stampSpace, limit, ypos);
            log == r.0 && rowHeight == Max(0.0, r.1)
  {
    var draw := DrawAt(row, measure, ypos);
    var height := HeightOf(row);
    ghost var rest := PlaceStamps(row.stamps, draw, height, 0, sxpos, stampSpace, limit, ypos);
    ghost var all := rest;
    log, rowHeight := [], 0.0;
    var sx := sxpos;
    for i := 0 to |row.stamps|
      invariant rest == PlaceStamps(row.stamps, draw, height, i, sx, stampSpace, limit, ypos)
      invariant log + rest.0 == all.0
      invariant Max(rowHeight, rest.1) == Max(0.0, all.1) && rowHeight >= 0.0
    {
      if sx < limit && ypos > 0.0 {
        var l, h, next := DrawNext(row, row.stamps[i], measure, sx, stampSpace, ypos);
        ghost var rest' := PlaceStamps(row.stamps, draw, height, i + 1, next, stampSpace, limit, ypos);
        PlaceStep(row.stamps, draw, height, i, sx, stampSpace, limit, ypos);
        AppendAssoc(log, l, rest'.0);
        MaxAssoc(rowHeight, h, rest'.1);
        log := log + l;
        rowHeight := Max(rowHeight, h);
        sx := next;
        rest := rest';
      } else {
        PlaceSkip(row.stamps, draw, height, i, sx, stampSpace, limit, ypos);
        rest := PlaceStamps(row.stamps, draw, height, i + 1, sx, stampSpace, limit, ypos);
      }
    }
    assert rest.0 == [] && rest.1 == 0.0;
    assert log + [] == log;
  }

  /** CPageStampRow::drawToPdf: the placement of the stamps, the font lookup (loading its file
      at most once), the stamps, and the cursor moved down past the row. */
  method DrawRow(fonts: Fonts.FontTable, row: StampRow, textWidth: TextWidth, load: string -> string,
                 xpos: real, ypos: real, drawWidth: real, pageWidth: real, hspacing: real, vspacing: real)
    returns (d: Drawn, font: Fonts.FontResult)
    requires fonts.Valid()
    modifies fonts.fontFileMap
    ensures fonts.Valid()
    ensures (font, fonts.fontFileMap[..]) == Fonts.FontLookup(fonts.fontMap[..], old(fonts.fontFileMap[..]), row.findex, load)
    ensures d == RenderRow(row, font, textWidth, xpos, ypos, drawWidth, pageWidth, hspacing, vspacing)
  {
    var rowWidth, countStamps := SumWidths(row.stamps);
    var sxpos, stampSpace := PlaceRow(row.style, countStamps, rowWidth, row.spacing, xpos, drawWidth, hspacing);
    var loaded;
    font, loaded := fonts.GetFont(row.findex, load);
    if font.NoFont? {
      return Drawn([], ypos, false), font;
    }
    d := DrawPlacedRow(row, font.request, textWidth, sxpos, stampSpace, xpos, ypos, drawWidth, pageWidth, hspacing, vspacing);
  }

  /** The part of drawToPdf after the font is found: the font set, the stamps drawn from
      sxpos with stampSpace between them, and the cursor moved down past the row. */
  method DrawPlacedRow(row: StampRow, font: Fonts.FontRequest, textWidth: TextWidth, sxpos: real, stampSpace: real,
                       xpos: real, ypos: real, drawWidth: real, pageWidth: real, hspacing: real, vspacing: real)
    returns (d: Drawn)
    requires Placement(sxpos, stampSpace)
             == Distribute(row.style, |row.stamps|, RowWidth(row.stamps), row.spacing, xpos, drawWidth, hspacing)
    ensures d == RenderRow(row, Fonts.Font(font), textWidth, xpos, ypos, drawWidth, pageWidth, hspacing, vspacing)
  {
    var measure := MeasureWith(textWidth, font, row.fsize);
    var limit := xpos + pageWidth;
    assert limit == StampLimit(xpos, pageWidth);
    var log, rowHeight := DrawStamps(row, measure, sxpos, stampSpace, limit, ypos);
    PlacedHeight(row.stamps, DrawAt(row, measure, ypos), HeightOf(row), 0, sxpos, stampSpace, limit, ypos);
    var y := ypos;
    if rowHeight > 0.0 {
      y := ypos - rowHeight - vspacing;
    }
    d := Drawn([SetFont(font, row.fsize)] + log, y, true);
  }
}
