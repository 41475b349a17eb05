/**
 * Keeping the application's windows on the screen when their saved layouts are loaded
 * (CConfig::loadWindowLayouts and CConfig::constrainRectToScreen).
 *
 * A rectangle is the toolkit's integer rectangle, stored the way the toolkit stores it:
 * the inclusive corners (x1, y1) and (x2, y2), so that right = left + width - 1.
 * The available screen rectangle is a parameter instead of a query of the desktop.
 */
module WindowLayout {

  datatype Rect = Rect(x1: int, y1: int, x2: int, y2: int)
  {
    function Left(): int { x1 }
    function Top(): int { y1 }
    function Right(): int { x2 }
    function Bottom(): int { y2 }
    function Width(): int { x2 - x1 + 1 }
    function Height(): int { y2 - y1 + 1 }

    /** A rectangle of zero width and zero height. */
    predicate IsNull() { x2 == x1 - 1 && y2 == y1 - 1 }

    /** Keeps the left edge and changes the width. */
    function SetWidth(w: int): (r: Rect)
      ensures r.Left() == Left() && r.Width() == w && r.y1 == y1 && r.y2 == y2
    {
      this.(x2 := x1 + w - 1)
    }

    /** Keeps the top edge and changes the height. */
    function SetHeight(h: int): (r: Rect)
      ensures r.Top() == Top() && r.Height() == h && r.x1 == x1 && r.x2 == x2
    {
      this.(y2 := y1 + h - 1)
    }

    /** Moves horizontally so that the left edge is at pos; the width is kept. */
    function MoveLeft(pos: int): (r: Rect)
      ensures r.Left() == pos && r.Width() == Width() && r.y1 == y1 && r.y2 == y2
    {
      this.(x1 := pos, x2 := x2 + (pos - x1))
    }

    /** Moves horizontally so that the right edge is at pos; the width is kept. */
    function MoveRight(pos: int): (r: Rect)
      ensures r.Right() == pos && r.Width() == Width() && r.y1 == y1 && r.y2 == y2
    {
      this.(x1 := x1 + (pos - x2), x2 := pos)
    }

    /** Moves vertically so that the top edge is at pos; the height is kept. */
    function MoveTop(pos: int): (r: Rect)
      ensures r.Top() == pos && r.Height() == Height() && r.x1 == x1 && r.x2 == x2
    {
      this.(y1 := pos, y2 := y2 + (pos - y1))
    }

    /** Moves vertically so that the bottom edge is at pos; the height is kept. */
    function MoveBottom(pos: int): (r: Rect)
      ensures r.Bottom() == pos && r.Height() == Height() && r.x1 == x1 && r.x2 == x2
    {
      this.(y1 := y1 + (pos - y2), y2 := pos)
    }

    /** The toolkit's non-proper containment test: false when either rectangle is null;
        otherwise both rectangles are normalised and their edges compared. */
    predicate Contains(r: Rect)
    {
      && !IsNull() && !r.IsNull()
      && var (l1, r1) := if x2 - x1 + 1 < 0 then (x2, x1) else (x1, x2);
         var (l2, r2) := if r.x2 - r.x1 + 1 < 0 then (r.x2, r.x1) else (r.x1, r.x2);
         var (t1, b1) := if y2 - y1 + 1 < 0 then (y2, y1) else (y1, y2);
         var (t2, b2) := if r.y2 - r.y1 + 1 < 0 then (r.y2, r.y1) else (r.y1, r.y2);
         l1 <= l2 && r2 <= r1 && t1 <= t2 && b2 <= b1
    }
  }

  function Min(a: int, b: int): int { if a < b then a else b }

  function Max(a: int, b: int): int { if a < b then b else a }

  /** The edges of r lie within those of screen. */
  predicate WithinHorizontally(r: Rect, screen: Rect)
  {
    screen.Left() <= r.Left() && r.Right() <= screen.Right()
  }

  predicate WithinVertically(r: Rect, screen: Rect)
  {
    screen.Top() <= r.Top() && r.Bottom() <= screen.Bottom()
  }

  /** The size raised to the minimum, the first step of constrainRectToScreen. */
  function Resized(rect: Rect, minWidth: int, minHeight: int): (r: Rect)
    ensures r.Left() == rect.Left() && r.Top() == rect.Top()
    ensures r.Width() == (if rect.Width() < minWidth then minWidth else rect.Width())
    ensures r.Height() == (if rect.Height() < minHeight then minHeight else rect.Height())
  {
    var w := if rect.Width() < minWidth then rect.SetWidth(minWidth) else rect;
    if w.Height() < minHeight then w.SetHeight(minHeight) else w
  }

  /** The horizontal correction, as written: move to the violated edge, then cap the width. */
  function FitHorizontally(r: Rect, screen: Rect): Rect
  {
    if r.Left() < screen.Left() then
      var m := r.MoveLeft(screen.Left());
      m.SetWidth(Min(screen.Width(), m.Width()))
    else if r.Right() > screen.Right() then
      var m := r.MoveRight(screen.Right());
      m.SetWidth(Min(screen.Width(), m.Width()))
    else r
  }

  function FitVertically(r: Rect, screen: Rect): Rect
  {
    if r.Top() < screen.Top() then
      var m := r.MoveTop(screen.Top());
      m.SetHeight(Min(screen.Height(), m.Height()))
    else if r.Bottom() > screen.Bottom() then
      var m := r.MoveBottom(screen.Bottom());
      m.SetHeight(Min(screen.Height(), m.Height()))
    else r
  }

  /** What constrainRectToScreen leaves in its in-out rectangle. */
  function Constrained(rect: Rect, minWidth: int, minHeight: int, screen: Rect): Rect
  {
    var s := Resized(rect, minWidth, minHeight);
    if screen.Contains(s) then s else FitVertically(FitHorizontally(s, screen), screen)
  }

  /** CConfig::constrainRectToScreen, step by step on the in-out rectangle. */
  method ConstrainRectToScreen(rect: Rect, minWidth: int, minHeight: int, screen: Rect)
    returns (r: Rect)
    ensures r == Constrained(rect, minWidth, minHeight, screen)
  {
    r := rect;
    if r.Width() < minWidth {
      r := r.SetWidth(minWidth);
    }
    if r.Height() < minHeight {
      r := r.SetHeight(minHeight);
    }
    if !screen.Contains(r) {
      if r.Left() < screen.Left() {
        r := r.MoveLeft(screen.Left());
        r := r.SetWidth(Min(screen.Width(), r.Width()));
      } else if r.Right() > screen.Right() {
        r := r.MoveRight(screen.Right());
        r := r.SetWidth(Min(screen.Width(), r.Width()));
      }
      if r.Top() < screen.Top() {
        r := r.MoveTop(screen.Top());
        r := r.SetHeight(Min(screen.Height(), r.Height()));
      } else if r.Bottom() > screen.Bottom() {
        r := r.MoveBottom(screen.Bottom());
        r := r.SetHeight(Min(screen.Height(), r.Height()));
      }
    }
  }

  /** A rectangle that, once resized, lies on the screen is only resized. */
  lemma InsideOnlyResized(rect: Rect, minWidth: int, minHeight: int, screen: Rect)
    requires screen.Contains(Resized(rect, minWidth, minHeight))
    ensures Constrained(rect, minWidth, minHeight, screen) == Resized(rect, minWidth, minHeight)
  {
  }

  /** The horizontal step changes only the left edge and the width; the vertical step changes
      only the top edge and the height. */
  lemma StepsAreSeparable(r: Rect, screen: Rect)
    ensures FitHorizontally(r, screen).y1 == r.y1 && FitHorizontally(r, screen).y2 == r.y2
    ensures FitVertically(r, screen).x1 == r.x1 && FitVertically(r, screen).x2 == r.x2
  {
  }

  /** The horizontal step as the three cases of the source. */
  lemma HorizontalCases(r: Rect, screen: Rect)
    ensures r.Left() < screen.Left() ==>
      FitHorizontally(r, screen).Left() == screen.Left()
      && FitHorizontally(r, screen).Width() == Min(screen.Width(), r.Width())
    ensures screen.Left() <= r.Left() && r.Right() > screen.Right() ==>
      FitHorizontally(r, screen).Left() == screen.Right() - r.Width() + 1
      && FitHorizontally(r, screen).Width() == Min(screen.Width(), r.Width())
    ensures screen.Left() <= r.Left() && r.Right() <= screen.Right() ==>
      FitHorizontally(r, screen) == r
  {
  }

  /** When the rectangle fits within the screen's width, the horizontal step puts it within the
      screen's left and right edges. */
  lemma {:induction false} NarrowFitsHorizontally(r: Rect, screen: Rect)
    requires 1 <= r.Width() <= screen.Width()
    ensures WithinHorizontally(FitHorizontally(r, screen), screen)
  {
    HorizontalCases(r, screen);
  }

  /** A rectangle whose right edge is beyond the screen's is not contained in it. */
  lemma OverflowNotContained(r: Rect, screen: Rect)
    requires r.Width() >= 1 && screen.Width() >= 1 && r.Right() > screen.Right()
    ensures !screen.Contains(r)
  {
  }

  /** A concrete window wider than the screen that only overflows on the right: the code moves its
      right edge to the screen's right edge and then shortens it from the right, which leaves the
      whole window (right edge -1) to the left of the screen (left edge 0). */
  lemma WideWindowLeavesScreen()
    ensures Constrained(Rect(10, 0, 209, 49), 64, 64, Rect(0, 0, 99, 99)) == Rect(-100, 0, -1, 63)
  {
    WideWindowResized();
    WideWindowOverflows();
    WideWindowFitted();
  }

  lemma WideWindowOverflows()
    ensures !Rect(0, 0, 99, 99).Contains(Rect(10, 0, 209, 63))
  {
    OverflowNotContained(Rect(10, 0, 209, 63), Rect(0, 0, 99, 99));
  }

  lemma WideWindowResized()
    ensures Resized(Rect(10, 0, 209, 49), 64, 64) == Rect(10, 0, 209, 63)
  {
  }

  lemma WideWindowFitted()
    ensures FitVertically(FitHorizontally(Rect(10, 0, 209, 63), Rect(0, 0, 99, 99)), Rect(0, 0, 99, 99))
            == Rect(-100, 0, -1, 63)
  {
    assert FitHorizontally(Rect(10, 0, 209, 63), Rect(0, 0, 99, 99)) == Rect(-100, 0, -1, 63);
  }

  /** The horizontal step with the width capped before the right edge is aligned. */
  function FitHorizontallyCorrected(r: Rect, screen: Rect): Rect
  {
    if r.Left() < screen.Left() then
      var m := r.MoveLeft(screen.Left());
      m.SetWidth(Min(screen.Width(), m.Width()))
    else if r.Right() > screen.Right() then
      var m := r.SetWidth(Min(screen.Width(), r.Width()));
      m.MoveRight(screen.Right())
    else r
  }

  function FitVerticallyCorrected(r: Rect, screen: Rect): Rect
  {
    if r.Top() < screen.Top() then
      var m := r.MoveTop(screen.Top());
      m.SetHeight(Min(screen.Height(), m.Height()))
    else if r.Bottom() > screen.Bottom() then
      var m := r.SetHeight(Min(screen.Height(), r.Height()));
      m.MoveBottom(screen.Bottom())
    else r
  }

  function ConstrainedCorrected(rect: Rect, minWidth: int, minHeight: int, screen: Rect): Rect
  {
    var s := Resized(rect, minWidth, minHeight);
    if screen.Contains(s) then s
    else FitVerticallyCorrected(FitHorizontallyCorrected(s, screen), screen)
  }

  /** The corrected steps always leave a non-empty rectangle on a non-empty screen. */
  lemma {:induction false} CorrectedIsOnScreen(rect: Rect, minWidth: int, minHeight: int, screen: Rect)
    requires minWidth >= 1 && minHeight >= 1
    requires screen.Width() >= 1 && screen.Height() >= 1
    ensures var r := ConstrainedCorrected(rect, minWidth, minHeight, screen);
            WithinHorizontally(r, screen) && WithinVertically(r, screen)
            && r.Width() >= 1 && r.Height() >= 1
  {
    var s := Resized(rect, minWidth, minHeight);
    if screen.Contains(s) {
      assert WithinHorizontally(s, screen) && WithinVertically(s, screen);
    } else {
      var h := FitHorizontallyCorrected(s, screen);
      assert WithinHorizontally(h, screen) && h.Width() >= 1;
      assert h.y1 == s.y1 && h.y2 == s.y2;
      var v := FitVerticallyCorrected(h, screen);
      assert WithinVertically(v, screen) && v.x1 == h.x1 && v.x2 == h.x2;
    }
  }

  /** The corrected steps keep every rectangle the code already handles within the screen. */
  lemma {:induction false} CorrectedAgreesWhenNarrow(rect: Rect, minWidth: int, minHeight: int, screen: Rect)
    requires var s := Resized(rect, minWidth, minHeight);
             1 <= s.Width() <= screen.Width() && 1 <= s.Height() <= screen.Height()
    ensures ConstrainedCorrected(rect, minWidth, minHeight, screen) == Constrained(rect, minWidth, minHeight, screen)
  {
  }

  /** CConfig::loadWindowLayouts: minimum sizes of at least 64, then each stored layout kept on
      the screen (with the corrected horizontal and vertical steps). */
  method LoadWindowLayouts(parentMinWidth: int, parentMinHeight: int,
                           mainStored: Rect, helpStored: Rect, fontListStored: Rect, screen: Rect)
    returns (mainWnd: Rect, helpWnd: Rect, fontListWnd: Rect)
    ensures screen.Width() >= 1 && screen.Height() >= 1 ==>
      && WithinHorizontally(mainWnd, screen) && WithinVertically(mainWnd, screen)
      && WithinHorizontally(helpWnd, screen) && WithinVertically(helpWnd, screen)
      && WithinHorizontally(fontListWnd, screen) && WithinVertically(fontListWnd, screen)
    ensures screen.Contains(Resized(mainStored, 64, 64)) && parentMinWidth <= 64 && parentMinHeight <= 64 ==>
      mainWnd == Resized(mainStored, 64, 64)
    ensures var minWidth, minHeight := Max(parentMinWidth, 64), Max(parentMinHeight, 64);
      && mainWnd == ConstrainedCorrected(mainStored, minWidth, minHeight, screen)
      && helpWnd == ConstrainedCorrected(helpStored, minWidth, minHeight, screen)
      && fontListWnd == ConstrainedCorrected(fontListStored, minWidth, minHeight, screen)
  {
    var minWidth := parentMinWidth;
    var minHeight := parentMinHeight;
    minWidth := if minWidth < 64 then 64 else minWidth;
    minHeight := if minHeight < 64 then 64 else minHeight;
    mainWnd := ConstrainRectToScreenCorrected(mainStored, minWidth, minHeight, screen);
    helpWnd := ConstrainRectToScreenCorrected(helpStored, minWidth, minHeight, screen);
    fontListWnd := ConstrainRectToScreenCorrected(fontListStored, minWidth, minHeight, screen);
  }

  /** constrainRectToScreen with the corrected horizontal and vertical steps. */
  method ConstrainRectToScreenCorrected(rect: Rect, minWidth: int, minHeight: int, screen: Rect)
    returns (r: Rect)
    ensures r == ConstrainedCorrected(rect, minWidth, minHeight, screen)
    ensures minWidth >= 1 && minHeight >= 1 && screen.Width() >= 1 && screen.Height() >= 1 ==>
      WithinHorizontally(r, screen) && WithinVertically(r, screen)
  {
    r := rect;
    if r.Width() < minWidth {
      r := r.SetWidth(minWidth);
    }
    if r.Height() < minHeight {
      r := r.SetHeight(minHeight);
    }
    assert r == Resized(rect, minWidth, minHeight);
    if !screen.Contains(r) {
      ghost var s := r;
      if r.Left() < screen.Left() {
        r := r.MoveLeft(screen.Left());
        r := r.SetWidth(Min(screen.Width(), r.Width()));
      } else if r.Right() > screen.Right() {
        r := r.SetWidth(Min(screen.Width(), r.Width()));
        r := r.MoveRight(screen.Right());
      }
      assert r == FitHorizontallyCorrected(s, screen);
      ghost var h := r;
      if r.Top() < screen.Top() {
        r := r.MoveTop(screen.Top());
        r := r.SetHeight(Min(screen.Height(), r.Height()));
      } else if r.Bottom() > screen.Bottom() {
        r := r.SetHeight(Min(screen.Height(), r.Height()));
        r := r.MoveBottom(screen.Bottom());
      }
      assert r == FitVerticallyCorrected(h, screen);
    }
    if minWidth >= 1 && minHeight >= 1 && screen.Width() >= 1 && screen.Height() >= 1 {
      CorrectedIsOnScreen(rect, minWidth, minHeight, screen);
    }
  }
}
