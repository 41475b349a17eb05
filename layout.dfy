/**
 * Layout arithmetic and drawing of the items on a page (the drawing half of CAlbumData,
 * CPageText, CPageStampRow): the drawing area between the margins and borders, centred and
 * word-wrapped text, the horizontal distribution of a row of stamps and the drawing of each
 * stamp.
 *
 * The PDF library is not modelled: each drawing call becomes an entry of a log, and the width
 * of a text in the current font and size (HPDF_Page_TextWidth) is a function given by the
 * caller. All lengths are points, doubles are reals, and the vertical cursor `ypos` runs down
 * from the top of the page, as in PDF coordinates.
 */
module Layout {
  import opened Text
  import opened Album
  import Fonts

  /** One drawing call: line width, a stroked rectangle or line, a text at a base point, or the
      font and size of the texts that follow. */
  datatype Draw =
    | SetLineWidth(width: real)
    | Rectangle(x: real, y: real, w: real, h: real)
    | Line(x1: real, y1: real, x2: real, y2: real)
    | TextOut(x: real, y: real, text: string)
    | SetFont(font: Fonts.FontRequest, size: real)

  /** What drawing an item leaves: the calls made, the cursor for the next item, and false when
      the item's font could not be had. */
  datatype Drawn = Drawn(log: seq<Draw>, ypos: real, ok: bool)

  /** The album's page settings that drawing reads. */
  datatype Setup = Setup(width: real, height: real, odd: Margins, even: Margins,
                         hasBorders: bool, outerBorder: real, innerBorder: real, borderSpacing: real,
                         hspace: real, vspace: real, title: Option<FormattedText>)

  /** HPDF_Page_TextWidth for a font at a size. */
  type TextWidth = (Fonts.FontRequest, real, string) -> real

  /** The width of a text in one font and size. */
  function MeasureWith(textWidth: TextWidth, font: Fonts.FontRequest, size: real): string -> real
  {
    s => textWidth(font, size, s)
  }

  // ---------------------------------------------------------------------------------------
  // Page geometry (pageHorizontalDrawArea, pageBorderRect, pageHorizontalCentre).
  // ---------------------------------------------------------------------------------------

  /** Odd pages use the odd margins, even pages the even ones. */
  function MarginsFor(setup: Setup, odd: bool): Margins
  {
    if odd then setup.odd else setup.even
  }

  /** A page is odd when its number, counted from 1, is odd. */
  predicate IsOdd(pageno: int)
  {
    pageno % 2 != 0
  }

  /** The left edge and the width of the drawing area: inside the margin, the border spacing,
      the inner border line and the horizontal spacing on each side. */
  function DrawArea(setup: Setup, hspacing: real, odd: bool): (r: (real, real))
  {
    var m := MarginsFor(setup, odd);
    var left := m.left + setup.borderSpacing + setup.innerBorder + hspacing;
    var right := setup.width - m.right - setup.borderSpacing - setup.innerBorder - hspacing;
    (left, right - left)
  }

  /** A rectangle by its lower left corner and its size (QRectF). */
  datatype RectF = RectF(x: real, y: real, w: real, h: real)

  /** The outer border runs along the margins; the inner one lies the border spacing inside
      it, made smaller by half the inner line width. */
  function BorderRect(setup: Setup, odd: bool, inner: bool): RectF
  {
    var m := MarginsFor(setup, odd);
    if inner then
      RectF(m.left + setup.borderSpacing, m.bottom + setup.borderSpacing,
            setup.width - m.left - m.right - 2.0 * setup.borderSpacing - setup.innerBorder / 2.0,
            setup.height - m.bottom - m.top - 2.0 * setup.borderSpacing - setup.innerBorder / 2.0)
    else
      RectF(m.left, m.bottom, setup.width - m.left - m.right, setup.height - m.bottom - m.top)
  }

  /** The horizontal centre of the page between its margins. */
  function PageCentre(setup: Setup, odd: bool): real
  {
    var m := MarginsFor(setup, odd);
    (setup.width - m.left - m.right) / 2.0 + m.left
  }

  /** The drawing area is centred on the page between the margins, whatever the spacing. */
  lemma DrawAreaCentred(setup: Setup, hspacing: real, odd: bool)
    ensures var (xpos, drawWidth) := DrawArea(setup, hspacing, odd);
            xpos + drawWidth / 2.0 == PageCentre(setup, odd)
  {
  }

  /** With line widths, spacing and border spacing not negative, the inner border lies within
      the outer one and the drawing area within the inner border. */
  lemma BordersNest(setup: Setup, hspacing: real, odd: bool)
    requires setup.borderSpacing >= 0.0 && setup.innerBorder >= 0.0 && hspacing >= 0.0
    ensures var outer := BorderRect(setup, odd, false);
            var inner := BorderRect(setup, odd, true);
            && outer.x <= inner.x && inner.x + inner.w <= outer.x + outer.w
            && outer.y <= inner.y && inner.y + inner.h <= outer.y + outer.h
    ensures var inner := BorderRect(setup, odd, true);
            var (xpos, drawWidth) := DrawArea(setup, hspacing, odd);
            inner.x <= xpos && xpos + drawWidth <= inner.x + inner.w
  {
  }

  // ---------------------------------------------------------------------------------------
  // Text (CPageText::drawToPdf).
  // ---------------------------------------------------------------------------------------

  /** The text cut one character at a time from the right while it is wider than width: the
      longest prefix that fits, or the empty text. */
  function ShrinkToFit(s: string, measure: string -> real, width: real): (r: string)
    ensures r <= s
    ensures r == [] || measure(r) <= width
    ensures forall k :: |r| < k <= |s| ==> measure(s[..k]) > width
    decreases |s|
  {
    if s != [] && measure(s) > width then
      var r := ShrinkToFit(s[..|s| - 1], measure, width);
      assert forall k :: |r| < k < |s| ==> s[..|s| - 1][..k] == s[..k];
      assert s[..|s|] == s;
      r
    else s
  }

  /** The text with its last word removed: cut until it is empty or ends in white space. */
  function BackToSpace(s: string): (r: string)
    ensures r <= s
    ensures r == [] || IsSpace(r[|r| - 1])
    ensures forall k :: |r| <= k < |s| ==> !IsSpace(s[k])
    decreases |s|
  {
    if s == [] || IsSpace(s[|s| - 1]) then s else BackToSpace(s[..|s| - 1])
  }

  /** A centred line: cut until it fits, then drawn centred in the drawing area if it is not
      empty and has a width. */
  function CentredLine(line: string, measure: string -> real, xpos: real, ypos: real, drawWidth: real): seq<Draw>
  {
    var s := ShrinkToFit(line, measure, drawWidth);
    var w := measure(s);
    if w > 0.0 && s != [] then [TextOut(xpos + (drawWidth - w) / 2.0, ypos, s)] else []
  }

  /** A centred line never draws more than the drawing area holds, and draws exactly its text
      when the whole line fits. */
  lemma CentredLineFits(line: string, measure: string -> real, xpos: real, ypos: real, drawWidth: real)
    ensures var d := CentredLine(line, measure, xpos, ypos, drawWidth);
            && |d| <= 1
            && (|d| == 1 ==> d[0].TextOut? && d[0].text <= line && measure(d[0].text) <= drawWidth
                             && d[0].x == xpos + (drawWidth - measure(d[0].text)) / 2.0)
    ensures line != [] && 0.0 < measure(line) <= drawWidth ==>
              CentredLine(line, measure, xpos, ypos, drawWidth) == [TextOut(xpos + (drawWidth - measure(line)) / 2.0, ypos, line)]
  {
  }

  /** The part of the remaining text one pass of the wrap draws, as the loop is written: the
      longest prefix that fits, backed up to the end of a word when it had to be cut. */
  function WrapChunk(str: string, measure: string -> real, width: real): (chunk: string)
    ensures chunk <= str
    ensures |chunk| < |str| ==> chunk == [] || IsSpace(chunk[|chunk| - 1])
    ensures chunk == str ==> str == [] || measure(str) <= width
  {
    var fit := ShrinkToFit(str, measure, width);
    if |fit| < |str| then BackToSpace(fit) else fit
  }

  /** The word wrap as it is written: each pass draws a chunk at the cursor; when the chunk is
      not the whole text, the rest loses its leading white space and the cursor goes down a
      line. The loop ends when the text is used up or the cursor is at or below the bottom of
      the page. */
  function Wrap(str: string, measure: string -> real, width: real, xpos: real, ypos: real, fsize: real)
    : (r: (seq<Draw>, real))
    requires fsize > 0.0
    decreases LinesLeft(ypos, fsize), |str|
  {
    if ypos <= 0.0 || str == [] then ([], ypos)
    else
      var chunk := WrapChunk(str, measure, width);
      var y := NextLine(str, chunk, ypos, fsize);
      assert |chunk| < |str| ==> LinesLeft(y, fsize) < LinesLeft(ypos, fsize) by {
        if |chunk| < |str| { LinesLeftStep(ypos, fsize); }
      }
      var next := Wrap(Remainder(str, chunk), measure, width, xpos, y, fsize);
      ([TextOut(xpos, ypos, chunk)] + next.0, next.1)
  }

  /** What is left to draw after a pass drew chunk: nothing when chunk was the whole text,
      otherwise the rest without its leading white space. */
  function Remainder(str: string, chunk: string): (rest: string)
    requires chunk <= str
    ensures |rest| <= |str| - |chunk|
  {
    TrimStart(if |chunk| < |str| then str[|chunk|..] else [])
  }

  /** The cursor after a pass: one line down when the text is not finished. */
  function NextLine(str: string, chunk: string, ypos: real, fsize: real): real
  {
    if |chunk| < |str| then ypos - fsize else ypos
  }

  /** The number of lines of f points the cursor can still go down before leaving the page. */
  function LinesLeft(y: real, f: real): nat
    requires f > 0.0
  {
    if y > 0.0 then
      var q := (y / f).Floor;
      if q >= 0 then q + 1 else 0
    else 0
  }

  /** Going down one line lowers the number of lines left. */
  lemma LinesLeftStep(y: real, f: real)
    requires f > 0.0 && y > 0.0
    ensures LinesLeft(y - f, f) < LinesLeft(y, f)
  {
    var q := y / f;
    assert q > 0.0;
    if y - f > 0.0 {
      var p := (y - f) / f;
      assert p * f == y - f;
      assert q * f == y;
      var a := p - q + 1.0;
      assert (a > 0.0 ==> a * f > 0.0) && (a < 0.0 ==> a * f < 0.0);
      assert a * f == 0.0;
      assert p == q - 1.0;
    }
  }

  /** The texts of the TextOut calls, one after the other. */
  function DrawnText(log: seq<Draw>): string
  {
    if log == [] then [] else (if log[0].TextOut? then log[0].text else []) + DrawnText(log[1..])
  }

  /** The characters of a text that are not white space. */
  function NonSpace(s: string): string
  {
    if s == [] then [] else (if IsSpace(s[0]) then [] else [s[0]]) + NonSpace(s[1..])
  }

  lemma {:induction false} NonSpaceAppend(a: string, b: string)
    ensures NonSpace(a + b) == NonSpace(a) + NonSpace(b)
    decreases |a|
  {
    if a != [] {
      assert (a + b)[0] == a[0];
      assert (a + b)[1..] == a[1..] + b;
      NonSpaceAppend(a[1..], b);
    } else {
      assert a + b == b;
    }
  }

  lemma {:induction false} NonSpaceTrimStart(s: string)
    ensures NonSpace(TrimStart(s)) == NonSpace(s)
    decreases |s|
  {
    if s != [] && IsSpace(s[0]) {
      NonSpaceTrimStart(s[1..]);
    }
  }

  lemma DrawnTextCons(d: Draw, log: seq<Draw>)
    ensures DrawnText([d] + log) == (if d.TextOut? then d.text else []) + DrawnText(log)
  {
    assert ([d] + log)[1..] == log;
  }

  /** One pass of the wrap keeps the text: the chunk drawn and the rest left hold the same
      characters, apart from white space, as the text before the pass. */
  lemma ChunkSplitsText(str: string, chunk: string)
    requires chunk <= str
    ensures NonSpace(str) == NonSpace(chunk) + NonSpace(Remainder(str, chunk))
  {
    if |chunk| < |str| {
      assert str == chunk + str[|chunk|..];
      NonSpaceAppend(chunk, str[|chunk|..]);
      NonSpaceTrimStart(str[|chunk|..]);
    } else {
      assert chunk == str;
    }
  }

  /** A pass that draws chunk and leaves next to be drawn keeps the text as next does. */
  lemma PassKeepsText(str: string, chunk: string, ypos: real, xpos: real, next: (seq<Draw>, real), r: (seq<Draw>, real))
    requires chunk <= str
    requires r == ([TextOut(xpos, ypos, chunk)] + next.0, next.1)
    requires NonSpace(DrawnText(next.0)) <= NonSpace(Remainder(str, chunk))
    requires next.1 > 0.0 ==> NonSpace(DrawnText(next.0)) == NonSpace(Remainder(str, chunk))
    ensures NonSpace(DrawnText(r.0)) <= NonSpace(str)
    ensures r.1 > 0.0 ==> NonSpace(DrawnText(r.0)) == NonSpace(str)
  {
    DrawnTextCons(TextOut(xpos, ypos, chunk), next.0);
    ChunkSplitsText(str, chunk);
    NonSpaceAppend(chunk, DrawnText(next.0));
  }

  /** What the wrap promises as written: the drawn text is a part of the given text, apart from
      white space, and when the loop stops above the bottom of the page, all of it. */
  lemma {:induction false} WrapKeepsText(str: string, measure: string -> real, width: real, xpos: real, ypos: real, fsize: real)
    requires fsize > 0.0
    ensures var r := Wrap(str, measure, width, xpos, ypos, fsize);
            && NonSpace(DrawnText(r.0)) <= NonSpace(str)
            && (r.1 > 0.0 ==> NonSpace(DrawnText(r.0)) == NonSpace(str))
    decreases LinesLeft(ypos, fsize), |str|
  {
    if ypos > 0.0 && str != [] {
      var chunk := WrapChunk(str, measure, width);
      var y := NextLine(str, chunk, ypos, fsize);
      if |chunk| < |str| { LinesLeftStep(ypos, fsize); }
      WrapKeepsText(Remainder(str, chunk), measure, width, xpos, y, fsize);
      PassKeepsText(str, chunk, ypos, xpos, Wrap(Remainder(str, chunk), measure, width, xpos, y, fsize),
                    Wrap(str, measure, width, xpos, ypos, fsize));
    }
  }

  /** A log of texts at xpos, the first at ypos and each further one a line of fsize below the
      one before. */
  predicate LineByLine(log: seq<Draw>, xpos: real, ypos: real, fsize: real)
  {
    && (forall i :: 0 <= i < |log| ==> log[i].TextOut? && log[i].x == xpos)
    && (|log| > 0 ==> log[0].y == ypos)
    && (forall i :: 1 <= i < |log| ==> log[i].y == log[i - 1].y - fsize)
  }

  lemma PassLines(chunk: string, xpos: real, ypos: real, y: real, fsize: real, next: seq<Draw>)
    requires LineByLine(next, xpos, y, fsize)
    requires next != [] ==> y == ypos - fsize
    ensures LineByLine([TextOut(xpos, ypos, chunk)] + next, xpos, ypos, fsize)
  {
    var log := [TextOut(xpos, ypos, chunk)] + next;
    assert forall i :: 1 <= i < |log| ==> log[i] == next[i - 1];
  }

  /** Where the wrap draws as written: line by line from the cursor; the cursor ends no higher
      than it began. */
  lemma {:induction false} WrapLines(str: string, measure: string -> real, width: real, xpos: real, ypos: real, fsize: real)
    requires fsize > 0.0
    ensures var r := Wrap(str, measure, width, xpos, ypos, fsize);
            LineByLine(r.0, xpos, ypos, fsize) && r.1 <= ypos
    decreases LinesLeft(ypos, fsize), |str|
  {
    if ypos > 0.0 && str != [] {
      var chunk := WrapChunk(str, measure, width);
      var y := NextLine(str, chunk, ypos, fsize);
      if |chunk| < |str| { LinesLeftStep(ypos, fsize); }
      WrapLines(Remainder(str, chunk), measure, width, xpos, y, fsize);
      if |chunk| == |str| {
        assert Remainder(str, chunk) == [];
      }
      PassLines(chunk, xpos, ypos, y, fsize, Wrap(Remainder(str, chunk), measure, width, xpos, y, fsize).0);
    }
  }

  /** A width of one unit per character, for the examples below. */
  function UnitWidth(s: string): real
  {
    |s| as real
  }

  /** In one-unit characters and a three-unit drawing area, "abcd" fits only as "abc", a prefix
      with no white space to go back to. */
  lemma LongWordChunks()
    ensures ShrinkToFit("abcd", UnitWidth, 3.0) == "abc"
    ensures BackToSpace("abc") == []
    ensures TrimStart("abcd") == "abcd"
  {
    assert "abcd"[..3] == "abc";
    assert ShrinkToFit("abc", UnitWidth, 3.0) == "abc";
    assert "abc"[..2] == "ab" && "ab"[..1] == "a" && "a"[..0] == [];
    assert BackToSpace("a") == [];
    assert BackToSpace("ab") == [];
    TrimStartOfClean("abcd");
  }

  /** The wrap as written draws an over-wide word without white space as empty lines until the
      cursor leaves the page: four one-unit characters, a three-unit drawing area, ten-point
      lines from 25 points above the bottom. */
  lemma WrapLosesLongWord()
    ensures var r := Wrap("abcd", UnitWidth, 3.0, 0.0, 25.0, 10.0);
            && r == ([TextOut(0.0, 25.0, ""), TextOut(0.0, 15.0, ""), TextOut(0.0, 5.0, "")], -5.0)
            && DrawnText(r.0) == []
  {
    LongWordChunks();
    assert WrapChunk("abcd", UnitWidth, 3.0) == [];
    assert "abcd"[0..] == "abcd";
    assert Remainder("abcd", []) == "abcd";
    assert NextLine("abcd", [], 5.0, 10.0) == -5.0;
    assert Wrap("abcd", UnitWidth, 3.0, 0.0, -5.0, 10.0) == ([], -5.0);
    var r3 := Wrap("abcd", UnitWidth, 3.0, 0.0, 5.0, 10.0);
    assert r3 == ([TextOut(0.0, 5.0, "")] + [], -5.0);
    var r2 := Wrap("abcd", UnitWidth, 3.0, 0.0, 15.0, 10.0);
    assert r2 == ([TextOut(0.0, 15.0, "")] + r3.0, -5.0);
    var r1 := Wrap("abcd", UnitWidth, 3.0, 0.0, 25.0, 10.0);
    assert r1 == ([TextOut(0.0, 25.0, "")] + r2.0, -5.0);
    var log := [TextOut(0.0, 25.0, ""), TextOut(0.0, 15.0, ""), TextOut(0.0, 5.0, "")];
    assert r1.0 == log;
    assert log[1..][1..][1..] == [];
    assert DrawnText(log) == [];
  }

  /** The chunk as evidently intended: a word is cut at a character only when it alone is
      wider than the drawing area, and at least one character is always drawn. */
  function WrapChunkCorrected(str: string, measure: string -> real, width: real): (chunk: string)
    requires str != []
    ensures chunk != [] && chunk <= str
  {
    var fit := ShrinkToFit(str, measure, width);
    if |fit| == |str| then fit
    else
      var back := BackToSpace(fit);
      if back != [] then back else if fit != [] then fit else str[..1]
  }

  /** Wherever the written chunk makes progress, the intended one is the same chunk. */
  lemma CorrectedChunkAgrees(str: string, measure: string -> real, width: real)
    requires str != [] && WrapChunk(str, measure, width) != []
    ensures WrapChunkCorrected(str, measure, width) == WrapChunk(str, measure, width)
  {
  }

  /** The word wrap as evidently intended: as written, but with the intended chunk. Every pass
      draws at least one character, so the text always runs out. */
  function WrapCorrected(str: string, measure: string -> real, width: real, xpos: real, ypos: real, fsize: real)
    : (r: (seq<Draw>, real))
    decreases |str|
  {
    if ypos <= 0.0 || str == [] then ([], ypos)
    else
      var chunk := WrapChunkCorrected(str, measure, width);
      var next := WrapCorrected(Remainder(str, chunk), measure, width, xpos, NextLine(str, chunk, ypos, fsize), fsize);
      ([TextOut(xpos, ypos, chunk)] + next.0, next.1)
  }

  /** What the intended wrap promises: the text is drawn in order, apart from white space, and
      in full unless the page ends first. */
  lemma {:induction false} WrapCorrectedKeepsText(str: string, measure: string -> real, width: real, xpos: real, ypos: real, fsize: real)
    ensures var r := WrapCorrected(str, measure, width, xpos, ypos, fsize);
            && NonSpace(DrawnText(r.0)) <= NonSpace(str)
            && (r.1 > 0.0 ==> NonSpace(DrawnText(r.0)) == NonSpace(str))
    decreases |str|
  {
    if ypos > 0.0 && str != [] {
      var chunk := WrapChunkCorrected(str, measure, width);
      var y := NextLine(str, chunk, ypos, fsize);
      WrapCorrectedKeepsText(Remainder(str, chunk), measure, width, xpos, y, fsize);
      PassKeepsText(str, chunk, ypos, xpos, WrapCorrected(Remainder(str, chunk), measure, width, xpos, y, fsize),
                    WrapCorrected(str, measure, width, xpos, ypos, fsize));
    }
  }

  /** Where the intended wrap draws: line by line from the cursor. */
  lemma {:induction false} WrapCorrectedLines(str: string, measure: string -> real, width: real, xpos: real, ypos: real, fsize: real)
    ensures LineByLine(WrapCorrected(str, measure, width, xpos, ypos, fsize).0, xpos, ypos, fsize)
    ensures fsize >= 0.0 ==> WrapCorrected(str, measure, width, xpos, ypos, fsize).1 <= ypos
    decreases |str|
  {
    if ypos > 0.0 && str != [] {
      var chunk := WrapChunkCorrected(str, measure, width);
      var y := NextLine(str, chunk, ypos, fsize);
      WrapCorrectedLines(Remainder(str, chunk), measure, width, xpos, y, fsize);
      if |chunk| == |str| {
        assert Remainder(str, chunk) == [];
      }
      PassLines(chunk, xpos, ypos, y, fsize, WrapCorrected(Remainder(str, chunk), measure, width, xpos, y, fsize).0);
    }
  }

  /** The intended wrap always makes progress: every pass draws a non-empty part of the text,
      so there are no more passes than the text has characters. */
  lemma {:induction false} WrapCorrectedProgress(str: string, measure: string -> real, width: real, xpos: real, ypos: real, fsize: real)
    ensures var r := WrapCorrected(str, measure, width, xpos, ypos, fsize);
            && (forall i :: 0 <= i < |r.0| ==> r.0[i].TextOut? && r.0[i].text != [])
            && |r.0| <= |str|
    decreases |str|
  {
    if ypos > 0.0 && str != [] {
      var chunk := WrapChunkCorrected(str, measure, width);
      var y := NextLine(str, chunk, ypos, fsize);
      WrapCorrectedProgress(Remainder(str, chunk), measure, width, xpos, y, fsize);
      PassProgress(str, chunk, xpos, ypos, WrapCorrected(Remainder(str, chunk), measure, width, xpos, y, fsize).0);
    }
  }

  lemma PassProgress(str: string, chunk: string, xpos: real, ypos: real, next: seq<Draw>)
    requires chunk != [] && chunk <= str
    requires forall i :: 0 <= i < |next| ==> next[i].TextOut? && next[i].text != []
    requires |next| <= |Remainder(str, chunk)|
    ensures var log := [TextOut(xpos, ypos, chunk)] + next;
            && (forall i :: 0 <= i < |log| ==> log[i].TextOut? && log[i].text != [])
            && |log| <= |str|
  {
    var log := [TextOut(xpos, ypos, chunk)] + next;
    assert |Remainder(str, chunk)| <= |str| - |chunk|;
    forall i | 0 <= i < |log|
      ensures log[i].TextOut? && log[i].text != []
    {
      if i > 0 {
        assert log[i] == next[i - 1];
      }
    }
  }

  /** The intended wrap draws the long word of WrapLosesLongWord in two lines. */
  lemma WrapCorrectedDrawsLongWord()
    ensures WrapCorrected("abcd", UnitWidth, 3.0, 0.0, 25.0, 10.0)
            == ([TextOut(0.0, 25.0, "abc"), TextOut(0.0, 15.0, "d")], 15.0)
  {
    LongWordChunks();
    assert WrapChunkCorrected("abcd", UnitWidth, 3.0) == "abc";
    assert "abcd"[3..] == "d";
    TrimStartOfClean("d");
    assert Remainder("abcd", "abc") == "d";
    assert ShrinkToFit("d", UnitWidth, 3.0) == "d";
    assert WrapChunkCorrected("d", UnitWidth, 3.0) == "d";
    assert Remainder("d", "d") == [];
    assert NextLine("d", "d", 15.0, 10.0) == 15.0;
    assert WrapCorrected([], UnitWidth, 3.0, 0.0, 15.0, 10.0) == ([], 15.0);
    var r2 := WrapCorrected("d", UnitWidth, 3.0, 0.0, 15.0, 10.0);
    assert r2 == ([TextOut(0.0, 15.0, "d")] + [], 15.0);
    var r1 := WrapCorrected("abcd", UnitWidth, 3.0, 0.0, 25.0, 10.0);
    assert r1 == ([TextOut(0.0, 25.0, "abc")] + r2.0, 15.0);
    assert r1.0 == [TextOut(0.0, 25.0, "abc"), TextOut(0.0, 15.0, "d")];
  }

  // ---------------------------------------------------------------------------------------
  // A text item: the lines of a formatted text, one after the other.
  // ---------------------------------------------------------------------------------------

  /** One line of a text item: the cursor goes down a line first; at or below the bottom of
      the page nothing is drawn, a centred line is cut to fit and centred, any other line is
      word-wrapped. */
  function TextLine(line: string, centred: bool, measure: string -> real, xpos: real, ypos: real,
                    drawWidth: real, fsize: real): (r: (seq<Draw>, real))
    requires fsize > 0.0
  {
    var y := ypos - fsize;
    if centred && y > 0.0 then (CentredLine(line, measure, xpos, y, drawWidth), y)
    else if y > 0.0 then Wrap(line, measure, drawWidth, xpos, y, fsize)
    else ([], y)
  }

  /** The lines of a text item drawn in order, each from where the one before left the
      cursor. */
  function TextLines(lines: seq<string>, centred: bool, measure: string -> real, xpos: real, ypos: real,
                     drawWidth: real, fsize: real): (r: (seq<Draw>, real))
    requires fsize > 0.0
    decreases |lines|
  {
    if lines == [] then ([], ypos)
    else
      var first := TextLine(lines[0], centred, measure, xpos, ypos, drawWidth, fsize);
      var rest := TextLines(lines[1..], centred, measure, xpos, first.1, drawWidth, fsize);
      (first.0 + rest.0, rest.1)
  }

  /** A text item: without its font nothing is drawn, the cursor stays and the error flag is
      raised; otherwise the font is set, the lines are drawn and the cursor goes down by the
      vertical spacing after the last line. */
  function RenderText(ft: FormattedText, font: Fonts.FontResult, textWidth: TextWidth,
                      xpos: real, ypos: real, drawWidth: real, vspacing: real): Drawn
  {
    match font
    case NoFont(_) => Drawn([], ypos, false)
    case Font(req) =>
      var r := TextLines(ft.lines, ft.centred, MeasureWith(textWidth, req, ft.fsize), xpos, ypos, drawWidth, ft.fsize);
      Drawn([SetFont(req, ft.fsize)] + r.0, r.1 - vspacing, true)
  }

  /** The lines of a text, one after the other. */
  function Concat(lines: seq<string>): string
  {
    if lines == [] then [] else lines[0] + Concat(lines[1..])
  }

  lemma {:induction false} DrawnTextAppend(a: seq<Draw>, b: seq<Draw>)
    ensures DrawnText(a + b) == DrawnText(a) + DrawnText(b)
    decreases |a|
  {
    if a == [] {
      assert a + b == b;
    } else {
      assert (a + b)[0] == a[0];
      assert (a + b)[1..] == a[1..] + b;
      DrawnTextAppend(a[1..], b);
    }
  }

  /** The height of n lines of f points. */
  function LinesHeight(n: nat, f: real): (h: real)
    ensures f >= 0.0 ==> h >= 0.0
  {
    if n == 0 then 0.0 else LinesHeight(n - 1, f) + f
  }

  lemma {:induction false} LinesHeightIsProduct(n: nat, f: real)
    ensures LinesHeight(n, f) == n as real * f
  {
    if n > 0 {
      LinesHeightIsProduct(n - 1, f);
      assert n as real * f == (n - 1) as real * f + f;
    }
  }

  /** Centred text moves the cursor down exactly one line per line of text. */
  lemma {:induction false} CentredTextDrop(lines: seq<string>, measure: string -> real, xpos: real, ypos: real,
                                           drawWidth: real, fsize: real)
    requires fsize > 0.0
    ensures TextLines(lines, true, measure, xpos, ypos, drawWidth, fsize).1 == ypos - LinesHeight(|lines|, fsize)
    decreases |lines|
  {
    if lines != [] {
      var y := TextLine(lines[0], true, measure, xpos, ypos, drawWidth, fsize).1;
      assert y == ypos - fsize;
      CentredTextDrop(lines[1..], measure, xpos, y, drawWidth, fsize);
      assert |lines| - 1 == |lines[1..]|;
    }
  }

  /** Any text moves the cursor down at least one line per line of text: a wrapped line can
      take more. */
  lemma {:induction false} TextDrop(lines: seq<string>, centred: bool, measure: string -> real, xpos: real, ypos: real,
                                    drawWidth: real, fsize: real)
    requires fsize > 0.0
    ensures TextLines(lines, centred, measure, xpos, ypos, drawWidth, fsize).1 <= ypos - LinesHeight(|lines|, fsize)
    decreases |lines|
  {
    if lines != [] {
      var y := TextLine(lines[0], centred, measure, xpos, ypos, drawWidth, fsize).1;
      TextLineDrop(lines[0], centred, measure, xpos, ypos, drawWidth, fsize);
      TextDrop(lines[1..], centred, measure, xpos, y, drawWidth, fsize);
      assert |lines| - 1 == |lines[1..]|;
    }
  }

  lemma TextLineDrop(line: string, centred: bool, measure: string -> real, xpos: real, ypos: real,
                     drawWidth: real, fsize: real)
    requires fsize > 0.0
    ensures TextLine(line, centred, measure, xpos, ypos, drawWidth, fsize).1 <= ypos - fsize
  {
    var y := ypos - fsize;
    if !centred && y > 0.0 {
      WrapLines(line, measure, drawWidth, xpos, y, fsize);
      assert TextLine(line, centred, measure, xpos, ypos, drawWidth, fsize) == Wrap(line, measure, drawWidth, xpos, y, fsize);
    }
  }

  /** Text that is not centred is drawn in full, apart from white space, whenever the cursor
      ends above the bottom of the page. */
  lemma {:induction false} WrappedTextKept(lines: seq<string>, measure: string -> real, xpos: real, ypos: real,
                                           drawWidth: real, fsize: real)
    requires fsize > 0.0
    ensures var r := TextLines(lines, false, measure, xpos, ypos, drawWidth, fsize);
            r.1 > 0.0 ==> NonSpace(DrawnText(r.0)) == NonSpace(Concat(lines))
    decreases |lines|
  {
    if lines != [] {
      var first := TextLine(lines[0], false, measure, xpos, ypos, drawWidth, fsize);
      var rest := TextLines(lines[1..], false, measure, xpos, first.1, drawWidth, fsize);
      assert TextLines(lines, false, measure, xpos, ypos, drawWidth, fsize) == (first.0 + rest.0, rest.1);
      if rest.1 > 0.0 {
        WrappedTextKept(lines[1..], measure, xpos, first.1, drawWidth, fsize);
        TextDrop(lines[1..], false, measure, xpos, first.1, drawWidth, fsize);
        LineKept(lines[0], measure, xpos, ypos, drawWidth, fsize);
        KeptAppend(first.0, rest.0, lines[0], Concat(lines[1..]));
      }
    }
  }

  /** A line that is not centred is drawn in full, apart from white space, when the cursor
      ends above the bottom of the page. */
  lemma LineKept(line: string, measure: string -> real, xpos: real, ypos: real, drawWidth: real, fsize: real)
    requires fsize > 0.0
    ensures var first := TextLine(line, false, measure, xpos, ypos, drawWidth, fsize);
            first.1 > 0.0 ==> NonSpace(DrawnText(first.0)) == NonSpace(line)
  {
    var y := ypos - fsize;
    if y > 0.0 {
      assert TextLine(line, false, measure, xpos, ypos, drawWidth, fsize) == Wrap(line, measure, drawWidth, xpos, y, fsize);
      WrapKeepsText(line, measure, drawWidth, xpos, y, fsize);
    }
  }

  /** Two drawing logs that each show their text, apart from white space, show the two texts
      one after the other. */
  lemma KeptAppend(a: seq<Draw>, b: seq<Draw>, sa: string, sb: string)
    requires NonSpace(DrawnText(a)) == NonSpace(sa) && NonSpace(DrawnText(b)) == NonSpace(sb)
    ensures NonSpace(DrawnText(a + b)) == NonSpace(sa + sb)
  {
    DrawnTextAppend(a, b);
    NonSpaceAppend(DrawnText(a), DrawnText(b));
    NonSpaceAppend(sa, sb);
  }

  /** A text item lowers the cursor by at least its lines and the vertical spacing, by exactly
      that much when it is centred, and leaves the cursor alone when its font is missing. */
  lemma TextItemDrop(ft: FormattedText, font: Fonts.FontResult, textWidth: TextWidth,
                     xpos: real, ypos: real, drawWidth: real, vspacing: real)
    ensures var d := RenderText(ft, font, textWidth, xpos, ypos, drawWidth, vspacing);
            && (font.NoFont? ==> d == Drawn([], ypos, false))
            && (font.Font? ==> d.ok && d.log[0] == SetFont(font.request, ft.fsize)
                               && d.ypos <= ypos - LinesHeight(|ft.lines|, ft.fsize) - vspacing)
            && (font.Font? && ft.centred ==> d.ypos == ypos - LinesHeight(|ft.lines|, ft.fsize) - vspacing)
  {
    if font.Font? {
      var measure := MeasureWith(textWidth, font.request, ft.fsize);
      TextDrop(ft.lines, ft.centred, measure, xpos, ypos, drawWidth, ft.fsize);
      if ft.centred {
        CentredTextDrop(ft.lines, measure, xpos, ypos, drawWidth, ft.fsize);
      }
    }
  }

  /** The shrinking loop: the last character is cut while the text is wider than width. */
  method Shrink(s: string, measure: string -> real, width: real) returns (r: string, w: real)
    ensures r == ShrinkToFit(s, measure, width) && w == measure(r)
  {
    r := s;
    w := measure(r);
    while w > width && |r| > 0
      invariant r <= s && ShrinkToFit(r, measure, width) == ShrinkToFit(s, measure, width)
      invariant w == measure(r)
      decreases |r|
    {
      r := r[..|r| - 1];
      w := measure(r);
    }
  }

  /** Stepping back to the end of the previous word: characters are cut while the last one is
      not white space. */
  method ChopToSpace(s: string) returns (r: string)
    ensures r == BackToSpace(s)
  {
    r := s;
    while |r| > 0 && !IsSpace(r[|r| - 1])
      invariant BackToSpace(r) == BackToSpace(s)
      decreases |r|
    {
      r := r[..|r| - 1];
    }
  }

  /** The chunk one pass of the wrap loop draws: the prefix that fits, stepped back to the end
      of a word when it had to be cut. */
  method NextChunk(s: string, measure: string -> real, width: real) returns (chunk: string)
    ensures chunk == WrapChunk(s, measure, width)
  {
    var w;
    chunk, w := Shrink(s, measure, width);
    if |chunk| < |s| {
      chunk := ChopToSpace(chunk);
    }
  }

  /** A pass of the wrap loop keeps what has been drawn plus what the rest will draw. */
  lemma WrapLoopStep(log: seq<Draw>, all: (seq<Draw>, real), s: string, measure: string -> real, width: real,
                     xpos: real, y: real, fsize: real)
    requires fsize > 0.0 && y > 0.0 && s != []
    requires log + Wrap(s, measure, width, xpos, y, fsize).0 == all.0
    requires Wrap(s, measure, width, xpos, y, fsize).1 == all.1
    ensures var chunk := WrapChunk(s, measure, width);
            var next := Wrap(Remainder(s, chunk), measure, width, xpos, NextLine(s, chunk, y, fsize), fsize);
            (log + [TextOut(xpos, y, chunk)]) + next.0 == all.0 && next.1 == all.1
  {
    var chunk := WrapChunk(s, measure, width);
    var next := Wrap(Remainder(s, chunk), measure, width, xpos, NextLine(s, chunk, y, fsize), fsize);
    assert Wrap(s, measure, width, xpos, y, fsize) == ([TextOut(xpos, y, chunk)] + next.0, next.1);
    AppendAssoc(log, [TextOut(xpos, y, chunk)], next.0);
  }

  /** A pass either moves the cursor down a line, leaving fewer lines, or finishes the text. */
  lemma WrapPassProgress(s: string, chunk: string, y: real, fsize: real)
    requires fsize > 0.0 && y > 0.0 && s != [] && chunk <= s
    ensures var y' := NextLine(s, chunk, y, fsize);
            LinesLeft(y', fsize) < LinesLeft(y, fsize) || (y' == y && |Remainder(s, chunk)| < |s|)
  {
    if |chunk| < |s| {
      LinesLeftStep(y, fsize);
    }
  }

  lemma EmptyAppend<T>(a: seq<T>)
    ensures [] + a == a && a + [] == a
  {
  }

  lemma AppendAssoc<T>(a: seq<T>, b: seq<T>, c: seq<T>)
    ensures a + (b + c) == (a + b) + c
  {
  }

  /** One pass of the wrap loop: the chunk drawn, the text left without its leading white
      space and the cursor, one line down when text is left. */
  method WrapPass(s: string, measure: string -> real, width: real, y: real, fsize: real)
    returns (chunk: string, rest: string, y': real)
    ensures chunk == WrapChunk(s, measure, width)
    ensures rest == Remainder(s, chunk) && y' == NextLine(s, chunk, y, fsize)
  {
    chunk := NextChunk(s, measure, width);
    if |chunk| < |s| {
      rest, y' := s[|chunk|..], y - fsize;
    } else {
      rest, y' := [], y;
    }
    rest := TrimLeading(rest);
  }

  /** The wrap loop of a line: each pass draws a chunk at the cursor and goes on with the rest,
      without its leading white space, one line down. */
  method DrawWrapped(str: string, measure: string -> real, width: real, xpos: real, ypos: real, fsize: real)
    returns (log: seq<Draw>, y: real)
    requires fsize > 0.0
    ensures (log, y) == Wrap(str, measure, width, xpos, ypos, fsize)
  {
    ghost var all := Wrap(str, measure, width, xpos, ypos, fsize);
    log, y := [], ypos;
    var s := str;
    EmptyAppend(all.0);
    while y > 0.0 && |s| > 0
      invariant log + Wrap(s, measure, width, xpos, y, fsize).0 == all.0
      invariant Wrap(s, measure, width, xpos, y, fsize).1 == all.1
      decreases LinesLeft(y, fsize), |s|
    {
      var chunk, rest, y' := WrapPass(s, measure, width, y, fsize);
      WrapLoopStep(log, all, s, measure, width, xpos, y, fsize);
      WrapPassProgress(s, chunk, y, fsize);
      log, s, y := log + [TextOut(xpos, y, chunk)], rest, y';
    }
    EmptyAppend(log);
  }

  /** Removing the leading white space one character at a time. */
  method TrimLeading(s: string) returns (r: string)
    ensures r == TrimStart(s)
  {
    r := s;
    while |r| > 0 && IsSpace(r[0])
      invariant TrimStart(r) == TrimStart(s)
      decreases |r|
    {
      r := r[1..];
    }
  }

  /** One line of a text item: the cursor goes down a line, then the line is drawn centred
      or wrapped if the cursor is still above the bottom of the page. */
  method DrawLine(line: string, centred: bool, measure: string -> real, xpos: real, ypos: real,
                  drawWidth: real, fsize: real) returns (log: seq<Draw>, y: real)
    requires fsize > 0.0
    ensures (log, y) == TextLine(line, centred, measure, xpos, ypos, drawWidth, fsize)
  {
    log, y := [], ypos - fsize;
    if centred && y > 0.0 {
      var str, w := Shrink(line, measure, drawWidth);
      if w > 0.0 && |str| > 0 {
        log := [TextOut(xpos + (drawWidth - w) / 2.0, y, str)];
      }
    } else if y > 0.0 {
      log, y := DrawWrapped(line, measure, drawWidth, xpos, y, fsize);
    }
  }

  /** The line loop of a text item. */
  method DrawLines(lines: seq<string>, centred: bool, measure: string -> real, xpos: real, ypos: real,
                   drawWidth: real, fsize: real) returns (log: seq<Draw>, y: real)
    requires fsize > 0.0
    ensures (log, y) == TextLines(lines, centred, measure, xpos, ypos, drawWidth, fsize)
  {
    ghost var all := TextLines(lines, centred, measure, xpos, ypos, drawWidth, fsize);
    log, y := [], ypos;
    EmptyAppend(all.0);
    var i := 0;
    while i < |lines|
      invariant 0 <= i <= |lines|
      invariant log + TextLines(lines[i..], centred, measure, xpos, y, drawWidth, fsize).0 == all.0
      invariant TextLines(lines[i..], centred, measure, xpos, y, drawWidth, fsize).1 == all.1
    {
      assert lines[i..][0] == lines[i] && lines[i..][1..] == lines[i + 1..];
      var more, y' := DrawLine(lines[i], centred, measure, xpos, y, drawWidth, fsize);
      ghost var rest := TextLines(lines[i + 1..], centred, measure, xpos, y', drawWidth, fsize);
      assert TextLines(lines[i..], centred, measure, xpos, y, drawWidth, fsize) == (more + rest.0, rest.1);
      AppendAssoc(log, more, rest.0);
      log, y := log + more, y';
      i := i + 1;
    }
    assert lines[i..] == [];
    EmptyAppend(log);
  }

  /** Drawing a text item as CPageText does: the font is looked up, loading its file at most
      once; then the font is set, the lines are drawn and the cursor goes down by the vertical
      spacing. */
  method DrawText(fonts: Fonts.FontTable, ft: FormattedText, textWidth: TextWidth, load: string -> string,
                  xpos: real, ypos: real, drawWidth: real, vspacing: real) returns (d: Drawn, font: Fonts.FontResult)
    requires fonts.Valid()
    modifies fonts.fontFileMap
    ensures fonts.Valid()
    ensures (font, fonts.fontFileMap[..]) == Fonts.FontLookup(fonts.fontMap[..], old(fonts.fontFileMap[..]), ft.findex, load)
    ensures d == RenderText(ft, font, textWidth, xpos, ypos, drawWidth, vspacing)
  {
    var loaded;
    font, loaded := fonts.GetFont(ft.findex, load);
    if font.NoFont? {
      return Drawn([], ypos, false), font;
    }
    var measure := MeasureWith(textWidth, font.request, ft.fsize);
    var log, y := DrawLines(ft.lines, ft.centred, measure, xpos, ypos, drawWidth, ft.fsize);
    d := Drawn([SetFont(font.request, ft.fsize)] + log, y - vspacing, true);
  }
}
