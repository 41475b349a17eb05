/**
 * The album document: the page settings, the title, and the pages with their text items and
 * rows of stamps, as the parser's commands build it (CAlbumData, CAlbumPage, CPageStampRow,
 * CStamp and CFormattedText).
 *
 * CAlbumData is a class whose fields the builder methods update. The pages, items, rows and
 * stamps it owns are values held in its `pages` sequence; the builders replace the active page
 * (and its active row) inside that sequence. Every length given in millimetres is converted to
 * points with DotsPerMm as it is stored. Doubles are reals.
 */
module Album {
  import opened Text
  import Fonts

  /** 72 points per inch, 25.4 millimetres per inch. */
  const DotsPerMm: real := 72.0 / 25.4

  datatype RowStyle = EqualRow | JustifyRow | FixedRow

  datatype RowAlign = AlignTop | AlignMiddle | AlignBottom

  datatype StampStyle = Blank | Block | BlockX | Triangle | TriangleInv | Diamond

  /** A stamp: its shape, its size in points, and the nine texts drawn inside (0-2) and under
      it (3-5 and 6-8). */
  datatype Stamp = Stamp(style: StampStyle, width: real, height: real, texts: seq<string>)
  {
    /** CStamp::text: the text at index, or "" outside 0..8. */
    function Text(index: int): (t: string)
      ensures !(0 <= index < 9) ==> t == []
      ensures 0 <= index < 9 && index < |texts| ==> t == texts[index]
    {
      if 0 <= index < 9 && index < |texts| then texts[index] else []
    }
  }

  /** The page margins, in points. */
  datatype Margins = Margins(left: real, right: real, top: real, bottom: real)

  // ---------------------------------------------------------------------------------------
  // Formatted text: escapes resolved and the text cut into lines.
  // ---------------------------------------------------------------------------------------

  /** Text with its font and its lines. */
  datatype FormattedText = FormattedText(findex: int, fsize: Fonts.FontSize, centred: bool, lines: seq<string>)

  /** The scanner of the CFormattedText constructor: the finished lines, the line being built,
      and whether the previous character was an escaping backslash. */
  datatype FmtState = FmtState(lines: seq<string>, buf: string, escaped: bool)

  const FmtStart := FmtState([], [], false)

  /** One character. After a backslash: an `n` ends the line (its trailing white space
      removed) when new lines are parsed, and any other character is kept as it is. Otherwise a
      backslash starts an escape and is dropped, and any other character is kept. */
  function FmtStep(st: FmtState, c: char, parseNewLines: bool): FmtState
  {
    if st.escaped then
      if c == 'n' && parseNewLines then FmtState(st.lines + [TrimEnd(st.buf)], [], false)
      else FmtState(st.lines, st.buf + [c], false)
    else FmtState(st.lines, if c != '\\' then st.buf + [c] else st.buf, c == '\\')
  }

  function FmtRun(st: FmtState, s: string, parseNewLines: bool): FmtState
    decreases |s|
  {
    if s == [] then st else FmtRun(FmtStep(st, s[0], parseNewLines), s[1..], parseNewLines)
  }

  /** The lines of a text: the scan, then the last line with its trailing white space removed. */
  function FormatLines(text: string, parseNewLines: bool): (lines: seq<string>)
    ensures |lines| >= 1
  {
    var st := FmtRun(FmtStart, text, parseNewLines);
    st.lines + [TrimEnd(st.buf)]
  }

  /** Scanning a + b is scanning a, then b. */
  lemma {:induction false} FmtRunAppend(st: FmtState, a: string, b: string, parseNewLines: bool)
    ensures FmtRun(st, a + b, parseNewLines) == FmtRun(FmtRun(st, a, parseNewLines), b, parseNewLines)
    decreases |a|
  {
    if a != [] {
      assert (a + b)[0] == a[0];
      assert (a + b)[1..] == a[1..] + b;
      assert FmtRun(st, a + b, parseNewLines) == FmtRun(FmtStep(st, a[0], parseNewLines), a[1..] + b, parseNewLines);
      assert FmtRun(st, a, parseNewLines) == FmtRun(FmtStep(st, a[0], parseNewLines), a[1..], parseNewLines);
      FmtRunAppend(FmtStep(st, a[0], parseNewLines), a[1..], b, parseNewLines);
    } else {
      assert a + b == b;
    }
  }

  /** The number of escaped `n`s, read as pairs: a backslash and the character it escapes. */
  function NewlineEscapes(s: string): nat
    decreases |s|
  {
    if |s| < 2 then 0
    else if s[0] == '\\' then (if s[1] == 'n' then 1 else 0) + NewlineEscapes(s[2..])
    else NewlineEscapes(s[1..])
  }

  lemma {:induction false} FmtRunLineCount(st: FmtState, s: string)
    requires !st.escaped
    ensures |FmtRun(st, s, true).lines| == |st.lines| + NewlineEscapes(s)
    decreases |s|
  {
    if s == [] {
    } else if |s| == 1 {
      assert FmtRun(st, s, true) == FmtRun(FmtStep(st, s[0], true), [], true);
    } else if s[0] == '\\' {
      var st2 := FmtStep(FmtStep(st, s[0], true), s[1], true);
      assert s[1..][1..] == s[2..];
      assert FmtRun(st, s, true) == FmtRun(st2, s[2..], true);
      FmtRunLineCount(st2, s[2..]);
    } else {
      FmtRunLineCount(FmtStep(st, s[0], true), s[1..]);
    }
  }

  /** A text has one line more than it has escaped `n`s. */
  lemma LineCount(text: string)
    ensures |FormatLines(text, true)| == 1 + NewlineEscapes(text)
  {
    FmtRunLineCount(FmtStart, text);
  }

  predicate NoTrailingSpace(line: string)
  {
    line == [] || !IsSpace(line[|line| - 1])
  }

  predicate AllTrimmed(lines: seq<string>)
  {
    forall k :: 0 <= k < |lines| ==> NoTrailingSpace(lines[k])
  }

  lemma {:induction false} FmtRunTrimmed(st: FmtState, s: string, parseNewLines: bool)
    requires AllTrimmed(st.lines)
    ensures AllTrimmed(FmtRun(st, s, parseNewLines).lines)
    decreases |s|
  {
    if s != [] {
      var st1 := FmtStep(st, s[0], parseNewLines);
      assert FmtRun(st, s, parseNewLines) == FmtRun(st1, s[1..], parseNewLines);
      assert AllTrimmed(st1.lines) by {
        if st1.lines != st.lines {
          assert st1.lines == st.lines + [TrimEnd(st.buf)];
        }
      }
      FmtRunTrimmed(st1, s[1..], parseNewLines);
    } else {
      assert FmtRun(st, s, parseNewLines) == st;
    }
  }

  /** No line of a formatted text ends in white space. */
  lemma LinesTrimmed(text: string, parseNewLines: bool)
    ensures AllTrimmed(FormatLines(text, parseNewLines))
  {
    var st := FmtRun(FmtStart, text, parseNewLines);
    FmtRunTrimmed(FmtStart, text, parseNewLines);
    var lines := st.lines + [TrimEnd(st.buf)];
    assert NoTrailingSpace(lines[|lines| - 1]);
    assert forall k :: 0 <= k < |st.lines| ==> lines[k] == st.lines[k];
  }

  /** A line written for the album language: every backslash doubled. */
  function EscapeLine(line: string): (r: string)
  {
    if line == [] then []
    else (if line[0] == '\\' then "\\\\" else [line[0]]) + EscapeLine(line[1..])
  }

  /** Lines written for the album language: escaped, with `\n` between them. */
  function EscapeLines(lines: seq<string>): string
    requires lines != []
  {
    if |lines| == 1 then EscapeLine(lines[0])
    else EscapeLines(lines[..|lines| - 1]) + "\\n" + EscapeLine(lines[|lines| - 1])
  }

  lemma {:induction false} FmtRunEscapeLine(st: FmtState, line: string)
    requires !st.escaped
    ensures FmtRun(st, EscapeLine(line), true) == FmtState(st.lines, st.buf + line, false)
    decreases |line|
  {
    if line != [] {
      var head := if line[0] == '\\' then "\\\\" else [line[0]];
      var st1 := FmtState(st.lines, st.buf + [line[0]], false);
      FmtRunAppend(st, head, EscapeLine(line[1..]), true);
      if line[0] == '\\' {
        assert FmtRun(st, head, true) == FmtRun(FmtStep(FmtStep(st, '\\', true), '\\', true), [], true);
      } else {
        assert FmtRun(st, head, true) == FmtRun(FmtStep(st, line[0], true), [], true);
      }
      FmtRunEscapeLine(st1, line[1..]);
      BufferGrows(st.buf, line);
    }
  }

  lemma BufferGrows(buf: string, line: string)
    requires line != []
    ensures buf + [line[0]] + line[1..] == buf + line
  {
    assert [line[0]] + line[1..] == line;
  }

  /** The separator ends the line being built. */
  lemma FmtRunNewline(st: FmtState)
    requires !st.escaped
    ensures FmtRun(st, "\\n", true) == FmtState(st.lines + [TrimEnd(st.buf)], [], false)
  {
    var st1 := FmtStep(st, '\\', true);
    assert FmtRun(st, "\\n", true) == FmtRun(st1, "n", true);
    assert FmtRun(st1, "n", true) == FmtRun(FmtStep(st1, 'n', true), [], true);
  }

  lemma FmtRunNextLine(st: FmtState, line: string)
    requires !st.escaped
    ensures FmtRun(st, "\\n" + EscapeLine(line), true) == FmtState(st.lines + [TrimEnd(st.buf)], line, false)
  {
    FmtRunAppend(st, "\\n", EscapeLine(line), true);
    FmtRunNewline(st);
    FmtRunEscapeLine(FmtState(st.lines + [TrimEnd(st.buf)], [], false), line);
  }

  lemma EscapeLinesSnoc(lines: seq<string>)
    requires |lines| > 1
    ensures EscapeLines(lines) == EscapeLines(lines[..|lines| - 1]) + ("\\n" + EscapeLine(lines[|lines| - 1]))
  {
  }

  lemma AllTrimmedPrefix(lines: seq<string>)
    requires lines != [] && AllTrimmed(lines)
    ensures AllTrimmed(lines[..|lines| - 1])
  {
    assert forall k :: 0 <= k < |lines| - 1 ==> lines[..|lines| - 1][k] == lines[k];
  }

  /** Ending the last of some lines that do not end in white space gives the lines back. */
  lemma LastLineKept(lines: seq<string>)
    requires lines != [] && AllTrimmed(lines)
    ensures lines[..|lines| - 1] + [TrimEnd(lines[|lines| - 1])] == lines
  {
    assert NoTrailingSpace(lines[|lines| - 1]);
    TrimEndOfClean(lines[|lines| - 1]);
  }

  /** Text scanned into st, then a separator and an escaped line. */
  lemma FmtRunThenLine(pre: string, st: FmtState, last: string)
    requires FmtRun(FmtStart, pre, true) == st && !st.escaped
    ensures FmtRun(FmtStart, pre + ("\\n" + EscapeLine(last)), true)
            == FmtState(st.lines + [TrimEnd(st.buf)], last, false)
  {
    FmtRunAppend(FmtStart, pre, "\\n" + EscapeLine(last), true);
    FmtRunNextLine(st, last);
  }

  lemma {:induction false} FmtRunEscapeLines(lines: seq<string>)
    requires lines != []
    requires AllTrimmed(lines)
    ensures FmtRun(FmtStart, EscapeLines(lines), true) == FmtState(lines[..|lines| - 1], lines[|lines| - 1], false)
    decreases |lines|
  {
    if |lines| == 1 {
      FmtRunEscapeLine(FmtStart, lines[0]);
    } else {
      var init := lines[..|lines| - 1];
      AllTrimmedPrefix(lines);
      FmtRunEscapeLines(init);
      EscapeLinesSnoc(lines);
      var st := FmtState(init[..|init| - 1], init[|init| - 1], false);
      FmtRunThenLine(EscapeLines(init), st, lines[|lines| - 1]);
      LastLineKept(init);
    }
  }

  /** Escaping lines that do not end in white space and formatting the result gives the lines
      back. */
  lemma FormatEscapedLines(lines: seq<string>)
    requires lines != []
    requires AllTrimmed(lines)
    ensures FormatLines(EscapeLines(lines), true) == lines
  {
    FmtRunEscapeLines(lines);
    LastLineKept(lines);
  }

  /** Trailing white space chopped one character at a time. */
  method ChopTrailingSpace(s: string) returns (r: string)
    ensures r == TrimEnd(s)
  {
    r := s;
    while |r| > 0 && IsSpace(r[|r| - 1])
      invariant TrimEnd(r) == TrimEnd(s)
    {
      r := r[..|r| - 1];
    }
    TrimEndOfClean(r);
  }

  /** The CFormattedText constructor; text is not centred and new lines are parsed unless the
      caller says otherwise. */
  method NewFormattedText(findex: int, fsize: Fonts.FontSize, text: string, centre: bool := false, parseNewLines: bool := true)
    returns (ft: FormattedText)
    ensures ft == FormattedText(findex, fsize, centre, FormatLines(text, parseNewLines))
  {
    var lines: seq<string> := [];
    var buf: string := [];
    var escaped := false;
    var i := 0;
    while i < |text|
      invariant 0 <= i <= |text|
      invariant FmtRun(FmtState(lines, buf, escaped), text[i..], parseNewLines)
                == FmtRun(FmtStart, text, parseNewLines)
    {
      var c := text[i];
      assert text[i..] == [c] + text[i + 1..];
      if escaped {
        if c == 'n' && parseNewLines {
          buf := ChopTrailingSpace(buf);
          lines := lines + [buf];
          buf := [];
        } else {
          buf := buf + [c];
        }
        escaped := false;
      } else {
        escaped := c == '\\';
        if c != '\\' {
          buf := buf + [c];
        }
      }
      i := i + 1;
    }
    buf := ChopTrailingSpace(buf);
    ft := FormattedText(findex, fsize, centre, lines + [buf]);
  }

  // ---------------------------------------------------------------------------------------
  // Rows of stamps and pages (CPageStampRow, CAlbumPage), as values.
  // ---------------------------------------------------------------------------------------

  /** A row of stamps: the font for the texts in and under the stamps, the frame line width and
      the fixed spacing (points), how the row is distributed and aligned, the height of its
      tallest stamp, and the stamps. */
  datatype StampRow = StampRow(findex: int, fsize: real, lineWidth: real, style: RowStyle, spacing: real,
                               rowAlign: RowAlign, maxStampHeight: real, stamps: seq<Stamp>)
  {
    /** m_maxStampHeight is the height of the tallest stamp so far. */
    predicate Valid()
    {
      maxStampHeight == MaxHeight(stamps)
    }
  }

  function Max(a: real, b: real): real
  {
    if a > b then a else b
  }

  /** The running maximum the row keeps: 0, raised by each stamp taller than all before it. */
  function MaxHeight(stamps: seq<Stamp>): real
  {
    if stamps == [] then 0.0 else Max(stamps[|stamps| - 1].height, MaxHeight(stamps[..|stamps| - 1]))
  }

  /** The running maximum is the height of the tallest stamp, or 0 when no stamp is taller. */
  lemma {:induction false} MaxHeightIsMaximum(stamps: seq<Stamp>)
    ensures MaxHeight(stamps) >= 0.0
    ensures forall i :: 0 <= i < |stamps| ==> stamps[i].height <= MaxHeight(stamps)
    ensures MaxHeight(stamps) == 0.0 || exists i :: 0 <= i < |stamps| && stamps[i].height == MaxHeight(stamps)
    decreases |stamps|
  {
    if stamps != [] {
      var init := stamps[..|stamps| - 1];
      MaxHeightIsMaximum(init);
      assert forall i :: 0 <= i < |init| ==> stamps[i] == init[i];
      if MaxHeight(init) != 0.0 && MaxHeight(stamps) == MaxHeight(init) {
        var i :| 0 <= i < |init| && init[i].height == MaxHeight(init);
        assert stamps[i].height == MaxHeight(stamps);
      }
    }
  }

  /** The CPageStampRow constructor: millimetre line width and spacing converted to points, no
      stamps yet. */
  function NewStampRow(findex: int, fsize: real, lineWidth: real, style: RowStyle, spacing: real,
                       rowAlign: RowAlign): (row: StampRow)
    ensures row.Valid() && row.stamps == []
  {
    StampRow(findex, fsize, lineWidth * DotsPerMm, style, spacing * DotsPerMm, rowAlign, 0.0, [])
  }

  /** CPageStampRow::addStamp: the stamp, its size converted to points, appended; the tallest
      height raised when the new stamp is taller. */
  function AddStamp(row: StampRow, style: StampStyle, width: real, height: real, texts: seq<string>): (r: StampRow)
  {
    var h := height * DotsPerMm;
    row.(maxStampHeight := if h > row.maxStampHeight then h else row.maxStampHeight,
         stamps := row.stamps + [Stamp(style, width * DotsPerMm, h, texts)])
  }

  /** Adding a stamp appends exactly that stamp and keeps the tallest height right. */
  lemma AddStampKeepsRow(row: StampRow, style: StampStyle, width: real, height: real, texts: seq<string>)
    requires row.Valid()
    ensures var r := AddStamp(row, style, width, height, texts);
            && r.Valid()
            && r.stamps == row.stamps + [Stamp(style, width * DotsPerMm, height * DotsPerMm, texts)]
            && r.(maxStampHeight := row.maxStampHeight, stamps := row.stamps) == row
  {
    var r := AddStamp(row, style, width, height, texts);
    assert r.stamps[..|r.stamps| - 1] == row.stamps;
  }

  datatype PageItem = TextItem(text: FormattedText) | RowItem(row: StampRow)

  /** A page: its spacing override (negative when not overridden), its items in drawing order,
      and the index of its active row among them (-1 before the first row). */
  datatype Page = Page(tmpHspace: real, tmpVspace: real, items: seq<PageItem>, activeRow: int)
  {
    predicate Valid()
    {
      && -1 <= activeRow < |items|
      && (activeRow >= 0 ==> items[activeRow].RowItem?)
      && forall k :: 0 <= k < |items| && items[k].RowItem? ==> items[k].row.Valid()
    }

    /** CAlbumPage::pageSpacingOverride: the page's own spacing, when both values were given. */
    function SpacingOverride(): (r: Option<(real, real)>)
    {
      if tmpHspace >= 0.0 && tmpVspace >= 0.0 then Some((tmpHspace, tmpVspace)) else None
    }
  }

  /** CAlbumPage::setPageSpacingOverride for one value: a negative value is kept as it is, so
      that it marks the override as absent; otherwise millimetres become points. */
  function OverrideValue(v: real): real
  {
    if v < 0.0 then v else v * DotsPerMm
  }

  /** A new page (CAlbumPage constructor, then setPageSpacingOverride). */
  function NewPage(hspace: real, vspace: real): (p: Page)
    ensures p.Valid() && p.items == [] && p.activeRow == -1
  {
    Page(OverrideValue(hspace), OverrideValue(vspace), [], -1)
  }

  /** A page overrides the spacing exactly when both values given to it are not negative, and
      then with those values converted to points. */
  lemma NewPageOverride(hspace: real, vspace: real)
    ensures NewPage(hspace, vspace).SpacingOverride().Some? <==> hspace >= 0.0 && vspace >= 0.0
    ensures NewPage(hspace, vspace).SpacingOverride().Some? ==>
              NewPage(hspace, vspace).SpacingOverride().value == (hspace * DotsPerMm, vspace * DotsPerMm)
  {
    if hspace >= 0.0 && vspace >= 0.0 {
      assert hspace * DotsPerMm >= 0.0 && vspace * DotsPerMm >= 0.0;
    }
  }

  /** The spacing a page is drawn with: its override, or the album's. */
  function EffectiveSpacing(page: Page, hspace: real, vspace: real): (real, real)
  {
    match page.SpacingOverride()
    case Some(s) => s
    case None => (hspace, vspace)
  }

  /** CAlbumPage::addPageText. */
  function AddPageText(page: Page, ft: FormattedText): (p: Page)
  {
    page.(items := page.items + [TextItem(ft)])
  }

  /** CAlbumPage::addStampRow: the row appended and made the active row. */
  function AddRow(page: Page, row: StampRow): (p: Page)
  {
    page.(items := page.items + [RowItem(row)], activeRow := |page.items|)
  }

  /** CPageStampRow::addStamp applied to the page's active row. */
  function AddStampToActiveRow(page: Page, style: StampStyle, width: real, height: real, texts: seq<string>): (p: Page)
    requires page.Valid() && page.activeRow >= 0
  {
    var row := page.items[page.activeRow].row;
    page.(items := page.items[page.activeRow := RowItem(AddStamp(row, style, width, height, texts))])
  }

  /** Each builder keeps a page well formed: text leaves the active row alone, a new row becomes
      the active one, and a stamp goes into the active row and nowhere else. */
  lemma AddPageTextKeepsPage(page: Page, ft: FormattedText)
    requires page.Valid()
    ensures var p := AddPageText(page, ft);
            && p.Valid() && p.activeRow == page.activeRow
            && p.items == page.items + [TextItem(ft)]
  {
    var p := AddPageText(page, ft);
    assert forall k :: 0 <= k < |page.items| ==> p.items[k] == page.items[k];
  }

  lemma AddRowKeepsPage(page: Page, row: StampRow)
    requires page.Valid() && row.Valid()
    ensures var p := AddRow(page, row);
            && p.Valid() && p.items == page.items + [RowItem(row)]
            && p.items[p.activeRow] == RowItem(row)
  {
    var p := AddRow(page, row);
    assert forall k :: 0 <= k < |page.items| ==> p.items[k] == page.items[k];
  }

  lemma AddStampKeepsPage(page: Page, style: StampStyle, width: real, height: real, texts: seq<string>)
    requires page.Valid() && page.activeRow >= 0
    ensures var p := AddStampToActiveRow(page, style, width, height, texts);
            && p.Valid() && p.activeRow == page.activeRow && |p.items| == |page.items|
            && (forall k :: 0 <= k < |p.items| && k != p.activeRow ==> p.items[k] == page.items[k])
            && p.items[p.activeRow].row.stamps
               == page.items[page.activeRow].row.stamps + [Stamp(style, width * DotsPerMm, height * DotsPerMm, texts)]
  {
    AddStampKeepsRow(page.items[page.activeRow].row, style, width, height, texts);
  }

  // ---------------------------------------------------------------------------------------
  // The album (CAlbumData).
  // ---------------------------------------------------------------------------------------

  /** The parsed album: the page settings with a flag for each that must be given, the title,
      and the pages; lengths in points. The active page is always the last page added. */
  class AlbumData {
    var sizeSet: bool
    var width: real
    var height: real
    var mrgSet: bool
    var oddMargins: Margins
    var evenMargins: Margins
    var hasBorders: bool
    var outerBorder: real
    var innerBorder: real
    var borderSpacing: real
    var spacingSet: bool
    var hspace: real
    var vspace: real
    var rowAlign: RowAlign
    var title: Option<FormattedText>
    var pages: seq<Page>
    var activePage: int
    const fonts: Fonts.FontTable

    ghost predicate Valid()
      reads this, fonts, fonts.fontMap
    {
      && fonts.Valid()
      && activePage == |pages| - 1
      && forall k :: 0 <= k < |pages| ==> pages[k].Valid()
    }

    /** CAlbumData::hasPage: a page has been started. */
    predicate HasPage()
      reads this
    {
      activePage >= 0
    }

    /** CAlbumData::hasRow: the active page has an active row. */
    predicate HasRow()
      reads this
    {
      0 <= activePage < |pages| && pages[activePage].activeRow >= 0
    }

    /** The CAlbumData constructor: no title, then reset. The lengths the constructor leaves
        unset start at 0. */
    constructor (fonts: Fonts.FontTable)
      requires fonts.Valid()
      modifies fonts.fontMap, fonts.fontFileMap
      ensures Valid() && this.fonts == fonts
      ensures !sizeSet && !mrgSet && !hasBorders && !spacingSet && rowAlign == AlignTop
      ensures title == None && pages == [] && !HasPage() && !HasRow()
      ensures fonts.fontMap[..] == Fonts.ClearUserFonts(old(fonts.fontMap[..]))
      ensures fonts.fontFileMap[..] == Fonts.ForgetLoadedNames(old(fonts.fontFileMap[..]))
    {
      this.fonts := fonts;
      width, height := 0.0, 0.0;
      oddMargins, evenMargins := Margins(0.0, 0.0, 0.0, 0.0), Margins(0.0, 0.0, 0.0, 0.0);
      outerBorder, innerBorder, borderSpacing := 0.0, 0.0, 0.0;
      hspace, vspace := 0.0, 0.0;
      sizeSet, mrgSet, hasBorders, spacingSet := false, false, false, false;
      rowAlign := AlignTop;
      title := None;
      pages := [];
      activePage := -1;
      new;
      fonts.Initialise();
    }

    /** CAlbumData::reset: the flags cleared, top alignment, no title, no pages, and the font
        table made ready for a new document. The page size, margin, border and spacing values
        themselves are kept. */
    method Reset()
      requires Valid()
      modifies this`sizeSet, this`mrgSet, this`hasBorders, this`spacingSet, this`rowAlign,
               this`title, this`pages, this`activePage, fonts.fontMap, fonts.fontFileMap
      ensures Valid()
      ensures !sizeSet && !mrgSet && !hasBorders && !spacingSet && rowAlign == AlignTop
      ensures title == None && pages == [] && !HasPage() && !HasRow()
      ensures fonts.fontMap[..] == Fonts.ClearUserFonts(old(fonts.fontMap[..]))
      ensures fonts.fontFileMap[..] == Fonts.ForgetLoadedNames(old(fonts.fontFileMap[..]))
    {
      sizeSet, mrgSet, hasBorders, spacingSet := false, false, false, false;
      rowAlign := AlignTop;
      title := None;
      activePage := -1;
      pages := [];
      fonts.Initialise();
    }

    /** CAlbumData::setPageSize, from millimetres. */
    method SetPageSize(w: real, h: real)
      modifies this`width, this`height, this`sizeSet
      ensures width == w * DotsPerMm && height == h * DotsPerMm && sizeSet
    {
      width := w * DotsPerMm;
      height := h * DotsPerMm;
      sizeSet := true;
    }

    /** CAlbumData::setMargins: the odd margins are also the even ones and mark the margins as
        set; the even margins alone can then be overridden. */
    method SetMargins(l: real, r: real, t: real, b: real, odd: bool)
      modifies this`oddMargins, this`evenMargins, this`mrgSet
      ensures var m := Margins(l * DotsPerMm, r * DotsPerMm, t * DotsPerMm, b * DotsPerMm);
              if odd then oddMargins == m && evenMargins == m && mrgSet
              else oddMargins == old(oddMargins) && evenMargins == m && mrgSet == old(mrgSet)
    {
      var m := Margins(l * DotsPerMm, r * DotsPerMm, t * DotsPerMm, b * DotsPerMm);
      if odd {
        oddMargins := m;
        mrgSet := true;
        evenMargins := oddMargins;
      } else {
        evenMargins := m;
      }
    }

    /** CAlbumData::setBorder, from millimetres. */
    method SetBorder(outer: real, inner: real, spacing: real)
      modifies this`outerBorder, this`innerBorder, this`borderSpacing, this`hasBorders
      ensures outerBorder == outer * DotsPerMm && innerBorder == inner * DotsPerMm
      ensures borderSpacing == spacing * DotsPerMm && hasBorders
    {
      outerBorder := outer * DotsPerMm;
      innerBorder := inner * DotsPerMm;
      borderSpacing := spacing * DotsPerMm;
      hasBorders := true;
    }

    /** CAlbumData::setSpacing, from millimetres. */
    method SetSpacing(h: real, v: real)
      modifies this`hspace, this`vspace, this`spacingSet
      ensures hspace == h * DotsPerMm && vspace == v * DotsPerMm && spacingSet
    {
      hspace := h * DotsPerMm;
      vspace := v * DotsPerMm;
      spacingSet := true;
    }

    /** CAlbumData::setTitle: the title replaced by the centred formatted text. */
    method SetTitle(findex: int, fsize: Fonts.FontSize, text: string)
      modifies this`title
      ensures title == Some(FormattedText(findex, fsize, true, FormatLines(text, true)))
    {
      var ft := NewFormattedText(findex, fsize, text, true);
      title := Some(ft);
    }

    /** CAlbumData::setRowAlignment: the alignment given to rows added from now on. */
    method SetRowAlignment(align: RowAlign)
      modifies this`rowAlign
      ensures rowAlign == align
    {
      rowAlign := align;
    }

    /** CAlbumData::startNewPage: a new page appended and made active. */
    method StartNewPage(h: real := -1.0, v: real := -1.0)
      requires Valid()
      modifies this`pages, this`activePage
      ensures Valid() && HasPage()
      ensures pages == old(pages) + [NewPage(h, v)] && !HasRow()
    {
      pages := pages + [NewPage(h, v)];
      activePage := |pages| - 1;
    }

    /** CAlbumData::addPageTextToPage: text appended to the active page; nothing happens when no
        page has been started. */
    method AddPageTextToPage(findex: int, fsize: Fonts.FontSize, text: string, centre: bool)
      requires Valid()
      modifies this`pages
      ensures Valid() && HasPage() == old(HasPage()) && HasRow() == old(HasRow())
      ensures old(HasPage()) ==>
                pages == old(pages)[activePage := AddPageText(old(pages)[activePage],
                                       FormattedText(findex, fsize, centre, FormatLines(text, true)))]
      ensures !old(HasPage()) ==> pages == old(pages)
    {
      if activePage >= 0 {
        var ft := NewFormattedText(findex, fsize, text, centre);
        AddPageTextKeepsPage(pages[activePage], ft);
        pages := pages[activePage := AddPageText(pages[activePage], ft)];
      }
    }

    /** CAlbumData::addStampRowToPage: a row, aligned as the album currently says, appended to
        the active page and made its active row; nothing happens when no page has been
        started. */
    method AddStampRowToPage(findex: int, fsize: real, lineWidth: real, style: RowStyle, spacing: real)
      requires Valid()
      modifies this`pages
      ensures Valid() && HasPage() == old(HasPage())
      ensures old(HasPage()) ==> HasRow()
      ensures old(HasPage()) ==>
                pages == old(pages)[activePage := AddRow(old(pages)[activePage],
                                       NewStampRow(findex, fsize, lineWidth, style, spacing, rowAlign))]
      ensures !old(HasPage()) ==> pages == old(pages)
    {
      if activePage >= 0 {
        var row := NewStampRow(findex, fsize, lineWidth, style, spacing, rowAlign);
        AddRowKeepsPage(pages[activePage], row);
        pages := pages[activePage := AddRow(pages[activePage], row)];
      }
    }

    /** CAlbumData::addStampToRow: a stamp appended to the active row of the active page;
        nothing happens when there is no page or the page has no row. */
    method AddStampToRow(style: StampStyle, width: real, height: real, texts: seq<string>)
      requires Valid() && |texts| == 9
      modifies this`pages
      ensures Valid() && HasPage() == old(HasPage()) && HasRow() == old(HasRow())
      ensures old(HasRow()) ==>
                pages == old(pages)[activePage := AddStampToActiveRow(old(pages)[activePage], style, width, height, texts)]
      ensures !old(HasRow()) ==> pages == old(pages)
    {
      if activePage >= 0 && pages[activePage].activeRow >= 0 {
        AddStampKeepsPage(pages[activePage], style, width, height, texts);
        pages := pages[activePage := AddStampToActiveRow(pages[activePage], style, width, height, texts)];
      }
    }
  }

  /** A page exists exactly when one has been started since the last reset. */
  lemma HasPageIffPages(album: AlbumData)
    requires album.Valid()
    ensures album.HasPage() <==> album.pages != []
  {
  }
}
