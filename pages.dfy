/**
 * The document (CAlbumData::generatePdf and CAlbumData::drawPageToPdf): the settings every
 * album must give, and each page drawn in turn: its border, its title, then its items from the
 * top down while the cursor is above the bottom of the page, stopping at the first font that
 * cannot be had.
 *
 * The PDF document, its pages and the saving of the file are not modelled: a generated page is
 * its size and its log of drawing calls, and a font that cannot be had is the error the font
 * registry reports.
 */
module Pages {
  import opened Text
  import opened Album
  import opened Layout
  import StampRows
  import Fonts

  /** The settings generatePdf requires, each reported by a message of its own when missing. */
  datatype SetupError = SizeNotDefined | MarginsNotSet | SpacingNotSet

  /** The messages of the settings check, in the order the program reports them. */
  function MissingSettings(sizeSet: bool, mrgSet: bool, spacingSet: bool): seq<SetupError>
  {
    (if sizeSet then [] else [SizeNotDefined])
    + (if mrgSet then [] else [MarginsNotSet])
    + (if spacingSet then [] else [SpacingNotSet])
  }

  /** The check passes exactly when the size, the margins and the spacing are all set, and it
      reports each missing setting once. */
  lemma MissingSettingsReported(sizeSet: bool, mrgSet: bool, spacingSet: bool)
    ensures var e := MissingSettings(sizeSet, mrgSet, spacingSet);
            && (e == [] <==> sizeSet && mrgSet && spacingSet)
            && (SizeNotDefined in e <==> !sizeSet)
            && (MarginsNotSet in e <==> !mrgSet)
            && (SpacingNotSet in e <==> !spacingSet)
            && (forall i, j :: 0 <= i < j < |e| ==> e[i] != e[j])
  {
  }

  /** The page settings of the album that drawing reads. */
  function SetupOf(album: AlbumData): Setup
    reads album
  {
    Setup(album.width, album.height, album.oddMargins, album.evenMargins, album.hasBorders,
          album.outerBorder, album.innerBorder, album.borderSpacing, album.hspace, album.vspace, album.title)
  }

  // ---------------------------------------------------------------------------------------
  // The border and the title of a page (drawPageToPdf).
  // ---------------------------------------------------------------------------------------

  /** One border: its line width and its rectangle, when the line is thicker than 0. */
  function BorderLine(width: real, r: RectF): seq<Draw>
  {
    if width > 0.0 then [SetLineWidth(width), Rectangle(r.x, r.y, r.w, r.h)] else []
  }

  /** The borders of a page, when the album has them: the outer one, then the inner one. */
  function Borders(setup: Setup, odd: bool): seq<Draw>
  {
    if setup.hasBorders then
      BorderLine(setup.outerBorder, BorderRect(setup, odd, false))
      + BorderLine(setup.innerBorder, BorderRect(setup, odd, true))
    else []
  }

  /** The cursor below the top margin, where the title starts. */
  function PageTop(setup: Setup, odd: bool): real
  {
    setup.height - MarginsFor(setup, odd).top
  }

  /** The lines of the title below ypos, one font size apart, each centred on centre. */
  function TitleLines(lines: seq<string>, measure: string -> real, centre: real, ypos: real, fsize: real)
    : seq<Draw>
    decreases |lines|
  {
    if lines == [] then []
    else [TitleLine(lines[0], measure, centre, ypos - fsize)] + TitleLines(lines[1..], measure, centre, ypos - fsize, fsize)
  }

  /** A line of the title centred on centre at baseline y. */
  function TitleLine(line: string, measure: string -> real, centre: real, y: real): Draw
  {
    TextOut(centre - measure(line) / 2.0, y, line)
  }

  /** What drawing the border and title of a page leaves: the calls made, the cursor for the
      first item, the file map, and the error when the title's font could not be had. */
  datatype Header = Header(log: seq<Draw>, ypos: real, files: seq<Fonts.FileSlot>, error: Option<Fonts.FontError>)

  /** drawPageToPdf: the borders; the cursor moved below the top margin; then the title, if
      there is one: the album's own vertical spacing (never the page's), the lines centred on
      the page, and the page's vertical spacing after them. Without its font the title is not
      drawn and the error is reported. */
  function PageHeader(setup: Setup, odd: bool, vspacing: real, fonts: seq<Fonts.FontSlot>,
                      files: seq<Fonts.FileSlot>, load: string -> string, textWidth: TextWidth): Header
    requires Fonts.EncodingsInRange(fonts)
  {
    var title := Title(setup, odd, vspacing, fonts, files, load, textWidth);
    Header(Borders(setup, odd) + title.log, title.ypos, title.files, title.error)
  }

  /** The title part of drawPageToPdf, from the cursor below the top margin. */
  function Title(setup: Setup, odd: bool, vspacing: real, fonts: seq<Fonts.FontSlot>,
                 files: seq<Fonts.FileSlot>, load: string -> string, textWidth: TextWidth): Header
    requires Fonts.EncodingsInRange(fonts)
  {
    match setup.title
    case None => Header([], PageTop(setup, odd), files, None)
    case Some(t) =>
      var lookup := Fonts.FontLookup(fonts, files, t.findex, load);
      match lookup.0
      case NoFont(e) => Header([], PageTop(setup, odd), lookup.1, Some(e))
      case Font(req) =>
        var text := TitleText(setup, odd, vspacing, t, req, textWidth);
        Header(text.0, text.1, lookup.1, None)
  }

  /** A title whose font was had: the font set, the lines centred on the page from the album's
      vertical spacing below the top margin, and the cursor the page's vertical spacing below
      the last line. */
  function TitleText(setup: Setup, odd: bool, vspacing: real, t: FormattedText, req: Fonts.FontRequest,
                     textWidth: TextWidth): (seq<Draw>, real)
  {
    var top := TitleTop(setup, odd);
    ([SetFont(req, t.fsize)] + TitleLines(t.lines, MeasureWith(textWidth, req, t.fsize), PageCentre(setup, odd), top, t.fsize),
     top - LinesHeight(|t.lines|, t.fsize) - vspacing)
  }

  /** Where the lines of the title start: the album's vertical spacing below the top margin. */
  function TitleTop(setup: Setup, odd: bool): real
  {
    PageTop(setup, odd) - setup.vspace
  }

  /** Line k of the title is that line of text, centred on the page centre, k + 1 font sizes
      below where the title starts. */
  lemma {:induction false} TitleCentred(lines: seq<string>, measure: string -> real, centre: real, ypos: real,
                                        fsize: real)
    ensures var log := TitleLines(lines, measure, centre, ypos, fsize);
            && |log| == |lines|
            && forall k :: 0 <= k < |log| ==>
                 && log[k].TextOut? && log[k].text == lines[k]
                 && log[k].x + measure(lines[k]) / 2.0 == centre
                 && log[k].y == ypos - (k + 1) as real * fsize
    decreases |lines|
  {
    if lines != [] {
      var rest := TitleLines(lines[1..], measure, centre, ypos - fsize, fsize);
      TitleCentred(lines[1..], measure, centre, ypos - fsize, fsize);
      var log := TitleLines(lines, measure, centre, ypos, fsize);
      assert log == [TitleLine(lines[0], measure, centre, ypos - fsize)] + rest;
      forall k | 1 <= k < |log|
        ensures log[k].y == ypos - (k + 1) as real * fsize
      {
        assert log[k] == rest[k - 1];
        OneLineLower(ypos, fsize, k);
      }
    }
  }

  /** k lines below the line under ypos are k + 1 lines below ypos. */
  lemma OneLineLower(ypos: real, fsize: real, k: nat)
    ensures (ypos - fsize) - k as real * fsize == ypos - (k + 1) as real * fsize
  {
  }

  /** The title is drawn the same on every page of the same parity whatever the page's own
      spacing: the page's vertical spacing only moves the cursor left for the first item. */
  lemma TitleIgnoresPageSpacing(setup: Setup, odd: bool, v1: real, v2: real, fonts: seq<Fonts.FontSlot>,
                                files: seq<Fonts.FileSlot>, load: string -> string, textWidth: TextWidth)
    requires Fonts.EncodingsInRange(fonts)
    ensures var h1 := PageHeader(setup, odd, v1, fonts, files, load, textWidth);
            var h2 := PageHeader(setup, odd, v2, fonts, files, load, textWidth);
            && h1.log == h2.log && h1.files == h2.files && h1.error == h2.error
            && (h1.error == None && setup.title.Some? ==> h1.ypos - h2.ypos == v2 - v1)
            && (setup.title.None? ==> h1.ypos == h2.ypos == PageTop(setup, odd))
  {
  }

  // ---------------------------------------------------------------------------------------
  // The items of a page (the item loop of generatePdf).
  // ---------------------------------------------------------------------------------------

  /** The font index an item is drawn with. */
  function ItemFont(item: PageItem): int
  {
    match item
    case TextItem(ft) => ft.findex
    case RowItem(row) => row.findex
  }

  /** CPageItem::drawToPdf: a text or a row of stamps, given the result of its font lookup. */
  function RenderItem(item: PageItem, font: Fonts.FontResult, textWidth: TextWidth, xpos: real, ypos: real,
                      drawWidth: real, pageWidth: real, hspacing: real, vspacing: real): Drawn
  {
    match item
    case TextItem(ft) => RenderText(ft, font, textWidth, xpos, ypos, drawWidth, vspacing)
    case RowItem(row) => StampRows.RenderRow(row, font, textWidth, xpos, ypos, drawWidth, pageWidth, hspacing, vspacing)
  }

  /** What drawing some items leaves: the calls made, the cursor, the file map, and the error
      of the font that stopped the page, if any. */
  datatype Progress = Progress(log: seq<Draw>, ypos: real, files: seq<Fonts.FileSlot>, error: Option<Fonts.FontError>)

  /** The items from index j on, from cursor ypos: an item is drawn only while the cursor is
      above the bottom of the page; an item whose font cannot be had draws nothing and ends
      the page with its error. */
  function ItemsFrom(items: seq<PageItem>, j: nat, fonts: seq<Fonts.FontSlot>, files: seq<Fonts.FileSlot>,
                     load: string -> string, textWidth: TextWidth, xpos: real, ypos: real, drawWidth: real,
                     pageWidth: real, hspacing: real, vspacing: real): Progress
    requires Fonts.EncodingsInRange(fonts)
    decreases |items| - j
  {
    if j >= |items| then Progress([], ypos, files, None)
    else if ypos > 0.0 then
      var lookup := Fonts.FontLookup(fonts, files, ItemFont(items[j]), load);
      if lookup.0.NoFont? then Progress([], ypos, lookup.1, Some(lookup.0.error))
      else
        var d := RenderItem(items[j], lookup.0, textWidth, xpos, ypos, drawWidth, pageWidth, hspacing, vspacing);
        var rest := ItemsFrom(items, j + 1, fonts, lookup.1, load, textWidth, xpos, d.ypos, drawWidth, pageWidth,
                              hspacing, vspacing);
        Progress(d.log + rest.log, rest.ypos, rest.files, rest.error)
    else ItemsFrom(items, j + 1, fonts, files, load, textWidth, xpos, ypos, drawWidth, pageWidth, hspacing, vspacing)
  }

  /** Below the bottom of the page nothing more is drawn, no font is looked up, and no error
      can happen. */
  lemma {:induction false} NothingBelowPage(items: seq<PageItem>, j: nat, fonts: seq<Fonts.FontSlot>,
                                            files: seq<Fonts.FileSlot>, load: string -> string, textWidth: TextWidth,
                                            xpos: real, ypos: real, drawWidth: real, pageWidth: real,
                                            hspacing: real, vspacing: real)
    requires Fonts.EncodingsInRange(fonts) && ypos <= 0.0
    ensures ItemsFrom(items, j, fonts, files, load, textWidth, xpos, ypos, drawWidth, pageWidth, hspacing, vspacing)
            == Progress([], ypos, files, None)
    decreases |items| - j
  {
    if j < |items| {
      NothingBelowPage(items, j + 1, fonts, files, load, textWidth, xpos, ypos, drawWidth, pageWidth, hspacing, vspacing);
    }
  }

  /** With a vertical spacing that is not negative, the cursor never moves up the page. */
  lemma {:induction false} CursorNeverRises(items: seq<PageItem>, j: nat, fonts: seq<Fonts.FontSlot>,
                                            files: seq<Fonts.FileSlot>, load: string -> string, textWidth: TextWidth,
                                            xpos: real, ypos: real, drawWidth: real, pageWidth: real,
                                            hspacing: real, vspacing: real)
    requires Fonts.EncodingsInRange(fonts) && vspacing >= 0.0
    ensures ItemsFrom(items, j, fonts, files, load, textWidth, xpos, ypos, drawWidth, pageWidth, hspacing, vspacing).ypos
            <= ypos
    decreases |items| - j
  {
    if j < |items| {
      if ypos > 0.0 {
        var lookup := Fonts.FontLookup(fonts, files, ItemFont(items[j]), load);
        if lookup.0.Font? {
          var d := RenderItem(items[j], lookup.0, textWidth, xpos, ypos, drawWidth, pageWidth, hspacing, vspacing);
          ItemDrops(items[j], lookup.0, textWidth, xpos, ypos, drawWidth, pageWidth, hspacing, vspacing);
          CursorNeverRises(items, j + 1, fonts, lookup.1, load, textWidth, xpos, d.ypos, drawWidth, pageWidth,
                           hspacing, vspacing);
        }
      } else {
        CursorNeverRises(items, j + 1, fonts, files, load, textWidth, xpos, ypos, drawWidth, pageWidth,
                         hspacing, vspacing);
      }
    }
  }

  /** One item never moves the cursor up the page. */
  lemma ItemDrops(item: PageItem, font: Fonts.FontResult, textWidth: TextWidth, xpos: real, ypos: real,
                  drawWidth: real, pageWidth: real, hspacing: real, vspacing: real)
    requires vspacing >= 0.0
    ensures RenderItem(item, font, textWidth, xpos, ypos, drawWidth, pageWidth, hspacing, vspacing).ypos <= ypos
  {
    match item
    case TextItem(ft) =>
      TextItemDrop(ft, font, textWidth, xpos, ypos, drawWidth, vspacing);
      assert LinesHeight(|ft.lines|, ft.fsize) >= 0.0;
    case RowItem(row) =>
      StampRows.RowDrop(row, font, textWidth, xpos, ypos, drawWidth, pageWidth, hspacing, vspacing);
  }

  // ---------------------------------------------------------------------------------------
  // Pages and the document (generatePdf).
  // ---------------------------------------------------------------------------------------

  /** What drawing a page leaves: the calls made, the file map, and the error that stopped it. */
  datatype PageOut = PageOut(log: seq<Draw>, files: seq<Fonts.FileSlot>, error: Option<Fonts.FontError>)

  /** The page spacing: the page's override, or the album's. */
  function PageSpacing(setup: Setup, page: Page): (real, real)
  {
    EffectiveSpacing(page, setup.hspace, setup.vspace)
  }

  /** Page number pageno (from 1): odd pages use the odd margins; the border and title, then,
      when the title's font was had, the items across the drawing area from the cursor the
      title left. */
  function RenderPage(setup: Setup, page: Page, pageno: int, fonts: seq<Fonts.FontSlot>,
                      files: seq<Fonts.FileSlot>, load: string -> string, textWidth: TextWidth): PageOut
    requires Fonts.EncodingsInRange(fonts)
  {
    var odd := IsOdd(pageno);
    var spacing := PageSpacing(setup, page);
    var header := PageHeader(setup, odd, spacing.1, fonts, files, load, textWidth);
    if header.error.Some? then PageOut(header.log, header.files, header.error)
    else
      var area := DrawArea(setup, spacing.0, odd);
      var items := ItemsFrom(page.items, 0, fonts, header.files, load, textWidth, area.0, header.ypos, area.1,
                             setup.width, spacing.0, spacing.1);
      PageOut(header.log + items.log, items.files, items.error)
  }

  /** A generated page: its size and its drawing calls. */
  datatype PdfPage = PdfPage(width: real, height: real, log: seq<Draw>)

  /** The page whose font could not be had, by its number, and the error. */
  datatype Failure = Failure(pageno: nat, error: Fonts.FontError)

  /** What drawing pages leaves: the pages drawn, the file map, and the failure, if any. */
  datatype Run = Run(pages: seq<PdfPage>, files: seq<Fonts.FileSlot>, failure: Option<Failure>)

  /** The pages from index i on, each numbered from 1, until one fails. */
  function PagesFrom(setup: Setup, pages: seq<Page>, i: nat, fonts: seq<Fonts.FontSlot>, files: seq<Fonts.FileSlot>,
                     load: string -> string, textWidth: TextWidth): Run
    requires Fonts.EncodingsInRange(fonts)
    decreases |pages| - i
  {
    if i >= |pages| then Run([], files, None)
    else
      var p := RenderPage(setup, pages[i], i + 1, fonts, files, load, textWidth);
      var page := PdfPage(setup.width, setup.height, p.log);
      if p.error.Some? then Run([page], p.files, Some(Failure(i + 1, p.error.value)))
      else
        var rest := PagesFrom(setup, pages, i + 1, fonts, p.files, load, textWidth);
        Run([page] + rest.pages, rest.files, rest.failure)
  }

  /** The outcome of generatePdf: the missing settings, the page whose font failed, or the
      document. */
  datatype Pdf = Missing(errors: seq<SetupError>) | FontFailure(failure: Failure) | Document(pages: seq<PdfPage>)

  /** generatePdf: with a setting missing nothing is drawn; otherwise the pages one after the
      other, the document only when none failed. */
  function Generate(sizeSet: bool, mrgSet: bool, spacingSet: bool, setup: Setup, pages: seq<Page>,
                    fonts: seq<Fonts.FontSlot>, files: seq<Fonts.FileSlot>, load: string -> string,
                    textWidth: TextWidth): (Pdf, seq<Fonts.FileSlot>)
    requires Fonts.EncodingsInRange(fonts)
  {
    var missing := MissingSettings(sizeSet, mrgSet, spacingSet);
    if missing != [] then (Missing(missing), files)
    else
      var run := PagesFrom(setup, pages, 0, fonts, files, load, textWidth);
      if run.failure.Some? then (FontFailure(run.failure.value), run.files) else (Document(run.pages), run.files)
  }

  /** The pages drawn are those before the failing one and the failing one itself, or all of
      them; each has the album's page size. */
  lemma {:induction false} PagesInOrder(setup: Setup, pages: seq<Page>, i: nat, fonts: seq<Fonts.FontSlot>,
                                        files: seq<Fonts.FileSlot>, load: string -> string, textWidth: TextWidth)
    requires Fonts.EncodingsInRange(fonts) && i <= |pages|
    ensures var r := PagesFrom(setup, pages, i, fonts, files, load, textWidth);
            && (r.failure.None? ==> |r.pages| == |pages| - i)
            && (r.failure.Some? ==> i < r.failure.value.pageno <= |pages| && |r.pages| == r.failure.value.pageno - i)
            && forall k :: 0 <= k < |r.pages| ==> r.pages[k].width == setup.width && r.pages[k].height == setup.height
    decreases |pages| - i
  {
    if i < |pages| {
      var p := RenderPage(setup, pages[i], i + 1, fonts, files, load, textWidth);
      if p.error.None? {
        PagesInOrder(setup, pages, i + 1, fonts, p.files, load, textWidth);
      }
    }
  }

  /** A document has one page per page of the album, each of the album's size; a failure
      names one of the album's pages. */
  lemma DocumentHasEveryPage(sizeSet: bool, mrgSet: bool, spacingSet: bool, setup: Setup, pages: seq<Page>,
                             fonts: seq<Fonts.FontSlot>, files: seq<Fonts.FileSlot>, load: string -> string,
                             textWidth: TextWidth)
    requires Fonts.EncodingsInRange(fonts)
    ensures var r := Generate(sizeSet, mrgSet, spacingSet, setup, pages, fonts, files, load, textWidth).0;
            && (r.Missing? <==> !(sizeSet && mrgSet && spacingSet))
            && (r.Document? ==> |r.pages| == |pages|)
            && (r.Document? ==> forall k :: 0 <= k < |r.pages| ==>
                                  r.pages[k].width == setup.width && r.pages[k].height == setup.height)
            && (r.FontFailure? ==> 1 <= r.failure.pageno <= |pages|)
  {
    MissingSettingsReported(sizeSet, mrgSet, spacingSet);
    if sizeSet && mrgSet && spacingSet {
      PagesInOrder(setup, pages, 0, fonts, files, load, textWidth);
    }
  }

  // ---------------------------------------------------------------------------------------
  // The drawing, step by step.
  // ---------------------------------------------------------------------------------------

  /** One pass of the title loop: down one line, then the line centred. */
  method DrawTitleLine(str: string, measure: string -> real, centre: real, ypos: real, fsize: real)
    returns (line: Draw, y: real)
    ensures y == ypos - fsize && line == TitleLine(str, measure, centre, y)
  {
    y := ypos - fsize;
    var strWidth := measure(str);
    line := TextOut(centre - strWidth / 2.0, y, str);
  }

  /** The title lines from the i-th on: that line, one line lower, then the others below it. */
  lemma TitleLinesStep(lines: seq<string>, i: nat, measure: string -> real, centre: real, y: real, fsize: real)
    requires i < |lines|
    ensures TitleLines(lines[i..], measure, centre, y, fsize)
            == [TitleLine(lines[i], measure, centre, y - fsize)] + TitleLines(lines[i + 1..], measure, centre, y - fsize, fsize)
  {
    assert lines[i..][1..] == lines[i + 1..];
  }

  /** The title loop of drawPageToPdf. */
  method DrawTitleLines(lines: seq<string>, measure: string -> real, centre: real, ypos: real, fsize: real)
    returns (log: seq<Draw>, y: real)
    ensures log == TitleLines(lines, measure, centre, ypos, fsize)
    ensures y == ypos - LinesHeight(|lines|, fsize)
  {
    log, y := [], ypos;
    ghost var rest := TitleLines(lines, measure, centre, ypos, fsize);
    ghost var all := rest;
    for i := 0 to |lines|
      invariant rest == TitleLines(lines[i..], measure, centre, y, fsize)
      invariant log + rest == all
      invariant y == ypos - LinesHeight(i, fsize)
    {
      TitleLinesStep(lines, i, measure, centre, y, fsize);
      var line;
      line, y := DrawTitleLine(lines[i], measure, centre, y, fsize);
      assert LinesHeight(i + 1, fsize) == LinesHeight(i, fsize) + fsize;
      rest := TitleLines(lines[i + 1..], measure, centre, y, fsize);
      AppendAssoc(log, [line], rest);
      log := log + [line];
    }
    assert lines[|lines|..] == [];
    assert log + [] == log;
  }

  /** The borders of drawPageToPdf. */
  method DrawBorders(setup: Setup, odd: bool) returns (log: seq<Draw>)
    ensures log == Borders(setup, odd)
  {
    log := [];
    if setup.hasBorders {
      if setup.outerBorder > 0.0 {
        var rect := BorderRect(setup, odd, false);
        log := log + [SetLineWidth(setup.outerBorder), Rectangle(rect.x, rect.y, rect.w, rect.h)];
      }
      if setup.innerBorder > 0.0 {
        var rect := BorderRect(setup, odd, true);
        log := log + [SetLineWidth(setup.innerBorder), Rectangle(rect.x, rect.y, rect.w, rect.h)];
      }
    }
  }

  /** drawPageToPdf: the borders, the cursor below the top margin, and the title. */
  method DrawPageHeader(fonts: Fonts.FontTable, setup: Setup, odd: bool, vspacing: real, load: string -> string,
                        textWidth: TextWidth)
    returns (header: Header)
    requires fonts.Valid()
    modifies fonts.fontFileMap
    ensures fonts.Valid()
    ensures header == PageHeader(setup, odd, vspacing, fonts.fontMap[..], old(fonts.fontFileMap[..]), load, textWidth)
    ensures fonts.fontFileMap[..] == header.files
  {
    var borders := DrawBorders(setup, odd);
    var title := DrawTitle(fonts, setup, odd, vspacing, load, textWidth);
    header := Header(borders + title.log, title.ypos, title.files, title.error);
  }

  /** One pass of generatePdf's page loop: the page drawn, and the failure that ends the loop. */
  method DrawNextPage(fonts: Fonts.FontTable, setup: Setup, pages: seq<Page>, i: nat, load: string -> string,
                      textWidth: TextWidth)
    returns (page: PdfPage, failure: Option<Failure>)
    requires fonts.Valid() && i < |pages|
    modifies fonts.fontFileMap
    ensures fonts.Valid()
    ensures var run := PagesFrom(setup, pages, i, fonts.fontMap[..], old(fonts.fontFileMap[..]), load, textWidth);
            if failure.Some? then failure == run.failure && fonts.fontFileMap[..] == run.files
            else
              var rest := PagesFrom(setup, pages, i + 1, fonts.fontMap[..], fonts.fontFileMap[..], load, textWidth);
              run == Run([page] + rest.pages, rest.files, rest.failure)
  {
    var out := DrawPage(fonts, setup, pages[i], i + 1, load, textWidth);
    page := PdfPage(setup.width, setup.height, out.log);
    failure := if out.error.Some? then Some(Failure(i + 1, out.error.value)) else None;
  }

  /** The title of drawPageToPdf. */
  method DrawTitle(fonts: Fonts.FontTable, setup: Setup, odd: bool, vspacing: real, load: string -> string,
                   textWidth: TextWidth)
    returns (header: Header)
    requires fonts.Valid()
    modifies fonts.fontFileMap
    ensures fonts.Valid()
    ensures header == Title(setup, odd, vspacing, fonts.fontMap[..], old(fonts.fontFileMap[..]), load, textWidth)
    ensures fonts.fontFileMap[..] == header.files
  {
    var ypos := setup.height - MarginsFor(setup, odd).top;
    if setup.title.None? {
      return Header([], ypos, fonts.fontFileMap[..], None);
    }
    var title := setup.title.value;
    var font, loaded := fonts.GetFont(title.findex, load);
    if font.NoFont? {
      return Header([], ypos, fonts.fontFileMap[..], Some(font.error));
    }
    var log, y := DrawTitleText(setup, odd, vspacing, title, font.request, textWidth);
    header := Header(log, y, fonts.fontFileMap[..], None);
  }

  /** The title of drawPageToPdf once its font was had. */
  method DrawTitleText(setup: Setup, odd: bool, vspacing: real, title: FormattedText, req: Fonts.FontRequest,
                       textWidth: TextWidth)
    returns (log: seq<Draw>, ypos: real)
    ensures (log, ypos) == TitleText(setup, odd, vspacing, title, req, textWidth)
  {
    var centre := PageCentre(setup, odd);
    ypos := setup.height - MarginsFor(setup, odd).top - setup.vspace;
    assert ypos == TitleTop(setup, odd);
    var lines;
    lines, ypos := DrawTitleLines(title.lines, MeasureWith(textWidth, req, title.fsize), centre, ypos, title.fsize);
    log := [SetFont(req, title.fsize)] + lines;
    ypos := ypos - vspacing;
  }

  /** The body of the item loop: a text or a row of stamps drawn with its font. */
  method DrawItem(fonts: Fonts.FontTable, item: PageItem, textWidth: TextWidth, load: string -> string,
                  xpos: real, ypos: real, drawWidth: real, pageWidth: real, hspacing: real, vspacing: real)
    returns (d: Drawn, font: Fonts.FontResult)
    requires fonts.Valid()
    modifies fonts.fontFileMap
    ensures fonts.Valid()
    ensures (font, fonts.fontFileMap[..]) == Fonts.FontLookup(fonts.fontMap[..], old(fonts.fontFileMap[..]), ItemFont(item), load)
    ensures d == RenderItem(item, font, textWidth, xpos, ypos, drawWidth, pageWidth, hspacing, vspacing)
  {
    match item
    case TextItem(ft) =>
      d, font := DrawText(fonts, ft, textWidth, load, xpos, ypos, drawWidth, vspacing);
    case RowItem(row) =>
      d, font := StampRows.DrawRow(fonts, row, textWidth, load, xpos, ypos, drawWidth, pageWidth, hspacing, vspacing);
  }

  /** The item loop of generatePdf for one page. */
  method DrawItems(fonts: Fonts.FontTable, items: seq<PageItem>, textWidth: TextWidth, load: string -> string,
                   xpos: real, ypos: real, drawWidth: real, pageWidth: real, hspacing: real, vspacing: real)
    returns (p: Progress)
    requires fonts.Valid()
    modifies fonts.fontFileMap
    ensures fonts.Valid()
    ensures p == ItemsFrom(items, 0, fonts.fontMap[..], old(fonts.fontFileMap[..]), load, textWidth, xpos, ypos,
                           drawWidth, pageWidth, hspacing, vspacing)
    ensures fonts.fontFileMap[..] == p.files
  {
    ghost var fm := fonts.fontMap[..];
    ghost var rest := ItemsFrom(items, 0, fm, fonts.fontFileMap[..], load, textWidth, xpos, ypos, drawWidth,
                                pageWidth, hspacing, vspacing);
    ghost var all := rest;
    var log := [];
    var y := ypos;
    for j := 0 to |items|
      invariant fonts.Valid() && fonts.fontMap[..] == fm
      invariant rest == ItemsFrom(items, j, fm, fonts.fontFileMap[..], load, textWidth, xpos, y, drawWidth,
                                  pageWidth, hspacing, vspacing)
      invariant log + rest.log == all.log && rest.ypos == all.ypos && rest.files == all.files
                && rest.error == all.error
    {
      if y > 0.0 {
        var d, font := DrawItem(fonts, items[j], textWidth, load, xpos, y, drawWidth, pageWidth, hspacing, vspacing);
        if font.NoFont? {
          assert rest.log == [];
          assert log + [] == log;
          return Progress(log, y, fonts.fontFileMap[..], Some(font.error));
        }
        rest := ItemsFrom(items, j + 1, fm, fonts.fontFileMap[..], load, textWidth, xpos, d.ypos, drawWidth,
                          pageWidth, hspacing, vspacing);
        AppendAssoc(log, d.log, rest.log);
        log, y := log + d.log, d.ypos;
      } else {
        rest := ItemsFrom(items, j + 1, fm, fonts.fontFileMap[..], load, textWidth, xpos, y, drawWidth,
                          pageWidth, hspacing, vspacing);
      }
    }
    assert log + [] == log;
    p := Progress(log, y, fonts.fontFileMap[..], None);
  }

  /** One page of generatePdf: the spacing, the border and title, then the items. */
  method DrawPage(fonts: Fonts.FontTable, setup: Setup, page: Page, pageno: int, load: string -> string,
                  textWidth: TextWidth)
    returns (out: PageOut)
    requires fonts.Valid()
    modifies fonts.fontFileMap
    ensures fonts.Valid()
    ensures out == RenderPage(setup, page, pageno, fonts.fontMap[..], old(fonts.fontFileMap[..]), load, textWidth)
    ensures fonts.fontFileMap[..] == out.files
  {
    var odd := pageno % 2 != 0;
    var hspacing, vspacing := setup.hspace, setup.vspace;
    if page.tmpHspace >= 0.0 && page.tmpVspace >= 0.0 {
      hspacing, vspacing := page.tmpHspace, page.tmpVspace;
    }
    assert (hspacing, vspacing) == PageSpacing(setup, page);
    var header := DrawPageHeader(fonts, setup, odd, vspacing, load, textWidth);
    if header.error.Some? {
      return PageOut(header.log, header.files, header.error);
    }
    var area := DrawArea(setup, hspacing, odd);
    var items := DrawItems(fonts, page.items, textWidth, load, area.0, header.ypos, area.1, setup.width,
                           hspacing, vspacing);
    out := PageOut(header.log + items.log, items.files, items.error);
  }

  /** CAlbumData::generatePdf: the settings checked, then the pages drawn one after the other
      until a font cannot be had. */
  method GeneratePdf(album: AlbumData, textWidth: TextWidth, load: string -> string) returns (pdf: Pdf)
    requires album.Valid()
    modifies album.fonts.fontFileMap
    ensures album.Valid()
    ensures (pdf, album.fonts.fontFileMap[..])
            == Generate(album.sizeSet, album.mrgSet, album.spacingSet, SetupOf(album), album.pages,
                        album.fonts.fontMap[..], old(album.fonts.fontFileMap[..]), load, textWidth)
  {
    var missing := MissingSettings(album.sizeSet, album.mrgSet, album.spacingSet);
    if |missing| > 0 {
      return Missing(missing);
    }
    pdf := DrawPages(album.fonts, SetupOf(album), album.pages, load, textWidth);
  }

  /** generatePdf's page loop: the document, or the failure of the first page that fails. */
  method DrawPages(fonts: Fonts.FontTable, setup: Setup, pages: seq<Page>, load: string -> string,
                   textWidth: TextWidth)
    returns (pdf: Pdf)
    requires fonts.Valid()
    modifies fonts.fontFileMap
    ensures fonts.Valid()
    ensures var run := PagesFrom(setup, pages, 0, fonts.fontMap[..], old(fonts.fontFileMap[..]), load, textWidth);
            && fonts.fontFileMap[..] == run.files
            && pdf == if run.failure.Some? then FontFailure(run.failure.value) else Document(run.pages)
  {
    ghost var fm := fonts.fontMap[..];
    ghost var all := PagesFrom(setup, pages, 0, fm, fonts.fontFileMap[..], load, textWidth);
    ghost var rest := all;
    var done: seq<PdfPage> := [];
    for i := 0 to |pages|
      invariant fonts.Valid() && fonts.fontMap[..] == fm
      invariant rest == PagesFrom(setup, pages, i, fm, fonts.fontFileMap[..], load, textWidth)
      invariant done + rest.pages == all.pages && rest.files == all.files && rest.failure == all.failure
    {
      var page, failure := DrawNextPage(fonts, setup, pages, i, load, textWidth);
      if failure.Some? {
        return FontFailure(failure.value);
      }
      rest := PagesFrom(setup, pages, i + 1, fm, fonts.fontFileMap[..], load, textWidth);
      AppendAssoc(done, [page], rest.pages);
      done := done + [page];
    }
    assert done + [] == done;
    pdf := Document(done);
  }
}
