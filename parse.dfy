/** The album source parser (CParser): the line loop with its continuations, the command table,
    the handlers that read each command's parameters, and the album builders they call. */
module Parse {
  import opened Text
  import opened Album
  import opened Scan
  import Fonts

  // ---------------------------------------------------------------------------------------
  // The command table (commandMap).
  // ---------------------------------------------------------------------------------------

  /** The handler a command keyword is mapped to. */
  datatype Processor =
    | PageSizeCmd | PageMarginsCmd | PageBorderCmd | PageSpacingCmd | PageTitleCmd | DefineFontCmd
    | PageStartCmd | PageTextCmd | RowAlignCmd | RowStartCmd | StampAddCmd

  /** Every keyword of the language with its handler, in table order. */
  const Commands: seq<(string, Processor)> := [
    ("ALBUM_PAGES_SIZE", PageSizeCmd),
    ("ALBUM_PAGES_MARGINS", PageMarginsCmd),
    ("ALBUM_PAGES_MARGINSE", PageMarginsCmd),
    ("ALBUM_PAGES_BORDER", PageBorderCmd),
    ("ALBUM_PAGES_SPACING", PageSpacingCmd),
    ("ALBUM_PAGES_TITLE", PageTitleCmd),
    ("ALBUM_DEFINE_FONT", DefineFontCmd),
    ("PAGE_START", PageStartCmd),
    ("PAGE_START_VAR", PageStartCmd),
    ("PAGE_TEXT", PageTextCmd),
    ("PAGE_TEXT_CENTRE", PageTextCmd),
    ("ROW_ALIGN_TOP", RowAlignCmd),
    ("ROW_ALIGN_MIDDLE", RowAlignCmd),
    ("ROW_ALIGN_BOTTOM", RowAlignCmd),
    ("ROW_START_ES", RowStartCmd),
    ("ROW_START_JS", RowStartCmd),
    ("ROW_START_FS", RowStartCmd),
    ("STAMP_ADD", StampAddCmd),
    ("STAMP_ADDX", StampAddCmd),
    ("STAMP_ADD_BLANK", StampAddCmd),
    ("STAMP_ADD_TRIANGLE", StampAddCmd),
    ("STAMP_ADD_TRIANGLE_INV", StampAddCmd),
    ("STAMP_ADD_DIAMOND", StampAddCmd)
  ]

  /** The handler of the first table entry whose keyword is exactly the command. */
  function Lookup(cmnd: string): Option<Processor>
  {
    var k := FirstIndex(Commands, (e: (string, Processor)) => e.0 == cmnd);
    if k < 0 then None else Some(Commands[k].1)
  }

  /** A keyword found has a table entry with that handler; one not found has no entry. */
  lemma LookupMeaning(cmnd: string)
    ensures Lookup(cmnd).Some? ==> exists k :: 0 <= k < |Commands| && Commands[k] == (cmnd, Lookup(cmnd).value)
    ensures Lookup(cmnd).None? ==> forall k :: 0 <= k < |Commands| ==> Commands[k].0 != cmnd
  {
    var k := FirstIndex(Commands, (e: (string, Processor)) => e.0 == cmnd);
    if k >= 0 {
      assert Commands[k] == (cmnd, Lookup(cmnd).value);
    }
  }

  /** The table search of processCommand. */
  method LookupCommand(cmnd: string) returns (r: Option<Processor>)
    ensures r == Lookup(cmnd)
  {
    ghost var p := (e: (string, Processor)) => e.0 == cmnd;
    var i := 0;
    while i < |Commands|
      invariant 0 <= i <= |Commands|
      invariant forall j :: 0 <= j < i ==> !p(Commands[j])
    {
      if Commands[i].0 == cmnd {
        assert FirstIndex(Commands, p) == i;
        return Some(Commands[i].1);
      }
      i := i + 1;
    }
    r := None;
  }

  // ---------------------------------------------------------------------------------------
  // The album as the parser sees it.
  // ---------------------------------------------------------------------------------------

  /** The fields of CAlbumData, as one value. */
  datatype AlbumState = AlbumState(
    sizeSet: bool, width: real, height: real,
    mrgSet: bool, oddMargins: Margins, evenMargins: Margins,
    hasBorders: bool, outerBorder: real, innerBorder: real, borderSpacing: real,
    spacingSet: bool, hspace: real, vspace: real,
    rowAlign: RowAlign, title: Option<FormattedText>, pages: seq<Page>, activePage: int)
  {
    /** The active page is the last one, and every page is well formed. */
    predicate WellFormed()
    {
      && activePage == |pages| - 1
      && forall k :: 0 <= k < |pages| ==> pages[k].Valid()
    }

    /** hasPage. */
    predicate HasPage()
    {
      activePage >= 0
    }

    /** hasRow: the active page has an active row. */
    predicate HasRow()
    {
      0 <= activePage < |pages| && pages[activePage].activeRow >= 0
    }
  }

  /** The font tables. */
  datatype Tables = Tables(fonts: seq<Fonts.FontSlot>, files: seq<Fonts.FileSlot>)

  function StateOf(album: AlbumData): AlbumState
    reads album
  {
    AlbumState(album.sizeSet, album.width, album.height,
               album.mrgSet, album.oddMargins, album.evenMargins,
               album.hasBorders, album.outerBorder, album.innerBorder, album.borderSpacing,
               album.spacingSet, album.hspace, album.vspace,
               album.rowAlign, album.title, album.pages, album.activePage)
  }

  function TablesOf(fonts: Fonts.FontTable): Tables
    reads fonts, fonts.fontMap, fonts.fontFileMap
  {
    Tables(fonts.fontMap[..], fonts.fontFileMap[..])
  }

  /** A valid album is a well-formed state whose page and row tests are the album's own. */
  lemma StateOfValid(album: AlbumData)
    requires album.Valid()
    ensures StateOf(album).WellFormed()
    ensures StateOf(album).HasPage() == album.HasPage() && StateOf(album).HasRow() == album.HasRow()
  {
  }

  /** reset, on the state: the set-flags cleared, top alignment, no title and no pages; the
      values of the settings stay. */
  function ResetState(a: AlbumState): (r: AlbumState)
    ensures r.WellFormed() && !r.HasPage() && !r.HasRow()
  {
    a.(sizeSet := false, mrgSet := false, hasBorders := false, spacingSet := false,
       rowAlign := AlignTop, title := None, pages := [], activePage := -1)
  }

  // ---------------------------------------------------------------------------------------
  // The builder calls a command makes.
  // ---------------------------------------------------------------------------------------

  /** A builder call on the album, with the values read from the parameters. */
  datatype Call =
    | SizeCall(width: real, height: real)
    | MarginsCall(left: real, right: real, top: real, bottom: real, odd: bool)
    | BorderCall(outer: real, inner: real, spacing: real)
    | SpacingCall(hspace: real, vspace: real)
    | TitleCall(findex: int, fsize: Fonts.FontSize, text: string)
    | FontCall(fontId: string, fontName: string, encoding: string)
    | PageCall(hspace: real, vspace: real)
    | TextCall(findex: int, fsize: Fonts.FontSize, text: string, centre: bool)
    | AlignCall(align: RowAlign)
    | RowCall(findex: int, fsize: Fonts.FontSize, lineWidth: real, rowStyle: RowStyle, spacing: real)
    | StampCall(stampStyle: StampStyle, width: real, height: real, texts: seq<string>)

  datatype Performed = Performed(album: AlbumState, tables: Tables, error: Option<Fonts.FontError>)

  /** The builder call on the state and the font tables, as the CAlbumData and CFontManager
      methods make it: a font definition goes to the registry, every other call to the album. */
  function Perform(a: AlbumState, t: Tables, available: seq<Fonts.FontFileInfo>, call: Call): (r: Performed)
    requires a.WellFormed()
    ensures r.album.WellFormed()
  {
    if call.FontCall? then
      var reg := Fonts.AddFont(t.fonts, t.files, available, call.fontId, call.fontName, call.encoding);
      Performed(a, Tables(reg.fonts, reg.files), reg.error)
    else Performed(Build(a, call), t, None)
  }

  /** The album builder a call stands for, on the state. */
  function Build(a: AlbumState, call: Call): (r: AlbumState)
    requires a.WellFormed()
    ensures r.WellFormed()
  {
    match call
    case SizeCall(w, h) =>
      a.(width := w * DotsPerMm, height := h * DotsPerMm, sizeSet := true)
    case MarginsCall(l, rt, tp, b, odd) =>
      var m := Margins(l * DotsPerMm, rt * DotsPerMm, tp * DotsPerMm, b * DotsPerMm);
      if odd then a.(oddMargins := m, evenMargins := m, mrgSet := true) else a.(evenMargins := m)
    case BorderCall(outer, inner, spacing) =>
      a.(outerBorder := outer * DotsPerMm, innerBorder := inner * DotsPerMm,
         borderSpacing := spacing * DotsPerMm, hasBorders := true)
    case SpacingCall(h, v) =>
      a.(hspace := h * DotsPerMm, vspace := v * DotsPerMm, spacingSet := true)
    case TitleCall(findex, fsize, text) =>
      a.(title := Some(FormattedText(findex, fsize, true, FormatLines(text, true))))
    case FontCall(_, _, _) => a
    case PageCall(h, v) => PageStarted(a, h, v)
    case TextCall(findex, fsize, text, centre) =>
      TextAdded(a, FormattedText(findex, fsize, centre, FormatLines(text, true)))
    case AlignCall(align) => a.(rowAlign := align)
    case RowCall(findex, fsize, lineWidth, style, spacing) =>
      RowAdded(a, NewStampRow(findex, fsize, lineWidth, style, spacing, a.rowAlign))
    case StampCall(style, w, h, texts) => StampAdded(a, style, w, h, texts)
  }

  /** startNewPage on the state. */
  function PageStarted(a: AlbumState, h: real, v: real): (r: AlbumState)
    requires a.WellFormed()
    ensures r.WellFormed()
  {
    a.(pages := a.pages + [NewPage(h, v)], activePage := |a.pages|)
  }

  /** addPageTextToPage on the state. */
  function TextAdded(a: AlbumState, ft: FormattedText): (r: AlbumState)
    requires a.WellFormed()
    ensures r.WellFormed()
  {
    if a.HasPage() then
      var page := a.pages[a.activePage];
      AddPageTextKeepsPage(page, ft);
      a.(pages := a.pages[a.activePage := AddPageText(page, ft)])
    else a
  }

  /** addStampRowToPage on the state. */
  function RowAdded(a: AlbumState, row: StampRow): (r: AlbumState)
    requires a.WellFormed() && row.Valid()
    ensures r.WellFormed()
  {
    if a.HasPage() then
      var page := a.pages[a.activePage];
      AddRowKeepsPage(page, row);
      a.(pages := a.pages[a.activePage := AddRow(page, row)])
    else a
  }

  /** addStampToRow on the state. */
  function StampAdded(a: AlbumState, style: StampStyle, w: real, h: real, texts: seq<string>): (r: AlbumState)
    requires a.WellFormed()
    ensures r.WellFormed()
  {
    if a.HasRow() then
      var page := a.pages[a.activePage];
      AddStampKeepsPage(page, style, w, h, texts);
      a.(pages := a.pages[a.activePage := AddStampToActiveRow(page, style, w, h, texts)])
    else a
  }

  /** A builder call made on the album, with the album's and the registry's own methods. */
  method Apply(album: AlbumData, available: seq<Fonts.FontFileInfo>, call: Call) returns (error: Option<Fonts.FontError>)
    requires album.Valid() && (call.StampCall? ==> |call.texts| == 9)
    modifies album, album.fonts.fontMap, album.fonts.fontFileMap
    ensures album.Valid()
    ensures var r := Perform(old(StateOf(album)), old(TablesOf(album.fonts)), available, call);
            StateOf(album) == r.album && TablesOf(album.fonts) == r.tables && error == r.error
  {
    StateOfValid(album);
    if call.FontCall? {
      error := album.fonts.AddUserDefinedFont(available, call.fontId, call.fontName, call.encoding);
    } else {
      ApplyBuild(album, call);
      error := None;
    }
  }

  /** An album builder call. */
  method ApplyBuild(album: AlbumData, call: Call)
    requires album.Valid() && StateOf(album).WellFormed() && !call.FontCall?
    requires call.StampCall? ==> |call.texts| == 9
    modifies album
    ensures album.Valid()
    ensures StateOf(album) == Build(old(StateOf(album)), call)
  {
    if call.PageCall? || call.TextCall? {
      ApplyPageBuild(album, call);
    } else if call.RowCall? || call.StampCall? {
      ApplyRowBuild(album, call);
    } else if call.SizeCall? || call.MarginsCall? || call.BorderCall? {
      ApplyPageSetting(album, call);
    } else {
      ApplySetting(album, call);
    }
  }

  /** A builder call that sets the page size, the margins or the borders. */
  method ApplyPageSetting(album: AlbumData, call: Call)
    requires album.Valid() && StateOf(album).WellFormed()
    requires call.SizeCall? || call.MarginsCall? || call.BorderCall?
    modifies album
    ensures album.Valid()
    ensures StateOf(album) == Build(old(StateOf(album)), call)
  {
    match call {
      case SizeCall(w, h) =>
        album.SetPageSize(w, h);
      case MarginsCall(l, rt, tp, b, odd) =>
        album.SetMargins(l, rt, tp, b, odd);
      case BorderCall(outer, inner, spacing) =>
        album.SetBorder(outer, inner, spacing);
    }
  }

  /** A builder call that sets the spacing, the title or the row alignment. */
  method ApplySetting(album: AlbumData, call: Call)
    requires album.Valid() && StateOf(album).WellFormed()
    requires call.SpacingCall? || call.TitleCall? || call.AlignCall?
    modifies album
    ensures album.Valid()
    ensures StateOf(album) == Build(old(StateOf(album)), call)
  {
    match call {
      case SpacingCall(h, v) =>
        album.SetSpacing(h, v);
      case TitleCall(findex, fsize, text) =>
        album.SetTitle(findex, fsize, text);
      case AlignCall(align) =>
        album.SetRowAlignment(align);
    }
  }

  /** A builder call that starts a page or adds text to it. */
  method ApplyPageBuild(album: AlbumData, call: Call)
    requires album.Valid() && StateOf(album).WellFormed()
    requires call.PageCall? || call.TextCall?
    modifies album
    ensures album.Valid()
    ensures StateOf(album) == Build(old(StateOf(album)), call)
  {
    match call {
      case PageCall(h, v) =>
        album.StartNewPage(h, v);
      case TextCall(findex, fsize, text, centre) =>
        album.AddPageTextToPage(findex, fsize, text, centre);
    }
  }

  /** A builder call that adds a row to the active page, or a stamp to its active row. */
  method ApplyRowBuild(album: AlbumData, call: Call)
    requires album.Valid() && StateOf(album).WellFormed()
    requires call.RowCall? || call.StampCall?
    requires call.StampCall? ==> |call.texts| == 9
    modifies album
    ensures album.Valid()
    ensures StateOf(album) == Build(old(StateOf(album)), call)
  {
    match call {
      case RowCall(findex, fsize, lineWidth, style, spacing) =>
        album.AddStampRowToPage(findex, fsize, lineWidth, style, spacing);
      case StampCall(style, w, h, texts) =>
        album.AddStampToRow(style, w, h, texts);
    }
  }

  // ---------------------------------------------------------------------------------------
  // The handlers (process*Command), as the builder call they lead to or the error they
  // report; the checks come in the handlers' own order.
  // ---------------------------------------------------------------------------------------

  /** processPageSizeCommand: two numbers. */
  function PageSize(parms: string): (r: Result<Call>)
    ensures r.Ok? <==> |Doubles(parms, 2).0| == 2
    ensures r.Ok? ==> r.value == SizeCall(Doubles(parms, 2).0[0], Doubles(parms, 2).0[1])
    ensures r.Err? ==> r.error == WrongParameters
  {
    var d := Doubles(parms, 2);
    if |d.0| != 2 then Err(WrongParameters) else Ok(SizeCall(d.0[0], d.0[1]))
  }

  /** processPageMarginsCommand: four numbers; ALBUM_PAGES_MARGINSE sets the even pages only. */
  function PageMargins(cmnd: string, parms: string): (r: Result<Call>)
    ensures r.Ok? <==> |Doubles(parms, 4).0| == 4
    ensures r.Ok? ==> r.value.MarginsCall? && (r.value.odd <==> cmnd != "ALBUM_PAGES_MARGINSE")
    ensures r.Ok? ==> var d := Doubles(parms, 4).0;
                      r.value == MarginsCall(d[0], d[1], d[2], d[3], cmnd != "ALBUM_PAGES_MARGINSE")
    ensures r.Err? ==> r.error == WrongParameters
  {
    var d := Doubles(parms, 4);
    if |d.0| != 4 then Err(WrongParameters)
    else Ok(MarginsCall(d.0[0], d.0[1], d.0[2], d.0[3], cmnd != "ALBUM_PAGES_MARGINSE"))
  }

  /** processPageBorderCommand: three numbers. */
  function PageBorder(parms: string): (r: Result<Call>)
    ensures r.Ok? <==> |Doubles(parms, 3).0| == 3
    ensures r.Ok? ==> r.value.BorderCall?
    ensures r.Ok? ==> var d := Doubles(parms, 3).0; r.value == BorderCall(d[0], d[1], d[2])
    ensures r.Err? ==> r.error == WrongParameters
  {
    var d := Doubles(parms, 3);
    if |d.0| != 3 then Err(WrongParameters) else Ok(BorderCall(d.0[0], d.0[1], d.0[2]))
  }

  /** processPageSpacingCommand: two numbers. */
  function PageSpacing(parms: string): (r: Result<Call>)
    ensures r.Ok? <==> |Doubles(parms, 2).0| == 2
    ensures r.Ok? ==> r.value.SpacingCall?
    ensures r.Ok? ==> var d := Doubles(parms, 2).0; r.value == SpacingCall(d[0], d[1])
    ensures r.Err? ==> r.error == WrongParameters
  {
    var d := Doubles(parms, 2);
    if |d.0| != 2 then Err(WrongParameters) else Ok(SpacingCall(d.0[0], d.0[1]))
  }

  /** processPageTitleCommand: a font, then the title in quotes. */
  function PageTitle(parms: string, fonts: seq<Fonts.FontSlot>): (r: Result<Call>)
    ensures r.Ok? <==> FontParams(parms, fonts).Ok? && TextField(FontParams(parms, fonts).value.2).Ok?
    ensures FontParams(parms, fonts).Err? ==> r == Err(FontParams(parms, fonts).error)
    ensures FontParams(parms, fonts).Ok? && TextField(FontParams(parms, fonts).value.2).Err? ==> r == Err(QuotedTextExpected)
    ensures r.Ok? ==> r.value.TitleCall? && FontParams(parms, fonts).Ok?
    ensures r.Ok? ==> (r.value.findex, r.value.fsize) == (FontParams(parms, fonts).value.0, FontParams(parms, fonts).value.1)
    ensures r.Ok? ==> r.value.text == TextField(FontParams(parms, fonts).value.2).value.0
  {
    match FontParams(parms, fonts)
    case Err(e) => Err(e)
    case Ok(f) =>
      match TextField(f.2)
      case Err(e) => Err(e)
      case Ok(t) => Ok(TitleCall(f.0, f.1, t.0))
  }

  /** processDefineFontCommand: an identifier (upper-cased), the font name in quotes and an
      optional encoding; both of the first two must be there, and the identifier must be 2 to
      8 characters long. */
  function DefineFont(parms: string): (r: Result<Call>)
    ensures r.Ok? ==> r.value.FontCall? && 2 <= |r.value.fontId| <= 8 && r.value.fontName != []
    ensures r.Ok? ==> r.value.fontId == Upper(Field(parms).0)
    ensures TextField(Field(parms).1).Err? ==> r == Err(QuotedTextExpected)
    ensures var id := Field(parms).0;
            TextField(Field(parms).1).Ok? ==>
              var name := TextField(Field(parms).1).value;
              && (id == [] || name.0 == [] ==> r == Err(WrongParameters))
              && (id != [] && name.0 != [] && !(2 <= |id| <= 8) ==> r == Err(BadFontIdentifier))
              && (name.0 != [] && 2 <= |id| <= 8 ==> r == Ok(FontCall(Upper(id), name.0, Field(name.1).0)))
  {
    var id := Field(parms);
    match TextField(id.1)
    case Err(e) => Err(e)
    case Ok(name) =>
      var fontId := Upper(id.0);
      if fontId == [] || name.0 == [] then Err(WrongParameters)
      else if |fontId| < 2 || |fontId| > 8 then Err(BadFontIdentifier)
      else Ok(FontCall(fontId, name.0, Field(name.1).0))
  }

  /** processPageStartCommand: PAGE_START takes nothing and keeps the album spacing; PAGE_START_VAR
      takes the page's own spacing. */
  function PageStart(cmnd: string, parms: string): (r: Result<Call>)
    ensures r.Ok? ==> r.value.PageCall?
    ensures cmnd == "PAGE_START" ==> (r.Ok? <==> parms == []) && (r.Ok? ==> r.value == PageCall(-1.0, -1.0))
    ensures cmnd != "PAGE_START" ==> (r.Ok? <==> |Doubles(parms, 2).0| == 2) && (r.Err? ==> r.error == WrongParameters)
    ensures cmnd != "PAGE_START" && r.Ok? ==> r.value == PageCall(Doubles(parms, 2).0[0], Doubles(parms, 2).0[1])
  {
    if cmnd == "PAGE_START" then
      if parms != [] then Err(UnexpectedParameters) else Ok(PageCall(-1.0, -1.0))
    else
      var d := Doubles(parms, 2);
      if |d.0| != 2 then Err(WrongParameters) else Ok(PageCall(d.0[0], d.0[1]))
  }

  /** processPageTextCommand: a font, then the text in quotes, then a page to put it on;
      PAGE_TEXT_CENTRE centres it. */
  function PageText(cmnd: string, parms: string, fonts: seq<Fonts.FontSlot>, hasPage: bool): (r: Result<Call>)
    ensures r.Ok? <==> hasPage && FontParams(parms, fonts).Ok? && TextField(FontParams(parms, fonts).value.2).Ok?
    ensures FontParams(parms, fonts).Err? ==> r == Err(FontParams(parms, fonts).error)
    ensures FontParams(parms, fonts).Ok? && TextField(FontParams(parms, fonts).value.2).Err? ==> r == Err(QuotedTextExpected)
    ensures r == Err(NoPage) <==> !hasPage && FontParams(parms, fonts).Ok? && TextField(FontParams(parms, fonts).value.2).Ok?
    ensures r.Ok? ==> r.value.TextCall? && (r.value.centre <==> cmnd == "PAGE_TEXT_CENTRE")
    ensures r.Ok? ==> var f := FontParams(parms, fonts).value;
                      (r.value.findex, r.value.fsize, r.value.text) == (f.0, f.1, TextField(f.2).value.0)
  {
    match FontParams(parms, fonts)
    case Err(e) => Err(e)
    case Ok(f) =>
      match TextField(f.2)
      case Err(e) => Err(e)
      case Ok(t) =>
        if !hasPage then Err(NoPage) else Ok(TextCall(f.0, f.1, t.0, cmnd == "PAGE_TEXT_CENTRE"))
  }

  /** processRowAlignCommand: no parameters; the alignment named by the command. */
  function RowAlignment(cmnd: string, parms: string): (r: Result<Call>)
    ensures r.Ok? <==> parms == []
    ensures r.Ok? ==> r.value.AlignCall?
    ensures r.Ok? ==> r.value.align == (if cmnd == "ROW_ALIGN_TOP" then AlignTop
                                        else if cmnd == "ROW_ALIGN_MIDDLE" then AlignMiddle
                                        else AlignBottom)
    ensures r.Err? ==> r.error == UnexpectedParameters
  {
    if parms != [] then Err(UnexpectedParameters)
    else Ok(AlignCall(if cmnd == "ROW_ALIGN_TOP" then AlignTop
                      else if cmnd == "ROW_ALIGN_MIDDLE" then AlignMiddle
                      else AlignBottom))
  }

  /** The row style a ROW_START command names. */
  function RowStyleOf(cmnd: string): RowStyle
  {
    if cmnd == "ROW_START_JS" then JustifyRow else if cmnd == "ROW_START_FS" then FixedRow else EqualRow
  }

  /** processRowStartCommand: a font, the frame line width, the spacing for a fixed-spacing row
      (0 for the others), then a page to put the row on. */
  function RowStart(cmnd: string, parms: string, fonts: seq<Fonts.FontSlot>, hasPage: bool): (r: Result<Call>)
    ensures r.Ok? ==> hasPage && r.value.RowCall? && r.value.rowStyle == RowStyleOf(cmnd)
    ensures r.Ok? && r.value.rowStyle != FixedRow ==> r.value.spacing == 0.0
    ensures FontParams(parms, fonts).Err? ==> r == Err(FontParams(parms, fonts).error)
    ensures FontParams(parms, fonts).Ok? ==>
              var border := Doubles(FontParams(parms, fonts).value.2, 1);
              var numbers := |border.0| == 1 && (RowStyleOf(cmnd) == FixedRow ==> |Doubles(border.1, 1).0| == 1);
              && (!numbers ==> r == Err(WrongParameters))
              && (numbers && !hasPage ==> r == Err(NoPage))
              && (numbers && hasPage ==> r.Ok? && r.value.lineWidth == border.0[0])
              && (numbers && hasPage && RowStyleOf(cmnd) == FixedRow ==> r.Ok? && r.value.spacing == Doubles(border.1, 1).0[0])
  {
    var style := RowStyleOf(cmnd);
    match FontParams(parms, fonts)
    case Err(e) => Err(e)
    case Ok(f) =>
      var border := Doubles(f.2, 1);
      var spacing := Doubles(border.1, 1);
      if |border.0| != 1 then Err(WrongParameters)
      else if style == FixedRow && |spacing.0| != 1 then Err(WrongParameters)
      else if !hasPage then Err(NoPage)
      else Ok(RowCall(f.0, f.1, border.0[0], style, if style == FixedRow then spacing.0[0] else 0.0))
  }

  /** The number of quoted texts a STAMP_ADD command reads. */
  function TextCount(cmnd: string): nat
  {
    if cmnd == "STAMP_ADD_BLANK" then 0 else if cmnd == "STAMP_ADDX" then 9 else 6
  }

  /** The stamp style a STAMP_ADD command names. */
  function StampStyleOf(cmnd: string): StampStyle
  {
    if cmnd == "STAMP_ADD" then Block
    else if cmnd == "STAMP_ADDX" then BlockX
    else if cmnd == "STAMP_ADD_TRIANGLE" then Triangle
    else if cmnd == "STAMP_ADD_TRIANGLE_INV" then TriangleInv
    else if cmnd == "STAMP_ADD_DIAMOND" then Diamond
    else Blank
  }

  /** n quoted texts in a row, stopping at the first that is not quoted. */
  function TextFields(parms: string, n: nat): (r: Result<seq<string>>)
    ensures r.Ok? ==> |r.value| == n
    ensures r.Err? ==> r.error == QuotedTextExpected
    decreases n
  {
    if n == 0 then Ok([])
    else
      match TextField(parms)
      case Err(e) => Err(e)
      case Ok(f) =>
        match TextFields(f.1, n - 1)
        case Err(e) => Err(e)
        case Ok(ts) => Ok([f.0] + ts)
  }

  /** The nine stamp texts: those read, unescaped, and empty ones after them. */
  function StampTexts(found: seq<string>): (r: seq<string>)
    ensures |r| == 9
  {
    seq(9, i requires 0 <= i < 9 => if i < |found| then Unescape(found[i]) else [])
  }

  /** processStampAddCommand: a row to put the stamp in, its width and height, then its quoted
      texts. */
  function StampAdd(cmnd: string, parms: string, hasRow: bool): (r: Result<Call>)
    ensures r.Ok? <==> hasRow && |Doubles(parms, 2).0| == 2 && TextFields(Doubles(parms, 2).1, TextCount(cmnd)).Ok?
    ensures !hasRow ==> r == Err(NoRow)
    ensures hasRow && |Doubles(parms, 2).0| != 2 ==> r == Err(WrongParameters)
    ensures hasRow && |Doubles(parms, 2).0| == 2 && TextFields(Doubles(parms, 2).1, TextCount(cmnd)).Err? ==>
              r == Err(QuotedTextExpected)
    ensures r.Ok? ==> var d := Doubles(parms, 2);
                      && r.value.StampCall? && (r.value.width, r.value.height) == (d.0[0], d.0[1])
                      && r.value.texts == StampTexts(TextFields(d.1, TextCount(cmnd)).value)
    ensures r.Ok? ==> r.value.StampCall? && |r.value.texts| == 9 && r.value.stampStyle == StampStyleOf(cmnd)
    ensures r.Ok? ==> forall i :: TextCount(cmnd) <= i < 9 ==> r.value.texts[i] == []
  {
    if !hasRow then Err(NoRow)
    else
      var d := Doubles(parms, 2);
      if |d.0| != 2 then Err(WrongParameters)
      else
        match TextFields(d.1, TextCount(cmnd))
        case Err(e) => Err(e)
        case Ok(found) => Ok(StampCall(StampStyleOf(cmnd), d.0[0], d.0[1], StampTexts(found)))
  }

  /** The handler a processor stands for. */
  function Handle(p: Processor, cmnd: string, parms: string, a: AlbumState, fonts: seq<Fonts.FontSlot>): (r: Result<Call>)
    ensures r.Ok? && r.value.StampCall? ==> p == StampAddCmd && |r.value.texts| == 9
  {
    match p
    case PageSizeCmd => PageSize(parms)
    case PageMarginsCmd => PageMargins(cmnd, parms)
    case PageBorderCmd => PageBorder(parms)
    case PageSpacingCmd => PageSpacing(parms)
    case PageTitleCmd => PageTitle(parms, fonts)
    case DefineFontCmd => DefineFont(parms)
    case PageStartCmd => PageStart(cmnd, parms)
    case PageTextCmd => PageText(cmnd, parms, fonts, a.HasPage())
    case RowAlignCmd => RowAlignment(cmnd, parms)
    case RowStartCmd => RowStart(cmnd, parms, fonts, a.HasPage())
    case StampAddCmd => StampAdd(cmnd, parms, a.HasRow())
  }

  /** processCommand: the upper-cased command looked up and handled. */
  function Command(cmnd: string, parms: string, a: AlbumState, fonts: seq<Fonts.FontSlot>): (r: Result<Call>)
    ensures r.Ok? && r.value.StampCall? ==> |r.value.texts| == 9
    ensures Lookup(Upper(cmnd)).None? <==> r == Err(UnrecognisedCommand)
  {
    var name := Upper(cmnd);
    match Lookup(name)
    case None => Err(UnrecognisedCommand)
    case Some(p) => HandleIsRecognised(p, name, parms, a, fonts); Handle(p, name, parms, a, fonts)
  }

  /** No handler reports an unrecognised command: that error belongs to the lookup alone. */
  lemma HandleIsRecognised(p: Processor, cmnd: string, parms: string, a: AlbumState, fonts: seq<Fonts.FontSlot>)
    ensures Handle(p, cmnd, parms, a, fonts) != Err(UnrecognisedCommand)
  {
    match p
    case PageSizeCmd =>
    case PageMarginsCmd =>
    case PageBorderCmd =>
    case PageSpacingCmd =>
    case PageTitleCmd =>
    case DefineFontCmd =>
    case PageStartCmd =>
    case PageTextCmd =>
    case RowAlignCmd =>
    case RowStartCmd =>
    case StampAddCmd =>
  }

  /** The case of a command's letters does not matter. */
  lemma CommandIgnoresCase(cmnd: string, parms: string, a: AlbumState, fonts: seq<Fonts.FontSlot>)
    ensures Command(cmnd, parms, a, fonts) == Command(Upper(cmnd), parms, a, fonts)
  {
    assert Upper(Upper(cmnd)) == Upper(cmnd) by {
      forall i | 0 <= i < |cmnd|
        ensures Upper(Upper(cmnd))[i] == Upper(cmnd)[i]
      {
        UpperCharIdempotent(cmnd[i]);
      }
    }
  }

  lemma UpperCharIdempotent(c: char)
    ensures UpperChar(UpperChar(c)) == UpperChar(c)
  {
  }

  // ---------------------------------------------------------------------------------------
  // The handler methods.
  // ---------------------------------------------------------------------------------------

  method ProcessPageSize(parms: string) returns (r: Result<Call>)
    ensures r == PageSize(parms)
  {
    var vals, _ := ParseDoubles(parms, 2);
    if |vals| != 2 {
      return Err(WrongParameters);
    }
    r := Ok(SizeCall(vals[0], vals[1]));
  }

  method ProcessPageMargins(cmnd: string, parms: string) returns (r: Result<Call>)
    ensures r == PageMargins(cmnd, parms)
  {
    var vals, _ := ParseDoubles(parms, 4);
    if |vals| != 4 {
      return Err(WrongParameters);
    }
    var odd := true;
    if cmnd == "ALBUM_PAGES_MARGINSE" {
      odd := false;
    }
    r := Ok(MarginsCall(vals[0], vals[1], vals[2], vals[3], odd));
  }

  method ProcessPageBorder(parms: string) returns (r: Result<Call>)
    ensures r == PageBorder(parms)
  {
    var vals, _ := ParseDoubles(parms, 3);
    if |vals| != 3 {
      return Err(WrongParameters);
    }
    r := Ok(BorderCall(vals[0], vals[1], vals[2]));
  }

  method ProcessPageSpacing(parms: string) returns (r: Result<Call>)
    ensures r == PageSpacing(parms)
  {
    var vals, _ := ParseDoubles(parms, 2);
    if |vals| != 2 {
      return Err(WrongParameters);
    }
    r := Ok(SpacingCall(vals[0], vals[1]));
  }

  method ProcessPageTitle(fonts: Fonts.FontTable, parms: string) returns (r: Result<Call>)
    requires fonts.Valid()
    ensures r == PageTitle(parms, fonts.fontMap[..])
  {
    var f := ParseFontParameters(fonts, parms);
    if f.Err? {
      return Err(f.error);
    }
    var t := ParseTextField(f.value.2);
    if t.Err? {
      return Err(t.error);
    }
    r := Ok(TitleCall(f.value.0, f.value.1, t.value.0));
  }

  method ProcessDefineFont(parms: string) returns (r: Result<Call>)
    ensures r == DefineFont(parms)
  {
    var fontId, rest := ExtractField(parms, true);
    var name := ParseTextField(rest);
    if name.Err? {
      return Err(name.error);
    }
    var fontEncoding, _ := ExtractField(name.value.1);
    if |fontId| == 0 || |name.value.0| == 0 {
      return Err(WrongParameters);
    }
    if |fontId| < 2 || |fontId| > 8 {
      return Err(BadFontIdentifier);
    }
    r := Ok(FontCall(fontId, name.value.0, fontEncoding));
  }

  method ProcessPageStart(cmnd: string, parms: string) returns (r: Result<Call>)
    ensures r == PageStart(cmnd, parms)
  {
    if cmnd == "PAGE_START" {
      if |parms| > 0 {
        return Err(UnexpectedParameters);
      }
      return Ok(PageCall(-1.0, -1.0));
    }
    var vals, _ := ParseDoubles(parms, 2);
    if |vals| != 2 {
      return Err(WrongParameters);
    }
    r := Ok(PageCall(vals[0], vals[1]));
  }

  method ProcessPageText(album: AlbumData, cmnd: string, parms: string) returns (r: Result<Call>)
    requires album.Valid()
    ensures r == PageText(cmnd, parms, album.fonts.fontMap[..], album.HasPage())
  {
    var f := ParseFontParameters(album.fonts, parms);
    if f.Err? {
      return Err(f.error);
    }
    var t := ParseTextField(f.value.2);
    if t.Err? {
      return Err(t.error);
    }
    if !album.HasPage() {
      return Err(NoPage);
    }
    r := Ok(TextCall(f.value.0, f.value.1, t.value.0, cmnd == "PAGE_TEXT_CENTRE"));
  }

  method ProcessRowAlign(cmnd: string, parms: string) returns (r: Result<Call>)
    ensures r == RowAlignment(cmnd, parms)
  {
    if |parms| > 0 {
      return Err(UnexpectedParameters);
    }
    if cmnd == "ROW_ALIGN_TOP" {
      r := Ok(AlignCall(AlignTop));
    } else if cmnd == "ROW_ALIGN_MIDDLE" {
      r := Ok(AlignCall(AlignMiddle));
    } else {
      r := Ok(AlignCall(AlignBottom));
    }
  }

  method ProcessRowStart(album: AlbumData, cmnd: string, parms: string) returns (r: Result<Call>)
    requires album.Valid()
    ensures r == RowStart(cmnd, parms, album.fonts.fontMap[..], album.HasPage())
  {
    var style := EqualRow;
    if cmnd == "ROW_START_JS" {
      style := JustifyRow;
    } else if cmnd == "ROW_START_FS" {
      style := FixedRow;
    }
    var f := ParseFontParameters(album.fonts, parms);
    if f.Err? {
      return Err(f.error);
    }
    var border, rest := ParseDoubles(f.value.2, 1);
    if |border| != 1 {
      return Err(WrongParameters);
    }
    var spacing := 0.0;
    if style == FixedRow {
      var vals, _ := ParseDoubles(rest, 1);
      if |vals| != 1 {
        return Err(WrongParameters);
      }
      spacing := vals[0];
    }
    if !album.HasPage() {
      return Err(NoPage);
    }
    r := Ok(RowCall(f.value.0, f.value.1, border[0], style, spacing));
  }

  /** The quoted texts of a stamp, read one after the other until one is not quoted. */
  method ParseTextFields(parms: string, n: nat) returns (r: Result<seq<string>>)
    ensures r == TextFields(parms, n)
  {
    ghost var all := TextFields(parms, n);
    var found: seq<string> := [];
    var rest := parms;
    var left := n;
    PrefixedNothing(all);
    while left > 0
      invariant all == Prefixed(found, TextFields(rest, left))
    {
      var next := ReadText(found, rest, left);
      if next.Err? {
        return Err(next.error);
      }
      found, rest := next.value.0, next.value.1;
      left := left - 1;
    }
    NoMoreTexts(found, rest);
    r := Ok(found);
  }

  lemma NoMoreTexts(found: seq<string>, rest: string)
    ensures Prefixed(found, TextFields(rest, 0)) == Ok(found)
  {
    assert found + [] == found;
  }

  /** One pass of the text loop of processStampAddCommand: the next quoted text appended to
      those found, or the error that ends the loop. */
  method ReadText(found: seq<string>, parms: string, k: nat) returns (r: Result<(seq<string>, string)>)
    requires k > 0
    ensures r.Err? ==> Prefixed(found, TextFields(parms, k)) == Err(r.error)
    ensures r.Ok? ==> Prefixed(r.value.0, TextFields(r.value.1, k - 1)) == Prefixed(found, TextFields(parms, k))
  {
    var t := ParseTextField(parms);
    if t.Err? {
      return Err(t.error);
    }
    ghost var more := TextFields(t.value.1, k - 1);
    if more.Ok? {
      AppendAssoc(found, [t.value.0], more.value);
    }
    r := Ok((found + [t.value.0], t.value.1));
  }

  /** The texts read so far in front of what the rest gives. */
  function Prefixed(found: seq<string>, r: Result<seq<string>>): Result<seq<string>>
  {
    match r
    case Err(e) => Err(e)
    case Ok(ts) => Ok(found + ts)
  }

  lemma PrefixedNothing(r: Result<seq<string>>)
    ensures Prefixed([], r) == r
  {
    if r.Ok? {
      assert [] + r.value == r.value;
    }
  }

  /** The unescaping of all nine stamp texts. */
  method UnescapeStampTexts(found: seq<string>) returns (texts: seq<string>)
    requires |found| <= 9
    ensures texts == StampTexts(found)
  {
    texts := [];
    for i := 0 to 9
      invariant |texts| == i
      invariant forall k :: 0 <= k < i ==> texts[k] == StampTexts(found)[k]
    {
      var tmp := if i < |found| then found[i] else [];
      var t := UnescapeStampText(tmp);
      texts := texts + [t];
    }
  }

  method ProcessStampAdd(album: AlbumData, cmnd: string, parms: string) returns (r: Result<Call>)
    requires album.Valid()
    ensures r == StampAdd(cmnd, parms, album.HasRow())
  {
    if !album.HasRow() {
      return Err(NoRow);
    }
    var size, rest := ParseDoubles(parms, 2);
    if |size| != 2 {
      return Err(WrongParameters);
    }
    var count := 0;
    if cmnd != "STAMP_ADD_BLANK" {
      count := 6;
      if cmnd == "STAMP_ADDX" {
        count := 9;
      }
    }
    var found := ParseTextFields(rest, count);
    if found.Err? {
      return Err(found.error);
    }
    var texts := UnescapeStampTexts(found.value);
    var style := Blank;
    style := if cmnd == "STAMP_ADD" then Block else style;
    style := if cmnd == "STAMP_ADDX" then BlockX else style;
    style := if cmnd == "STAMP_ADD_TRIANGLE" then Triangle else style;
    style := if cmnd == "STAMP_ADD_TRIANGLE_INV" then TriangleInv else style;
    style := if cmnd == "STAMP_ADD_DIAMOND" then Diamond else style;
    r := Ok(StampCall(style, size[0], size[1], texts));
  }

  /** processCommand: the command upper-cased, looked up, and handed to its handler. */
  method ProcessCommand(album: AlbumData, cmnd: string, parms: string) returns (r: Result<Call>)
    requires album.Valid()
    ensures r == Command(cmnd, parms, StateOf(album), album.fonts.fontMap[..])
  {
    StateOfValid(album);
    var name := Upper(cmnd);
    var p := LookupCommand(name);
    if p.None? {
      return Err(UnrecognisedCommand);
    }
    if p.value in {PageTextCmd, RowStartCmd, StampAddCmd, PageTitleCmd} {
      r := DispatchOnAlbum(album, p.value, name, parms);
    } else {
      r := Dispatch(p.value, name, parms);
    }
  }

  /** The call of a handler that reads nothing of the album. */
  method Dispatch(p: Processor, cmnd: string, parms: string) returns (r: Result<Call>)
    requires p !in {PageTextCmd, RowStartCmd, StampAddCmd, PageTitleCmd}
    ensures forall a: AlbumState, fonts: seq<Fonts.FontSlot> :: r == Handle(p, cmnd, parms, a, fonts)
  {
    match p {
      case PageSizeCmd => r := ProcessPageSize(parms);
      case PageMarginsCmd => r := ProcessPageMargins(cmnd, parms);
      case PageBorderCmd => r := ProcessPageBorder(parms);
      case PageSpacingCmd => r := ProcessPageSpacing(parms);
      case DefineFontCmd => r := ProcessDefineFont(parms);
      case PageStartCmd => r := ProcessPageStart(cmnd, parms);
      case RowAlignCmd => r := ProcessRowAlign(cmnd, parms);
    }
  }

  /** The call of a handler that reads the font table or the album's page and row. */
  method DispatchOnAlbum(album: AlbumData, p: Processor, cmnd: string, parms: string) returns (r: Result<Call>)
    requires album.Valid() && p in {PageTextCmd, RowStartCmd, StampAddCmd, PageTitleCmd}
    ensures r == Handle(p, cmnd, parms, StateOf(album), album.fonts.fontMap[..])
  {
    StateOfValid(album);
    match p {
      case PageTitleCmd => r := ProcessPageTitle(album.fonts, parms);
      case PageTextCmd => r := ProcessPageText(album, cmnd, parms);
      case RowStartCmd => r := ProcessRowStart(album, cmnd, parms);
      case StampAddCmd => r := ProcessStampAdd(album, cmnd, parms);
    }
  }

  // ---------------------------------------------------------------------------------------
  // One logical line.
  // ---------------------------------------------------------------------------------------

  datatype Stepped = Stepped(album: AlbumState, tables: Tables, error: Option<ParseError>)

  /** One logical line: split, processed, and its builder call made; a font the registry
      refuses is the line's error. */
  function Step(line: string, a: AlbumState, t: Tables, available: seq<Fonts.FontFileInfo>): (r: Stepped)
    requires a.WellFormed()
    ensures r.album.WellFormed()
  {
    match SplitLine(line)
    case Err(e) => Stepped(a, t, Some(e))
    case Ok(sp) =>
      match Command(sp.command, sp.parameters, a, t.fonts)
      case Err(e) => Stepped(a, t, Some(e))
      case Ok(call) =>
        var p := Perform(a, t, available, call);
        Stepped(p.album, p.tables, if p.error.Some? then Some(FontRejected(p.error.value)) else None)
  }

  /** A command line as an album file writes it: the keyword, a space and the parameters in
      parentheses. */
  function Written(c: string, p: string): (line: string)
    ensures |line| == |c| + |p| + 3 && line[..|c|] == c
  {
    c + " (" + p + ")"
  }

  /** A page size written as two whole numbers of millimetres is read back as those numbers
      and sets the page size, in points. */
  lemma PageSizeRoundTrip(w: nat, h: nat, a: AlbumState, t: Tables, available: seq<Fonts.FontFileInfo>)
    requires a.WellFormed()
    ensures Step(Written("ALBUM_PAGES_SIZE", NatToDigits(w) + " " + NatToDigits(h)), a, t, available)
            == Stepped(a.(width := w as real * DotsPerMm, height := h as real * DotsPerMm, sizeSet := true), t, None)
  {
    TwoNumbersRoundTrip(w, h);
    SizeStep(NatToDigits(w), NatToDigits(h), w as real, h as real, a, t, available);
  }

  /** ALBUM_PAGES_SIZE with two numbers sets the page size. */
  lemma SizeStep(dx: string, dy: string, x: real, y: real, a: AlbumState, t: Tables,
                 available: seq<Fonts.FontFileInfo>)
    requires a.WellFormed() && dx != [] && dy != [] && AllDigits(dx) && AllDigits(dy)
    requires Doubles(dx + " " + dy, 2).0 == [x, y]
    ensures Step(Written("ALBUM_PAGES_SIZE", dx + " " + dy), a, t, available)
            == Stepped(a.(width := x * DotsPerMm, height := y * DotsPerMm, sizeSet := true), t, None)
  {
    var p := dx + " " + dy;
    assert SplitLine(Written("ALBUM_PAGES_SIZE", p)) == Ok(Split("ALBUM_PAGES_SIZE", p)) by {
      PlainNumbers(dx, dy);
      SizeKeyword();
      KeywordLine("ALBUM_PAGES_SIZE", p);
    }
    assert Command("ALBUM_PAGES_SIZE", p, a, t.fonts) == Ok(SizeCall(x, y)) by {
      SizeCommand(p, a, t.fonts, x, y);
    }
    StepOfCall(Written("ALBUM_PAGES_SIZE", p), "ALBUM_PAGES_SIZE", p, SizeCall(x, y), a, t, available);
    SizeBuild(a, x, y);
  }

  /** ALBUM_PAGES_SIZE with two numbers is the page-size call with those numbers. */
  lemma SizeCommand(p: string, a: AlbumState, fonts: seq<Fonts.FontSlot>, x: real, y: real)
    requires Doubles(p, 2).0 == [x, y]
    ensures Command("ALBUM_PAGES_SIZE", p, a, fonts) == Ok(SizeCall(x, y))
  {
    SizeKeyword();
    KeywordCommand("ALBUM_PAGES_SIZE", PageSizeCmd, p, a, fonts);
    assert PageSize(p) == Ok(SizeCall(x, y));
  }

  /** A line that splits and processes into a call other than a font definition makes that
      call on the album and leaves the font tables alone. */
  lemma StepOfCall(line: string, c: string, p: string, call: Call, a: AlbumState, t: Tables,
                   available: seq<Fonts.FontFileInfo>)
    requires a.WellFormed() && !call.FontCall?
    requires SplitLine(line) == Ok(Split(c, p)) && Command(c, p, a, t.fonts) == Ok(call)
    ensures Step(line, a, t, available) == Stepped(Build(a, call), t, None)
  {
  }

  /** The page-size call sets the size, in points, and nothing else. */
  lemma SizeBuild(a: AlbumState, x: real, y: real)
    requires a.WellFormed()
    ensures Build(a, SizeCall(x, y)) == a.(width := x * DotsPerMm, height := y * DotsPerMm, sizeSet := true)
  {
  }

  /** A keyword with plain, trimmed parameters splits back into the two. */
  lemma KeywordLine(c: string, p: string)
    requires IsKeyword(c) && IsPlain(p) && Trim(p) == p
    ensures SplitLine(Written(c, p)) == Ok(Split(c, p))
  {
    KeywordClean(c);
    SplitRoundTrip(c, true, p, []);
    assert c + " (" + p + ")" + [] == Written(c, p);
  }

  /** A keyword of the table goes to its handler. */
  lemma KeywordCommand(c: string, h: Processor, p: string, a: AlbumState, fonts: seq<Fonts.FontSlot>)
    requires IsKeyword(c) && Lookup(c) == Some(h)
    ensures Command(c, p, a, fonts) == Handle(h, c, p, a, fonts)
  {
    KeywordClean(c);
  }

  /** ALBUM_PAGES_SIZE is a keyword of the table, the one of the page-size handler. */
  lemma SizeKeyword()
    ensures IsKeyword("ALBUM_PAGES_SIZE")
    ensures Lookup("ALBUM_PAGES_SIZE") == Some(PageSizeCmd)
  {
    assert Commands[0].0 == "ALBUM_PAGES_SIZE";
  }

  /** Upper-case letters and underscores, as every keyword of the table is written. */
  predicate IsKeyword(c: string)
  {
    c != [] && forall j :: 0 <= j < |c| ==> c[j] == '_' || 'A' <= c[j] <= 'Z'
  }

  /** A keyword splits off cleanly, needs no trimming, and is its own upper case. */
  lemma KeywordClean(c: string)
    requires IsKeyword(c)
    ensures IsName(c) && Trim(c) == c && Upper(c) == c
  {
    TrimStartOfClean(c);
    TrimEndOfClean(c);
    assert Upper(c) == c by {
      forall i | 0 <= i < |c|
        ensures Upper(c)[i] == c[i]
      {
        assert c[i] == '_' || 'A' <= c[i] <= 'Z';
      }
    }
  }

  /** Two numbers with a space between them are plain, trimmed parameters. */
  lemma PlainNumbers(x: string, y: string)
    requires x != [] && y != [] && AllDigits(x) && AllDigits(y)
    ensures IsPlain(x + " " + y) && Trim(x + " " + y) == x + " " + y
  {
    DigitsArePlain(x);
    DigitsArePlain(y);
    PlainSpaced(x, y);
  }

  /** Two plain words without outer white space, joined by one space. */
  lemma PlainSpaced(x: string, y: string)
    requires x != [] && y != [] && IsPlain(x) && IsPlain(y)
    requires !IsSpace(x[0]) && !IsSpace(y[|y| - 1])
    ensures IsPlain(x + " " + y) && Trim(x + " " + y) == x + " " + y
  {
    var p := x + " " + y;
    forall j | 0 <= j < |p|
      ensures p[j] != ')' && p[j] != '"'
    {
      if j < |x| {
        assert p[j] == x[j];
      } else if j > |x| {
        assert p[j] == y[j - |x| - 1];
      }
    }
    assert p[0] == x[0] && p[|p| - 1] == y[|y| - 1];
    TrimStartOfClean(p);
    TrimEndOfClean(p);
  }

  /** splitLine, then processCommand. */
  method ProcessLine(album: AlbumData, line: string, available: seq<Fonts.FontFileInfo>) returns (error: Option<ParseError>)
    requires album.Valid()
    modifies album, album.fonts.fontMap, album.fonts.fontFileMap
    ensures album.Valid()
    ensures Step(line, old(StateOf(album)), old(TablesOf(album.fonts)), available)
            == Stepped(StateOf(album), TablesOf(album.fonts), error)
  {
    StateOfValid(album);
    var sp := SplitCommand(line);
    if sp.Err? {
      return Some(sp.error);
    }
    var call := ProcessCommand(album, sp.value.command, sp.value.parameters);
    if call.Err? {
      return Some(call.error);
    }
    var fe := Apply(album, available, call.value);
    error := None;
    if fe.Some? {
      error := Some(FontRejected(fe.value));
    }
  }

  // ---------------------------------------------------------------------------------------
  // Line continuations.
  // ---------------------------------------------------------------------------------------

  /** A cleaned line ending in a quote and a backslash goes on in the next line. */
  predicate Continues(line: string)
  {
    |line| >= 2 && line[|line| - 2] == '"' && line[|line| - 1] == '\\'
  }

  /** A logical line and the index of the first source line after it, or the number of the
      line whose continuation is bad. */
  datatype Joined = Joined(text: string, next: nat) | BadContinuation(line: nat)

  /** The continuation loop of parseFile from source line j on: the quote and backslash at the
      end and the quote at the start of the next cleaned line are dropped, and the two joined;
      a next line that does not start with a quote, or none at all, is an error at that line. */
  function Continue(line: string, lines: seq<string>, j: nat): (r: Joined)
    requires j <= |lines|
    ensures r.Joined? ==> j <= r.next <= |lines| && !Continues(r.text)
    ensures r.BadContinuation? ==> j + 1 <= r.line <= |lines| + 1
    decreases |lines| - j
  {
    if !Continues(line) then Joined(line, j)
    else
      var c := if j < |lines| then Clean(lines[j]) else [];
      if c == [] || c[0] != '"' then BadContinuation(j + 1)
      else Continue(line[..|line| - 2] + c[1..], lines, j + 1)
  }

  /** A continued line and a next line starting with a quote become one, three characters
      shorter than the two. */
  lemma ContinueJoins(line: string, lines: seq<string>, j: nat)
    requires j < |lines| && Continues(line)
    requires Clean(lines[j]) != [] && Clean(lines[j])[0] == '"'
    ensures var joined := line[..|line| - 2] + Clean(lines[j])[1..];
            && |joined| == |line| + |Clean(lines[j])| - 3
            && Continue(line, lines, j) == Continue(joined, lines, j + 1)
  {
  }

  /** A continued line followed by no line, or by one not starting with a quote, is an error at
      the line after it. */
  lemma ContinueRejects(line: string, lines: seq<string>, j: nat)
    requires j <= |lines| && Continues(line)
    requires j == |lines| || Clean(lines[j]) == [] || Clean(lines[j])[0] != '"'
    ensures Continue(line, lines, j) == BadContinuation(j + 1)
  {
  }

  /** The continuation loop. */
  method JoinContinuations(line: string, lines: seq<string>, j: nat) returns (r: Joined)
    requires j <= |lines|
    ensures r == Continue(line, lines, j)
  {
    var text := line;
    var k := j;
    while Continues(text)
      invariant j <= k <= |lines|
      invariant Continue(text, lines, k) == Continue(line, lines, j)
      decreases |lines| - k
    {
      var c: string := [];
      if k < |lines| {
        c := CleanLine(lines[k]);
      }
      if c == [] || c[0] != '"' {
        return BadContinuation(k + 1);
      }
      text := text[..|text| - 2] + c[1..];
      k := k + 1;
    }
    r := Joined(text, k);
  }

  // ---------------------------------------------------------------------------------------
  // The file loop (parseFile).
  // ---------------------------------------------------------------------------------------

  /** An error and the number of the line it is reported at. */
  datatype LineError = LineError(line: nat, error: ParseError)

  datatype Outcome = Outcome(album: AlbumState, tables: Tables, error: Option<LineError>)

  /** The lines from index i on: empty cleaned lines are passed over; the first error ends the
      parse, reported at the last line read. */
  function RunFrom(lines: seq<string>, i: nat, a: AlbumState, t: Tables, available: seq<Fonts.FontFileInfo>): (r: Outcome)
    requires i <= |lines| && a.WellFormed()
    ensures r.album.WellFormed()
    ensures r.error.Some? ==> i < r.error.value.line <= |lines| + 1
    decreases |lines| - i
  {
    if i == |lines| then Outcome(a, t, None)
    else
      var c := Clean(lines[i]);
      if c == [] then RunFrom(lines, i + 1, a, t, available)
      else
        match Continue(c, lines, i + 1)
        case BadContinuation(n) => Outcome(a, t, Some(LineError(n, BadLineContinuation)))
        case Joined(line, next) =>
          var s := Step(line, a, t, available);
          if s.error.Some? then Outcome(s.album, s.tables, Some(LineError(next, s.error.value)))
          else RunFrom(lines, next, s.album, s.tables, available)
  }

  /** Two texts that agree on their first n lines. */
  predicate Agree(lines: seq<string>, other: seq<string>, n: nat)
  {
    n <= |lines| && n <= |other| && forall k :: 0 <= k < n ==> lines[k] == other[k]
  }

  /** How many lines the continuation loop has read when it stops. */
  function Reach(r: Joined): nat
  {
    if r.Joined? then r.next else r.line
  }

  /** The continuation loop reads no line after the one it stops at. */
  lemma {:induction false} ContinueReadsUpTo(line: string, lines: seq<string>, other: seq<string>, j: nat, n: nat)
    requires j <= |lines| && j <= |other| && Agree(lines, other, n)
    requires Reach(Continue(line, lines, j)) <= n
    ensures Continue(line, other, j) == Continue(line, lines, j)
    decreases |lines| - j, 1
  {
    if Continues(line) {
      ContinuedReadsUpTo(line, lines, other, j, n);
    }
  }

  /** ContinueReadsUpTo for a line that is continued. */
  lemma {:induction false} ContinuedReadsUpTo(line: string, lines: seq<string>, other: seq<string>, j: nat, n: nat)
    requires j <= |lines| && j <= |other| && Agree(lines, other, n)
    requires Continues(line) && Reach(Continue(line, lines, j)) <= n
    ensures Continue(line, other, j) == Continue(line, lines, j)
    decreases |lines| - j, 0
  {
    var c := SameNextLine(line, lines, other, j, n);
    if c != [] && c[0] == '"' {
      var joined := line[..|line| - 2] + c[1..];
      JoinedWith(line, lines, j, joined);
      JoinedWith(line, other, j, joined);
      ContinueReadsUpTo(joined, lines, other, j + 1, n);
    } else {
      BothReject(line, lines, other, j);
    }
  }

  /** Two texts whose next lines clean to the same non-string both reject the continuation. */
  lemma BothReject(line: string, lines: seq<string>, other: seq<string>, j: nat)
    requires j < |lines| && j < |other| && Continues(line) && Clean(lines[j]) == Clean(other[j])
    requires Clean(lines[j]) == [] || Clean(lines[j])[0] != '"'
    ensures Continue(line, other, j) == Continue(line, lines, j)
  {
    ContinueRejects(line, lines, j);
    ContinueRejects(line, other, j);
  }

  /** ContinueJoins, with the joined line named. */
  lemma JoinedWith(line: string, lines: seq<string>, j: nat, joined: string)
    requires j < |lines| && Continues(line)
    requires Clean(lines[j]) != [] && Clean(lines[j])[0] == '"'
    requires joined == line[..|line| - 2] + Clean(lines[j])[1..]
    ensures Continue(line, lines, j) == Continue(joined, lines, j + 1)
  {
  }

  /** A continued line reads the next line, which both texts share. */
  lemma SameNextLine(line: string, lines: seq<string>, other: seq<string>, j: nat, n: nat) returns (c: string)
    requires j <= |lines| && j <= |other| && Agree(lines, other, n)
    requires Continues(line) && Reach(Continue(line, lines, j)) <= n
    ensures j < n && c == Clean(lines[j]) && c == Clean(other[j])
  {
    if j == |lines| || Clean(lines[j]) == [] || Clean(lines[j])[0] != '"' {
      ContinueRejects(line, lines, j);
    }
    assert lines[j] == other[j];
    c := Clean(lines[j]);
  }

  /** The first error ends the parse: no line after the one the error is reported at is read,
      so any text that agrees with this one up to that line has the same outcome. */
  lemma {:induction false} FirstErrorStops(lines: seq<string>, other: seq<string>, i: nat, a: AlbumState, t: Tables,
                                           available: seq<Fonts.FontFileInfo>)
    requires i <= |lines| && a.WellFormed()
    requires var r := RunFrom(lines, i, a, t, available);
             r.error.Some? && Agree(lines, other, r.error.value.line)
    ensures i <= |other|
    ensures RunFrom(other, i, a, t, available) == RunFrom(lines, i, a, t, available)
    decreases |lines| - i
  {
    var n := RunFrom(lines, i, a, t, available).error.value.line;
    assert i < n;
    assert lines[i] == other[i];
    var c := Clean(lines[i]);
    if c == [] {
      FirstErrorStops(lines, other, i + 1, a, t, available);
    } else {
      var joined := Continue(c, lines, i + 1);
      if joined.Joined? {
        var s := Step(joined.text, a, t, available);
        if s.error.None? {
          FirstErrorStops(lines, other, joined.next, s.album, s.tables, available);
        }
      }
      ContinueReadsUpTo(c, lines, other, i + 1, n);
    }
  }

  /** parseFile: the album reset, then the lines parsed until the first error. */
  method ParseFile(album: AlbumData, lines: seq<string>, available: seq<Fonts.FontFileInfo>)
    returns (error: Option<LineError>)
    requires album.Valid()
    modifies album, album.fonts.fontMap, album.fonts.fontFileMap
    ensures album.Valid()
    ensures var r := RunFrom(lines, 0, ResetState(old(StateOf(album))),
                             Tables(Fonts.ClearUserFonts(old(album.fonts.fontMap[..])),
                                    Fonts.ForgetLoadedNames(old(album.fonts.fontFileMap[..]))),
                             available);
            StateOf(album) == r.album && TablesOf(album.fonts) == r.tables && error == r.error
  {
    album.Reset();
    StateOfValid(album);
    error := ParseLines(album, lines, available);
  }

  /** parseFile's loop over the lines, from the first, on the album as it stands. */
  method ParseLines(album: AlbumData, lines: seq<string>, available: seq<Fonts.FontFileInfo>)
    returns (error: Option<LineError>)
    requires album.Valid() && StateOf(album).WellFormed()
    modifies album, album.fonts.fontMap, album.fonts.fontFileMap
    ensures album.Valid()
    ensures var r := RunFrom(lines, 0, old(StateOf(album)), old(TablesOf(album.fonts)), available);
            StateOf(album) == r.album && TablesOf(album.fonts) == r.tables && error == r.error
  {
    ghost var all := RunFrom(lines, 0, StateOf(album), TablesOf(album.fonts), available);
    error := None;
    var i := 0;
    while i < |lines| && error == None
      invariant album.Valid() && StateOf(album).WellFormed() && i <= |lines|
      invariant error == None ==> RunFrom(lines, i, StateOf(album), TablesOf(album.fonts), available) == all
      invariant error != None ==> Outcome(StateOf(album), TablesOf(album.fonts), error) == all
      decreases |lines| - i
    {
      i, error := ParseLine(album, lines, i, available);
    }
  }

  /** One pass of parseFile's loop: the line at index i cleaned and, unless it is empty, joined
      with its continuations and processed; the index of the next line to read comes back. */
  method ParseLine(album: AlbumData, lines: seq<string>, i: nat, available: seq<Fonts.FontFileInfo>)
    returns (next: nat, error: Option<LineError>)
    requires album.Valid() && StateOf(album).WellFormed() && i < |lines|
    modifies album, album.fonts.fontMap, album.fonts.fontFileMap
    ensures album.Valid() && StateOf(album).WellFormed() && i < next <= |lines|
    ensures var r := RunFrom(lines, i, old(StateOf(album)), old(TablesOf(album.fonts)), available);
            if error == None then RunFrom(lines, next, StateOf(album), TablesOf(album.fonts), available) == r
            else Outcome(StateOf(album), TablesOf(album.fonts), error) == r
  {
    var line := CleanLine(lines[i]);
    next := i + 1;
    error := None;
    if line != [] {
      var joined := JoinContinuations(line, lines, next);
      if joined.BadContinuation? {
        error := Some(LineError(joined.line, BadLineContinuation));
      } else {
        next := joined.next;
        var e := ProcessLine(album, joined.text, available);
        StateOfValid(album);
        if e.Some? {
          error := Some(LineError(next, e.value));
        }
      }
    }
  }
}
