# AlbumEasy core in Dafny

AlbumEasy turns a text file of album commands into a PDF stamp album. A file is a
sequence of lines:

- `ALBUM_PAGES_SIZE(210 297)`, `ALBUM_PAGES_MARGINS(...)`, `ALBUM_PAGES_SPACING(...)` and
  `ALBUM_PAGES_TITLE(...)` set up the album;
- `PAGE_START` and `PAGE_TEXT(...)` build pages;
- `ROW_START_*` and `STAMP_ADD(...)` lay stamps out in rows.

This project models the core of that program:

- **the parser** (`aeasy_parse.cpp`):
  - line cleaning: comments, white space and strings in quotes;
  - continuation lines;
  - splitting a command from its parameters;
  - the parameter readers;
  - every command handler;
  - the command table;
  - the file loop.
- **the album document model** (`aeasy_album.h`, `aeasy_album.cpp`):
  - the settings, pages, text items, stamp rows and stamps, with the builder methods
    that add them;
  - the formatted-text constructor, which splits a text into lines;
  - the layout that `generatePdf` performs: drawing areas and borders, the title, text
    with centring and word wrap, and row placement for the Equal, Justify and Fixed styles;
  - stamp drawing: the row alignment and the nine texts around a stamp.
- **the font registry** (`aeasy_fonts.cpp`):
  - the built-in and user font slots, the file map, and the encoding table;
  - registering a user font, with all its error cases;
  - looking a font up, loading each font file at most once per document;
  - listing a font file's code pages.
- **window placement** (`aeasy_config.cpp`):
  - the minimum-size clamp;
  - keeping a stored window rectangle on the screen.

Lengths are `real`s in points (72 per inch; millimetres are multiplied by 72/25.4). Text
is `seq<char>`. The PDF library becomes a log of drawing operations (`Draw`): lines,
rectangles, polygons, font changes and text placed at a position.

These are parameters, because they are outside the program:

- the width of a text in a font;
- loading a font file and reading the font name from it;
- the list of installed font files;
- the desktop's available screen rectangle (aeasy_config.cpp:190), the `screen` parameter of
  `WindowLayout.ConstrainRectToScreen`, `ConstrainRectToScreenCorrected` and
  `LoadWindowLayouts`;
- the window rectangles read from the settings store, or their defaults when nothing is
  stored (aeasy_config.cpp:118-132), the `mainStored`, `helpStored` and `fontListStored`
  parameters of `WindowLayout.LoadWindowLayouts`;
- the parent window's minimum size (aeasy_config.cpp:112-113), the `parentMinWidth` and
  `parentMinHeight` parameters of `WindowLayout.LoadWindowLayouts`.

The model is written in the source's own form:

- `CAlbumData` and `CFontManager`'s tables are classes, `AlbumData` and `FontTable`, and
  their methods change fields in place.
- Each loop of the source is a method with a `while` or `for` loop. The method is proved
  equal to a function that specifies it, and the properties are proved as lemmas about
  those functions. Examples:
  - the comment and white-space scans;
  - the parameter loops;
  - the continuation loop and the file loop;
  - the shrink, wrap and title loops;
  - the stamp loops;
  - the page and item loops;
  - the code-page listing.
- Parsing a file (`Parse.ParseFile`) and generating a document (`Pages.GeneratePdf`) are
  methods on the album. Each is tied to a function of the old state: `RunFrom` for parsing,
  `Generate` for the document.

Where the documented behaviour and the code differ, the model follows the code:

- **Parse errors.** The documented behaviour says parsing carries on after a bad line. The
  code stops at the first error and reports its line number (`Parse.FirstErrorStops`).
- **The Equal fallback.** The documentation says an Equal row that does not fit falls back
  to the album's default spacing. The code uses the spacing it is given, which is the
  page's own spacing when the page sets one.
- **Long words.** The documentation says a word too long for the line is cut at a
  character. The code as written cannot draw such a word at all (see Findings). Text
  items are drawn with the wrap as written (`Layout.Wrap`); the intended wrap,
  `Layout.WrapCorrected`, is stated and proved beside it.
- **Continuation errors.** A continuation error on the last line of the file is reported
  at the line after it, numbered `|lines| + 1`.
- **Escaped quotes.** The quote tracking of the scanners treats a quote after any backslash
  as escaped, so `\\"` does not end a string.

## Model

| member | source | states |
|---|---|---|
| Text.FirstIndex | aeasy_fonts.cpp:326-330 | the index found is the first whose element satisfies the test, or -1 exactly when none does |
| Text.Trim | aeasy_parse.cpp:157 | the result is no longer than the text and has no white space at either end |
| Text.TrimIsSlice | aeasy_parse.cpp:157 | the trimmed text is a slice of the text with only white space before it and after it |
| Text.TrimIdempotent | aeasy_parse.cpp:183 | trimming a trimmed text changes nothing |
| Text.Upper | aeasy_parse.cpp:334 | upper-casing keeps the length and maps each character to its upper case |
| Text.UpperEqualsIgnoreCase | aeasy_fonts.cpp:229 | a text equals its upper case ignoring case, so upper-cased identifiers still match |
| Text.ToDoubleOfNat | aeasy_parse.cpp:450-456 | reading a whole number written in decimal gives the number back |
| WindowLayout.Resized | aeasy_config.cpp:192-196 | width and height are at least the minimum, and a dimension already large enough is kept |
| WindowLayout.ConstrainRectToScreen | aeasy_config.cpp:179-224 | the in-out rectangle after the resize, the contains test and the horizontal then vertical step is the constrained rectangle |
| WindowLayout.InsideOnlyResized | aeasy_config.cpp:192-199 | a rectangle on the screen once resized is only resized |
| WindowLayout.StepsAreSeparable | aeasy_config.cpp:201-221 | the horizontal step changes only the left and right edges, the vertical step only the top and bottom |
| WindowLayout.HorizontalCases | aeasy_config.cpp:201-210 | left overflow moves the left edge to the screen's, right overflow the right edge, otherwise nothing moves |
| WindowLayout.NarrowFitsHorizontally | aeasy_config.cpp:201-210 | a rectangle no wider than the screen ends up within its left and right edges |
| WindowLayout.WideWindowLeavesScreen | aeasy_config.cpp:206-210 | a concrete wide window overflowing on the right ends entirely left of the screen |
| WindowLayout.CorrectedIsOnScreen | aeasy_config.cpp:179-224 | with the corrected steps, every rectangle ends on the screen with positive size |
| WindowLayout.CorrectedAgreesWhenNarrow | aeasy_config.cpp:199-221 | the corrected steps agree with the code wherever the resized rectangle is no larger than the screen |
| WindowLayout.LoadWindowLayouts | aeasy_config.cpp:112-134 | each window is its stored rectangle constrained to the screen with the corrected steps, at least 64 wide and high and at least the parent's minimum; every restored window is on the screen; a main window already on it is only resized |
| WindowLayout.ConstrainRectToScreenCorrected | aeasy_config.cpp:179-224 | the corrected procedure computes the corrected rectangle, which lies on the screen |
| Fonts.InitialFontMap | aeasy_fonts.cpp:108-134 | the map has all slots; the built-in fonts come first with their names, then the user slots, all free |
| Fonts.EncodingIndex | aeasy_fonts.cpp:263-270 | the index names an encoding with exactly that id, and -1 means no encoding has it |
| Fonts.LookupFontFile | aeasy_fonts.cpp:551-562 | a file is found exactly when some installed file matches the font name ignoring case and has a known file name and path, and the file found is such a file |
| Fonts.MapFile | aeasy_fonts.cpp:279-304 | the only error entering a file can give is a full file map |
| Fonts.Register | aeasy_fonts.cpp:254-305 | the slot gets the identifier; an unknown encoding is reported exactly when a non-empty encoding is not in the table, and then the file map is unchanged |
| Fonts.ClearUserFonts | aeasy_fonts.cpp:199-202 | the user slots get empty identifiers and the built-in slots are unchanged |
| Fonts.ForgetLoadedNames | aeasy_fonts.cpp:194-197 | every loaded font name is forgotten and the file names are kept |
| Fonts.AddedFontIsFound | aeasy_fonts.cpp:227-310 | after a successful registration, the index lookup finds the new identifier in its slot |
| Fonts.DuplicateIff | aeasy_fonts.cpp:227-236 | a registration is a duplicate exactly when some defined identifier equals the new one ignoring case |
| Fonts.AddFontKeepsDistinctIdentifiers | aeasy_fonts.cpp:227-259 | identifiers that are distinct ignoring case stay distinct after any registration |
| Fonts.AddFontKeepsDistinctFiles | aeasy_fonts.cpp:279-298 | the file map never holds the same file twice |
| Fonts.AddedFileIsMapped | aeasy_fonts.cpp:279-298 | after a successful registration the font's file is in the file map |
| Fonts.FailedAddFont | aeasy_fonts.cpp:227-251 | a duplicate, a full map or a missing file leaves both tables unchanged |
| Fonts.UnsupportedEncodingAddFont | aeasy_fonts.cpp:254-275 | the encoding error happens exactly when all earlier checks pass and the encoding is unknown; the slot stays written |
| Fonts.AddFontKeepsPredefined | aeasy_fonts.cpp:227-230 | registration never changes a built-in slot |
| Fonts.InitialFontMapWellFormed | aeasy_fonts.cpp:108-121 | the built-in identifiers are defined and distinct ignoring case |
| Fonts.PredefinedKey | aeasy_fonts.cpp:110-121 | each built-in identifier is its family letter followed by its style letter |
| Fonts.ClearedMapHasRoom | aeasy_fonts.cpp:199-230 | after initialise, any identifier unlike the built-in ones is accepted into the first user slot |
| Fonts.ForgetLoadedNamesKeepsDistinctFiles | aeasy_fonts.cpp:194-197 | initialise keeps the file map free of repeated files |
| Fonts.LoadedOnce | aeasy_fonts.cpp:385-389 | a file whose load gave it a name is not loaded again; after initialise it is loaded again |
| Fonts.FontLookup | aeasy_fonts.cpp:352-417 | an index outside the map, and only such an index, is an undefined font; a built-in slot gives its name in Latin 1 and leaves the file map alone; a TrueType font is given by the name its mapped file was loaded under, in the slot's encoding; a missing mapping names the file looked for, which no entry holds; the file map keeps its size, its file names and every name already loaded |
| Fonts.MappingMessageAsWritten | aeasy_fonts.cpp:378-382 | the message's file name is there only for an index inside the file map |
| Fonts.MappingMessageReadsPastFileMap | aeasy_fonts.cpp:378-382 | for every TrueType slot of a map that starts with the built-in fonts, the message reads past the end of the twelve-entry file map |
| Fonts.FontTable.constructor | aeasy_fonts.cpp:108-151 | the tables hold the initial font map and a file map of empty entries |
| Fonts.FontTable.Initialise | aeasy_fonts.cpp:181-203 | the user fonts are removed and every loaded name is forgotten |
| Fonts.FontTable.GetFontIndex | aeasy_fonts.cpp:314-332 | the result is the first slot whose identifier is exactly the one given, or -1 when there is none |
| Fonts.FontTable.AddUserDefinedFont | aeasy_fonts.cpp:208-310 | the new tables and the error are those of the registration function |
| Fonts.FontTable.WriteSlot | aeasy_fonts.cpp:254-305 | the slot write, the encoding check and the file-map update are those of the registration |
| Fonts.FontTable.ScanSlots | aeasy_fonts.cpp:227-236 | the loop stops at a duplicate and otherwise finds the first free slot |
| Fonts.FontTable.MapFontFile | aeasy_fonts.cpp:279-304 | the file map becomes the one the map function gives |
| Fonts.FontTable.GetFont | aeasy_fonts.cpp:337-427 | the font and the new file map are those of the lookup; nothing changes unless a file is loaded |
| Fonts.FindFontFile | aeasy_fonts.cpp:539-563 | the search returns the file that the lookup function names |
| Fonts.ContainsFile | aeasy_fonts.cpp:625-643 | true exactly when some installed file has that file name |
| Fonts.FindEncoding | aeasy_fonts.cpp:261-270 | the loop returns the index of the encoding with that id, or -1 |
| Fonts.CodePageLabel | aeasy_fonts.cpp:1128 | a label is not empty and has no newline |
| Fonts.CodePageLabels | aeasy_fonts.cpp:1124-1134 | there are at most n labels, each non-empty and without a newline |
| Fonts.SplitJoinLines | aeasy_fonts.cpp:1129-1131 | lines joined with newlines come back when split at newlines |
| Fonts.CodePageListed | aeasy_fonts.cpp:1124-1132 | a code page's label is listed exactly when its bit is set |
| Fonts.LabelsDistinct | aeasy_fonts.cpp:167-175 | no two code pages share a label |
| Fonts.CodePageNotYetListed | aeasy_fonts.cpp:1124-1134 | a code page's label is not among those of the code pages before it |
| Fonts.CodePagesEmptyIff | aeasy_fonts.cpp:1120-1134 | the listing is empty exactly when none of the nine bits is set |
| Fonts.CodePagesStep | aeasy_fonts.cpp:1126-1131 | each step appends the next label, after a newline unless it is the first, when its bit is set |
| Fonts.ListCodePage | aeasy_fonts.cpp:1126-1132 | one pass of the loop extends the listing by the next code page |
| Fonts.NextMask | aeasy_fonts.cpp:1133 | the mask moves to the next code page's bit |
| Fonts.MaskStep | aeasy_fonts.cpp:1121-1133 | shifting the mask of code page i left once gives the mask of code page i + 1 |
| Fonts.AvailableCodePages | aeasy_fonts.cpp:1106-1135 | the result is the labels of the set bits, joined one per line |
| Album.Stamp.Text | aeasy_album.h:269-272 | an index outside 0..8 gives the empty text; an index in range gives that text |
| Album.AlbumData.constructor | aeasy_album.h:127-130 | a new album has nothing set, top alignment, no title and no page, and its font tables are initialised |
| Album.HasPageIffPages | aeasy_album.h:137-140 | a page exists exactly when the page list is not empty |
| Album.FormatLines | aeasy_album.cpp:1253-1285 | a formatted text always has at least one line |
| Album.LineCount | aeasy_album.cpp:1257-1285 | a text has one more line than it has escaped line breaks |
| Album.LinesTrimmed | aeasy_album.cpp:1265-1285 | no line of a formatted text ends in white space |
| Album.FormatEscapedLines | aeasy_album.cpp:1257-1285 | escaping lines that do not end in white space and formatting the result gives the lines back |
| Album.ChopTrailingSpace | aeasy_album.cpp:1283-1284 | the chopping loop removes exactly the trailing white space |
| Album.NewFormattedText | aeasy_album.cpp:1233-1286 | the text holds the requested font, size and centring, and the lines of the format function |
| Album.MaxHeightIsMaximum | aeasy_album.cpp:917-920 | a row's height is the tallest of its stamps, or 0 |
| Album.NewStampRow | aeasy_album.cpp:864-884 | a new row is well formed and has no stamps |
| Album.AddStampKeepsRow | aeasy_album.cpp:905-924 | adding a stamp appends exactly that stamp and keeps the tallest height right |
| Album.NewPage | aeasy_album.cpp:615-626 | a new page has no items and no active row |
| Album.NewPageOverride | aeasy_album.cpp:647-682 | a page overrides the spacing exactly when both values are not negative, with those values in points |
| Album.AddPageTextKeepsPage | aeasy_album.cpp:686-701 | adding text keeps the page well formed and leaves the active row alone |
| Album.AddRowKeepsPage | aeasy_album.cpp:705-723 | a new row is appended and becomes the active row |
| Album.AddStampKeepsPage | aeasy_album.cpp:275-280 | a stamp goes into the active row and nowhere else |
| Album.AlbumData.Reset | aeasy_album.cpp:29-57 | the flags are cleared, alignment is top, there is no title or page, and the font tables are initialised; the other values stay |
| Album.AlbumData.SetPageSize | aeasy_album.cpp:61-74 | the page size is set in points and marked as set; nothing else changes |
| Album.AlbumData.SetMargins | aeasy_album.cpp:78-115 | odd margins set the even ones too and mark the margins as set; even margins alone change only the even pages |
| Album.AlbumData.SetBorder | aeasy_album.cpp:118-133 | the border widths and spacing are set in points and the borders are marked as set |
| Album.AlbumData.SetSpacing | aeasy_album.cpp:136-149 | the spacing is set in points and marked as set |
| Album.AlbumData.SetTitle | aeasy_album.cpp:152-166 | the title becomes the centred formatted text |
| Album.AlbumData.SetRowAlignment | aeasy_album.cpp:169-179 | the alignment for rows added from now on is set |
| Album.AlbumData.StartNewPage | aeasy_album.cpp:205-220 | a new page is appended with the given spacing override and becomes the active page |
| Album.AlbumData.AddPageTextToPage | aeasy_album.cpp:224-239 | text is appended to the active page and the active row is kept; without a page nothing changes |
| Album.AlbumData.AddStampRowToPage | aeasy_album.cpp:242-259 | a row with the album's alignment is appended to the active page and becomes its active row; without a page nothing changes |
| Album.AlbumData.AddStampToRow | aeasy_album.cpp:263-281 | the stamp is appended to the active row of the active page; without a page or a row nothing changes |
| Layout.DrawAreaCentred | aeasy_album.cpp:406-502 | the drawing area is centred on the page centre whatever the spacing |
| Layout.BordersNest | aeasy_album.cpp:439-485 | the inner border lies inside the outer one, and the drawing area inside the inner one |
| Layout.ShrinkToFit | aeasy_album.cpp:799-803 | the result is the longest prefix that fits the width, or the empty text |
| Layout.BackToSpace | aeasy_album.cpp:827-834 | the result is the longest prefix that is empty or ends in white space |
| Layout.CentredLineFits | aeasy_album.cpp:795-810 | a centred line draws at most one prefix that fits, centred; a line that fits is drawn whole |
| Layout.WrapChunk | aeasy_album.cpp:813-834 | a pass draws a prefix of the text; a cut prefix ends in white space or is empty; the whole text is drawn only if it fits |
| Layout.Remainder | aeasy_album.cpp:848-851 | what is left after a pass is no longer than the text after the chunk |
| Layout.WrapKeepsText | aeasy_album.cpp:811-853 | the wrapped drawing holds part of the text, apart from white space, and all of it when the cursor stays on the page |
| Layout.WrapLines | aeasy_album.cpp:811-853 | the wrap draws line by line from the cursor, and the cursor never rises |
| Layout.LongWordChunks | aeasy_album.cpp:820-834 | a concrete over-wide word fits only as a prefix without white space |
| Layout.WrapLosesLongWord | aeasy_album.cpp:811-853 | as written, a concrete over-wide word is drawn as empty lines until the cursor leaves the page |
| Layout.WrapChunkCorrected | aeasy_album.cpp:820-834 | the corrected chunk is a non-empty prefix of any non-empty text |
| Layout.CorrectedChunkAgrees | aeasy_album.cpp:820-834 | wherever the written chunk is not empty, the corrected chunk equals it |
| Layout.WrapCorrectedKeepsText | aeasy_album.cpp:811-853 | the corrected wrap draws the text in order, and all of it unless the page ends first |
| Layout.WrapCorrectedLines | aeasy_album.cpp:811-853 | the corrected wrap draws line by line from the cursor |
| Layout.WrapCorrectedProgress | aeasy_album.cpp:811-853 | every pass of the corrected wrap draws a non-empty part, so there are no more passes than characters |
| Layout.WrapCorrectedDrawsLongWord | aeasy_album.cpp:811-853 | the corrected wrap draws the concrete long word on two lines |
| Layout.CentredTextDrop | aeasy_album.cpp:789-810 | centred text moves the cursor down exactly one line per line |
| Layout.TextDrop | aeasy_album.cpp:789-855 | any text moves the cursor down at least one line per line |
| Layout.WrappedTextKept | aeasy_album.cpp:811-853 | text that is not centred is drawn whole, apart from white space, when the cursor ends on the page |
| Layout.TextItemDrop | aeasy_album.cpp:760-860 | without its font a text item draws nothing; otherwise it sets the font and lowers the cursor by its lines and the spacing |
| Layout.Shrink | aeasy_album.cpp:799-803 | the shrinking loop computes the longest prefix that fits |
| Layout.ChopToSpace | aeasy_album.cpp:830-833 | the loop cuts back to the end of the previous word |
| Layout.NextChunk | aeasy_album.cpp:815-834 | one pass computes the chunk of the wrap |
| Layout.WrapPass | aeasy_album.cpp:815-851 | a pass draws the chunk, keeps the rest without leading white space, and moves the cursor down when text is left |
| Layout.DrawWrapped | aeasy_album.cpp:813-853 | the wrap loop, which ends because each pass either finishes the text or moves down a line, draws what the wrap function gives and leaves the cursor where it says |
| Layout.TrimLeading | aeasy_album.cpp:848-851 | the loop removes exactly the leading white space |
| Layout.DrawLine | aeasy_album.cpp:791-855 | one line is drawn as the line function gives |
| Layout.DrawLines | aeasy_album.cpp:789-855 | the line loop draws what the lines function gives |
| Layout.DrawText | aeasy_album.cpp:760-860 | a text item is drawn as the specifying function gives, with its font file loaded at most once |
| StampRows.SingleStampPlaced | aeasy_album.cpp:961-968 | a single stamp sits at the left edge of a Justify row and is centred in any other |
| StampRows.EqualRowEvenlySpaced | aeasy_album.cpp:975-995 | an Equal row that keeps the spacing has the same gap at both ends and between stamps |
| StampRows.EqualRowFallsBack | aeasy_album.cpp:975-1008 | an Equal row falls back to the Justify layout exactly when its stamps would be closer than the spacing |
| StampRows.JustifiedRowFills | aeasy_album.cpp:998-1008 | a Justify row that fits runs from edge to edge of the drawing area; one that does not is spaced by the spacing |
| StampRows.FixedRowCentred | aeasy_album.cpp:1010-1020 | a Fixed row keeps its spacing and is centred when it fits, else starts at the left edge |
| StampRows.StampsLineUp | aeasy_album.cpp:1065-1070 | top, middle or bottom alignment lines each stamp up with the tallest one |
| StampRows.NoTextDrawsNothing | aeasy_album.cpp:1133 | a blank stamp draws no text |
| StampRows.StampDrawsItsTexts | aeasy_album.cpp:1133-1207 | a stamp that is not blank draws each of its nine texts once, in order, and no other text |
| StampRows.InsideBlockCentred | aeasy_album.cpp:1143 | the block of inside lines is vertically centred on the stamp |
| StampRows.InsideLines | aeasy_album.cpp:1144-1157 | the inside texts are on consecutive lines from the first baseline |
| StampRows.StampHeightParts | aeasy_album.cpp:1158-1208 | below a stamp and its offset there is nothing for a blank stamp, otherwise zero, one or two lines of under-texts, and nothing exactly when all the under-texts are empty |
| StampRows.CountInside | aeasy_album.cpp:1135-1141 | the loop counts the non-empty inside texts |
| StampRows.CentreText | aeasy_album.cpp:1146-1156 | a non-empty text is drawn centred across the stamp, and the baseline moves down one line |
| StampRows.DrawInside | aeasy_album.cpp:1144-1157 | the loop draws the inside texts as the specifying function gives |
| StampRows.PlaceUnder | aeasy_album.cpp:1160-1179 | text i is drawn centred in its third of the stamp's width |
| StampRows.DrawUnder | aeasy_album.cpp:1158-1180 | the loop draws a line of under-texts and says whether it had a text |
| StampRows.AlignOffset | aeasy_album.cpp:1065-1070 | the vertical offset is 0, half, or all of the difference from the tallest stamp |
| StampRows.DrawStamp | aeasy_album.cpp:1051-1209 | the stamp's outline and texts are drawn as the specifying function gives, with the height it takes |
| StampRows.DrawCentred | aeasy_album.cpp:1135-1157 | the inside texts are counted, then drawn centred |
| StampRows.DrawUnderLine | aeasy_album.cpp:1158-1206 | a line of under-texts takes one gap when it has a text, else nothing |
| StampRows.DrawTexts | aeasy_album.cpp:1133-1207 | the texts of a stamp that is not blank, with the height they add |
| StampRows.AllStampsPlaced | aeasy_album.cpp:1032-1041 | on the page, every stamp of a row that fits is drawn, each one gap after the one before |
| StampRows.JustifiedRowEndsAtMargin | aeasy_album.cpp:998-1041 | a justified row that fits ends exactly at the right edge of the drawing area |
| StampRows.PlacedHeight | aeasy_album.cpp:1032-1041 | the row height is 0 or the height of a drawn stamp, never negative, and 0 off the page |
| StampRows.RowDrop | aeasy_album.cpp:1042-1043 | a row lowers the cursor by its height and the spacing when the height is positive, and otherwise leaves it |
| StampRows.SumWidths | aeasy_album.cpp:954-959 | the loop sums the stamp widths |
| StampRows.PlaceRow | aeasy_album.cpp:961-1020 | the start and gap are those the distribution function gives |
| StampRows.DrawNext | aeasy_album.cpp:1034-1040 | a pass draws the stamp at the cursor and moves the next start one width and one gap on |
| StampRows.DrawStamps | aeasy_album.cpp:1032-1041 | the stamp loop draws what the row function gives |
| StampRows.DrawRow | aeasy_album.cpp:928-1047 | a row is drawn as the specifying function gives, with its font file loaded at most once |
| StampRows.DrawPlacedRow | aeasy_album.cpp:1030-1046 | with its font, the row sets the font, draws its stamps and lowers the cursor past the row |
| Pages.MissingSettingsReported | aeasy_album.cpp:299-308 | generation goes ahead exactly when size, margins and spacing are all set, and each missing one is reported once |
| Pages.TitleCentred | aeasy_album.cpp:579-589 | title line k is that line, centred on the page centre, k + 1 font sizes below the title's start |
| Pages.TitleIgnoresPageSpacing | aeasy_album.cpp:575-577 | the title draws the same on every page of one parity, whatever the page spacing |
| Pages.NothingBelowPage | aeasy_album.cpp:362-364 | below the bottom of the page nothing is drawn, no font is looked up, and nothing fails |
| Pages.CursorNeverRises | aeasy_album.cpp:357-367 | with non-negative spacing, the cursor never moves up the page |
| Pages.ItemDrops | aeasy_album.cpp:362-364 | one item never moves the cursor up |
| Pages.PagesInOrder | aeasy_album.cpp:323-369 | the pages drawn are those before the failing one plus that one, or all of them, each at the album's page size |
| Pages.DocumentHasEveryPage | aeasy_album.cpp:285-402 | a document has one page per album page; a failure names one of the album's pages |
| Pages.DrawTitleLine | aeasy_album.cpp:581-588 | a pass moves down one line and draws the line centred |
| Pages.DrawTitleLines | aeasy_album.cpp:579-589 | the title loop draws what the title function gives |
| Pages.DrawBorders | aeasy_album.cpp:530-551 | the borders drawn are the outer and inner rectangles that are set |
| Pages.DrawPageHeader | aeasy_album.cpp:506-595 | a page header is its borders, the cursor at the top margin, and its title |
| Pages.DrawNextPage | aeasy_album.cpp:325-368 | a pass draws one page and reports the failure that ends the loop |
| Pages.DrawTitle | aeasy_album.cpp:557-592 | the title is drawn with its font, or its font's error is given |
| Pages.DrawTitleText | aeasy_album.cpp:569-590 | with its font, the title sets the font and draws its lines |
| Pages.DrawItem | aeasy_album.cpp:362-364 | an item is drawn as a text or as a row of stamps |
| Pages.DrawItems | aeasy_album.cpp:357-367 | the item loop draws what the page's item function gives |
| Pages.DrawPage | aeasy_album.cpp:334-368 | one page is drawn: the spacing, the header, then the items |
| Pages.GeneratePdf | aeasy_album.cpp:285-402 | the result and the file map are those of the document function of the album |
| Pages.DrawPages | aeasy_album.cpp:323-369 | the page loop gives the document, or the failure of the first page that fails |
| Scan.QuotedPrefix | aeasy_parse.cpp:164-174 | a prefix has the same quote state as the whole text at the same place |
| Scan.UnquotedText | aeasy_parse.cpp:168-174 | text without quotes never opens a string |
| Scan.QuotedText | aeasy_parse.cpp:168-174 | inside a simple quoted text the scanner is in a string until the closing quote |
| Scan.FirstOutside | aeasy_parse.cpp:246-278 | the index is that of the first delimiter outside strings, or the length when there is none |
| Scan.ScanTo | aeasy_parse.cpp:164-181 | the scanning loop finds the first delimiter outside strings |
| Scan.CleanLine | aeasy_parse.cpp:147-221 | cleaning cuts the comment and simplifies the white space |
| Scan.SimplifyWhiteSpace | aeasy_parse.cpp:193-219 | the loop copies the text, with each run of gaps outside strings written as one space |
| Scan.CleanTrimmed | aeasy_parse.cpp:157-219 | a clean line has no white space at either end |
| Scan.NoCommentLeft | aeasy_parse.cpp:164-181 | no comment mark is left outside strings |
| Scan.GapRunIsOneSpace | aeasy_parse.cpp:205-212 | a run of gaps becomes exactly one space |
| Scan.QuotedKept | aeasy_parse.cpp:197-217 | inside a string every character is copied, white space included |
| Scan.SplitCommand | aeasy_parse.cpp:224-316 | the line splits into the command and the text between the parentheses |
| Scan.SplitWhole | aeasy_parse.cpp:239-240 | a line without an end of command is all command |
| Scan.SplitUnopened | aeasy_parse.cpp:262-274 | a space ending the command must be followed by an opening parenthesis, else it is an error |
| Scan.SplitOpened | aeasy_parse.cpp:257-268 | otherwise the parameters start after the opening parenthesis |
| Scan.ClosingParenthesis | aeasy_parse.cpp:280-310 | the loop finds the closing parenthesis outside strings, or reports it missing |
| Scan.SplitRoundTrip | aeasy_parse.cpp:224-316 | a command with its parameters in parentheses splits back into the two |
| Scan.ParametersRoundTrip | aeasy_parse.cpp:286-302 | plain parameters end at the parenthesis after them |
| Scan.Field | aeasy_parse.cpp:398-422 | a field is the text before the first space outside strings, and the rest after it |
| Scan.FieldRoundTrip | aeasy_parse.cpp:398-422 | a plain field then a space come back as the field and the rest |
| Scan.FieldWhole | aeasy_parse.cpp:416-422 | a plain text is one whole field, with nothing after it |
| Scan.ExtractField | aeasy_parse.cpp:379-426 | the method returns the field, upper-cased when asked, and the rest |
| Scan.Doubles | aeasy_parse.cpp:448-457 | at most count numbers are read |
| Scan.FieldCounts | aeasy_parse.cpp:448-457 | every non-empty field counts, as the number it reads as |
| Scan.NumberRoundTrip | aeasy_parse.cpp:448-457 | a whole number written out reads back as itself |
| Scan.TwoNumbersRoundTrip | aeasy_parse.cpp:448-457 | two whole numbers with a space between read back as themselves, with nothing left |
| Scan.LastNumber | aeasy_parse.cpp:448-457 | a last field that is not empty is the last number |
| Scan.ParseDoubles | aeasy_parse.cpp:430-464 | the field loop returns the numbers of the specifying function |
| Scan.ReadDouble | aeasy_parse.cpp:450-456 | a pass reads the next field and appends it when it is not empty |
| Scan.TextRoundTrip | aeasy_parse.cpp:487-496 | quoted text, spaces included, comes back without quotes, followed by the rest |
| Scan.ParseTextField | aeasy_parse.cpp:469-504 | the text field is read as the field function gives |
| Scan.FontParamsMeaning | aeasy_parse.cpp:532-557 | the font is the first slot with that identifier and the size is positive; each failure is its own error |
| Scan.ParseFontParameters | aeasy_parse.cpp:508-560 | the method returns the font index and size of the specifying function |
| Scan.Unescape | aeasy_parse.cpp:1022-1037 | unescaping never lengthens a text |
| Scan.UnescapeEscape | aeasy_parse.cpp:1022-1037 | escaping a text and unescaping it gives the text back |
| Scan.UnescapePlain | aeasy_parse.cpp:1022-1037 | text without backslashes is unchanged |
| Scan.UnescapeStampText | aeasy_parse.cpp:1016-1038 | the escape loop computes the unescaped text |
| Parse.LookupMeaning | aeasy_parse.cpp:337-341 | a keyword found has a table entry with that handler, and one not found has none |
| Parse.LookupCommand | aeasy_parse.cpp:337-341 | the table search returns the handler of the keyword's entry |
| Parse.StateOfValid | aeasy_album.h:137-140 | a valid album's state is well formed and has the album's page and row tests |
| Parse.ResetState | aeasy_album.cpp:29-57 | after reset the state is well formed, with no page and no row |
| Parse.Perform | aeasy_parse.cpp:635-1047 | every builder or font call keeps the album state well formed |
| Parse.Build | aeasy_parse.cpp:635-1047 | every album builder call keeps the album state well formed |
| Parse.Apply | aeasy_parse.cpp:635-1047 | a call made on the album and registry has the effect of the call on the state |
| Parse.ApplyBuild | aeasy_parse.cpp:635-1047 | an album builder call has the effect of the build function |
| Parse.ApplyPageSetting | aeasy_parse.cpp:635-695 | size, margin and border calls have their builders' effect |
| Parse.ApplySetting | aeasy_parse.cpp:722-907 | spacing, title and alignment calls have their builders' effect |
| Parse.ApplyPageBuild | aeasy_parse.cpp:829-873 | page-start and page-text calls have their builders' effect |
| Parse.ApplyRowBuild | aeasy_parse.cpp:960-1047 | row-start and stamp calls have their builders' effect |
| Parse.PageSize | aeasy_parse.cpp:615-639 | the call is made exactly when two numbers are read, with those numbers; otherwise the error is wrong parameters |
| Parse.PageMargins | aeasy_parse.cpp:644-672 | the call is made exactly when four numbers are read, and carries them as left, right, top and bottom, for the odd pages unless the command is the even-page one; otherwise the error is wrong parameters |
| Parse.PageBorder | aeasy_parse.cpp:675-699 | the call is made exactly when three numbers are read, and carries them as outer, inner and spacing; otherwise the error is wrong parameters |
| Parse.PageSpacing | aeasy_parse.cpp:702-726 | the call is made exactly when two numbers are read, and carries them as horizontal and vertical spacing; otherwise the error is wrong parameters |
| Parse.PageTitle | aeasy_parse.cpp:729-754 | a title is accepted exactly when the font parameters and then a quoted text are read; a font error comes first, then the missing quoted text; the call carries that font, size and text |
| Parse.DefineFont | aeasy_parse.cpp:757-807 | a missing quoted name is reported first; then an empty identifier or name is wrong parameters; then an identifier outside 2 to 8 characters is a bad identifier; any other definition is accepted with the identifier upper-cased, the name, and the next field as the encoding, not upper-cased |
| Parse.PageStart | aeasy_parse.cpp:811-844 | the plain form is accepted exactly when it has no parameters, and then keeps the album spacing; the spacing form is accepted exactly when two numbers are read, which become the page's spacing, and is otherwise wrong parameters |
| Parse.PageText | aeasy_parse.cpp:847-879 | text is accepted exactly when the font parameters and a quoted text are read and there is a page; the font error comes first, then the missing quoted text, then no page; the call carries that font, size and text, centred exactly for the centre command |
| Parse.RowAlignment | aeasy_parse.cpp:884-911 | the call is made exactly when there are no parameters, and sets top, middle or bottom alignment by the command; otherwise the error is unexpected parameters |
| Parse.RowStart | aeasy_parse.cpp:914-968 | the font error comes first; then a missing frame width, or a missing spacing for a Fixed row, is wrong parameters; then no page; otherwise the row is accepted with the style its command names, that frame width, and a spacing that is read only for a Fixed row and 0 for the others |
| Parse.TextFields | aeasy_parse.cpp:1004-1011 | success reads exactly n texts; the only error is a missing quoted text |
| Parse.StampTexts | aeasy_parse.cpp:1016-1038 | there are always nine stamp texts |
| Parse.StampAdd | aeasy_parse.cpp:974-1050 | a stamp is accepted exactly when there is a row, two numbers are read and then the quoted texts its command takes (none for a blank stamp, nine for STAMP_ADDX, six otherwise); no row comes first, then wrong parameters, then a missing quoted text; the stamp has that width and height, the style its command names, and the texts read, unescaped, then empty ones up to nine |
| Parse.Handle | aeasy_parse.cpp:348 | only the stamp handler makes a stamp call, and it has nine texts |
| Parse.Command | aeasy_parse.cpp:320-351 | the result is the unrecognised-command error exactly when the upper-cased command is not in the table; a stamp call from any command has nine texts |
| Parse.CommandIgnoresCase | aeasy_parse.cpp:334 | the case of a command's letters does not change its outcome |
| Parse.ProcessPageSize | aeasy_parse.cpp:615-639 | the handler gives the page-size outcome |
| Parse.ProcessPageMargins | aeasy_parse.cpp:644-672 | the handler gives the margins outcome |
| Parse.ProcessPageBorder | aeasy_parse.cpp:675-699 | the handler gives the border outcome |
| Parse.ProcessPageSpacing | aeasy_parse.cpp:702-726 | the handler gives the spacing outcome |
| Parse.ProcessPageTitle | aeasy_parse.cpp:729-754 | the handler gives the title outcome |
| Parse.ProcessDefineFont | aeasy_parse.cpp:757-807 | the handler gives the font-definition outcome |
| Parse.ProcessPageStart | aeasy_parse.cpp:811-844 | the handler gives the page-start outcome |
| Parse.ProcessPageText | aeasy_parse.cpp:847-879 | the handler gives the page-text outcome |
| Parse.ProcessRowAlign | aeasy_parse.cpp:884-911 | the handler gives the alignment outcome |
| Parse.ProcessRowStart | aeasy_parse.cpp:914-968 | the handler gives the row-start outcome |
| Parse.ParseTextFields | aeasy_parse.cpp:1004-1011 | the text loop reads the texts of the specifying function |
| Parse.UnescapeStampTexts | aeasy_parse.cpp:1016-1038 | all nine texts are unescaped |
| Parse.ProcessStampAdd | aeasy_parse.cpp:974-1050 | the handler gives the stamp outcome |
| Parse.ProcessCommand | aeasy_parse.cpp:320-351 | the command is upper-cased, looked up and handled as the command function gives |
| Parse.Dispatch | aeasy_parse.cpp:348 | a handler that reads nothing of the album gives the same outcome whatever the album and fonts |
| Parse.DispatchOnAlbum | aeasy_parse.cpp:348 | a handler that reads the font table or the page and row gives its outcome |
| Parse.Step | aeasy_parse.cpp:132-136 | processing a line keeps the album state well formed |
| Parse.PageSizeRoundTrip | aeasy_parse.cpp:615-639 | a written page-size line reads back as its numbers and sets the page size in points |
| Parse.SizeStep | aeasy_parse.cpp:615-639 | the page-size command with two numbers sets the page size |
| Parse.SizeCommand | aeasy_parse.cpp:337-348 | the page-size command with two numbers is the page-size call |
| Parse.StepOfCall | aeasy_parse.cpp:132-136 | a call other than a font definition changes the album and leaves the font tables alone |
| Parse.SizeBuild | aeasy_album.cpp:61-74 | the page-size call sets the size in points and nothing else |
| Parse.KeywordLine | aeasy_parse.cpp:246-268 | a keyword with plain parameters splits back into the two |
| Parse.KeywordCommand | aeasy_parse.cpp:334-348 | a keyword in the table goes to its handler |
| Parse.SizeKeyword | aeasy_parse.cpp:43 | the page-size keyword is in the table, with the page-size handler |
| Parse.KeywordClean | aeasy_parse.cpp:43-65 | every keyword splits off cleanly and is its own upper case |
| Parse.ProcessLine | aeasy_parse.cpp:130-137 | a line is split, then processed |
| Parse.Continue | aeasy_parse.cpp:111-125 | a joined line does not end in a continuation, and a bad continuation is reported at a line after the first one read |
| Parse.ContinueJoins | aeasy_parse.cpp:117-124 | a continued line and a next line starting with a quote become one, three characters shorter |
| Parse.ContinueRejects | aeasy_parse.cpp:117-118 | a continuation with no next line, or one not starting with a quote, is an error at the next line |
| Parse.JoinContinuations | aeasy_parse.cpp:111-125 | the continuation loop computes the joined line |
| Parse.RunFrom | aeasy_parse.cpp:104-140 | the state stays well formed, and an error is reported at a line after the start, at most one past the last line |
| Parse.ContinueReadsUpTo | aeasy_parse.cpp:111-125 | the continuation loop reads no line after the one it stops at |
| Parse.FirstErrorStops | aeasy_parse.cpp:104-140 | no line after the error's is read, so texts that agree up to it have the same outcome |
| Parse.ParseFile | aeasy_parse.cpp:70-142 | after the reset, the album, the font tables and the error are those of the run over all lines |
| Parse.ParseLines | aeasy_parse.cpp:104-140 | the line loop has the effect of the run from the first line |
| Parse.ParseLine | aeasy_parse.cpp:106-139 | one pass cleans, joins and processes a line, and moves the index forward |

## Left out

- Reading the album file, the font directory scan (`populate`) and parsing font files
  (`parseFontFile`) are file I/O. The installed font files are a parameter instead, and
  loading a font file is a function parameter that gives the font name (empty on failure).
- The PDF library is left out. Drawing is a log of operations and text width is a function
  parameter. A font lookup reports its own errors as `FontError` values.
- Fonts.FontLookup: a font handle that `HPDF_GetFont` refuses to give (aeasy_fonts.cpp:356-363
  and 398-411) is not modelled; the lookup gives a font request whenever the slot and its
  file resolve.
- `getCodec` (the codec library that converts text for an encoding) is left out. Text is
  drawn as given, with the encoding named in the font request.
- Saving the PDF, the user interface, the settings store (`QSettings`) and `saveSettings`
  are left out.
- `parseBlankParameters` has no member of its own. It is the `parms == []` test inside
  `Parse.PageStart` and `Parse.RowAlignment`.
- Scan.Doubles: `QString::toDouble` is modelled as a decimal reader (sign, digits, one
  point) that gives 0 for malformed text. Exponent forms, locale rules, and infinity or
  NaN are not modelled.
- Text.Upper: only ASCII letters are upper-cased. Qt's full Unicode case mapping is not
  modelled.
- Text.EqualsIgnoreCase: only ASCII letters are folded, so identifiers and font names that
  differ in other letters' case are different here. `Fonts.DuplicateIff` and
  `Fonts.LookupFontFile` compare with this ASCII folding.
- Font sizes are `Fonts.FontSize`, a real above 0, because the font parameter reader
  accepts no other size and every text gets its size there. Text drawing relies on it: the
  wrap as written would never move down a line with a size of 0.
- Reals are exact. Floating-point rounding in lengths and the text width is not modelled.
- WindowLayout.LoadWindowLayouts uses the corrected horizontal and vertical steps, so that
  it can promise windows on the screen. The steps as written are
  `WindowLayout.ConstrainRectToScreen`; reading and writing the stored rectangles is I/O.
- Album.AlbumData.Reset: the border widths and spacing are not cleared by reset, as in the
  code, so stale border values carry over to the next file.

## Findings

| source | as written | input that shows it | evidently intended | confidence | as-written member | corrected member |
|---|---|---|---|---|---|---|
| aeasy_config.cpp:201-221 | a rectangle overflowing on the right (or bottom) is first moved so that its right (bottom) edge is the screen's, then its width (height) is cut from the right (bottom), so a window wider than the screen ends up off it | Rect(10,0,209,49), minimum 64×64, screen Rect(0,0,99,99) gives Rect(-100,0,-1,63) | cap the size first, then align the edge, so the window lies on the screen | not executed | WindowLayout.WideWindowLeavesScreen | WindowLayout.CorrectedIsOnScreen |
| aeasy_album.cpp:811-853 | when no prefix of the rest fits and the fitting prefix has no white space, the chunk backs up to the empty text, so the pass draws nothing and the next pass starts on the same text one line lower, until the page ends | "abcd" with one-unit characters in a three-unit area, from 25 points above the bottom with 10-point lines: three empty lines, no text | cut a word too wide for the line at a character, drawing at least one character per pass | not executed | Layout.WrapLosesLongWord | Layout.WrapCorrectedDrawsLongWord |
| aeasy_fonts.cpp:378-382 | the "mapping not found" message of getFont names the file-map entry at the font-map index, but TrueType fonts live only in slots 12 to 23 and the file map has 12 entries | none from the application: the defect is latent. A failed registration is a parse error (aeasy_parse.cpp:800-803), output is drawn only after a clean parse, reset clears the user slots (aeasy_fonts.cpp:199-202) and file names are never removed (aeasy_fonts.cpp:194-197), so every defined TrueType slot has its file when getFont runs. In the text alone, a getFont call on slot 12 with no file for it reads entry 12 of a twelve-entry map | name the file that was looked for | not executed | Fonts.MappingMessageReadsPastFileMap | Fonts.FontLookup |
