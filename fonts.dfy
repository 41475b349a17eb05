/**
 * The font registry: the table that maps the font identifiers of an album (CN, TB, or a
 * user-defined one) to a built-in PDF font or to a TrueType file and an encoding, and the
 * cache that makes each TrueType file load once per PDF document.
 *
 * The two process-wide tables of the program (the 24-slot font map and the 12-entry file map)
 * are the two arrays of a FontTable object. The list of installed font files, which the program
 * builds by walking directories, is a sequence of FontFileInfo values given to the operations.
 */
module Fonts {
  import opened Text

  const NumPredefinedFonts := 12
  const NumUserFonts := 12
  const NumFontSlots := NumPredefinedFonts + NumUserFonts
  const NumFileSlots := NumUserFonts

  /** A font size in points. parseFontParameters accepts only sizes above 0, so every text of
      an album has one. */
  type FontSize = r: real | r > 0.0 witness 1.0

  /** One entry of the font map. `encoding` is an index into Encodings, or -1 for none. */
  datatype FontSlot = FontSlot(identifier: string, base14: bool, fontName: string, encoding: int,
                               filePath: string, fileName: string)

  /** One entry of the file map: a TrueType file and the name the PDF library gave it once
      loaded ("" while not loaded in the current document). */
  datatype FileSlot = FileSlot(fileName: string, fontName: string)

  datatype Encoding = Encoding(id: string, language: string, codec: string)

  /** An installed TrueType file, as the directory scan describes it. */
  datatype FontFileInfo = FontFileInfo(fontName: string, fileName: string, filePath: string,
                                       codePageRange1: bv32, codePageRange2: bv32)

  datatype FontError =
    | DuplicateFont          // an identifier equal, ignoring case, to one already defined
    | TooManyFonts           // no free user slot
    | FontFileNotFound       // no installed file holds a font of that name
    | UnsupportedEncoding    // the encoding is not one of Encodings
    | TooManyFontFiles       // the file map is full
    | UndefinedFont          // a font index outside the map
    | FileMappingNotFound(file: string)  // a TrueType font whose file was never mapped
    | FontLoadFailed         // the loader gave no name for the file

  /** The encodings, in the bit order of the OS/2 table's code page range. */
  const Encodings: seq<Encoding> := [
    Encoding("CP1252", "Latin 1", "Windows-1252"),
    Encoding("CP1250", "Latin 2", "Windows-1250"),
    Encoding("CP1251", "Cyrillic", "Windows-1251"),
    Encoding("CP1253", "Greek", "Windows-1253"),
    Encoding("CP1254", "Turkish", "Windows-1254"),
    Encoding("CP1255", "Hebrew", "Windows-1255"),
    Encoding("CP1256", "Arabic", "Windows-1256"),
    Encoding("CP1257", "Windows Baltic", "Windows-1257"),
    Encoding("CP1258", "Vietnamese", "Windows-1258")
  ]

  /** The index of Latin 1, the default encoding. */
  const EncodingLatin1 := 0

  function BuiltIn(id: string, name: string): FontSlot
  {
    FontSlot(id, true, name, -1, "", "")
  }

  const EmptySlot := FontSlot("", false, "", -1, "", "")

  /** The twelve base-14 fonts every album can use. */
  const PredefinedFonts: seq<FontSlot> := [
    BuiltIn("CN", "Courier"), BuiltIn("CB", "Courier-Bold"),
    BuiltIn("CI", "Courier-Oblique"), BuiltIn("CS", "Courier-BoldOblique"),
    BuiltIn("TN", "Times-Roman"), BuiltIn("TB", "Times-Bold"),
    BuiltIn("TI", "Times-Italic"), BuiltIn("TS", "Times-BoldItalic"),
    BuiltIn("HN", "Helvetica"), BuiltIn("HB", "Helvetica-Bold"),
    BuiltIn("HI", "Helvetica-Oblique"), BuiltIn("HS", "Helvetica-BoldOblique")
  ]

  /** The font map as the program starts: the built-in fonts, then twelve free user slots. */
  function InitialFontMap(): (m: seq<FontSlot>)
    ensures |m| == NumFontSlots
    ensures m[..NumPredefinedFonts] == PredefinedFonts
    ensures forall i :: NumPredefinedFonts <= i < NumFontSlots ==> m[i] == EmptySlot
  {
    PredefinedFonts + seq(NumUserFonts, _ => EmptySlot)
  }

  predicate IsFree(f: FontSlot) { f.identifier == [] }

  predicate IsFreeFile(f: FileSlot) { f.fileName == [] }

  /** The path of a font file: the directory, a separator and the file name. */
  function FilePathOf(path: string, name: string): string
  {
    path + "/" + name
  }

  /** The slot a new font takes: the first free one, or -1. */
  function FreeSlot(fonts: seq<FontSlot>): int
  {
    FirstIndex(fonts, IsFree)
  }

  /** The duplicate test of the slot search: slot j holds an identifier equal to fontId ignoring
      case, and j is not the free slot the search has just taken. */
  predicate ClashAt(fonts: seq<FontSlot>, fontId: string, j: int)
    requires 0 <= j < |fonts|
  {
    EqualsIgnoreCase(fonts[j].identifier, fontId) && j != FreeSlot(fonts)
  }

  predicate HasClash(fonts: seq<FontSlot>, fontId: string)
  {
    exists j :: 0 <= j < |fonts| && ClashAt(fonts, fontId, j)
  }

  /** getFontIndex: the first slot whose identifier is exactly fontId, or -1. */
  function FontIndex(fonts: seq<FontSlot>, fontId: string): int
  {
    FirstIndex(fonts, (f: FontSlot) => f.identifier == fontId)
  }

  /** The index of the encoding whose id is exactly id, or -1. */
  function EncodingIndex(id: string): (k: int)
    ensures -1 <= k < |Encodings|
    ensures k >= 0 <==> exists i :: 0 <= i < |Encodings| && Encodings[i].id == id
    ensures k >= 0 ==> Encodings[k].id == id
  {
    FirstIndex(Encodings, (e: Encoding) => e.id == id)
  }

  /** CFontFileList::find: the first installed file whose font name equals fontName ignoring
      case and whose file name and path are both known. */
  function LookupFontFile(files: seq<FontFileInfo>, fontName: string): (r: Option<FontFileInfo>)
    ensures r.Some? <==> exists i :: 0 <= i < |files| && UsableFileFor(files[i], fontName)
    ensures r.Some? ==> r.value in files && UsableFileFor(r.value, fontName)
  {
    var k := FirstIndex(files, (f: FontFileInfo) => UsableFileFor(f, fontName));
    if k < 0 then None else Some(files[k])
  }

  predicate UsableFileFor(f: FontFileInfo, fontName: string)
  {
    EqualsIgnoreCase(fontName, f.fontName) && f.fileName != [] && f.filePath != []
  }

  /** The result of addUserDefinedFont: the new tables and the error, if any. */
  datatype Registration = Registration(fonts: seq<FontSlot>, files: seq<FileSlot>, error: Option<FontError>)

  /** The file map with `file` recorded: unchanged when it is there already, otherwise put in
      the first free entry (an error when there is none). */
  function MapFile(files: seq<FileSlot>, file: string): (r: (seq<FileSlot>, Option<FontError>))
    ensures r.1 == None || r.1 == Some(TooManyFontFiles)
  {
    if FirstIndex(files, (f: FileSlot) => f.fileName == file) >= 0 then (files, None)
    else
      var e := FirstIndex(files, IsFreeFile);
      if e < 0 then (files, Some(TooManyFontFiles))
      else (files[e := files[e].(fileName := file)], None)
  }

  /** CFontManager::addUserDefinedFont on the values of the two tables. */
  function AddFont(fonts: seq<FontSlot>, files: seq<FileSlot>, available: seq<FontFileInfo>,
                   fontId: string, fontName: string, fontEncoding: string): Registration
  {
    var id := FreeSlot(fonts);
    if HasClash(fonts, fontId) then Registration(fonts, files, Some(DuplicateFont))
    else if id < 0 then Registration(fonts, files, Some(TooManyFonts))
    else match LookupFontFile(available, fontName)
      case None => Registration(fonts, files, Some(FontFileNotFound))
      case Some(info) => Register(fonts, files, id, fontId, fontName, fontEncoding, info.fileName, info.filePath)
  }

  /** The second half of a registration, once slot id and the file are found: the slot is
      written, then an unknown encoding is reported, or the file is entered in the file map. */
  function Register(fonts: seq<FontSlot>, files: seq<FileSlot>, id: nat, fontId: string, fontName: string,
                    fontEncoding: string, fileName: string, filePath: string): (r: Registration)
    requires id < |fonts|
    ensures |r.fonts| == |fonts| && r.fonts[id].identifier == fontId
    ensures r.error == Some(UnsupportedEncoding) <==> fontEncoding != [] && EncodingIndex(fontEncoding) < 0
    ensures r.error == Some(UnsupportedEncoding) ==> r.files == files
  {
    var encoding := if fontEncoding == [] then -1 else EncodingIndex(fontEncoding);
    var fonts' := fonts[id := FontSlot(fontId, false, fontName, encoding, filePath, fileName)];
    if encoding < 0 && fontEncoding != [] then Registration(fonts', files, Some(UnsupportedEncoding))
    else
      var (files', error) := MapFile(files, FilePathOf(filePath, fileName));
      Registration(fonts', files', error)
  }

  /** No two defined identifiers are equal ignoring case. */
  ghost predicate DistinctIdentifiers(fonts: seq<FontSlot>)
  {
    forall i, j :: 0 <= i < j < |fonts| && !IsFree(fonts[i]) && !IsFree(fonts[j]) ==>
      !EqualsIgnoreCase(fonts[i].identifier, fonts[j].identifier)
  }

  /** No file is recorded twice in the file map, so each is loaded at most once. */
  ghost predicate DistinctFiles(files: seq<FileSlot>)
  {
    forall i, j :: 0 <= i < j < |files| && !IsFreeFile(files[i]) ==> files[i].fileName != files[j].fileName
  }

  /** Every encoding a slot refers to exists. */
  ghost predicate EncodingsInRange(fonts: seq<FontSlot>)
  {
    forall i :: 0 <= i < |fonts| ==> -1 <= fonts[i].encoding < |Encodings|
  }

  lemma EncodingsInRangeUpdate(fonts: seq<FontSlot>, id: nat, slot: FontSlot)
    requires EncodingsInRange(fonts) && id < |fonts| && -1 <= slot.encoding < |Encodings|
    ensures EncodingsInRange(fonts[id := slot])
  {
  }

  /** initialise: the user identifiers blanked, the built-in slots kept. */
  function ClearUserFonts(fonts: seq<FontSlot>): (r: seq<FontSlot>)
    requires |fonts| == NumFontSlots
    ensures |r| == NumFontSlots
    ensures forall i :: 0 <= i < NumPredefinedFonts ==> r[i] == fonts[i]
    ensures forall i :: NumPredefinedFonts <= i < NumFontSlots ==> r[i] == fonts[i].(identifier := [])
  {
    fonts[..NumPredefinedFonts] + seq(NumUserFonts, i requires 0 <= i < NumUserFonts =>
      fonts[NumPredefinedFonts + i].(identifier := []))
  }

  /** initialise: every loaded name forgotten, the file names kept. */
  function ForgetLoadedNames(files: seq<FileSlot>): (r: seq<FileSlot>)
    ensures |r| == |files|
    ensures forall i :: 0 <= i < |files| ==> r[i] == files[i].(fontName := [])
  {
    seq(|files|, i requires 0 <= i < |files| => files[i].(fontName := []))
  }

  /** The font and encoding the PDF library is asked for. */
  datatype FontRequest = FontRequest(name: string, encoding: string)

  datatype FontResult = Font(request: FontRequest) | NoFont(error: FontError)

  /** The encoding a slot asks for: its own, or Latin 1. */
  function EncodingOf(slot: FontSlot): string
    requires -1 <= slot.encoding < |Encodings|
  {
    if slot.encoding < 0 then Encodings[EncodingLatin1].id else Encodings[slot.encoding].id
  }

  /** The file-cache step of getFont for the file-map entry k: load the file only while the
      entry has no name; the result is the new file map and whether the loader was called. */
  function LoadOnce(files: seq<FileSlot>, k: nat, load: string -> string): (r: (seq<FileSlot>, bool))
    requires k < |files|
  {
    if files[k].fontName == [] then (files[k := files[k].(fontName := load(files[k].fileName))], true)
    else (files, false)
  }

  /** After a successful registration, getFontIndex finds the new identifier in the slot it
      was given: no earlier slot can hold it, or it would have been a duplicate. */
  lemma AddedFontIsFound(fonts: seq<FontSlot>, files: seq<FileSlot>, available: seq<FontFileInfo>,
                         fontId: string, fontName: string, fontEncoding: string)
    requires AddFont(fonts, files, available, fontId, fontName, fontEncoding).error == None
    ensures var r := AddFont(fonts, files, available, fontId, fontName, fontEncoding);
            var id := FreeSlot(fonts);
            && 0 <= id < |fonts| && FontIndex(r.fonts, fontId) == id
            && r.fonts[id].identifier == fontId && r.fonts[id].fontName == fontName && !r.fonts[id].base14
            && (forall j :: 0 <= j < |fonts| && j != id ==> r.fonts[j] == fonts[j])
  {
    var r := AddFont(fonts, files, available, fontId, fontName, fontEncoding);
    var id := FreeSlot(fonts);
    forall j | 0 <= j < id
      ensures r.fonts[j].identifier != fontId
    {
      if fonts[j].identifier == fontId {
        assert ClashAt(fonts, fontId, j);
      }
    }
    var info := LookupFontFile(available, fontName).value;
    assert r.fonts[id] == FontSlot(fontId, false, fontName, r.fonts[id].encoding, info.filePath, info.fileName);
    var k := FontIndex(r.fonts, fontId);
    assert k >= 0 ==> r.fonts[k].identifier == fontId;
    assert k == id;
  }

  /** A duplicate, for a non-empty identifier, is exactly a defined identifier equal to it
      ignoring case. */
  lemma DuplicateIff(fonts: seq<FontSlot>, files: seq<FileSlot>, available: seq<FontFileInfo>,
                     fontId: string, fontName: string, fontEncoding: string)
    requires fontId != []
    ensures AddFont(fonts, files, available, fontId, fontName, fontEncoding).error == Some(DuplicateFont)
            <==> exists j :: 0 <= j < |fonts| && !IsFree(fonts[j]) && EqualsIgnoreCase(fonts[j].identifier, fontId)
  {
    if exists j :: 0 <= j < |fonts| && !IsFree(fonts[j]) && EqualsIgnoreCase(fonts[j].identifier, fontId) {
      var j :| 0 <= j < |fonts| && !IsFree(fonts[j]) && EqualsIgnoreCase(fonts[j].identifier, fontId);
      assert ClashAt(fonts, fontId, j);
    }
  }

  /** Registration keeps identifiers distinct ignoring case. */
  lemma AddFontKeepsDistinctIdentifiers(fonts: seq<FontSlot>, files: seq<FileSlot>, available: seq<FontFileInfo>,
                                        fontId: string, fontName: string, fontEncoding: string)
    requires DistinctIdentifiers(fonts)
    ensures DistinctIdentifiers(AddFont(fonts, files, available, fontId, fontName, fontEncoding).fonts)
  {
    var r := AddFont(fonts, files, available, fontId, fontName, fontEncoding);
    var id := FreeSlot(fonts);
    if r.fonts != fonts {
      forall j | 0 <= j < |fonts| && j != id && !IsFree(fonts[j])
        ensures !EqualsIgnoreCase(fonts[j].identifier, fontId) && !EqualsIgnoreCase(fontId, fonts[j].identifier)
      {
        assert !ClashAt(fonts, fontId, j);
        EqualsIgnoreCaseSymmetric(fontId, fonts[j].identifier);
      }
    }
  }

  /** Registration never records a file twice in the file map. */
  lemma AddFontKeepsDistinctFiles(fonts: seq<FontSlot>, files: seq<FileSlot>, available: seq<FontFileInfo>,
                                  fontId: string, fontName: string, fontEncoding: string)
    requires DistinctFiles(files)
    ensures DistinctFiles(AddFont(fonts, files, available, fontId, fontName, fontEncoding).files)
  {
    var r := AddFont(fonts, files, available, fontId, fontName, fontEncoding);
    if r.files != files {
      var info := LookupFontFile(available, fontName).value;
      var file := FilePathOf(info.filePath, info.fileName);
      var e := FirstIndex(files, IsFreeFile);
      assert FirstIndex(files, (f: FileSlot) => f.fileName == file) < 0;
      assert r.files == files[e := files[e].(fileName := file)];
      assert forall j :: 0 <= j < |files| ==> files[j].fileName != file;
    }
  }

  /** After a successful registration the new font's file is in the file map, so getFont can
      find it. */
  lemma AddedFileIsMapped(fonts: seq<FontSlot>, files: seq<FileSlot>, available: seq<FontFileInfo>,
                          fontId: string, fontName: string, fontEncoding: string)
    requires AddFont(fonts, files, available, fontId, fontName, fontEncoding).error == None
    ensures var r := AddFont(fonts, files, available, fontId, fontName, fontEncoding);
            var slot := r.fonts[FreeSlot(fonts)];
            FirstIndex(r.files, (f: FileSlot) => f.fileName == FilePathOf(slot.filePath, slot.fileName)) >= 0
  {
    var r := AddFont(fonts, files, available, fontId, fontName, fontEncoding);
    var info := LookupFontFile(available, fontName).value;
    var file := FilePathOf(info.filePath, info.fileName);
    var k := FirstIndex(files, (f: FileSlot) => f.fileName == file);
    if k < 0 {
      var e := FirstIndex(files, IsFreeFile);
      assert r.files[e].fileName == file;
    } else {
      assert r.files[k].fileName == file;
    }
  }

  /** The three errors found before anything is written leave both tables unchanged. */
  lemma FailedAddFont(fonts: seq<FontSlot>, files: seq<FileSlot>, available: seq<FontFileInfo>,
                      fontId: string, fontName: string, fontEncoding: string)
    ensures var r := AddFont(fonts, files, available, fontId, fontName, fontEncoding);
            r.error in {Some(DuplicateFont), Some(TooManyFonts), Some(FontFileNotFound)} ==>
              r.fonts == fonts && r.files == files
  {
  }

  /** An unknown encoding is reported exactly when the identifier is free, a slot is free,
      the file is known and the encoding named is not in the table; the slot has been written
      by then, and the file map is unchanged. */
  lemma UnsupportedEncodingAddFont(fonts: seq<FontSlot>, files: seq<FileSlot>, available: seq<FontFileInfo>,
                                   fontId: string, fontName: string, fontEncoding: string)
    ensures var r := AddFont(fonts, files, available, fontId, fontName, fontEncoding);
            r.error == Some(UnsupportedEncoding) <==>
              !HasClash(fonts, fontId) && FreeSlot(fonts) >= 0 && LookupFontFile(available, fontName).Some?
              && fontEncoding != [] && EncodingIndex(fontEncoding) < 0
    ensures var r := AddFont(fonts, files, available, fontId, fontName, fontEncoding);
            r.error == Some(UnsupportedEncoding) ==>
              r.files == files && r.fonts[FreeSlot(fonts)].identifier == fontId
  {
  }

  /** Registration never touches the built-in fonts while they are all defined. */
  lemma AddFontKeepsPredefined(fonts: seq<FontSlot>, files: seq<FileSlot>, available: seq<FontFileInfo>,
                               fontId: string, fontName: string, fontEncoding: string)
    requires |fonts| == NumFontSlots
    requires forall i :: 0 <= i < NumPredefinedFonts ==> !IsFree(fonts[i])
    ensures AddFont(fonts, files, available, fontId, fontName, fontEncoding).fonts[..NumPredefinedFonts]
            == fonts[..NumPredefinedFonts]
  {
    var r := AddFont(fonts, files, available, fontId, fontName, fontEncoding);
    var id := FreeSlot(fonts);
    assert id < 0 || id >= NumPredefinedFonts;
    assert |r.fonts| == |fonts|;
    assert forall i :: 0 <= i < NumPredefinedFonts ==> r.fonts[i] == fonts[i];
  }

  /** The built-in identifiers are distinct ignoring case, and none is free. */
  lemma InitialFontMapWellFormed()
    ensures DistinctIdentifiers(InitialFontMap()) && EncodingsInRange(InitialFontMap())
    ensures forall i :: 0 <= i < NumPredefinedFonts ==> !IsFree(InitialFontMap()[i])
  {
    var m := InitialFontMap();
    forall i | 0 <= i < |m|
      ensures -1 <= m[i].encoding < |Encodings|
      ensures i < NumPredefinedFonts ==> m[i] == PredefinedFonts[i] && !IsFree(m[i])
    {
      if i < NumPredefinedFonts {
        assert m[i] == m[..NumPredefinedFonts][i];
        PredefinedKey(i);
      }
    }
    forall i, j | 0 <= i < j < |m| && !IsFree(m[i]) && !IsFree(m[j])
      ensures !EqualsIgnoreCase(m[i].identifier, m[j].identifier)
    {
      PredefinedKey(i);
      PredefinedKey(j);
      var a, b := m[i].identifier, m[j].identifier;
      if i / 4 != j / 4 {
        assert LowerChar(a[0]) != LowerChar(b[0]);
      } else {
        assert LowerChar(a[1]) != LowerChar(b[1]);
      }
    }
  }

  /** A built-in identifier is two letters: the family (Courier, Times, Helvetica) and the
      style (normal, bold, italic, both), in that order in the table. */
  lemma PredefinedKey(i: nat)
    requires i < NumPredefinedFonts
    ensures var id := PredefinedFonts[i].identifier;
            && |id| == 2 && LowerChar(id[0]) == "cth"[i / 4] && LowerChar(id[1]) == "nbis"[i % 4]
            && PredefinedFonts[i].encoding == -1
  {
  }

  /** After initialise, with the built-in fonts defined, the first user slot is free, and a new
      identifier unlike every built-in one is accepted by the slot search. */
  lemma ClearedMapHasRoom(fonts: seq<FontSlot>, fontId: string)
    requires |fonts| == NumFontSlots
    requires forall i :: 0 <= i < NumPredefinedFonts ==> !IsFree(fonts[i])
    requires forall i :: 0 <= i < NumPredefinedFonts ==> !EqualsIgnoreCase(fonts[i].identifier, fontId)
    requires fontId != []
    ensures FreeSlot(ClearUserFonts(fonts)) == NumPredefinedFonts
    ensures !HasClash(ClearUserFonts(fonts), fontId)
  {
    var c := ClearUserFonts(fonts);
    assert IsFree(c[NumPredefinedFonts]);
    assert FreeSlot(c) == NumPredefinedFonts;
  }

  /** initialise keeps the file map free of repeated files. */
  lemma ForgetLoadedNamesKeepsDistinctFiles(files: seq<FileSlot>)
    requires DistinctFiles(files)
    ensures DistinctFiles(ForgetLoadedNames(files))
  {
  }

  /** A file whose load gave it a name is not loaded again until initialise forgets the name. */
  lemma LoadedOnce(files: seq<FileSlot>, k: nat, load: string -> string, reload: string -> string)
    requires k < |files|
    ensures var (files', loaded) := LoadOnce(files, k, load);
            files'[k].fontName != [] ==> LoadOnce(files', k, reload) == (files', false)
    ensures LoadOnce(ForgetLoadedNames(files), k, load).1
  {
  }

  /** The result of getFont for the slot at index, and the file map after it: a built-in font
      by name in Latin 1, or a TrueType font by the name its file gave when loaded. */
  function FontLookup(fonts: seq<FontSlot>, files: seq<FileSlot>, index: int, load: string -> string)
    : (r: (FontResult, seq<FileSlot>))
    requires EncodingsInRange(fonts)
    ensures |r.1| == |files|
    ensures r.0.Font? ==> 0 <= index < |fonts|
    ensures r.0 == NoFont(UndefinedFont) <==> !(0 <= index < |fonts|)
    ensures 0 <= index < |fonts| && fonts[index].base14 ==>
              r == (Font(FontRequest(fonts[index].fontName, Encodings[EncodingLatin1].id)), files)
    ensures 0 <= index < |fonts| && !fonts[index].base14 && r.0.Font? ==>
              exists k :: 0 <= k < |files| && files[k].fileName == FilePathOf(fonts[index].filePath, fonts[index].fileName)
                          && r.1[k].fontName != [] && r.0.request == FontRequest(r.1[k].fontName, EncodingOf(fonts[index]))
    ensures r.0.NoFont? && r.0.error.FileMappingNotFound? ==>
              && 0 <= index < |fonts| && r.0.error.file == FilePathOf(fonts[index].filePath, fonts[index].fileName)
              && forall k :: 0 <= k < |files| ==> files[k].fileName != r.0.error.file
    ensures forall j :: 0 <= j < |files| ==> r.1[j].fileName == files[j].fileName
    ensures forall j :: 0 <= j < |files| && files[j].fontName != [] ==> r.1[j] == files[j]
  {
    if !(0 <= index < |fonts|) then (NoFont(UndefinedFont), files)
    else
      var slot := fonts[index];
      if slot.base14 then (Font(FontRequest(slot.fontName, Encodings[EncodingLatin1].id)), files)
      else
        var k := FirstIndex(files, (f: FileSlot) => f.fileName == FilePathOf(slot.filePath, slot.fileName));
        if k < 0 then (NoFont(FileMappingNotFound(FilePathOf(slot.filePath, slot.fileName))), files)
        else
          var files' := LoadOnce(files, k, load).0;
          if files'[k].fontName == [] then (NoFont(FontLoadFailed), files')
          else (Font(FontRequest(files'[k].fontName, EncodingOf(slot))), files')
  }

  /** The file the "mapping not found" message of getFont names, as written: the file-map entry
      at the font-map index, or None where that index is past the end of the file map. */
  function MappingMessageAsWritten(files: seq<FileSlot>, index: int): (name: Option<string>)
    ensures name.Some? <==> 0 <= index < |files|
  {
    if 0 <= index < |files| then Some(files[index].fileName) else None
  }

  /** Only user slots hold TrueType fonts, and their indexes (12 to 23) are past the end of the
      twelve-entry file map: the message reads outside the file map for every such font. The
      defect is latent: drawing follows only a clean parse, after which every defined TrueType
      slot has its file in the file map, so the branch is not reached. */
  lemma MappingMessageReadsPastFileMap(fonts: seq<FontSlot>, files: seq<FileSlot>, index: int)
    requires |fonts| == NumFontSlots && |files| == NumFileSlots && fonts[..NumPredefinedFonts] == PredefinedFonts
    requires 0 <= index < |fonts| && !fonts[index].base14
    ensures MappingMessageAsWritten(files, index) == None
  {
    forall i | 0 <= i < NumPredefinedFonts
      ensures fonts[i].base14
    {
      assert fonts[i] == fonts[..NumPredefinedFonts][i];
    }
  }

  class FontTable {
    const fontMap: array<FontSlot>
    const fontFileMap: array<FileSlot>

    ghost predicate Valid()
      reads this, fontMap
    {
      && fontMap.Length == NumFontSlots && fontFileMap.Length == NumFileSlots
      && fontMap as object != fontFileMap
      && EncodingsInRange(fontMap[..])
    }

    /** The tables as the program starts. */
    constructor ()
      ensures Valid() && fresh(fontMap) && fresh(fontFileMap)
      ensures fontMap[..] == InitialFontMap()
      ensures fontFileMap[..] == seq(NumFileSlots, _ => FileSlot("", ""))
    {
      var initial := InitialFontMap();
      fontMap := new FontSlot[NumFontSlots](i requires 0 <= i < NumFontSlots => initial[i]);
      fontFileMap := new FileSlot[NumFileSlots](_ => FileSlot("", ""));
      new;
      assert fontMap[..] == initial;
      assert forall i :: 0 <= i < NumPredefinedFonts ==> initial[i] == PredefinedFonts[i];
    }

    /** CFontManager::initialise: makes every file load again in the next document and
        removes the user-defined fonts. */
    method Initialise()
      requires Valid()
      modifies fontMap, fontFileMap
      ensures Valid()
      ensures fontMap[..] == ClearUserFonts(old(fontMap[..]))
      ensures fontFileMap[..] == ForgetLoadedNames(old(fontFileMap[..]))
    {
      var i := 0;
      while i < fontFileMap.Length
        invariant 0 <= i <= fontFileMap.Length
        invariant forall j :: 0 <= j < i ==> fontFileMap[j] == old(fontFileMap[j]).(fontName := [])
        invariant forall j :: i <= j < fontFileMap.Length ==> fontFileMap[j] == old(fontFileMap[j])
        invariant fontMap[..] == old(fontMap[..])
      {
        fontFileMap[i] := fontFileMap[i].(fontName := []);
        i := i + 1;
      }
      assert fontFileMap[..] == ForgetLoadedNames(old(fontFileMap[..]));
      i := NumPredefinedFonts;
      while i < NumPredefinedFonts + NumUserFonts
        invariant NumPredefinedFonts <= i <= NumFontSlots
        invariant forall j :: 0 <= j < NumPredefinedFonts ==> fontMap[j] == old(fontMap[j])
        invariant forall j :: NumPredefinedFonts <= j < i ==> fontMap[j] == old(fontMap[j]).(identifier := [])
        invariant forall j :: i <= j < NumFontSlots ==> fontMap[j] == old(fontMap[j])
        invariant fontFileMap[..] == ForgetLoadedNames(old(fontFileMap[..]))
      {
        fontMap[i] := fontMap[i].(identifier := []);
        i := i + 1;
      }
    }

    /** CFontManager::getFontIndex: the first slot whose identifier is exactly fontId. */
    method GetFontIndex(fontId: string) returns (id: int)
      requires Valid()
      ensures -1 <= id < NumFontSlots
      ensures id >= 0 ==> fontMap[id].identifier == fontId
                          && forall j :: 0 <= j < id ==> fontMap[j].identifier != fontId
      ensures id < 0 ==> forall j :: 0 <= j < NumFontSlots ==> fontMap[j].identifier != fontId
      ensures id == FontIndex(fontMap[..], fontId)
    {
      id := -1;
      var i := 0;
      while i < fontMap.Length && id < 0
        invariant 0 <= i <= fontMap.Length
        invariant -1 <= id < i
        invariant id >= 0 ==> fontMap[id].identifier == fontId
        invariant forall j :: 0 <= j < i && j != id ==> fontMap[j].identifier != fontId
        invariant id >= 0 ==> i == id + 1
      {
        if fontId == fontMap[i].identifier {
          id := i;
        }
        i := i + 1;
      }
      ghost var k := FontIndex(fontMap[..], fontId);
      assert k == id by {
        if k >= 0 { assert fontMap[..][k].identifier == fontId; }
        if id >= 0 { assert fontMap[..][id].identifier == fontId; }
      }
    }

    /** CFontManager::addUserDefinedFont: the duplicate check and the free-slot search in one
        pass over the map, then the file lookup, the encoding and the file-map entry. */
    method AddUserDefinedFont(available: seq<FontFileInfo>, fontId: string, fontName: string,
                              fontEncoding: string)
      returns (error: Option<FontError>)
      requires Valid()
      modifies fontMap, fontFileMap
      ensures Valid()
      ensures var r := AddFont(old(fontMap[..]), old(fontFileMap[..]), available, fontId, fontName, fontEncoding);
              fontMap[..] == r.fonts && fontFileMap[..] == r.files && error == r.error
    {
      ghost var fonts, files := fontMap[..], fontFileMap[..];
      var id, duplicate := ScanSlots(fontId);
      if duplicate {
        return Some(DuplicateFont);
      }
      if id < 0 {
        return Some(TooManyFonts);
      }
      var found, fileName, filePath := FindFontFile(available, fontName);
      if !found {
        return Some(FontFileNotFound);
      }
      error := WriteSlot(id, fontId, fontName, fontEncoding, fileName, filePath);
    }

    /** The end of addUserDefinedFont: the slot written with the font's encoding, then an
        unknown encoding reported or the file entered in the file map. */
    method WriteSlot(id: nat, fontId: string, fontName: string, fontEncoding: string, fileName: string,
                     filePath: string)
      returns (error: Option<FontError>)
      requires Valid() && id < NumFontSlots
      modifies fontMap, fontFileMap
      ensures Valid()
      ensures var r := Register(old(fontMap[..]), old(fontFileMap[..]), id, fontId, fontName, fontEncoding,
                                fileName, filePath);
              fontMap[..] == r.fonts && fontFileMap[..] == r.files && error == r.error
    {
      ghost var fonts, files := fontMap[..], fontFileMap[..];
      ghost var r := Register(fonts, files, id, fontId, fontName, fontEncoding, fileName, filePath);
      var encoding := -1;
      if |fontEncoding| > 0 {
        encoding := FindEncoding(fontEncoding);
      }
      assert encoding == if fontEncoding == [] then -1 else EncodingIndex(fontEncoding);
      var slot := FontSlot(fontId, false, fontName, encoding, filePath, fileName);
      EncodingsInRangeUpdate(fonts, id, slot);
      fontMap[id] := slot;
      assert fontMap[..] == fonts[id := slot] == r.fonts;
      assert fontFileMap[..] == files;
      if |fontEncoding| > 0 && encoding == -1 {
        return Some(UnsupportedEncoding);
      }
      error := MapFontFile(FilePathOf(filePath, fileName));
    }

    /** The loop of addUserDefinedFont over the font map: it stops at a defined identifier equal
        to fontId ignoring case, and notes the first free slot on the way. */
    method ScanSlots(fontId: string) returns (id: int, duplicate: bool)
      requires Valid()
      ensures duplicate == HasClash(fontMap[..], fontId)
      ensures !duplicate ==> id == FreeSlot(fontMap[..])
    {
      ghost var fonts := fontMap[..];
      id := -1;
      duplicate := false;
      var i := 0;
      while i < fontMap.Length && !duplicate
        invariant 0 <= i <= fontMap.Length
        invariant -1 <= id < i
        invariant id >= 0 ==> IsFree(fonts[id]) && forall j :: 0 <= j < id ==> !IsFree(fonts[j])
        invariant id < 0 ==> forall j :: 0 <= j < i ==> !IsFree(fonts[j])
        invariant !duplicate ==> forall j :: 0 <= j < i ==> !ClashAt(fonts, fontId, j)
        invariant duplicate ==> HasClash(fonts, fontId)
      {
        if fontMap[i].identifier == [] && id < 0 {
          id := i;
          assert FreeSlot(fonts) == i;
        } else if EqualsIgnoreCase(fontMap[i].identifier, fontId) {
          assert ClashAt(fonts, fontId, i) by {
            if id >= 0 { assert FreeSlot(fonts) == id; }
            else { assert FreeSlot(fonts) != i; }
          }
          duplicate := true;
        } else {
          assert !ClashAt(fonts, fontId, i);
        }
        i := i + 1;
      }
      assert !duplicate ==> id == FreeSlot(fonts);
    }

    /** The file-map part of addUserDefinedFont: look for the file, and if it is absent put it
        in the first free entry. */
    method MapFontFile(file: string) returns (error: Option<FontError>)
      requires Valid()
      modifies fontFileMap
      ensures Valid()
      ensures (fontFileMap[..], error) == MapFile(old(fontFileMap[..]), file)
    {
      ghost var files := fontFileMap[..];
      var mapped := false;
      var i := 0;
      while i < fontFileMap.Length && !mapped
        invariant 0 <= i <= fontFileMap.Length
        invariant mapped <==> FirstIndex(files, (f: FileSlot) => f.fileName == file) == i - 1 >= 0
        invariant !mapped ==> forall j :: 0 <= j < i ==> files[j].fileName != file
      {
        if file == fontFileMap[i].fileName {
          mapped := true;
        }
        i := i + 1;
      }
      if !mapped {
        i := 0;
        while i < fontFileMap.Length && !mapped
          invariant 0 <= i <= fontFileMap.Length
          invariant !mapped ==> fontFileMap[..] == files && forall j :: 0 <= j < i ==> !IsFreeFile(files[j])
          invariant mapped ==> FirstIndex(files, IsFreeFile) == i - 1 >= 0
                               && fontFileMap[..] == files[i - 1 := files[i - 1].(fileName := file)]
        {
          if fontFileMap[i].fileName == [] {
            fontFileMap[i] := fontFileMap[i].(fileName := file);
            mapped := true;
          }
          i := i + 1;
        }
      }
      error := if mapped then None else Some(TooManyFontFiles);
    }

    /** The file-cache part of getFont for the slot at index: a built-in font is asked for by
        name in Latin 1; a TrueType font needs its file's entry in the file map, whose name is
        obtained from `load` only while the entry has none. `loaded` says whether `load` was
        called. */
    method GetFont(index: int, load: string -> string) returns (font: FontResult, loaded: bool)
      requires Valid()
      modifies fontFileMap
      ensures Valid()
      ensures !(0 <= index < NumFontSlots) ==> font == NoFont(UndefinedFont) && !loaded
      ensures 0 <= index < NumFontSlots && fontMap[index].base14 ==>
        font == Font(FontRequest(fontMap[index].fontName, Encodings[EncodingLatin1].id)) && !loaded
      ensures 0 <= index < NumFontSlots && !fontMap[index].base14 ==>
        var slot := fontMap[index];
        var k := FirstIndex(old(fontFileMap[..]), (f: FileSlot) => f.fileName == FilePathOf(slot.filePath, slot.fileName));
        if k < 0 then font == NoFont(FileMappingNotFound(FilePathOf(slot.filePath, slot.fileName))) && !loaded
        else
          && (fontFileMap[..], loaded) == LoadOnce(old(fontFileMap[..]), k, load)
          && font == (if fontFileMap[k].fontName == [] then NoFont(FontLoadFailed)
                      else Font(FontRequest(fontFileMap[k].fontName, EncodingOf(slot))))
      ensures !loaded ==> fontFileMap[..] == old(fontFileMap[..])
      ensures (font, fontFileMap[..]) == FontLookup(fontMap[..], old(fontFileMap[..]), index, load)
    {
      loaded := false;
      if !(0 <= index < fontMap.Length) {
        return NoFont(UndefinedFont), false;
      }
      var slot := fontMap[index];
      assert slot == fontMap[..][index];
      if slot.base14 {
        return Font(FontRequest(slot.fontName, Encodings[EncodingLatin1].id)), false;
      }
      var file := FilePathOf(slot.filePath, slot.fileName);
      ghost var files := fontFileMap[..];
      var fmidx := -1;
      var i := 0;
      while i < fontFileMap.Length && fmidx < 0
        invariant 0 <= i <= fontFileMap.Length
        invariant fmidx >= 0 ==> fmidx == i - 1 && files[fmidx].fileName == file
        invariant forall j :: 0 <= j < i && j != fmidx ==> files[j].fileName != file
      {
        if file == fontFileMap[i].fileName {
          fmidx := i;
        }
        i := i + 1;
      }
      assert fmidx == FirstIndex(files, (f: FileSlot) => f.fileName == file);
      if fmidx < 0 {
        return NoFont(FileMappingNotFound(file)), false;
      }
      if fontFileMap[fmidx].fontName == [] {
        fontFileMap[fmidx] := fontFileMap[fmidx].(fontName := load(fontFileMap[fmidx].fileName));
        loaded := true;
      }
      if fontFileMap[fmidx].fontName == [] {
        font := NoFont(FontLoadFailed);
      } else {
        font := Font(FontRequest(fontFileMap[fmidx].fontName, EncodingOf(slot)));
      }
    }
  }

  /** CFontFileList::find over the installed files. */
  method FindFontFile(files: seq<FontFileInfo>, fontName: string)
    returns (found: bool, fileName: string, filePath: string)
    ensures found <==> LookupFontFile(files, fontName).Some?
    ensures found ==> fileName == LookupFontFile(files, fontName).value.fileName
                      && filePath == LookupFontFile(files, fontName).value.filePath
  {
    fileName, filePath := [], [];
    var i := 0;
    while i < |files|
      invariant 0 <= i <= |files|
      invariant forall j :: 0 <= j < i ==> !UsableFileFor(files[j], fontName)
    {
      var f := files[i];
      if EqualsIgnoreCase(fontName, f.fontName) {
        fileName, filePath := f.fileName, f.filePath;
        if |fileName| > 0 && |filePath| > 0 {
          assert FirstIndex(files, (g: FontFileInfo) => UsableFileFor(g, fontName)) == i;
          return true, fileName, filePath;
        }
      }
      i := i + 1;
    }
    return false, fileName, filePath;
  }

  /** CFontFileList::contains: whether some installed file has exactly this file name. */
  method ContainsFile(files: seq<FontFileInfo>, fileName: string) returns (b: bool)
    ensures b <==> exists i :: 0 <= i < |files| && files[i].fileName == fileName
  {
    var i := 0;
    while i < |files|
      invariant 0 <= i <= |files|
      invariant forall j :: 0 <= j < i ==> files[j].fileName != fileName
    {
      if fileName == files[i].fileName {
        return true;
      }
      i := i + 1;
    }
    return false;
  }

  /** The encoding lookup of addUserDefinedFont. */
  method FindEncoding(id: string) returns (k: int)
    ensures k == EncodingIndex(id)
  {
    k := -1;
    var i := 0;
    while i < |Encodings| && k == -1
      invariant 0 <= i <= |Encodings|
      invariant k == -1 ==> forall j :: 0 <= j < i ==> Encodings[j].id != id
      invariant k != -1 ==> k == i - 1 >= 0 && Encodings[k].id == id
                            && forall j :: 0 <= j < k ==> Encodings[j].id != id
    {
      if Encodings[i].id == id {
        k := i;
      }
      i := i + 1;
    }
  }

  /** The mask of bit i, built as the listing builds it: one, shifted left i times. */
  function MaskBit(i: nat): bv32
    requires i < 32
  {
    if i == 0 then 1 else MaskBit(i - 1) << 1
  }

  lemma MaskStep(i: nat)
    requires i < 31
    ensures MaskBit(i) << 1 == MaskBit(i + 1)
  {
  }

  /** Whether range has any of the bits of mask. */
  predicate Masked(range: bv32, mask: bv32)
  {
    range & mask != 0
  }

  predicate HasCodePage(range: bv32, i: nat)
    requires i < 32
  {
    Masked(range, MaskBit(i))
  }

  /** "CP1251 (Cyrillic)". */
  function CodePageLabel(i: nat): (s: string)
    requires i < |Encodings|
    ensures s != [] && NoNewline(s)
  {
    EncodingIdOneLine(i);
    EncodingLanguageOneLine(i);
    NoNewlineAppend(Encodings[i].id + " (", Encodings[i].language);
    NoNewlineAppend(Encodings[i].id + " (" + Encodings[i].language, ")");
    Encodings[i].id + " (" + Encodings[i].language + ")"
  }

  /** The ids and the language names of the encodings have no newline. */
  lemma EncodingIdOneLine(i: nat)
    requires i < |Encodings|
    ensures NoNewline(Encodings[i].id + " (")
  {
  }

  lemma EncodingLanguageOneLine(i: nat)
    requires i < |Encodings|
    ensures NoNewline(Encodings[i].language)
  {
  }

  lemma NoNewlineAppend(a: string, b: string)
    requires NoNewline(a) && NoNewline(b)
    ensures NoNewline(a + b)
  {
  }

  /** The labels of the code pages among the first n whose bit is set, in bit order. */
  function CodePageLabels(range: bv32, n: nat): (ls: seq<string>)
    requires n <= |Encodings|
    ensures |ls| <= n
    ensures forall k :: 0 <= k < |ls| ==> ls[k] != [] && NoNewline(ls[k])
  {
    if n == 0 then []
    else CodePageLabels(range, n - 1) + (if HasCodePage(range, n - 1) then [CodePageLabel(n - 1)] else [])
  }

  /** The lines joined with newlines, with none before the first. */
  function JoinLines(ls: seq<string>): string
  {
    if ls == [] then []
    else if |ls| == 1 then ls[0]
    else JoinLines(ls[..|ls| - 1]) + "\n" + ls[|ls| - 1]
  }

  /** The text cut at every newline. */
  function SplitLines(s: string): (ls: seq<string>)
    ensures ls != []
  {
    var k := LastNewline(s, |s|);
    if k < 0 then [s] else SplitLines(s[..k]) + [s[k + 1..]]
  }

  /** The index of the last newline before n, or -1. */
  function LastNewline(s: string, n: nat): (k: int)
    requires n <= |s|
    ensures -1 <= k < n
    ensures k >= 0 ==> s[k] == '\n'
    ensures forall j :: k < j < n ==> s[j] != '\n'
  {
    if n == 0 then -1 else if s[n - 1] == '\n' then n - 1 else LastNewline(s, n - 1)
  }

  predicate NoNewline(s: string)
  {
    '\n' !in s
  }

  /** Joining non-empty lines gives the empty text only when there are no lines. */
  lemma {:induction false} JoinLinesEmpty(ls: seq<string>)
    requires forall i :: 0 <= i < |ls| ==> ls[i] != []
    ensures JoinLines(ls) == [] <==> ls == []
  {
    if |ls| > 1 {
      JoinLinesEmpty(ls[..|ls| - 1]);
    }
  }

  /** Joining lines without newlines and cutting the result at its newlines gives the lines back. */
  lemma {:induction false} SplitJoinLines(ls: seq<string>)
    requires ls != []
    requires forall i :: 0 <= i < |ls| ==> NoNewline(ls[i])
    ensures SplitLines(JoinLines(ls)) == ls
  {
    if |ls| == 1 {
      assert LastNewline(ls[0], |ls[0]|) < 0;
    } else {
      var init, last := ls[..|ls| - 1], ls[|ls| - 1];
      SplitAtLastNewline(JoinLines(init), last);
      SplitJoinLines(init);
      assert init + [last] == ls;
    }
  }

  /** Cutting a + newline + b, where b has no newline, at its last newline gives a and b. */
  lemma SplitAtLastNewline(a: string, b: string)
    requires NoNewline(b)
    ensures SplitLines(a + "\n" + b) == SplitLines(a) + [b]
  {
    var s := a + "\n" + b;
    var k := LastNewline(s, |s|);
    assert s[|a|] == '\n';
    assert k == |a|;
    assert s[..k] == a;
    assert s[k + 1..] == b;
  }

  /** The code page list names a code page exactly when its bit is set. */
  lemma {:induction false} CodePageListed(range: bv32, n: nat, i: nat)
    requires i < n <= |Encodings|
    ensures CodePageLabel(i) in CodePageLabels(range, n) <==> HasCodePage(range, i)
  {
    var ls := CodePageLabels(range, n - 1);
    if i < n - 1 {
      CodePageListed(range, n - 1, i);
      LabelsDistinct(i, n - 1);
    } else {
      CodePageNotYetListed(range, n - 1, i);
    }
  }

  /** Two code pages have different labels: the sixth characters of their ids differ. */
  lemma LabelsDistinct(i: nat, j: nat)
    requires i < |Encodings| && j < |Encodings| && i != j
    ensures CodePageLabel(i) != CodePageLabel(j)
  {
    assert CodePageLabel(i)[5] == Encodings[i].id[5] && CodePageLabel(j)[5] == Encodings[j].id[5];
    assert Encodings[i].id[5] == "201345678"[i] && Encodings[j].id[5] == "201345678"[j];
  }

  lemma {:induction false} CodePageNotYetListed(range: bv32, n: nat, i: nat)
    requires n <= i < |Encodings|
    ensures CodePageLabel(i) !in CodePageLabels(range, n)
  {
    if n > 0 {
      CodePageNotYetListed(range, n - 1, i);
      LabelsDistinct(i, n - 1);
    }
  }

  /** The listing is empty exactly when none of the nine bits is set. */
  lemma {:induction false} CodePagesEmptyIff(range: bv32, n: nat)
    requires n <= |Encodings|
    ensures JoinLines(CodePageLabels(range, n)) == [] <==> forall i :: 0 <= i < n ==> !HasCodePage(range, i)
  {
    var ls := CodePageLabels(range, n);
    JoinLinesEmpty(ls);
    if n > 0 {
      CodePagesEmptyIff(range, n - 1);
      JoinLinesEmpty(CodePageLabels(range, n - 1));
    }
  }

  /** Appending one line to joined lines. */
  lemma JoinLinesSnoc(ls: seq<string>, x: string)
    requires forall i :: 0 <= i < |ls| ==> ls[i] != []
    ensures JoinLines(ls + [x]) == if JoinLines(ls) == [] then x else JoinLines(ls) + "\n" + x
  {
    JoinLinesEmpty(ls);
    assert (ls + [x])[..|ls|] == ls;
  }

  /** One step of the listing: the next code page's label is appended, after a newline unless
      it is the first, when its bit is set. */
  lemma CodePagesStep(range: bv32, i: nat, codePages: string)
    requires i < |Encodings| && codePages == JoinLines(CodePageLabels(range, i))
    ensures HasCodePage(range, i) ==>
              JoinLines(CodePageLabels(range, i + 1))
              == if codePages == [] then CodePageLabel(i) else codePages + "\n" + CodePageLabel(i)
    ensures !HasCodePage(range, i) ==> JoinLines(CodePageLabels(range, i + 1)) == codePages
  {
    var ls := CodePageLabels(range, i);
    if HasCodePage(range, i) {
      JoinLinesSnoc(ls, CodePageLabel(i));
    } else {
      assert ls + [] == ls;
    }
  }

  /** The body of the loop of availableCodePages: the label of code page i, after a newline
      unless it is the first, when the bit mask of i is set in range. */
  method ListCodePage(range: bv32, i: nat, mask: bv32, codePages: string) returns (next: string)
    requires i < |Encodings| && mask == MaskBit(i) && codePages == JoinLines(CodePageLabels(range, i))
    ensures next == JoinLines(CodePageLabels(range, i + 1))
  {
    CodePagesStep(range, i, codePages);
    next := codePages;
    if Masked(range, mask) {
      var cp := CodePageLabel(i);
      if |next| != 0 {
        next := next + "\n";
      }
      next := next + cp;
    }
  }

  /** The mask moved on to the next code page. */
  method NextMask(i: nat, mask: bv32) returns (next: bv32)
    requires i < 31 && mask == MaskBit(i)
    ensures next == MaskBit(i + 1)
  {
    MaskStep(i);
    next := mask << 1;
  }

  /** CFontFileInfo::availableCodePages: the label of each of the first nine code pages whose
      bit is set in the first code page range, one per line. */
  method AvailableCodePages(info: FontFileInfo) returns (codePages: string)
    ensures codePages == JoinLines(CodePageLabels(info.codePageRange1, |Encodings|))
  {
    codePages := [];
    var mask: bv32 := 1;
    var i := 0;
    while i < 9
      invariant 0 <= i <= 9
      invariant mask == MaskBit(i)
      invariant codePages == JoinLines(CodePageLabels(info.codePageRange1, i))
    {
      codePages := ListCodePage(info.codePageRange1, i, mask, codePages);
      mask := NextMask(i, mask);
      i := i + 1;
    }
  }
}
