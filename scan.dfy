/**
 * The scanners of the album language (CParser in aeasy_parse.cpp): comments and white space
 * removed from a source line, the line split into its command and its parameters, and the
 * parameters taken apart field by field: numbers, quoted text, and a font with its size.
 *
 * Every scanner walks its text one character at a time with the same quote tracking: a quote
 * opens a string, and closes it unless the character before it is a backslash. Quoted models
 * that state, and FirstOutside the search every scanner makes for its delimiter outside
 * strings; the methods walk the text as the program does and are proved against them.
 */
module Scan {
  import opened Text
  import Fonts

  /** The errors the parser reports, one per message. */
  datatype ParseError =
    | BadLineContinuation
    | NoOpeningParenthesis
    | NoClosingParenthesis
    | UnrecognisedCommand
    | UnexpectedParameters        // a command that takes none was given some
    | WrongParameters             // "Incorrect number or format of parameters"
    | QuotedTextExpected
    | FontNotFound(id: string)
    | NoFontGiven
    | FontSizeMissing
    | NoPage                      // a text or a row before the first page
    | NoRow                       // a stamp before the first row of the page
    | BadFontIdentifier           // a user font identifier not 2 to 8 characters long
    | FontRejected(reason: Fonts.FontError)

  datatype Result<T> = Ok(value: T) | Err(error: ParseError)

  /** The character the scanners hold as the previous one before the first (QChar::Null). */
  const Null: char := '\0'

  // ---------------------------------------------------------------------------------------
  // Quote tracking.
  // ---------------------------------------------------------------------------------------

  /** The quote state after one more character c, prevc being the one before it. */
  function QuoteStep(inString: bool, prevc: char, c: char): bool
  {
    if c == '"' then !inString || prevc == '\\' else inString
  }

  /** The character before index n, or Null at the start. */
  function Prev(s: string, n: nat): char
    requires n <= |s|
  {
    if n == 0 then Null else s[n - 1]
  }

  /** Whether the first n characters of s leave the scanner inside a quoted string. */
  function Quoted(s: string, n: nat): bool
    requires n <= |s|
  {
    if n == 0 then false else QuoteStep(Quoted(s, n - 1), Prev(s, n - 1), s[n - 1])
  }

  /** The quote state of a prefix is that of the whole text at the same place. */
  lemma {:induction false} QuotedPrefix(s: string, k: nat, n: nat)
    requires n <= k <= |s|
    ensures Quoted(s[..k], n) == Quoted(s, n)
  {
    if n > 0 {
      QuotedPrefix(s, k, n - 1);
    }
  }

  /** Text without a quote never opens a string. */
  lemma {:induction false} UnquotedText(s: string, n: nat)
    requires n <= |s|
    requires forall j :: 0 <= j < n ==> s[j] != '"'
    ensures !Quoted(s, n)
  {
    if n > 0 {
      UnquotedText(s, n - 1);
    }
  }

  /** Inside "t", where t holds no quote and no backslash, the scanner is in a string from the
      opening quote to the closing one, and out of it after. */
  lemma {:induction false} QuotedText(t: string, tail: string, n: nat)
    requires '"' !in t && '\\' !in t
    requires 1 <= n <= |t| + 2
    ensures var s := ['"'] + t + ['"'] + tail;
            Quoted(s, n) == (n <= |t| + 1)
  {
    var s := ['"'] + t + ['"'] + tail;
    if n > 1 {
      QuotedText(t, tail, n - 1);
      if n <= |t| + 1 {
        assert s[n - 1] == t[n - 2];
      } else {
        assert Prev(s, n - 1) == (if t == [] then '"' else t[|t| - 1]);
      }
    }
  }

  /** Where a scanner stops: a comment mark, the end of the command (a space or an opening
      parenthesis), the closing parenthesis, or the space that ends a field. */
  datatype Delimiter = CommentMark | CommandEnd | CloseParen | FieldEnd

  predicate Ends(d: Delimiter, c: char)
  {
    match d
    case CommentMark => c == '#'
    case CommandEnd => c == ' ' || c == '('
    case CloseParen => c == ')'
    case FieldEnd => c == ' '
  }

  /** The index of the first delimiter outside strings at or after i, or |s| when there is
      none. */
  function FirstOutside(s: string, d: Delimiter, i: nat): (k: nat)
    requires i <= |s|
    ensures i <= k <= |s|
    ensures k < |s| ==> Ends(d, s[k]) && !Quoted(s, k)
    ensures forall j :: i <= j < k ==> !Ends(d, s[j]) || Quoted(s, j)
    decreases |s| - i
  {
    if i == |s| then |s|
    else if Ends(d, s[i]) && !Quoted(s, i) then i
    else FirstOutside(s, d, i + 1)
  }

  /** A delimiter outside strings with none before it is the one found. */
  lemma FirstOutsideIs(s: string, d: Delimiter, k: nat)
    requires k <= |s|
    requires k < |s| ==> Ends(d, s[k]) && !Quoted(s, k)
    requires forall j :: 0 <= j < k ==> !Ends(d, s[j])
    ensures FirstOutside(s, d, 0) == k
  {
  }

  /** The search of every scanner loop: the quote state kept character by character until a
      delimiter outside strings. */
  method ScanTo(s: string, d: Delimiter) returns (k: nat)
    ensures k == FirstOutside(s, d, 0)
  {
    var inString := false;
    var prevc := Null;
    k := 0;
    while k < |s|
      invariant k <= |s|
      invariant inString == Quoted(s, k) && prevc == Prev(s, k)
      invariant FirstOutside(s, d, k) == FirstOutside(s, d, 0)
    {
      var c := s[k];
      if c == '"' && !inString {
        inString := true;
      } else if c == '"' && inString {
        if prevc != '\\' {
          inString := false;
        }
      } else if Ends(d, c) && !inString {
        return;
      }
      prevc := c;
      k := k + 1;
    }
  }

  // ---------------------------------------------------------------------------------------
  // cleanLine.
  // ---------------------------------------------------------------------------------------

  /** The text before the first comment mark outside strings. */
  function StripComment(s: string): string
  {
    s[..FirstOutside(s, CommentMark, 0)]
  }

  /** A tab or space outside strings. */
  predicate Gap(s: string, i: nat)
    requires i < |s|
  {
    IsBlank(s[i]) && !Quoted(s, i)
  }

  /** What character i of s becomes: a gap is one space when it starts a run of gaps and
      nothing otherwise; every other character is kept. */
  function Emit(s: string, i: nat): string
    requires i < |s|
  {
    if !Gap(s, i) then [s[i]] else if i > 0 && Gap(s, i - 1) then [] else [' ']
  }

  /** The first n characters of s with every run of gaps made one space. */
  function Squeeze(s: string, n: nat): string
    requires n <= |s|
  {
    if n == 0 then [] else Squeeze(s, n - 1) + Emit(s, n - 1)
  }

  /** cleanLine: trimmed, the comment cut off, trimmed again, and the gaps squeezed. */
  function Clean(s: string): string
  {
    var t := Trim(StripComment(Trim(s)));
    Squeeze(t, |t|)
  }

  /** cleanLine: the comment cut at the first mark outside strings, then the white space
      simplified. */
  method CleanLine(buf: string) returns (r: string)
    ensures r == Clean(buf)
  {
    var t := Trim(buf);
    var k := ScanTo(t, CommentMark);
    t := Trim(t[..k]);
    r := SimplifyWhiteSpace(t);
  }

  /** The white-space loop of cleanLine: the text copied with the quote state kept, each run of
      tabs and spaces outside strings written as one space. */
  method SimplifyWhiteSpace(t: string) returns (r: string)
    ensures r == Squeeze(t, |t|)
  {
    r := [];
    var inString := false;
    var inWhiteSpace := false;
    var prevc := Null;
    for i := 0 to |t|
      invariant inString == Quoted(t, i) && prevc == Prev(t, i)
      invariant inWhiteSpace == (i > 0 && Gap(t, i - 1))
      invariant r == Squeeze(t, i)
    {
      var c := t[i];
      ghost var e := Emit(t, i);
      assert Squeeze(t, i + 1) == r + e;
      if c == '"' && !inString {
        inString := true;
      } else if c == '"' && inString {
        if prevc != '\\' {
          inString := false;
        }
      }
      if (c == ' ' || c == '\t') && !inString {
        if !inWhiteSpace {
          inWhiteSpace := true;
          r := r + [' '];
        } else {
          assert e == [];
          assert r + e == r;
        }
      } else {
        inWhiteSpace := false;
        r := r + [c];
      }
      prevc := c;
    }
  }

  /** A clean line has no white space at either end. */
  lemma CleanTrimmed(s: string)
    ensures var r := Clean(s);
            r == [] || (!IsSpace(r[0]) && !IsSpace(r[|r| - 1]))
  {
    var t := Trim(StripComment(Trim(s)));
    if t != [] {
      BlankIsSpace(t[0]);
      BlankIsSpace(t[|t| - 1]);
      SqueezeStart(t, |t|);
    }
  }

  /** A text that starts with a character other than a gap keeps it first. */
  lemma {:induction false} SqueezeStart(s: string, n: nat)
    requires 1 <= n <= |s| && !Gap(s, 0)
    ensures Squeeze(s, n) != [] && Squeeze(s, n)[0] == s[0]
  {
    if n > 1 {
      SqueezeStart(s, n - 1);
    }
  }

  /** What is left after the comment is cut holds no comment mark outside strings. */
  lemma NoCommentLeft(s: string)
    ensures var p := StripComment(s);
            forall j :: 0 <= j < |p| ==> p[j] != '#' || Quoted(p, j)
  {
    var k := FirstOutside(s, CommentMark, 0);
    forall j | 0 <= j < k
      ensures s[..k][j] != '#' || Quoted(s[..k], j)
    {
      QuotedPrefix(s, k, j);
    }
  }

  /** A run of gaps becomes one space: from the first gap of the run to any gap in it the
      output grows by exactly one space. */
  lemma {:induction false} GapRunIsOneSpace(s: string, i: nat, j: nat)
    requires i < j <= |s|
    requires forall k :: i <= k < j ==> Gap(s, k)
    requires i == 0 || !Gap(s, i - 1)
    ensures Squeeze(s, j) == Squeeze(s, i) + [' ']
  {
    if j > i + 1 {
      GapRunIsOneSpace(s, i, j - 1);
    }
  }

  /** Inside a string every character is copied, white space included. */
  lemma QuotedKept(s: string, i: nat)
    requires i < |s| && Quoted(s, i)
    ensures Squeeze(s, i + 1) == Squeeze(s, i) + [s[i]]
  {
  }

  // ---------------------------------------------------------------------------------------
  // splitLine.
  // ---------------------------------------------------------------------------------------

  /** A line split: the command, and the text between its parentheses. */
  datatype Split = Split(command: string, parameters: string)

  /** splitLine: the command ends at the first space or opening parenthesis outside strings; a
      space there must be followed by the opening parenthesis; the parameters end at the first
      closing parenthesis outside strings, and what follows it is dropped. A line with neither
      a space nor a parenthesis is a command without parameters. */
  function SplitLine(line: string): Result<Split>
  {
    var k := FirstOutside(line, CommandEnd, 0);
    if k == |line| then Ok(Split(Trim(line), []))
    else if line[k] == ' ' && !(k + 1 < |line| && line[k + 1] == '(') then Err(NoOpeningParenthesis)
    else
      var open := if line[k] == '(' then k else k + 1;
      Parameters(line[..k], line[open + 1..])
  }

  /** The second half of splitLine: the parameters end at the first closing parenthesis
      outside strings. */
  function Parameters(cmnd: string, rest: string): Result<Split>
  {
    var close := FirstOutside(rest, CloseParen, 0);
    if close == |rest| then Err(NoClosingParenthesis) else Ok(Split(Trim(cmnd), Trim(rest[..close])))
  }

  /** splitLine: the scan for the end of the command, then that for the closing parenthesis. */
  method SplitCommand(line: string) returns (r: Result<Split>)
    ensures r == SplitLine(line)
  {
    var k := ScanTo(line, CommandEnd);
    if k == |line| {
      SplitWhole(line, k);
      return Ok(Split(Trim(line), []));
    }
    if line[k] == ' ' && !(k + 1 < |line| && line[k + 1] == '(') {
      SplitUnopened(line, k);
      return Err(NoOpeningParenthesis);
    }
    var open := if line[k] == '(' then k else k + 1;
    SplitOpened(line, k, open);
    r := ClosingParenthesis(line[..k], line[open + 1..]);
  }

  /** A line with no end of command outside strings is all command. */
  lemma SplitWhole(line: string, k: nat)
    requires k == FirstOutside(line, CommandEnd, 0) && k == |line|
    ensures SplitLine(line) == Ok(Split(Trim(line), []))
  {
  }

  /** A space that ends the command must be followed by the opening parenthesis. */
  lemma SplitUnopened(line: string, k: nat)
    requires k == FirstOutside(line, CommandEnd, 0) && k < |line|
    requires line[k] == ' ' && !(k + 1 < |line| && line[k + 1] == '(')
    ensures SplitLine(line) == Err(NoOpeningParenthesis)
  {
  }

  /** Otherwise the parameters start after the opening parenthesis. */
  lemma SplitOpened(line: string, k: nat, open: nat)
    requires k == FirstOutside(line, CommandEnd, 0) && k < |line|
    requires !(line[k] == ' ' && !(k + 1 < |line| && line[k + 1] == '('))
    requires open == if line[k] == '(' then k else k + 1
    ensures open < |line| && SplitLine(line) == Parameters(line[..k], line[open + 1..])
  {
  }

  /** The second loop of splitLine. */
  method ClosingParenthesis(cmnd: string, parms: string) returns (r: Result<Split>)
    ensures r == Parameters(cmnd, parms)
  {
    var close := ScanTo(parms, CloseParen);
    if close == |parms| {
      return Err(NoClosingParenthesis);
    }
    r := Ok(Split(Trim(cmnd), Trim(parms[..close])));
  }

  /** A command name: no space, parenthesis or quote. */
  predicate IsName(c: string)
  {
    forall j :: 0 <= j < |c| ==> c[j] != ' ' && c[j] != '(' && c[j] != '"'
  }

  /** Parameters without a closing parenthesis or a quote. */
  predicate IsPlain(p: string)
  {
    forall j :: 0 <= j < |p| ==> p[j] != ')' && p[j] != '"'
  }

  /** A command written with its parameters in parentheses, with or without one space before
      them, splits back into the command and the parameters, whatever follows. */
  lemma SplitRoundTrip(c: string, space: bool, p: string, tail: string)
    requires IsName(c) && IsPlain(p)
    ensures SplitLine(c + (if space then " (" else "(") + p + ")" + tail) == Ok(Split(Trim(c), Trim(p)))
  {
    var open := if space then " (" else "(";
    var rest := p + ")" + tail;
    var line := c + open + rest;
    assert c + open + p + ")" + tail == line;
    CommandEndsAt(c, open + rest);
    assert line == c + (open + rest);
    SplitAfterCommand(line, c, open, rest);
    ParametersRoundTrip(c, p, tail);
  }

  /** A command ended by its parenthesis, or by a space and its parenthesis, leaves the
      parameters to be looked for after that parenthesis. */
  lemma SplitAfterCommand(line: string, c: string, open: string, rest: string)
    requires open == " (" || open == "("
    requires line == c + open + rest && FirstOutside(line, CommandEnd, 0) == |c|
    ensures SplitLine(line) == Parameters(c, rest)
  {
    var k := |c|;
    assert line[k] == open[0];
    assert line[..k] == c;
    if open == " (" {
      assert line[k + 1] == '(';
      assert line[k + 2..] == rest;
    } else {
      assert line[k + 1..] == rest;
    }
  }

  /** A command name ends where a space or a parenthesis follows it. */
  lemma CommandEndsAt(c: string, after: string)
    requires IsName(c) && after != [] && (after[0] == ' ' || after[0] == '(')
    ensures FirstOutside(c + after, CommandEnd, 0) == |c|
  {
    var line := c + after;
    forall j | 0 <= j < |c|
      ensures !Ends(CommandEnd, line[j]) && line[j] != '"'
    {
      assert line[j] == c[j];
    }
    UnquotedText(line, |c|);
    FirstOutsideIs(line, CommandEnd, |c|);
  }

  /** Parameters without a quote or a closing parenthesis end at the parenthesis after them. */
  lemma ParametersRoundTrip(c: string, p: string, tail: string)
    requires IsPlain(p)
    ensures Parameters(c, p + ")" + tail) == Ok(Split(Trim(c), Trim(p)))
  {
    var rest := p + ")" + tail;
    forall j | 0 <= j < |p|
      ensures !Ends(CloseParen, rest[j]) && rest[j] != '"'
    {
      assert rest[j] == p[j];
    }
    UnquotedText(rest, |p|);
    FirstOutsideIs(rest, CloseParen, |p|);
    assert rest[..|p|] == p;
  }

  // ---------------------------------------------------------------------------------------
  // The parameter fields.
  // ---------------------------------------------------------------------------------------

  /** extractParameterField: the text before the first space outside strings, and the text
      after that space; without such a space, the whole text and nothing. */
  function Field(parms: string): (r: (string, string))
    ensures (r.0 == parms && r.1 == []) || parms == r.0 + " " + r.1
    ensures forall j :: 0 <= j < |r.0| ==> r.0[j] != ' ' || Quoted(parms, j)
  {
    var k := FirstOutside(parms, FieldEnd, 0);
    if k == |parms| then (parms, [])
    else
      assert parms == parms[..k] + " " + parms[k + 1..];
      (parms[..k], parms[k + 1..])
  }

  /** A field without spaces or quotes, then a space, comes back as that field and the rest. */
  lemma FieldRoundTrip(f: string, rest: string)
    requires forall j :: 0 <= j < |f| ==> f[j] != ' ' && f[j] != '"'
    ensures Field(f + " " + rest) == (f, rest)
  {
    var s := f + " " + rest;
    UnquotedText(s, |f|);
    FirstOutsideIs(s, FieldEnd, |f|);
    assert s[..|f|] == f && s[|f| + 1..] == rest;
  }

  /** A text without spaces or quotes is one whole field, with nothing after it. */
  lemma FieldWhole(f: string)
    requires forall j :: 0 <= j < |f| ==> f[j] != ' ' && f[j] != '"'
    ensures Field(f) == (f, [])
  {
    FirstOutsideIs(f, FieldEnd, |f|);
  }

  /** extractParameterField, with the field upper-cased when asked. */
  method ExtractField(parms: string, toUpper: bool := false) returns (field: string, rest: string)
    ensures field == (if toUpper then Upper(Field(parms).0) else Field(parms).0)
    ensures rest == Field(parms).1
  {
    var idx := ScanTo(parms, FieldEnd);
    var space := idx < |parms|;
    field := parms[..idx];
    if space {
      idx := idx + 1;
    }
    rest := parms[idx..];
    if toUpper {
      field := Upper(field);
    }
  }

  /** parseDoubleParameters: up to count fields read as numbers while there are parameters
      left; an empty field is passed over, every other counts, read as 0 when it is not a
      number. */
  function Doubles(parms: string, count: nat): (r: (seq<real>, string))
    ensures |r.0| <= count
    decreases count
  {
    if count == 0 || parms == [] then ([], parms)
    else
      var f := Field(parms);
      var more := Doubles(f.1, count - 1);
      (if f.0 == [] then more.0 else [ToDouble(f.0)] + more.0, more.1)
  }

  /** Every field that is not empty counts, as the number it reads as. */
  lemma FieldCounts(f: string, rest: string, count: nat)
    requires f != [] && forall j :: 0 <= j < |f| ==> f[j] != ' ' && f[j] != '"'
    ensures Doubles(f + " " + rest, count + 1) == ([ToDouble(f)] + Doubles(rest, count).0, Doubles(rest, count).1)
  {
    FieldRoundTrip(f, rest);
  }

  /** A whole number written out is read back as itself. */
  lemma NumberRoundTrip(n: nat, rest: string, count: nat)
    ensures Doubles(NatToDigits(n) + " " + rest, count + 1).0 == [n as real] + Doubles(rest, count).0
  {
    var s := NatToDigits(n);
    forall j | 0 <= j < |s|
      ensures s[j] != ' ' && s[j] != '"'
    {
      assert IsDigit(s[j]);
    }
    FieldCounts(s, rest, count);
    ToDoubleOfNat(n);
  }

  /** Two whole numbers written out with a space between them are read back as themselves,
      with nothing left over. */
  lemma TwoNumbersRoundTrip(x: nat, y: nat)
    ensures Doubles(NatToDigits(x) + " " + NatToDigits(y), 2).0 == [x as real, y as real]
    ensures Doubles(NatToDigits(x) + " " + NatToDigits(y), 2).1 == []
  {
    var dx, dy := NatToDigits(x), NatToDigits(y);
    DigitsArePlain(dx);
    DigitsArePlain(dy);
    FieldCounts(dx, dy, 1);
    LastNumber(dy);
    ToDoubleOfNat(x);
    ToDoubleOfNat(y);
    var d := Doubles(dx + " " + dy, 2);
    assert d.0 == [ToDouble(dx)] + [ToDouble(dy)];
    assert |d.0| == 2 && d.0[0] == x as real && d.0[1] == y as real;
  }

  /** The last field, when it is not empty, is the last number. */
  lemma LastNumber(f: string)
    requires f != [] && forall j :: 0 <= j < |f| ==> f[j] != ' ' && f[j] != '"'
    ensures Doubles(f, 1).0 == [ToDouble(f)] && Doubles(f, 1).1 == []
  {
    FieldWhole(f);
    var more := Doubles([], 0);
    var d := Doubles(f, 1);
    assert d == ([ToDouble(f)] + more.0, more.1);
    assert more.0 == [];
    assert |d.0| == 1 && d.0[0] == ToDouble(f);
  }

  /** Digits are neither spaces nor quotes. */
  lemma DigitsArePlain(s: string)
    requires AllDigits(s)
    ensures forall j :: 0 <= j < |s| ==> s[j] != ' ' && s[j] != '"' && s[j] != ')' && !IsSpace(s[j])
  {
    forall j | 0 <= j < |s|
      ensures s[j] != ' ' && s[j] != '"' && s[j] != ')' && !IsSpace(s[j])
    {
      assert IsDigit(s[j]);
    }
  }

  /** parseDoubleParameters: the field loop. */
  method ParseDoubles(parms: string, count: nat) returns (vals: seq<real>, rest: string)
    ensures (vals, rest) == Doubles(parms, count)
  {
    vals, rest := [], parms;
    var i := 0;
    while i < count && |rest| > 0
      invariant i <= count
      invariant vals + Doubles(rest, count - i).0 == Doubles(parms, count).0
      invariant Doubles(rest, count - i).1 == Doubles(parms, count).1
    {
      vals, rest := ReadDouble(vals, rest, count - i);
      i := i + 1;
    }
    assert vals + [] == vals;
  }

  /** One pass of parseDoubleParameters' loop: the next field read, and appended when it is
      not empty; what is still to come is the reading of the rest. */
  method ReadDouble(vals: seq<real>, parms: string, count: nat) returns (vals': seq<real>, rest: string)
    requires count > 0 && parms != []
    ensures vals' + Doubles(rest, count - 1).0 == vals + Doubles(parms, count).0
    ensures Doubles(rest, count - 1).1 == Doubles(parms, count).1
  {
    ghost var more := Doubles(Field(parms).1, count - 1);
    DoublesStep(parms, count);
    var val;
    val, rest := ExtractField(parms);
    vals' := vals;
    if |val| > 0 {
      AppendAssoc(vals, [ToDouble(val)], more.0);
      vals' := vals + [ToDouble(val)];
    }
  }

  /** One field of parseDoubleParameters. */
  lemma DoublesStep(parms: string, count: nat)
    requires count > 0 && parms != []
    ensures var f := Field(parms);
            var more := Doubles(f.1, count - 1);
            && Doubles(parms, count).0 == (if f.0 == [] then [] else [ToDouble(f.0)]) + more.0
            && Doubles(parms, count).1 == more.1
  {
  }

  lemma AppendAssoc<T>(a: seq<T>, b: seq<T>, c: seq<T>)
    ensures a + (b + c) == (a + b) + c
  {
  }

  /** parseTextField: the next field, which must be at least two characters long and start and
      end with a quote, without its quotes. */
  function TextField(parms: string): Result<(string, string)>
  {
    var f := Field(parms);
    if |f.0| > 1 && f.0[0] == '"' && f.0[|f.0| - 1] == '"' then Ok((f.0[1..|f.0| - 1], f.1))
    else Err(QuotedTextExpected)
  }

  /** Text in quotes, spaces and all, comes back without them, and the rest after the space. */
  lemma TextRoundTrip(t: string, rest: string)
    requires '"' !in t && '\\' !in t
    ensures TextField(['"'] + t + ['"'] + " " + rest) == Ok((t, rest))
  {
    var s := ['"'] + t + ['"'] + " " + rest;
    var k := |t| + 2;
    forall j | 0 <= j < k
      ensures !Ends(FieldEnd, s[j]) || Quoted(s, j)
    {
      if j >= 1 {
        QuotedText(t, " " + rest, j);
      }
    }
    QuotedText(t, " " + rest, k);
    assert s == ['"'] + t + ['"'] + (" " + rest);
    FirstOutsideAt(s, FieldEnd, k);
    assert s[..k] == ['"'] + t + ['"'] && s[k + 1..] == rest;
  }

  /** A delimiter outside strings with only quoted or other characters before it is the one
      found. */
  lemma FirstOutsideAt(s: string, d: Delimiter, k: nat)
    requires k < |s| && Ends(d, s[k]) && !Quoted(s, k)
    requires forall j :: 0 <= j < k ==> !Ends(d, s[j]) || Quoted(s, j)
    ensures FirstOutside(s, d, 0) == k
  {
  }

  /** parseTextField. */
  method ParseTextField(parms: string) returns (r: Result<(string, string)>)
    ensures r == TextField(parms)
  {
    var text, rest := ExtractField(parms);
    if |text| > 1 && text[0] == '"' && text[|text| - 1] == '"' {
      return Ok((text[1..|text| - 1], rest));
    }
    r := Err(QuotedTextExpected);
  }

  /** parseFontParameters: a font identifier of the font map, then a size above 0. */
  function FontParams(parms: string, fonts: seq<Fonts.FontSlot>): (r: Result<(int, Fonts.FontSize, string)>)
  {
    var f := Field(parms);
    var findex := if |f.0| > 0 then Fonts.FontIndex(fonts, f.0) else -1;
    if findex < 0 then Err(if |f.0| > 0 then FontNotFound(f.0) else NoFontGiven)
    else
      var size := Doubles(f.1, 1);
      if |size.0| == 1 && size.0[0] > 0.0 then Ok((findex, size.0[0], size.1)) else Err(FontSizeMissing)
  }

  /** The font found is the first slot with exactly that identifier and the size is above 0; a
      missing identifier, one no slot has, and a size that is missing or not above 0 are each
      reported. */
  lemma FontParamsMeaning(parms: string, fonts: seq<Fonts.FontSlot>)
    ensures var f := Field(parms);
            match FontParams(parms, fonts)
            case Ok(r) =>
              && 0 <= r.0 < |fonts| && fonts[r.0].identifier == f.0
              && (forall j :: 0 <= j < r.0 ==> fonts[j].identifier != f.0)
              && r.1 > 0.0
            case Err(e) =>
              || (e == NoFontGiven && f.0 == [])
              || (e == FontNotFound(f.0) && f.0 != [] && forall j :: 0 <= j < |fonts| ==> fonts[j].identifier != f.0)
              || (e == FontSizeMissing && Fonts.FontIndex(fonts, f.0) >= 0
                  && (|Doubles(f.1, 1).0| == 0 || Doubles(f.1, 1).0[0] <= 0.0))
  {
  }

  /** parseFontParameters. */
  method ParseFontParameters(fonts: Fonts.FontTable, parms: string) returns (r: Result<(int, Fonts.FontSize, string)>)
    requires fonts.Valid()
    ensures r == FontParams(parms, fonts.fontMap[..])
  {
    var findex := -1;
    var font, rest := ExtractField(parms);
    if |font| > 0 {
      findex := fonts.GetFontIndex(font);
    }
    if findex < 0 {
      if |font| > 0 {
        return Err(FontNotFound(font));
      }
      return Err(NoFontGiven);
    }
    var vals;
    vals, rest := ParseDoubles(rest, 1);
    if |vals| == 1 && vals[0] > 0.0 {
      return Ok((findex, vals[0], rest));
    }
    r := Err(FontSizeMissing);
  }

  // ---------------------------------------------------------------------------------------
  // Stamp text escapes.
  // ---------------------------------------------------------------------------------------

  /** The stamp-text escapes: a backslash is dropped, and a pair of backslashes is one. */
  function Unescape(s: string): (r: string)
    ensures |r| <= |s|
  {
    if s == [] then []
    else if s[0] != '\\' then [s[0]] + Unescape(s[1..])
    else if |s| >= 2 && s[1] == '\\' then ['\\'] + Unescape(s[2..])
    else Unescape(s[1..])
  }

  /** What the rest of a text gives right after a dropped backslash: a second backslash is kept. */
  function AfterEscape(s: string): string
  {
    if s != [] && s[0] == '\\' then ['\\'] + Unescape(s[1..]) else Unescape(s)
  }

  /** A text written for a stamp: every backslash and quote escaped with a backslash. */
  function Escape(t: string): (s: string)
  {
    if t == [] then []
    else if t[0] == '\\' || t[0] == '"' then ['\\', t[0]] + Escape(t[1..])
    else [t[0]] + Escape(t[1..])
  }

  /** Escaping a text and reading it back gives the text. */
  lemma {:induction false} UnescapeEscape(t: string)
    ensures Unescape(Escape(t)) == t
  {
    if t != [] {
      UnescapeEscape(t[1..]);
      var e := Escape(t);
      if t[0] == '\\' || t[0] == '"' {
        assert e[2..] == Escape(t[1..]);
        if t[0] == '"' {
          assert e[1..] == ['"'] + Escape(t[1..]);
        }
      } else {
        assert e[1..] == Escape(t[1..]);
      }
    }
  }

  /** A text without backslashes is its own reading. */
  lemma {:induction false} UnescapePlain(s: string)
    requires '\\' !in s
    ensures Unescape(s) == s
  {
    if s != [] {
      UnescapePlain(s[1..]);
    }
  }

  /** The escape loop of processStampAddCommand. */
  method UnescapeStampText(tmp: string) returns (r: string)
    ensures r == Unescape(tmp)
  {
    r := [];
    var prevc := Null;
    for idx := 0 to |tmp|
      invariant r + (if prevc == '\\' then AfterEscape(tmp[idx..]) else Unescape(tmp[idx..])) == Unescape(tmp)
    {
      var c := tmp[idx];
      assert tmp[idx..][1..] == tmp[idx + 1..];
      if c != '\\' {
        AppendAssoc(r, [c], Unescape(tmp[idx + 1..]));
        r := r + [c];
        prevc := c;
      } else if prevc == '\\' {
        AppendAssoc(r, [c], Unescape(tmp[idx + 1..]));
        r := r + [c];
        prevc := Null;
      } else {
        prevc := c;
      }
    }
    assert tmp[|tmp|..] == [];
    assert r + [] == r;
  }
}
