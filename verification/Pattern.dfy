/** The decoder's output patterns: compiling one, and formatting a message with it (decode/decode_formatter.cc). */
module Pattern {
  import opened Decimals

  /** A decoded message. Numbers are within the widths of their fields. */
  datatype Msg = Msg(
    level: int, timestamp: int, pid: int, tid: int, line: int, fileName: string, funcName: string, info: string)

  datatype Formatter =
    | Aggregate(text: string)
    | LogLevel | TimestampDate | TimestampSeconds | TimestampMilliseconds | ProcessId | ThreadId | Line | FileName
    | FuncName | LogInfo

  /** Renders milliseconds as a local date; the calendar and the time zone are the platform's. */
  type Calendar = int -> string

  function LevelText(level: int): string {
    if level == 0 then "V" else if level == 1 then "D" else if level == 2 then "I" else if level == 3 then "W"
    else if level == 4 then "E" else if level == 5 then "F" else "U"
  }

  /** Integer division truncates toward zero. */
  function Seconds(milliseconds: int): int {
    if milliseconds >= 0 then milliseconds / 1000 else -((-milliseconds) / 1000)
  }

  function Render(f: Formatter, msg: Msg, date: Calendar): string {
    match f
    case Aggregate(text) => text
    case LogLevel => LevelText(msg.level)
    case TimestampDate => date(msg.timestamp)
    case TimestampSeconds => Text(Seconds(msg.timestamp))
    case TimestampMilliseconds => Text(msg.timestamp)
    case ProcessId => Text(msg.pid)
    case ThreadId => Text(msg.tid)
    case Line => Text(msg.line)
    case FileName => msg.fileName
    case FuncName => msg.funcName
    case LogInfo => msg.info
  }

  function RenderAll(fs: seq<Formatter>, msg: Msg, date: Calendar): string {
    if fs == [] then "" else Render(fs[0], msg, date) + RenderAll(fs[1..], msg, date)
  }

  function ByFlag(flag: char): Formatter {
    match flag
    case 'l' => LogLevel
    case 'D' => TimestampDate
    case 'S' => TimestampSeconds
    case 'M' => TimestampMilliseconds
    case 'p' => ProcessId
    case 't' => ThreadId
    case '#' => Line
    case 'F' => FileName
    case 'f' => FuncName
    case 'v' => LogInfo
    case _ => Aggregate(['%', flag])
  }

  // ---------- the compiler ----------

  /** The literal characters gathered so far become a formatter, if there are any. */
  function Gathered(chars: string): seq<Formatter> {
    if chars == "" then [] else [Aggregate(chars)]
  }

  function ParseFrom(pattern: string, chars: string): seq<Formatter> {
    if pattern == "" then Gathered(chars)
    else if pattern[0] != '%' then ParseFrom(pattern[1..], chars + [pattern[0]])
    else if |pattern| == 1 then Gathered(chars)
    else Gathered(chars) + [ByFlag(pattern[1])] + ParseFrom(pattern[2..], "")
  }

  function Parse(pattern: string): seq<Formatter> {
    ParseFrom(pattern, "")
  }

  // ---------- what a pattern means ----------

  /** The message a pattern stands for, read character by character. */
  function Expand(pattern: string, msg: Msg, date: Calendar): string {
    if pattern == "" then ""
    else if pattern[0] != '%' then [pattern[0]] + Expand(pattern[1..], msg, date)
    else if |pattern| == 1 then ""
    else Field(pattern[1], msg, date) + Expand(pattern[2..], msg, date)
  }

  /** What the documentation lists for each flag; anything else stands for itself, percent sign included. */
  function Field(flag: char, msg: Msg, date: Calendar): string {
    if flag == 'l' then LevelText(msg.level)
    else if flag == 'D' then date(msg.timestamp)
    else if flag == 'S' then Text(Seconds(msg.timestamp))
    else if flag == 'M' then Text(msg.timestamp)
    else if flag == 'p' then Text(msg.pid)
    else if flag == 't' then Text(msg.tid)
    else if flag == '#' then Text(msg.line)
    else if flag == 'F' then msg.fileName
    else if flag == 'f' then msg.funcName
    else if flag == 'v' then msg.info
    else ['%', flag]
  }

  /** The pattern without a percent sign that nothing follows. */
  function Trimmed(pattern: string): string {
    if pattern == "" || pattern == "%" then ""
    else if pattern[0] == '%' then pattern[..2] + Trimmed(pattern[2..])
    else [pattern[0]] + Trimmed(pattern[1..])
  }

  function Unparse(f: Formatter): string {
    match f
    case Aggregate(text) => text
    case LogLevel => "%l"
    case TimestampDate => "%D"
    case TimestampSeconds => "%S"
    case TimestampMilliseconds => "%M"
    case ProcessId => "%p"
    case ThreadId => "%t"
    case Line => "%#"
    case FileName => "%F"
    case FuncName => "%f"
    case LogInfo => "%v"
  }

  function UnparseAll(fs: seq<Formatter>): string {
    if fs == [] then "" else Unparse(fs[0]) + UnparseAll(fs[1..])
  }

  predicate IsLiteral(f: Formatter) {
    f.Aggregate? && f.text != "" && forall i | 0 <= i < |f.text| :: f.text[i] != '%'
  }

  predicate IsFlag(f: Formatter) {
    |Unparse(f)| == 2 && Unparse(f)[0] == '%' && ByFlag(Unparse(f)[1]) == f
  }

  /** The lists a pattern can compile to: flags and literals, no two literals in a row. */
  predicate Canonical(fs: seq<Formatter>) {
    && (forall i | 0 <= i < |fs| :: IsLiteral(fs[i]) || IsFlag(fs[i]))
    && (forall i | 0 < i < |fs| :: IsFlag(fs[i - 1]) || IsFlag(fs[i]))
  }

  // ---------- laws ----------

  lemma FlagRoundTrip(flag: char)
    ensures Unparse(ByFlag(flag)) == ['%', flag] && IsFlag(ByFlag(flag))
  {
  }

  lemma UnparseAfterLiteral(chars: string, f: Formatter, tail: seq<Formatter>)
    ensures UnparseAll(Gathered(chars) + [f] + tail) == chars + Unparse(f) + UnparseAll(tail)
  {
    var rest := [f] + tail;
    assert rest[1..] == tail;
    if chars == "" {
      assert Gathered(chars) + [f] + tail == rest;
    } else {
      assert Gathered(chars) + [f] + tail == [Aggregate(chars)] + rest;
      assert ([Aggregate(chars)] + rest)[1..] == rest;
    }
  }

  lemma RenderAfterLiteral(chars: string, f: Formatter, tail: seq<Formatter>, msg: Msg, date: Calendar)
    ensures RenderAll(Gathered(chars) + [f] + tail, msg, date) == chars + Render(f, msg, date) + RenderAll(tail, msg, date)
  {
    var rest := [f] + tail;
    assert rest[1..] == tail;
    if chars == "" {
      assert Gathered(chars) + [f] + tail == rest;
    } else {
      assert Gathered(chars) + [f] + tail == [Aggregate(chars)] + rest;
      assert ([Aggregate(chars)] + rest)[1..] == rest;
    }
  }

  lemma LiteralUnparses(chars: string)
    ensures UnparseAll(Gathered(chars)) == chars
  {
  }

  lemma LiteralRenders(chars: string, msg: Msg, date: Calendar)
    ensures RenderAll(Gathered(chars), msg, date) == chars
  {
  }

  lemma FlagRenders(flag: char, msg: Msg, date: Calendar)
    ensures Render(ByFlag(flag), msg, date) == Field(flag, msg, date)
  {
  }

  lemma FlagFirst(pattern: string, chars: string)
    requires |pattern| >= 2 && pattern[0] == '%'
    ensures ParseFrom(pattern, chars) == Gathered(chars) + [ByFlag(pattern[1])] + ParseFrom(pattern[2..], "")
    ensures Trimmed(pattern) == Unparse(ByFlag(pattern[1])) + Trimmed(pattern[2..])
  {
    FlagRoundTrip(pattern[1]);
    assert pattern[..2] == ['%', pattern[1]];
  }

  lemma CharFirst(pattern: string, chars: string)
    requires pattern != "" && pattern[0] != '%'
    ensures ParseFrom(pattern, chars) == ParseFrom(pattern[1..], chars + [pattern[0]])
    ensures Trimmed(pattern) == [pattern[0]] + Trimmed(pattern[1..])
  {
  }

  lemma Regroup(a: string, b: string, c: string)
    ensures a + b + ("" + c) == a + (b + c)
  {
  }

  lemma {:induction false} UnparseFrom(pattern: string, chars: string)
    ensures UnparseAll(ParseFrom(pattern, chars)) == chars + Trimmed(pattern)
    decreases |pattern|
  {
    if pattern == "" || pattern == "%" {
      LiteralUnparses(chars);
    } else if pattern[0] != '%' {
      CharFirst(pattern, chars);
      hide ParseFrom, Trimmed, UnparseAll;
      UnparseFrom(pattern[1..], chars + [pattern[0]]);
      assert chars + [pattern[0]] + Trimmed(pattern[1..]) == chars + ([pattern[0]] + Trimmed(pattern[1..]));
    } else {
      FlagFirst(pattern, chars);
      hide ParseFrom, Trimmed, Unparse, UnparseAll, ByFlag, Gathered;
      var flag, rest := Unparse(ByFlag(pattern[1])), Trimmed(pattern[2..]);
      UnparseFrom(pattern[2..], "");
      UnparseAfterLiteral(chars, ByFlag(pattern[1]), ParseFrom(pattern[2..], ""));
      Regroup(chars, flag, rest);
    }
  }

  lemma {:induction false} RenderFrom(pattern: string, chars: string, msg: Msg, date: Calendar)
    ensures RenderAll(ParseFrom(pattern, chars), msg, date) == chars + Expand(pattern, msg, date)
    decreases |pattern|, 1
  {
    if pattern == "" || pattern == "%" {
      LiteralRenders(chars, msg, date);
    } else if pattern[0] != '%' {
      RenderChar(pattern, chars, msg, date);
    } else {
      RenderFlag(pattern, chars, msg, date);
    }
  }

  lemma RenderChar(pattern: string, chars: string, msg: Msg, date: Calendar)
    requires pattern != "" && pattern[0] != '%'
    ensures RenderAll(ParseFrom(pattern, chars), msg, date) == chars + Expand(pattern, msg, date)
    decreases |pattern|, 0
  {
    CharFirst(pattern, chars);
    hide ParseFrom, RenderAll, Trimmed;
    RenderFrom(pattern[1..], chars + [pattern[0]], msg, date);
    assert chars + [pattern[0]] + Expand(pattern[1..], msg, date) == chars + ([pattern[0]] + Expand(pattern[1..], msg, date));
  }

  lemma RenderFlag(pattern: string, chars: string, msg: Msg, date: Calendar)
    requires |pattern| >= 2 && pattern[0] == '%'
    ensures RenderAll(ParseFrom(pattern, chars), msg, date) == chars + Expand(pattern, msg, date)
    decreases |pattern|, 0
  {
    var flag, rest := Field(pattern[1], msg, date), Expand(pattern[2..], msg, date);
    assert Expand(pattern, msg, date) == flag + rest;
    hide ParseFrom, Trimmed, Unparse, RenderAll, Render, Field, ByFlag, Gathered, Expand;
    FlagFirst(pattern, chars);
    FlagRenders(pattern[1], msg, date);
    RenderFrom(pattern[2..], "", msg, date);
    RenderAfterLiteral(chars, ByFlag(pattern[1]), ParseFrom(pattern[2..], ""), msg, date);
    Regroup(chars, flag, rest);
  }

  lemma {:induction false} EmptyFrom(pattern: string, chars: string)
    ensures ParseFrom(pattern, chars) == [] <==> chars == "" && (pattern == "" || pattern == "%")
    decreases |pattern|
  {
    if pattern != "" && pattern[0] != '%' {
      EmptyFrom(pattern[1..], chars + [pattern[0]]);
    }
  }

  lemma {:induction false} CanonicalFrom(pattern: string, chars: string)
    requires chars != "" ==> IsLiteral(Aggregate(chars))
    ensures Canonical(ParseFrom(pattern, chars))
    decreases |pattern|
  {
    if pattern == "" || pattern == "%" {
    } else if pattern[0] != '%' {
      CanonicalFrom(pattern[1..], chars + [pattern[0]]);
    } else {
      FlagRoundTrip(pattern[1]);
      CanonicalFrom(pattern[2..], "");
    }
  }

  lemma {:induction false} LiteralIsGathered(text: string, rest: string, chars: string)
    requires forall i | 0 <= i < |text| :: text[i] != '%'
    ensures ParseFrom(text + rest, chars) == ParseFrom(rest, chars + text)
    decreases |text|
  {
    if text == "" {
      assert text + rest == rest && chars + text == chars;
    } else {
      assert (text + rest)[1..] == text[1..] + rest;
      assert chars + text == chars + [text[0]] + text[1..];
      LiteralIsGathered(text[1..], rest, chars + [text[0]]);
    }
  }

  lemma ClosedByFlag(rest: string, chars: string)
    requires rest == "" || (|rest| >= 2 && rest[0] == '%')
    ensures ParseFrom(rest, chars) == Gathered(chars) + ParseFrom(rest, "")
  {
  }

  /** Compiling is one-to-one and onto: between patterns without a lone final percent sign and canonical lists. */
  lemma {:induction false} ParseInvertsUnparse(fs: seq<Formatter>)
    requires Canonical(fs)
    ensures Parse(UnparseAll(fs)) == fs
  {
    if fs != [] {
      var rest := UnparseAll(fs[1..]);
      ParseInvertsUnparse(fs[1..]);
      assert fs == [fs[0]] + fs[1..];
      if IsLiteral(fs[0]) {
        LiteralIsGathered(fs[0].text, rest, "");
        assert "" + fs[0].text == fs[0].text;
        assert |fs| > 1 ==> IsFlag(fs[1]) && rest == Unparse(fs[1]) + UnparseAll(fs[1..][1..]);
        ClosedByFlag(rest, fs[0].text);
      } else {
        var text := Unparse(fs[0]);
        assert (text + rest)[2..] == rest;
      }
    }
  }

  /** Unparsing the compiled list gives back the pattern, without a final percent sign that nothing follows. */
  lemma UnparseInvertsParse(pattern: string)
    ensures UnparseAll(Parse(pattern)) == Trimmed(pattern)
    ensures Canonical(Parse(pattern))
    ensures Parse(Trimmed(pattern)) == Parse(pattern)
  {
    UnparseFrom(pattern, "");
    CanonicalFrom(pattern, "");
    ParseInvertsUnparse(Parse(pattern));
  }

  /** At most the final percent sign is lost, and only when it is not itself a flag. */
  lemma {:induction false} TrimmedIsPattern(pattern: string)
    ensures Trimmed(pattern) == pattern || Trimmed(pattern) + "%" == pattern
    decreases |pattern|
  {
    if pattern == "" || pattern == "%" {
    } else if pattern[0] == '%' {
      TrimmedIsPattern(pattern[2..]);
      assert pattern == pattern[..2] + pattern[2..];
    } else {
      TrimmedIsPattern(pattern[1..]);
      assert pattern == [pattern[0]] + pattern[1..];
    }
  }

  // ---------- formatting ----------

  /** A C string ends at its first NUL. */
  function CString(s: string): string {
    if s == "" || s[0] == '\0' then "" else [s[0]] + CString(s[1..])
  }

  /** Process, thread, file, function and line, and what follows. */
  function Places(msg: Msg, rest: string): string {
    "][" + (Text(msg.pid) + (":" + (Text(msg.tid) + ("][" + (msg.fileName + (":" + (msg.funcName + (":"
    + (Text(msg.line) + rest)))))))))
  }

  /** The built-in form, its head cut at what a buffer of 1024 characters holds with its final NUL. */
  function Combined(msg: Msg): string {
    var m := msg.(fileName := CString(msg.fileName), funcName := CString(msg.funcName));
    var head := "[" + (Text(msg.level) + ("][" + (Text(msg.timestamp) + Places(m, "]"))));
    (if |head| > 1023 then head[..1023] else head) + msg.info
  }

  /** What a pattern makes of a message: its expansion, unless there is nothing in it to expand. */
  function Formatted(pattern: string, msg: Msg, date: Calendar): string {
    if pattern == "" || pattern == "%" then Combined(msg) else Expand(pattern, msg, date)
  }

  // ---------- what the fields look like ----------

  /** Whole seconds, toward zero: what is left over is less than a second and on the same side of zero. */
  lemma SecondsTruncate(milliseconds: int)
    ensures milliseconds >= 0 ==> 0 <= milliseconds - 1000 * Seconds(milliseconds) < 1000
    ensures milliseconds <= 0 ==> -1000 < milliseconds - 1000 * Seconds(milliseconds) <= 0
  {
    var size := if milliseconds >= 0 then milliseconds else -milliseconds;
    assert size == 1000 * (size / 1000) + size % 1000;
  }

  lemma LevelLetters(level: int)
    ensures LevelText(level) == [if 0 <= level < 6 then "VDIWEF"[level] else 'U']
  {
  }

  /** The longest beginning without a NUL. */
  lemma {:induction false} CStringCuts(s: string)
    ensures CString(s) <= s && '\0' !in CString(s)
    ensures CString(s) == s || s[|CString(s)|] == '\0'
  {
    if s != "" && s[0] != '\0' {
      CStringCuts(s[1..]);
    }
  }

  lemma {:induction false} ExpandText(text: string, rest: string, msg: Msg, date: Calendar)
    requires forall i | 0 <= i < |text| :: text[i] != '%'
    ensures Expand(text + rest, msg, date) == text + Expand(rest, msg, date)
    decreases |text|
  {
    if text == "" {
      assert text + rest == rest;
    } else {
      assert (text + rest)[1..] == text[1..] + rest;
      ExpandText(text[1..], rest, msg, date);
    }
  }

  lemma ExpandFlag(flag: string, rest: string, msg: Msg, date: Calendar)
    requires |flag| == 2 && flag[0] == '%'
    ensures Expand(flag + rest, msg, date) == Field(flag[1], msg, date) + Expand(rest, msg, date)
  {
    assert (flag + rest)[2..] == rest;
  }

  /** Some text, then a flag. */
  lemma ExpandPiece(text: string, flag: string, rest: string, msg: Msg, date: Calendar)
    requires (forall i | 0 <= i < |text| :: text[i] != '%') && |flag| == 2 && flag[0] == '%'
    ensures Expand(text + (flag + rest), msg, date) == text + (Field(flag[1], msg, date) + Expand(rest, msg, date))
  {
    ExpandText(text, flag + rest, msg, date);
    ExpandFlag(flag, rest, msg, date);
  }

  /** The pattern of process, thread, file, function and line, in the brackets that both forms of a line share. */
  function PlacesPattern(rest: string): string {
    "][" + ("%p" + (":" + ("%t" + ("][" + ("%F" + (":" + ("%f" + (":" + ("%#" + rest)))))))))
  }

  lemma ExpandPlaces(rest: string, msg: Msg, date: Calendar)
    ensures Expand(PlacesPattern(rest), msg, date) == Places(msg, Expand(rest, msg, date))
  {
    hide Expand, Text;
    var r1 := ":" + ("%#" + rest);
    var r2 := ":" + ("%f" + r1);
    var r3 := "][" + ("%F" + r2);
    var r4 := ":" + ("%t" + r3);
    ExpandPiece(":", "%#", rest, msg, date);
    ExpandPiece(":", "%f", r1, msg, date);
    ExpandPiece("][", "%F", r2, msg, date);
    ExpandPiece(":", "%t", r3, msg, date);
    ExpandPiece("][", "%p", r4, msg, date);
  }

  lemma DecoderTimes(rest: string, msg: Msg, date: Calendar)
    ensures Expand("][" + ("%D" + (":" + ("%S" + rest))), msg, date)
         == "][" + (date(msg.timestamp) + (":" + (Text(Seconds(msg.timestamp)) + Expand(rest, msg, date))))
  {
    hide Expand, Text, Seconds;
    ExpandPiece(":", "%S", rest, msg, date);
    ExpandPiece("][", "%D", ":" + ("%S" + rest), msg, date);
  }

  /** What the decoder's own pattern makes of a message: `[%l][%D:%S][%p:%t][%F:%f:%#]%v`. */
  lemma DecoderLine(msg: Msg, date: Calendar)
    ensures Expand("[" + ("%l" + ("][" + ("%D" + (":" + ("%S" + PlacesPattern("]" + ("%v" + ""))))))), msg, date)
         == "[" + (LevelText(msg.level) + ("][" + (date(msg.timestamp) + (":" + (Text(Seconds(msg.timestamp))
            + Places(msg, "]" + msg.info))))))
  {
    assert Expand("", msg, date) == "" && msg.info + "" == msg.info;
    hide Expand, Text, Seconds, LevelText, Places, PlacesPattern;
    var rest := "]" + ("%v" + "");
    ExpandPiece("]", "%v", "", msg, date);
    ExpandPlaces(rest, msg, date);
    DecoderTimes(PlacesPattern(rest), msg, date);
    ExpandPiece("[", "%l", "][" + ("%D" + (":" + ("%S" + PlacesPattern(rest)))), msg, date);
  }

  /**
   * The built-in form is what the pattern `][%M][%p:%t][%F:%f:%#]` makes of the message behind its numeric level, with
   * the names as C strings, cut at 1023 characters, and then the text.
   */
  lemma CombinedIsPattern(msg: Msg, date: Calendar)
    ensures var m := msg.(fileName := CString(msg.fileName), funcName := CString(msg.funcName));
            var head := "[" + (Text(msg.level) + Expand("][" + ("%M" + PlacesPattern("]")), m, date));
            Combined(msg) == (if |head| > 1023 then head[..1023] else head) + msg.info
  {
    var m := msg.(fileName := CString(msg.fileName), funcName := CString(msg.funcName));
    assert Expand("]", m, date) == "]" by {
      ExpandText("]", "", m, date);
      assert "]" + "" == "]" && Expand("", m, date) == "";
    }
    hide Expand, Text, Places, PlacesPattern;
    ExpandPlaces("]", m, date);
    ExpandPiece("][", "%M", PlacesPattern("]"), m, date);
  }

  class DecodeFormatter {
    var formatters: seq<Formatter>

    constructor ()
      ensures formatters == []
    {
      formatters := [];
    }

    method SetPattern(pattern: string)
      modifies this
      ensures formatters == Parse(pattern)
    {
      formatters := [];
      var chars, i := "", 0;
      while i < |pattern|
        invariant 0 <= i <= |pattern|
        invariant formatters + ParseFrom(pattern[i..], chars) == Parse(pattern)
      {
        if pattern[i] == '%' {
          if chars != "" {
            formatters, chars := formatters + [Aggregate(chars)], "";
          }
          i := i + 1;
          if i == |pattern| {
            break;
          }
          formatters := formatters + [ByFlag(pattern[i])];
        } else {
          chars := chars + [pattern[i]];
        }
        i := i + 1;
      }
      if chars != "" {
        formatters := formatters + [Aggregate(chars)];
      }
    }

    /** After `SetPattern(pattern)` a message comes out as `pattern` says. */
    method Format(msg: Msg, date: Calendar, ghost pattern: string, dest: string) returns (out: string)
      requires formatters == Parse(pattern)
      ensures out == dest + Formatted(pattern, msg, date)
    {
      EmptyFrom(pattern, "");
      RenderFrom(pattern, "", msg, date);
      assert formatters != [] ==> RenderAll(formatters, msg, date) == Formatted(pattern, msg, date);
      out := dest;
      if formatters != [] {
        for k := 0 to |formatters|
          invariant out + RenderAll(formatters[k..], msg, date) == dest + RenderAll(formatters, msg, date)
        {
          assert formatters[k..][1..] == formatters[k + 1..];
          out := out + Render(formatters[k], msg, date);
        }
        assert formatters[|formatters|..] == [];
      } else {
        out := out + Combined(msg);
      }
    }
  }
}
