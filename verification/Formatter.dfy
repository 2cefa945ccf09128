/**
 * `ScietexFormatter` (`formatter/scietex.py`): a template of plain fields filled from a record, with or without the
 * theme's escape sequences.  The timestamp text and what the standard formatter appends for exceptions are parameters.
 */
module Formatter {
  import opened Records
  import opened Theme
  import opened Terminal
  import TT = ThemeTextual

  /** A piece of the format string: literal text or one of the four attributes the formatter treats. */
  datatype Field = Literal(text: string) | AscTime | LevelName | Name | Message

  /** The attributes of the copied record when the standard formatter fills the template. */
  datatype Values = Values(asctime: string, levelname: string, name: string, message: string)

  function FieldText(f: Field, v: Values): string {
    match f
    case Literal(text) => text
    case AscTime => v.asctime
    case LevelName => v.levelname
    case Name => v.name
    case Message => v.message
  }

  function Fill(template: seq<Field>, v: Values): string {
    if template == [] then "" else FieldText(template[0], v) + Fill(template[1..], v)
  }

  /** `f"{n:03d}"`. */
  function Padded(n: int): string {
    if n < 0 then "-" + (if -n < 10 then "0" else "") + Decimal(-n)
    else (if n < 10 then "00" else if n < 100 then "0" else "") + Decimal(n)
  }

  function LevelAbbreviation(levelno: int): string {
    if levelno == DEBUG then "DBG"
    else if levelno == INFO then "INF"
    else if levelno == WARNING then "WRN"
    else if levelno == Records.ERROR then "ERR"
    else if levelno == CRITICAL then "CRT"
    else Padded(levelno)
  }

  // ----- painting -----

  function Join(parts: seq<string>): string {
    if parts == [] then "" else Join(parts[..|parts| - 1]) + parts[|parts| - 1]
  }

  lemma JoinSnoc(parts: seq<string>, part: string)
    ensures Join(parts + [part]) == Join(parts) + part && Join([]) == ""
  {
    assert (parts + [part])[..|parts|] == parts;
  }

  /** The escape sequence of a slot: none when it is unset. */
  function Prefix(color: Option<string>, printer: string -> Result<string>): Result<string> {
    if color.Some? then printer(color.value) else Ok("")
  }

  function Paint(text: string, color: Option<string>, bold: bool, bg: Option<string>): Result<string> {
    var fg := Prefix(color, AnsiFg);
    var back := Prefix(bg, AnsiBg);
    if fg.Err? then fg
    else if back.Err? then back
    else if !bold && color == None && bg == None then Ok(text)
    else Ok((if bold then BOLD else "") + fg.value + back.value + text + RESET)
  }

  /** `_paint`, collecting the prefixes in a list. */
  method PaintText(text: string, color: Option<string>, bold: bool, bg: Option<string>) returns (r: Result<string>)
    ensures r == Paint(text, color, bold, bg)
  {
    hide AnsiFg, AnsiBg, Join;
    JoinSnoc([], "");
    var prefixes: seq<string> := [];
    if bold {
      JoinSnoc(prefixes, BOLD);
      prefixes := prefixes + [BOLD];
    }
    ghost var b := if bold then BOLD else "";
    assert Join(prefixes) == b;
    if color.Some? {
      var fg := AnsiFg(color.value);
      if fg.Err? {
        return fg;
      }
      JoinSnoc(prefixes, fg.value);
      prefixes := prefixes + [fg.value];
    }
    ghost var f := Prefix(color, AnsiFg).value;
    assert Join(prefixes) == b + f;
    if bg.Some? {
      var back := AnsiBg(bg.value);
      if back.Err? {
        return back;
      }
      JoinSnoc(prefixes, back.value);
      prefixes := prefixes + [back.value];
    }
    assert Join(prefixes) == b + f + Prefix(bg, AnsiBg).value;
    if prefixes == [] {
      return Ok(text);
    }
    r := Ok(Join(prefixes) + text + RESET);
  }

  function CriticalBg(p: Palette, levelno: int): Option<string> {
    if levelno == CRITICAL then p.criticalBg else None
  }

  function PlainValues(record: LogRecord, timestamp: string): Values {
    Values(timestamp, LevelAbbreviation(record.levelno), record.name, record.message)
  }

  function ColorValues(p: Palette, record: LogRecord, timestamp: string): Result<Values> {
    var message := Paint(record.message, Some(p.foreground), false, None);
    var level := Paint(LevelAbbreviation(record.levelno), LevelColor(p, record.levelno), true, CriticalBg(p, record.levelno));
    var name := Paint(record.name, p.loggerName, false, None);
    if message.Err? then Err(message.error)
    else if level.Err? then Err(level.error)
    else if name.Err? then Err(name.error)
    else Ok(Values(DIM + timestamp + RESET, level.value, name.value, message.value))
  }

  /** The formatted record; `trailer` is what the standard formatter appends for an exception or a stack. */
  function Format(p: Palette, color: bool, template: seq<Field>, record: LogRecord, timestamp: string,
                  trailer: string): Result<string> {
    if color then
      match ColorValues(p, record, timestamp)
      case Ok(v) => Ok(Fill(template, v) + trailer)
      case Err(e) => Err(e)
    else Ok(Fill(template, PlainValues(record, timestamp)) + trailer)
  }

  /** The record object the host holds. */
  class RecordObject {
    var name: string
    var levelno: int
    var levelname: string
    var msg: string

    constructor (name: string, levelno: int, levelname: string, msg: string)
      ensures this.name == name && this.levelno == levelno && this.levelname == levelname && this.msg == msg
    {
      this.name, this.levelno, this.levelname, this.msg := name, levelno, levelname, msg;
    }

    /** `copy.copy(record)`. */
    method Copy() returns (c: RecordObject)
      ensures fresh(c) && c.name == name && c.levelno == levelno && c.levelname == levelname && c.msg == msg
    {
      c := new RecordObject(name, levelno, levelname, msg);
    }
  }

  /** `formatTime`, given the timestamp text. */
  method FormatTime(color: bool, timestamp: string) returns (r: string)
    ensures r == if color then DIM + timestamp + RESET else timestamp
  {
    r := timestamp;
    if color {
      r := DIM + timestamp + RESET;
    }
  }

  /** `format`: it assigns to a copy and leaves the caller's record as it was. */
  method FormatRecord(p: Palette, color: bool, template: seq<Field>, original: RecordObject, timestamp: string, trailer: string)
    returns (r: Result<string>)
    ensures r == Format(p, color, template, LogRecord(original.name, original.levelno, original.msg), timestamp, trailer)
  {
    hide Paint, Fill, LevelAbbreviation, LevelColor;
    var record := original.Copy();
    if color {
      var message := PaintText(record.msg, Some(p.foreground), false, None);
      if message.Err? {
        return message;
      }
      var level := PaintText(LevelAbbreviation(record.levelno), LevelColor(p, record.levelno), true, CriticalBg(p, record.levelno));
      if level.Err? {
        return level;
      }
      record.levelname := level.value;
      var name := PaintText(record.name, p.loggerName, false, None);
      if name.Err? {
        return name;
      }
      record.name, record.msg := name.value, message.value;
    } else {
      record.levelname := LevelAbbreviation(record.levelno);
    }
    var asctime := FormatTime(color, timestamp);
    r := Ok(Fill(template, Values(asctime, record.levelname, record.name, record.msg)) + trailer);
  }

  // ----- what the terminal shows -----

  /** The channels a usable slot stands for. */
  function Rgb(slot: Option<string>): Option<(nat, nat, nat)> {
    if slot.Some? && ParseHex(slot.value).Ok? then Some(ParseHex(slot.value).value) else None
  }

  function FieldStyle(p: Palette, levelno: int, f: Field): Style {
    match f
    case Literal(_) => DEFAULT
    case AscTime => DEFAULT.(dim := true)
    case LevelName => Style(true, false, Rgb(LevelColor(p, levelno)), Rgb(CriticalBg(p, levelno)))
    case Name => DEFAULT.(fg := Rgb(p.loggerName))
    case Message => DEFAULT.(fg := Rgb(Some(p.foreground)))
  }

  /** Each field's text in that field's style. */
  function Expected(p: Palette, template: seq<Field>, levelno: int, v: Values): seq<Cell> {
    if template == [] then []
    else InStyle(FieldText(template[0], v), FieldStyle(p, levelno, template[0])) + Expected(p, template[1..], levelno, v)
  }

  /** A painted text shows as the text in the style asked for, and the style is back to default behind it. */
  lemma PaintShows(text: string, color: Option<string>, bold: bool, bg: Option<string>, rest: string)
    requires Plain(text) && Paint(text, color, bold, bg).Ok?
    ensures var s := Paint(text, color, bold, bg).value + rest;
      && Cells(s, DEFAULT) == InStyle(text, Style(bold, false, Rgb(color), Rgb(bg))) + Cells(rest, DEFAULT)
      && Final(s, DEFAULT) == Final(rest, DEFAULT)
  {
    hide Cells, Final, InStyle, Sequence, ParseHex;
    if !bold && color == None && bg == None {
      PlainShows(text, rest, DEFAULT);
    } else {
      var b := if bold then BOLD else "";
      var fg, back := Prefix(color, AnsiFg).value, Prefix(bg, AnsiBg).value;
      var tail := text + (RESET + rest);
      assert b + fg + back + text + RESET + rest == b + (fg + (back + tail));
      var one := DEFAULT.(bold := bold);
      var two := one.(fg := Rgb(color));
      var three := two.(bg := Rgb(bg));
      if bold {
        SimpleSequenceApplies(fg + (back + tail), DEFAULT);
      } else {
        assert b + (fg + (back + tail)) == fg + (back + tail);
      }
      PrefixApplies(true, color, back + tail, one);
      PrefixApplies(false, bg, tail, two);
      PlainShows(text, RESET + rest, three);
      SimpleSequenceApplies(rest, three);
    }
  }

  lemma PrefixApplies(foreground: bool, color: Option<string>, rest: string, style: Style)
    requires Prefix(color, if foreground then AnsiFg else AnsiBg).Ok?
    requires color == None ==> (if foreground then style.fg else style.bg) == None
    ensures var s := Prefix(color, if foreground then AnsiFg else AnsiBg).value + rest;
      var after := if foreground then style.(fg := Rgb(color)) else style.(bg := Rgb(color));
      Cells(s, style) == Cells(rest, after) && Final(s, style) == Final(rest, after)
  {
    hide Cells, Final, Sequence, ParseHex;
    if color.Some? {
      ColorSequenceApplies(foreground, ParseHex(color.value).value, rest, style);
    } else {
      assert "" + rest == rest;
    }
  }

  lemma LevelIsPlain(levelno: int)
    ensures Plain(LevelAbbreviation(levelno))
  {
  }

  predicate PlainTexts(template: seq<Field>, record: LogRecord, timestamp: string) {
    && Plain(timestamp) && Plain(record.name) && Plain(record.message)
    && forall k | 0 <= k < |template| :: template[k].Literal? ==> Plain(template[k].text)
  }

  lemma FieldShows(p: Palette, f: Field, record: LogRecord, timestamp: string, rest: string)
    requires ColorValues(p, record, timestamp).Ok? && PlainTexts([f], record, timestamp)
    ensures var s := FieldText(f, ColorValues(p, record, timestamp).value) + rest;
      && Cells(s, DEFAULT) == InStyle(FieldText(f, PlainValues(record, timestamp)), FieldStyle(p, record.levelno, f))
                            + Cells(rest, DEFAULT)
      && Final(s, DEFAULT) == Final(rest, DEFAULT)
  {
    hide Cells, Final, InStyle, Paint, LevelColor, LevelAbbreviation, Rgb, Plain;
    match f
    case Literal(text) =>
      assert [f][0].Literal?;
      PlainShows(text, rest, DEFAULT);
    case AscTime =>
      var style := DEFAULT.(dim := true);
      assert DIM + timestamp + RESET + rest == DIM + (timestamp + (RESET + rest));
      SimpleSequenceApplies(timestamp + (RESET + rest), DEFAULT);
      PlainShows(timestamp, RESET + rest, style);
      SimpleSequenceApplies(rest, style);
    case LevelName =>
      LevelIsPlain(record.levelno);
      PaintShows(LevelAbbreviation(record.levelno), LevelColor(p, record.levelno), true, CriticalBg(p, record.levelno), rest);
    case Name =>
      PaintShows(record.name, p.loggerName, false, None, rest);
      NoSlot();
    case Message =>
      PaintShows(record.message, Some(p.foreground), false, None, rest);
      NoSlot();
  }

  lemma NoSlot()
    ensures Rgb(None) == None
  {
  }

  lemma {:induction false} FillShows(p: Palette, template: seq<Field>, record: LogRecord, timestamp: string, rest: string)
    requires ColorValues(p, record, timestamp).Ok? && PlainTexts(template, record, timestamp)
    ensures var s := Fill(template, ColorValues(p, record, timestamp).value) + rest;
      && Cells(s, DEFAULT) == Expected(p, template, record.levelno, PlainValues(record, timestamp)) + Cells(rest, DEFAULT)
      && Final(s, DEFAULT) == Final(rest, DEFAULT)
  {
    hide Cells, Final, InStyle, ColorValues, FieldStyle, Plain, LevelAbbreviation;
    var colored := ColorValues(p, record, timestamp).value;
    if template == [] {
      assert "" + rest == rest;
      assert [] + Cells(rest, DEFAULT) == Cells(rest, DEFAULT);
    } else {
      var f, more := template[0], template[1..];
      var tail := Fill(more, colored) + rest;
      assert PlainTexts([f], record, timestamp);
      FieldShows(p, f, record, timestamp, tail);
      FillShows(p, more, record, timestamp, rest);
      assert Fill(template, colored) + rest == FieldText(f, colored) + tail;
    }
  }

  lemma {:induction false} ExpectedIsMonochrome(p: Palette, template: seq<Field>, levelno: int, v: Values)
    ensures Shown(Expected(p, template, levelno, v)) == Fill(template, v)
  {
    if template != [] {
      ExpectedIsMonochrome(p, template[1..], levelno, v);
      var head := InStyle(FieldText(template[0], v), FieldStyle(p, levelno, template[0]));
      ShownInStyle(FieldText(template[0], v), FieldStyle(p, levelno, template[0]));
      ShownConcat(head, Expected(p, template[1..], levelno, v));
    }
  }

  /**
   * Colour only colours.  For texts without escapes, what a terminal shows of the coloured output is exactly the
   * monochrome output, every field in its own style, and the terminal is back in its default style at the end.
   */
  lemma ColorOnlyColors(p: Palette, template: seq<Field>, record: LogRecord, timestamp: string, trailer: string)
    requires Format(p, true, template, record, timestamp, trailer).Ok?
    requires PlainTexts(template, record, timestamp) && Plain(trailer)
    ensures var s := Format(p, true, template, record, timestamp, trailer).value;
      && Cells(s, DEFAULT) == Expected(p, template, record.levelno, PlainValues(record, timestamp)) + InStyle(trailer, DEFAULT)
      && Final(s, DEFAULT) == DEFAULT
      && Ok(Shown(Cells(s, DEFAULT))) == Format(p, false, template, record, timestamp, trailer)
  {
    FillShows(p, template, record, timestamp, trailer);
    assert trailer + "" == trailer;
    PlainShows(trailer, "", DEFAULT);
    assert InStyle(trailer, DEFAULT) + [] == InStyle(trailer, DEFAULT);
    var v := PlainValues(record, timestamp);
    ExpectedIsMonochrome(p, template, record.levelno, v);
    ShownInStyle(trailer, DEFAULT);
    ShownConcat(Expected(p, template, record.levelno, v), InStyle(trailer, DEFAULT));
    hide ColorValues, Expected, InStyle;
  }

  /** A palette of `#RRGGBB` slots never makes formatting fail -- in particular a converted Textual theme. */
  lemma HexPaletteFormats(p: Palette, color: bool, template: seq<Field>, record: LogRecord, timestamp: string, trailer: string)
    requires TT.HexPalette(p)
    ensures Format(p, color, template, record, timestamp, trailer).Ok?
  {
    TT.HexPalettePaints(p, record.levelno);
    hide AnsiFg, AnsiBg, LevelColor, TT.HexPalette;
  }

  // ----- which text and which slot -----

  /** `"%(asctime)s - %(levelname)s - [%(name)s] - %(message)s"` */
  const DEFAULT_TEMPLATE: seq<Field> := [AscTime] + ([Literal(" - ")] + BEHIND_TIME)
  const BEHIND_TIME: seq<Field> := [LevelName] + ([Literal(" - [")] + BEHIND_LEVEL)
  const BEHIND_LEVEL: seq<Field> := [Name] + ([Literal("] - ")] + ([Message] + []))

  lemma FillCons(f: Field, more: seq<Field>, v: Values)
    ensures Fill([f] + more, v) == FieldText(f, v) + Fill(more, v)
  {
    assert ([f] + more)[1..] == more;
  }

  lemma FillDefault(v: Values)
    ensures Fill(DEFAULT_TEMPLATE, v) == v.asctime + " - " + v.levelname + " - [" + v.name + "] - " + v.message
  {
    hide Fill;
    FillCons(AscTime, [Literal(" - ")] + BEHIND_TIME, v);
    FillCons(Literal(" - "), BEHIND_TIME, v);
    FillCons(LevelName, [Literal(" - [")] + BEHIND_LEVEL, v);
    FillCons(Literal(" - ["), BEHIND_LEVEL, v);
    FillCons(Name, [Literal("] - ")] + ([Message] + []), v);
    FillCons(Literal("] - "), [Message] + [], v);
    FillCons(Message, [], v);
    FillNothing(v);
  }

  lemma FillNothing(v: Values)
    ensures Fill([], v) == ""
  {
  }

  /** The line an uncoloured record makes in the default format. */
  lemma MonochromeLine(p: Palette, record: LogRecord, timestamp: string, trailer: string)
    ensures Format(p, false, DEFAULT_TEMPLATE, record, timestamp, trailer) ==
      Ok(timestamp + " - " + LevelAbbreviation(record.levelno) + " - [" + record.name + "] - " + record.message + trailer)
  {
    hide Fill, LevelAbbreviation;
    FillDefault(PlainValues(record, timestamp));
  }

  lemma ExpectedCons(p: Palette, f: Field, more: seq<Field>, levelno: int, v: Values)
    ensures Expected(p, [f] + more, levelno, v)
         == InStyle(FieldText(f, v), FieldStyle(p, levelno, f)) + Expected(p, more, levelno, v)
  {
    assert ([f] + more)[1..] == more;
  }

  lemma LiteralCons(p: Palette, text: string, more: seq<Field>, levelno: int, v: Values)
    ensures Expected(p, [Literal(text)] + more, levelno, v) == InStyle(text, DEFAULT) + Expected(p, more, levelno, v)
  {
    ExpectedCons(p, Literal(text), more, levelno, v);
  }

  /** The foreground of a slot, on the default background. */
  function Inked(slot: Option<string>): Style {
    Style(false, false, Rgb(slot), None)
  }

  /**
   * And what a terminal shows of a coloured one: the timestamp dim, the level bold in its own slot and at CRITICAL on that
   * background, the name in the logger's slot, the message in the foreground, and nothing else in any colour.
   */
  lemma ColoredLine(p: Palette, record: LogRecord, timestamp: string, trailer: string)
    requires Format(p, true, DEFAULT_TEMPLATE, record, timestamp, trailer).Ok?
    requires Plain(timestamp) && Plain(record.name) && Plain(record.message) && Plain(trailer)
    ensures var level := Style(true, false, Rgb(LevelColor(p, record.levelno)),
                               if record.levelno == CRITICAL then Rgb(p.criticalBg) else None);
      Cells(Format(p, true, DEFAULT_TEMPLATE, record, timestamp, trailer).value, DEFAULT) ==
        InStyle(timestamp, Style(false, true, None, None)) + (InStyle(" - ", DEFAULT)
        + (InStyle(LevelAbbreviation(record.levelno), level) + (InStyle(" - [", DEFAULT)
        + (InStyle(record.name, Inked(p.loggerName)) + (InStyle("] - ", DEFAULT)
        + (InStyle(record.message, Inked(Some(p.foreground))) + [])))))) + InStyle(trailer, DEFAULT)
  {
    hide Format, Cells, InStyle, LevelAbbreviation, LevelColor, Plain, Rgb;
    LiteralsArePlain();
    ColorOnlyColors(p, DEFAULT_TEMPLATE, record, timestamp, trailer);
    ExpectedDefault(p, record.levelno, PlainValues(record, timestamp));
    NoSlot();
  }

  lemma LiteralsArePlain()
    ensures Plain(" - ") && Plain(" - [") && Plain("] - ")
  {
  }

  lemma ExpectedDefault(p: Palette, n: int, v: Values)
    ensures Expected(p, DEFAULT_TEMPLATE, n, v) ==
      InStyle(v.asctime, FieldStyle(p, n, AscTime)) + (InStyle(" - ", DEFAULT)
      + (InStyle(v.levelname, FieldStyle(p, n, LevelName)) + (InStyle(" - [", DEFAULT)
      + (InStyle(v.name, FieldStyle(p, n, Name)) + (InStyle("] - ", DEFAULT)
      + (InStyle(v.message, FieldStyle(p, n, Message)) + []))))))
  {
    assert Expected(p, [], n, v) == [];
    hide Expected, InStyle, FieldStyle;
    ExpectedCons(p, AscTime, [Literal(" - ")] + BEHIND_TIME, n, v);
    LiteralCons(p, " - ", BEHIND_TIME, n, v);
    ExpectedCons(p, LevelName, [Literal(" - [")] + BEHIND_LEVEL, n, v);
    LiteralCons(p, " - [", BEHIND_LEVEL, n, v);
    ExpectedCons(p, Name, [Literal("] - ")] + ([Message] + []), n, v);
    LiteralCons(p, "] - ", [Message] + [], n, v);
    ExpectedCons(p, Message, [], n, v);
  }

  /** Changing a slot of the palette changes the colour of its own level and of no other. */
  lemma SlotsColorTheirLevels(p: Palette, slot: Option<string>, text: string, n: int)
    ensures LevelColor(p.(debug := slot), n) == if n == 10 then slot else LevelColor(p, n)
    ensures LevelColor(p.(info := slot), n) == if n == 20 then slot else LevelColor(p, n)
    ensures LevelColor(p.(warning := slot), n) == if n == 30 then slot else LevelColor(p, n)
    ensures LevelColor(p.(error := slot), n) == if n == 40 then slot else LevelColor(p, n)
    ensures LevelColor(p.(critical := slot), n) == if n == 50 then slot else LevelColor(p, n)
    ensures LevelColor(p.(foreground := text), n) == if n in {10, 20, 30, 40, 50} then LevelColor(p, n) else Some(text)
    ensures LevelColor(p.(background := text, criticalBg := slot, loggerName := slot), n) == LevelColor(p, n)
  {
  }

  // ----- level names -----

  lemma {:induction false} ZeroFirst(s: string)
    requires Digits(s)
    ensures Digits("0" + s) && Accumulate("0" + s, 0) == Accumulate(s, 0)
  {
    assert ("0" + s)[1..] == s;
  }

  lemma DecimalLength(n: nat)
    ensures |Decimal(n)| >= (if n < 10 then 1 else if n < 100 then 2 else 3)
    ensures n >= 10 && n < 100 ==> |Decimal(n)| == 2
  {
  }

  /** The number of a level without a name is printed with its sign, in at least three places. */
  lemma PaddedReads(n: int)
    ensures 3 <= |Padded(n)|
    ensures n >= 0 ==> Digits(Padded(n)) && Accumulate(Padded(n), 0) == n
    ensures n < 0 ==> Padded(n)[0] == '-' && Digits(Padded(n)[1..]) && Accumulate(Padded(n)[1..], 0) == -n
  {
    var m: nat := if n < 0 then -n else n;
    DecimalReads(m);
    DecimalLength(m);
    var d := Decimal(m);
    ZeroFirst(d);
    ZeroFirst("0" + d);
    hide Decimal, Accumulate;
    assert "0" + ("0" + d) == "00" + d;
    if n < 0 {
      assert Padded(n)[1..] == (if m < 10 then "0" else "") + d;
      assert "" + d == d;
    } else {
      assert "" + d == d;
    }
  }

  predicate IsNamed(n: int) {
    n in {10, 20, 30, 40, 50}
  }

  lemma FirstOfLevel(n: int)
    ensures |LevelAbbreviation(n)| >= 3
    ensures if IsNamed(n) then 'A' <= LevelAbbreviation(n)[0] <= 'Z'
            else if n < 0 then LevelAbbreviation(n)[0] == '-' else IsDigit(LevelAbbreviation(n)[0])
  {
    PaddedReads(n);
    hide Padded;
  }

  /** So no two levels are printed alike. */
  lemma LevelsAreDistinct(m: int, n: int)
    requires LevelAbbreviation(m) == LevelAbbreviation(n)
    ensures m == n
  {
    FirstOfLevel(m);
    FirstOfLevel(n);
    if !IsNamed(m) && !IsNamed(n) {
      PaddedReads(m);
      PaddedReads(n);
    }
    hide Padded, Accumulate;
  }

  /** The levels with names of their own. */
  lemma NamedLevels()
    ensures LevelAbbreviation(10) == "DBG" && LevelAbbreviation(20) == "INF" && LevelAbbreviation(30) == "WRN"
    ensures LevelAbbreviation(40) == "ERR" && LevelAbbreviation(50) == "CRT"
  {
  }
}
