/**
 * A terminal that interprets Select Graphic Rendition sequences (ECMA-48, section 8.3.117): what a text shows, cell by
 * cell, and the style it leaves behind.
 */
module Terminal {
  import opened Records
  import opened Sequences
  import opened Theme

  datatype Style = Style(bold: bool, dim: bool, fg: Option<(nat, nat, nat)>, bg: Option<(nat, nat, nat)>)

  const DEFAULT := Style(false, false, None, None)

  datatype Cell = Cell(glyph: char, style: Style)

  const ESC: char := '\U{1b}'

  predicate IsDigit(c: char) {
    '0' <= c <= '9'
  }

  function DigitOf(c: char): nat
    requires IsDigit(c)
  {
    c as int - '0' as int
  }

  predicate Digits(s: string) {
    forall k | 0 <= k < |s| :: IsDigit(s[k])
  }

  /** The parameters of a control sequence: numerals separated by semicolons, an empty one meaning 0. */
  function Parameters(s: string, current: nat): seq<nat> {
    if s == "" then [current]
    else if IsDigit(s[0]) then Parameters(s[1..], 10 * current + DigitOf(s[0]))
    else [current] + Parameters(s[1..], 0)
  }

  function Apply(params: seq<nat>, style: Style): Style {
    if params == [] then style
    else if params[0] == 0 then Apply(params[1..], DEFAULT)
    else if params[0] == 1 then Apply(params[1..], style.(bold := true))
    else if params[0] == 2 then Apply(params[1..], style.(dim := true))
    else if params[0] == 38 && |params| >= 5 && params[1] == 2 then
      Apply(params[5..], style.(fg := Some((params[2], params[3], params[4]))))
    else if params[0] == 48 && |params| >= 5 && params[1] == 2 then
      Apply(params[5..], style.(bg := Some((params[2], params[3], params[4]))))
    else Apply(params[1..], style)
  }

  /** Where the sequence that began before `s` ends, if it does. */
  function FinalByte(s: string): (k: nat)
    ensures k <= |s| && (k < |s| ==> s[k] == 'm')
  {
    if s == "" then 0 else if s[0] == 'm' then 0 else 1 + FinalByte(s[1..])
  }

  /** What `s` shows when written in style `style`. */
  function Cells(s: string, style: Style): seq<Cell>
    decreases |s|
  {
    if s == "" then []
    else if |s| >= 2 && s[0] == ESC && s[1] == '[' then
      var k := FinalByte(s[2..]);
      if k == |s| - 2 then [] else Cells(s[k + 3..], Apply(Parameters(s[2..k + 2], 0), style))
    else [Cell(s[0], style)] + Cells(s[1..], style)
  }

  /** The style after it. */
  function Final(s: string, style: Style): Style
    decreases |s|
  {
    if s == "" then style
    else if |s| >= 2 && s[0] == ESC && s[1] == '[' then
      var k := FinalByte(s[2..]);
      if k == |s| - 2 then style else Final(s[k + 3..], Apply(Parameters(s[2..k + 2], 0), style))
    else Final(s[1..], style)
  }

  /** The text that is shown. */
  function Shown(cells: seq<Cell>): string {
    if cells == [] then "" else [cells[0].glyph] + Shown(cells[1..])
  }

  predicate Plain(s: string) {
    forall k | 0 <= k < |s| :: s[k] != ESC
  }

  function InStyle(s: string, style: Style): (cells: seq<Cell>)
    ensures |cells| == |s|
  {
    if s == "" then [] else [Cell(s[0], style)] + InStyle(s[1..], style)
  }

  // ----- laws -----

  lemma {:induction false} ShownInStyle(s: string, style: Style)
    ensures Shown(InStyle(s, style)) == s
  {
    if s != "" {
      ShownInStyle(s[1..], style);
    }
  }

  lemma {:induction false} ShownConcat(a: seq<Cell>, b: seq<Cell>)
    ensures Shown(a + b) == Shown(a) + Shown(b)
  {
    if a == [] {
      assert a + b == b;
    } else {
      assert (a + b)[1..] == a[1..] + b;
      ShownConcat(a[1..], b);
    }
  }

  /** A text without escapes shows as itself, in the style it finds. */
  lemma {:induction false} PlainShows(s: string, rest: string, style: Style)
    requires Plain(s)
    ensures Cells(s + rest, style) == InStyle(s, style) + Cells(rest, style)
    ensures Final(s + rest, style) == Final(rest, style)
  {
    if s == "" {
      assert s + rest == rest;
    } else {
      assert (s + rest)[0] == s[0] && (s + rest)[1..] == s[1..] + rest;
      PlainShows(s[1..], rest, style);
      ConcatAssoc([Cell(s[0], style)], InStyle(s[1..], style), Cells(rest, style));
    }
  }

  lemma {:induction false} FinalByteAt(p: string, rest: string)
    requires forall k | 0 <= k < |p| :: p[k] != 'm'
    ensures FinalByte(p + "m" + rest) == |p|
  {
    var s := p + "m" + rest;
    if p != "" {
      assert s[0] == p[0] && s[1..] == p[1..] + "m" + rest;
      FinalByteAt(p[1..], rest);
    }
  }

  /** A control sequence with parameter text `p` only changes the style. */
  lemma SequenceApplies(p: string, rest: string, style: Style)
    requires forall k | 0 <= k < |p| :: p[k] != 'm'
    ensures var s := [ESC, '['] + p + "m" + rest;
      Cells(s, style) == Cells(rest, Apply(Parameters(p, 0), style))
      && Final(s, style) == Final(rest, Apply(Parameters(p, 0), style))
  {
    var s := [ESC, '['] + p + "m" + rest;
    assert s[2..] == p + "m" + rest;
    FinalByteAt(p, rest);
    assert s[2..|p| + 2] == p && s[|p| + 3..] == rest;
  }

  lemma {:induction false} DigitsParse(s: string, rest: string, current: nat)
    requires Digits(s)
    ensures Parameters(s + rest, current) == Parameters(rest, Accumulate(s, current))
  {
    if s == "" {
      assert s + rest == rest;
    } else {
      assert (s + rest)[0] == s[0] && (s + rest)[1..] == s[1..] + rest;
      DigitsParse(s[1..], rest, 10 * current + DigitOf(s[0]));
    }
  }

  function Accumulate(s: string, current: nat): nat
    requires Digits(s)
  {
    if s == "" then current else Accumulate(s[1..], 10 * current + DigitOf(s[0]))
  }

  lemma {:induction false} AccumulateSnoc(s: string, c: char, current: nat)
    requires Digits(s) && IsDigit(c)
    ensures Accumulate(s + [c], current) == 10 * Accumulate(s, current) + DigitOf(c)
  {
    if s != "" {
      assert (s + [c])[1..] == s[1..] + [c];
      AccumulateSnoc(s[1..], c, 10 * current + DigitOf(s[0]));
    }
  }

  /** Reading back a printed numeral. */
  lemma {:induction false} DecimalReads(n: nat)
    ensures Accumulate(Decimal(n), 0) == n
  {
    if n >= 10 {
      DecimalReads(n / 10);
      AccumulateSnoc(Decimal(n / 10), ('0' as int + n % 10) as char, 0);
    }
  }

  lemma NumeralParses(n: nat, rest: string)
    ensures Parameters(Decimal(n) + ";" + rest, 0) == [n] + Parameters(rest, 0)
    ensures Parameters(Decimal(n), 0) == [n]
  {
    DecimalReads(n);
    DigitsParse(Decimal(n), ";" + rest, 0);
    assert Decimal(n) + ";" + rest == Decimal(n) + (";" + rest);
    assert (";" + rest)[1..] == rest;
    DigitsParse(Decimal(n), "", 0);
    assert Decimal(n) + "" == Decimal(n);
  }

  /** The parameter text of a truecolor sequence. */
  function ColorText(code: nat, rgb: (nat, nat, nat)): string {
    Decimal(code) + ";" + (Decimal(2) + ";" + (Decimal(rgb.0) + ";" + (Decimal(rgb.1) + ";" + Decimal(rgb.2))))
  }

  lemma ColorParameters(code: nat, rgb: (nat, nat, nat))
    ensures Parameters(ColorText(code, rgb), 0) == [code, 2, rgb.0, rgb.1, rgb.2]
    ensures forall k | 0 <= k < |ColorText(code, rgb)| :: ColorText(code, rgb)[k] != 'm'
  {
    hide Parameters, Decimal;
    var four := Decimal(rgb.1) + ";" + Decimal(rgb.2);
    var three := Decimal(rgb.0) + ";" + four;
    var two := Decimal(2) + ";" + three;
    NumeralParses(code, two);
    NumeralParses(2, three);
    NumeralParses(rgb.0, four);
    NumeralParses(rgb.1, Decimal(rgb.2));
    NumeralParses(rgb.2, "");
  }

  lemma TwoDigits()
    ensures Decimal(38) == "38" && Decimal(48) == "48" && Decimal(2) == "2"
  {
    assert Decimal(3) == "3" && Decimal(4) == "4";
  }

  function CodeText(foreground: bool): string {
    if foreground then "38" else "48"
  }

  /** The sequence `theme.py` prints is the control sequence of that parameter text. */
  lemma SequenceText(foreground: bool, rgb: (nat, nat, nat))
    ensures Sequence(CodeText(foreground), rgb)
         == [ESC, '['] + ColorText(if foreground then 38 else 48, rgb) + "m"
  {
    TwoDigits();
    var code := CodeText(foreground);
    hide Decimal;
    var r, g, b := Decimal(rgb.0), Decimal(rgb.1), Decimal(rgb.2);
    assert Sequence(code, rgb) == "\U{1b}[" + code + ";2;" + r + ";" + g + ";" + b + "m";
    assert "\U{1b}[" == [ESC, '['];
    Spliced(code, r, g, b);
  }

  lemma Spliced(code: string, r: string, g: string, b: string)
    ensures [ESC, '['] + code + ";2;" + r + ";" + g + ";" + b + "m"
         == [ESC, '['] + (code + ";" + ("2" + ";" + (r + ";" + (g + ";" + b)))) + "m"
  {
    assert ";2;" == ";" + "2" + ";";
  }

  /** A truecolor sequence sets exactly its colour. */
  lemma ColorSequenceApplies(foreground: bool, rgb: (nat, nat, nat), rest: string, style: Style)
    ensures var s := Sequence(CodeText(foreground), rgb) + rest;
      var after := if foreground then style.(fg := Some(rgb)) else style.(bg := Some(rgb));
      Cells(s, style) == Cells(rest, after) && Final(s, style) == Final(rest, after)
  {
    var code := if foreground then 38 else 48;
    hide Cells, Final, Sequence, Parameters, ColorText;
    SequenceText(foreground, rgb);
    ColorParameters(code, rgb);
    SequenceApplies(ColorText(code, rgb), rest, style);
    ColorApplies(foreground, rgb, style);
  }

  lemma ColorApplies(foreground: bool, rgb: (nat, nat, nat), style: Style)
    ensures Apply([if foreground then 38 else 48, 2, rgb.0, rgb.1, rgb.2], style)
         == if foreground then style.(fg := Some(rgb)) else style.(bg := Some(rgb))
  {
    var params := [if foreground then 38 else 48, 2, rgb.0, rgb.1, rgb.2];
    assert params[5..] == [];
  }

  /** The one-parameter sequences: reset, bold, dim. */
  lemma SimpleSequenceApplies(rest: string, style: Style)
    ensures Cells(RESET + rest, style) == Cells(rest, DEFAULT) && Final(RESET + rest, style) == Final(rest, DEFAULT)
    ensures Cells(BOLD + rest, style) == Cells(rest, style.(bold := true))
         && Final(BOLD + rest, style) == Final(rest, style.(bold := true))
    ensures Cells(DIM + rest, style) == Cells(rest, style.(dim := true))
         && Final(DIM + rest, style) == Final(rest, style.(dim := true))
  {
    hide Cells, Final, Parameters;
    OneDigit("0", rest, style);
    OneDigit("1", rest, style);
    OneDigit("2", rest, style);
    assert RESET == [ESC, '['] + "0" + "m";
    assert BOLD == [ESC, '['] + "1" + "m";
    assert DIM == [ESC, '['] + "2" + "m";
    ApplyOne(style);
  }

  lemma ApplyOne(style: Style)
    ensures Apply([0], style) == DEFAULT && Apply([1], style) == style.(bold := true)
    ensures Apply([2], style) == style.(dim := true)
  {
    assert [1][1..] == [] && [2][1..] == [] && [0][1..] == [];
  }

  lemma OneDigit(d: string, rest: string, style: Style)
    requires |d| == 1 && IsDigit(d[0])
    ensures var s := [ESC, '['] + d + "m" + rest; var after := Apply([DigitOf(d[0])], style);
      Cells(s, style) == Cells(rest, after) && Final(s, style) == Final(rest, after)
  {
    SequenceApplies(d, rest, style);
    assert Parameters(d, 0) == [DigitOf(d[0])];
    hide Cells, Final;
  }
}
