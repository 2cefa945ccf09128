/** SGR sequences and palettes (`theme.py`). */
module Theme {
  import opened Records
  import C = Color

  const RESET: string := "\U{1b}[0m"
  const BOLD: string := "\U{1b}[1m"
  const DIM: string := "\U{1b}[2m"

  /** A decimal numeral, as `format` prints a non-negative int. */
  function Decimal(n: nat): (s: string)
    ensures s != ""
    ensures forall k | 0 <= k < |s| :: '0' <= s[k] <= '9'
  {
    var last := ('0' as int + n % 10) as char;
    if n < 10 then [last] else Decimal(n / 10) + [last]
  }

  /** `_parse_hex`, on hexadecimal digits: the `#` is optional here. */
  function ParseHex(hexColor: string): Result<(nat, nat, nat)> {
    var raw := if hexColor != "" && hexColor[0] == '#' then hexColor[1..] else hexColor;
    if |raw| != 6 || !C.AllHex(raw) then Err("invalid hex color: expected 6 hex digits")
    else Ok((C.Pair(raw[0], raw[1]), C.Pair(raw[2], raw[3]), C.Pair(raw[4], raw[5])))
  }

  function Sequence(code: string, rgb: (nat, nat, nat)): string {
    "\U{1b}[" + code + ";2;" + Decimal(rgb.0) + ";" + Decimal(rgb.1) + ";" + Decimal(rgb.2) + "m"
  }

  function AnsiFg(hexColor: string): Result<string> {
    match ParseHex(hexColor)
    case Ok(rgb) => Ok(Sequence("38", rgb))
    case Err(e) => Err(e)
  }

  function AnsiBg(hexColor: string): Result<string> {
    match ParseHex(hexColor)
    case Ok(rgb) => Ok(Sequence("48", rgb))
    case Err(e) => Err(e)
  }

  /**
   * The two hex parsers agree.  Of a `#` and six characters, of either case, both accept exactly six hexadecimal digits
   * and find the same channels.
   */
  lemma ParsersAgree(s: string, functional: string -> Option<C.Color>)
    requires |s| == 7 && s[0] == '#'
    ensures var c := C.Parse(s, functional);
      && (ParseHex(s).Ok? <==> c.Ok?) && (c.Ok? <==> C.AllHex(s[1..]))
      && (c.Ok? ==> C.InRange(c.value) && c.value.a == 1.0 && ParseHex(s) == Ok((c.value.r, c.value.g, c.value.b)))
  {
    if s[6] == '\n' {
      assert s[1..][5] == s[6] && !C.IsHexDigit(s[6]);
      assert C.WithoutNewline(s) == s[..6];
    } else {
      assert C.WithoutNewline(s) == s;
      if C.AllHex(s[1..]) {
        PairsInRange(s);
      }
    }
  }

  /** The escape printers take six hexadecimal digits, with or without the `#` that the other parser asks for. */
  lemma HashIsOptional(s: string)
    requires s == "" || s[0] != '#'
    ensures ParseHex("#" + s) == ParseHex(s) && (ParseHex(s).Ok? <==> |s| == 6 && C.AllHex(s))
  {
    assert ("#" + s)[1..] == s;
  }

  lemma PairsInRange(s: string)
    requires |s| == 7 && C.AllHex(s[1..])
    ensures forall k | 1 <= k < 7 :: C.IsHexDigit(s[k])
    ensures C.Pair(s[1], s[2]) < 256 && C.Pair(s[3], s[4]) < 256 && C.Pair(s[5], s[6]) < 256
  {
    forall k | 1 <= k < 7 ensures C.IsHexDigit(s[k]) {
      assert s[1..][k - 1] == s[k];
    }
  }

  lemma UpperCaseIsHex(s: string)
    requires C.IsHex6(s)
    ensures C.AllHex(s[1..])
  {
  }

  lemma PrintedParses(c: C.Color)
    ensures var d := C.Clamped(c);
      C.IsHex6(C.Hex6(c)) && ParseHex(C.Hex6(c)) == Ok((d.r, d.g, d.b)) && AnsiFg(C.Hex6(c)) == Ok(Sequence("38", (d.r, d.g, d.b)))
  {
    C.Hex6IsHex6(c);
    C.Hex6RoundTrip(c, (_: string) => None);
    UpperCaseIsHex(C.Hex6(c));
    ParsersAgree(C.Hex6(c), (_: string) => None);
  }

  datatype Palette = Palette(
    background: string,
    foreground: string,
    debug: Option<string>,
    info: Option<string>,
    warning: Option<string>,
    error: Option<string>,
    critical: Option<string>,
    criticalBg: Option<string>,
    loggerName: Option<string>)

  /** `level_color`: unknown levels take the foreground. */
  function LevelColor(p: Palette, levelno: int): Option<string> {
    if levelno == DEBUG then p.debug
    else if levelno == INFO then p.info
    else if levelno == WARNING then p.warning
    else if levelno == Records.ERROR then p.error
    else if levelno == CRITICAL then p.critical
    else Some(p.foreground)
  }

  datatype LoggingTheme = LoggingTheme(name: string, palette: Palette, color: bool)
}
