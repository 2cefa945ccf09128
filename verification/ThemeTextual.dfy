/**
 * Textual themes converted to logging themes (`theme_textual.py`).  The CIE-Lab conversions are the parameter `lab`:
 * the colour, before clamping, that moving `c` by an amount of luminance leads to; `darken` clamps it.  `functional`
 * is what the functional colour notations parse to and `number` is Python's `float` of a text.
 */
module ThemeTextual {
  import opened Records
  import opened C = Color
  import opened Theme

  datatype Env = Env(
    lab: (Color, real) -> Color,
    functional: string -> Option<Color>,
    number: string -> Option<real>,
    ansiPalette: Option<map<string, string>>,
    criticalDarken: real)

  /** The attributes of the source theme that are read; a colour attribute may be missing. */
  datatype TextualTheme = TextualTheme(
    name: Option<string>,
    attributes: map<string, string>,
    variables: map<string, string>,
    dark: bool,
    ansi: bool)

  const DEFAULT_DARK_BACKGROUND := "#121212"
  const DEFAULT_LIGHT_BACKGROUND := "#efefef"
  const DEFAULT_TEXT_MUTED := "auto 60%"

  function Darken(env: Env, c: Color, amount: real): Color {
    Clamped(env.lab(c, -amount))
  }

  function Canonical(env: Env, c: Color): Color {
    Darken(env, c, 0.0)
  }

  function Lookup(m: map<string, string>, key: string): string {
    if key in m then m[key] else ""
  }

  /** `variables.get(key) or getattr(theme, key, None)`: an empty text counts as missing. */
  function Given(theme: TextualTheme, key: string): Option<string> {
    if Lookup(theme.variables, key) != "" then Some(theme.variables[key])
    else if Lookup(theme.attributes, key) != "" then Some(theme.attributes[key])
    else None
  }

  predicate StartsWith(s: string, prefix: string) {
    |prefix| <= |s| && s[..|prefix|] == prefix
  }

  function ResolveAnsi(env: Env, token: string): Result<string> {
    match env.ansiPalette
    case None => Err("uses an ANSI color; pass ansi_palette")
    case Some(palette) => if token in palette then Ok(palette[token]) else Err("ansi_palette has no entry")
  }

  /** A token as a colour, through the ANSI palette when it names a slot of it. */
  function TokenColor(env: Env, token: string): Result<Color> {
    if StartsWith(token, "ansi_") then
      (match ResolveAnsi(env, token)
       case Ok(hex) => Parse(hex, env.functional)
       case Err(e) => Err(e))
    else Parse(token, env.functional)
  }

  /** `_canonical(_resolve(...))` of one base colour. */
  function Base(env: Env, theme: TextualTheme, key: string, fallback: Option<string>): Result<Color> {
    var raw := if Given(theme, key).Some? then Given(theme, key) else fallback;
    match raw
    case None => Err("theme has no " + key + " color")
    case Some(token) =>
      match TokenColor(env, token)
      case Ok(c) => Ok(Canonical(env, c))
      case Err(e) => Err(e)
  }

  /** `_flatten`, blending as the code does: from the colour towards the background by its alpha. */
  function Flatten(c: Color, background: Color): string {
    if c.a >= 1.0 then Hex6(c) else Hex6(Blend(c, background, c.a, Some(1.0)))
  }

  function StripPercent(s: string): string {
    if s != "" && s[|s| - 1] == '%' then StripPercent(s[..|s| - 1]) else s
  }

  /** The alpha of an `auto` token. */
  function AutoAlpha(env: Env, token: string): Option<real>
    requires token == "auto" || StartsWith(token, "auto ")
  {
    if token == "auto" then Some(1.0)
    else
      match env.number(StripPercent(token[5..]))
      case Some(x) => Some(x / 100.0)
      case None => None
  }

  function MutedToken(theme: TextualTheme): string {
    if "text-muted" in theme.variables then theme.variables["text-muted"] else DEFAULT_TEXT_MUTED
  }

  /** `_text_muted`: the debug slot. */
  function TextMuted(env: Env, theme: TextualTheme, background: Color): Result<string> {
    var token := MutedToken(theme);
    if StartsWith(token, "ansi_") then ResolveAnsi(env, token)
    else if token == "auto" || StartsWith(token, "auto ") then
      (match AutoAlpha(env, token)
       case Some(alpha) => Ok(Flatten(ContrastText(background, alpha), background))
       case None => Err("unparseable text-muted"))
    else
      (match Parse(token, env.functional)
       case Ok(c) => Ok(Flatten(c, background))
       case Err(e) => Err(e))
  }

  /** The eight base colours, each with the fallback that the earlier ones give it. */
  datatype Bases = Bases(
    primary: Color,
    secondary: Color,
    warning: Color,
    error: Color,
    success: Color,
    accent: Color,
    background: Color,
    foreground: Color)

  function DefaultBackground(theme: TextualTheme): string {
    if theme.dark then DEFAULT_DARK_BACKGROUND else DEFAULT_LIGHT_BACKGROUND
  }

  /** The first of eight attempts that failed, or what the attempts came to. */
  function Gather(p: Result<Color>, s: Result<Color>, w: Result<Color>, e: Result<Color>, u: Result<Color>, a: Result<Color>,
                  b: Result<Color>, f: Result<Color>): Result<Bases> {
    if p.Err? then Err(p.error)
    else if s.Err? then Err(s.error)
    else if w.Err? then Err(w.error)
    else if e.Err? then Err(e.error)
    else if u.Err? then Err(u.error)
    else if a.Err? then Err(a.error)
    else if b.Err? then Err(b.error)
    else if f.Err? then Err(f.error)
    else Ok(Bases(p.value, s.value, w.value, e.value, u.value, a.value, b.value, f.value))
  }

  /** The fallback an earlier base colour is; irrelevant if that one failed. */
  function Fallback(r: Result<Color>): Option<string> {
    if r.Ok? then Some(Hex6(r.value)) else None
  }

  function FallbackInverse(r: Result<Color>): Option<string> {
    if r.Ok? then Some(Hex6(Inverse(r.value))) else None
  }

  function ResolveBases(env: Env, theme: TextualTheme): Result<Bases> {
    var primary := Base(env, theme, "primary", None);
    var secondary := Base(env, theme, "secondary", Fallback(primary));
    var background := Base(env, theme, "background", Some(DefaultBackground(theme)));
    Gather(primary,
           secondary,
           Base(env, theme, "warning", Fallback(primary)),
           Base(env, theme, "error", Fallback(secondary)),
           Base(env, theme, "success", Fallback(secondary)),
           Base(env, theme, "accent", Fallback(primary)),
           background,
           Base(env, theme, "foreground", FallbackInverse(background)))
  }

  function CriticalBackground(env: Env, theme: TextualTheme, error: Color): Color {
    if theme.dark then Darken(env, error, env.criticalDarken) else error
  }

  /** `name or getattr(theme, "name", None) or "textual"`. */
  function ThemeName(name: Option<string>, theme: TextualTheme): string {
    if name.Some? && name.value != "" then name.value
    else if theme.name.Some? && theme.name.value != "" then theme.name.value
    else "textual"
  }

  function PaletteOf(bases: Bases, criticalBg: Color, debug: string): Palette {
    Palette(Hex6(bases.background), Hex6(bases.foreground), Some(debug), Some(Hex6(bases.success)),
            Some(Hex6(bases.warning)), Some(Hex6(bases.error)),
            Some(Hex6(ContrastText(criticalBg, 1.0))), Some(Hex6(criticalBg)), Some(Hex6(bases.accent)))
  }

  function FromTextualTheme(env: Env, theme: TextualTheme, name: Option<string>, color: bool): Result<LoggingTheme> {
    if theme.ansi && env.ansiPalette == None then Err("an ANSI theme; pass ansi_palette")
    else
      match ResolveBases(env, theme)
      case Err(e) => Err(e)
      case Ok(bases) =>
        match TextMuted(env, theme, bases.background)
        case Err(e) => Err(e)
        case Ok(debug) =>
          var palette := PaletteOf(bases, CriticalBackground(env, theme, bases.error), debug);
          Ok(LoggingTheme(ThemeName(name, theme), palette, color))
  }

  // ----- what comes out -----

  /** A slot that is `#` and six upper-case hexadecimal digits. */
  predicate Slot(s: Option<string>) {
    s.Some? && IsHex6(s.value)
  }

  lemma FlattenIsHex6(c: Color, background: Color)
    ensures IsHex6(Flatten(c, background))
  {
    Hex6IsHex6(c);
    Hex6IsHex6(Blend(c, background, c.a, Some(1.0)));
  }

  lemma PaletteIsHex(bases: Bases, criticalBg: Color, debug: string)
    ensures var p := PaletteOf(bases, criticalBg, debug);
      && IsHex6(p.background) && IsHex6(p.foreground) && p.debug == Some(debug)
      && Slot(p.info) && Slot(p.warning) && Slot(p.error) && Slot(p.critical) && Slot(p.criticalBg) && Slot(p.loggerName)
  {
    hide Hex6, IsHex6, ContrastText;
    Hex6IsHex6(bases.background);
    Hex6IsHex6(bases.foreground);
    Hex6IsHex6(bases.success);
    Hex6IsHex6(bases.warning);
    Hex6IsHex6(bases.error);
    Hex6IsHex6(criticalBg);
    Hex6IsHex6(ContrastText(criticalBg, 1.0));
    Hex6IsHex6(bases.accent);
  }

  lemma MutedIsHex(env: Env, theme: TextualTheme, background: Color)
    requires TextMuted(env, theme, background).Ok? && !StartsWith(MutedToken(theme), "ansi_")
    ensures IsHex6(TextMuted(env, theme, background).value)
  {
    var token := MutedToken(theme);
    hide MutedToken;
    if token == "auto" || StartsWith(token, "auto ") {
      FlattenIsHex6(ContrastText(background, AutoAlpha(env, token).value), background);
    } else {
      FlattenIsHex6(Parse(token, env.functional).value, background);
    }
  }

  /**
   * Every slot of a converted palette is `#RRGGBB` in upper case; the debug slot may be something else only when the
   * text-muted token is an ANSI name, whose replacement is used as it is.
   */
  lemma SlotsAreHex(env: Env, theme: TextualTheme, name: Option<string>, color: bool)
    requires FromTextualTheme(env, theme, name, color).Ok?
    ensures var p := FromTextualTheme(env, theme, name, color).value.palette;
      && IsHex6(p.background) && IsHex6(p.foreground)
      && Slot(p.info) && Slot(p.warning) && Slot(p.error) && Slot(p.critical) && Slot(p.criticalBg) && Slot(p.loggerName)
      && p.debug.Some? && (!StartsWith(MutedToken(theme), "ansi_") ==> IsHex6(p.debug.value))
  {
    hide ResolveBases, CriticalBackground, TextMuted, PaletteOf, IsHex6, StartsWith, ThemeName, MutedToken;
    var bases := ResolveBases(env, theme).value;
    var debug := TextMuted(env, theme, bases.background).value;
    PaletteIsHex(bases, CriticalBackground(env, theme, bases.error), debug);
    if !StartsWith(MutedToken(theme), "ansi_") {
      MutedIsHex(env, theme, bases.background);
    }
  }

  /** Every slot but the debug one, which the theme may set to a replacement of the caller's. */
  predicate HexButDebug(p: Palette) {
    && IsHex6(p.foreground) && p.debug.Some? && Slot(p.info) && Slot(p.warning) && Slot(p.error) && Slot(p.critical)
    && Slot(p.criticalBg) && Slot(p.loggerName)
  }

  predicate HexPalette(p: Palette) {
    HexButDebug(p) && Slot(p.debug)
  }

  lemma HexAccepted(s: string)
    requires IsHex6(s)
    ensures AnsiFg(s).Ok? && AnsiBg(s).Ok?
  {
    UpperCaseIsHex(s);
    ParsersAgree(s, (_: string) => None);
  }

  lemma HexPalettePaints(p: Palette, levelno: int)
    requires HexButDebug(p)
    ensures LevelColor(p, levelno).Some? && (levelno != DEBUG || Slot(p.debug) ==> AnsiFg(LevelColor(p, levelno).value).Ok?)
    ensures AnsiBg(p.criticalBg.value).Ok? && AnsiFg(p.foreground).Ok? && AnsiFg(p.loggerName.value).Ok?
  {
    hide AnsiFg, AnsiBg, IsHex6;
    if levelno != DEBUG || Slot(p.debug) {
      HexAccepted(LevelColor(p, levelno).value);
    }
    HexAccepted(p.criticalBg.value);
    HexAccepted(p.foreground);
    HexAccepted(p.loggerName.value);
  }

  /** The replacement the caller gives for the ANSI name that stands for the debug colour. */
  function DebugReplacement(env: Env, theme: TextualTheme): Option<string> {
    var token := MutedToken(theme);
    if StartsWith(token, "ansi_") && ResolveAnsi(env, token).Ok? then Some(ResolveAnsi(env, token).value) else None
  }

  /**
   * So every level, known or not, has a colour, and the escape printers accept it -- unless the level is DEBUG, the
   * text-muted token is an ANSI name, and the replacement the caller gave for it is one they do not accept.
   */
  lemma ConvertedThemePaints(env: Env, theme: TextualTheme, name: Option<string>, color: bool, levelno: int)
    requires FromTextualTheme(env, theme, name, color).Ok?
    ensures var p := FromTextualTheme(env, theme, name, color).value.palette;
      var replacement := DebugReplacement(env, theme);
      && HexButDebug(p) && LevelColor(p, levelno).Some?
      && (AnsiFg(LevelColor(p, levelno).value).Err? <==>
            levelno == DEBUG && replacement.Some? && AnsiFg(replacement.value).Err?)
  {
    SlotsAreHex(env, theme, name, color);
    if StartsWith(MutedToken(theme), "ansi_") {
      DebugIsReplaced(env, theme, name, color);
    }
    hide FromTextualTheme, IsHex6, AnsiFg, AnsiBg, StartsWith, MutedToken, ResolveAnsi;
    HexPalettePaints(FromTextualTheme(env, theme, name, color).value.palette, levelno);
  }

  lemma DebugIsReplaced(env: Env, theme: TextualTheme, name: Option<string>, color: bool)
    requires FromTextualTheme(env, theme, name, color).Ok? && StartsWith(MutedToken(theme), "ansi_")
    ensures ResolveAnsi(env, MutedToken(theme)).Ok?
    ensures FromTextualTheme(env, theme, name, color).value.palette.debug == DebugReplacement(env, theme)
  {
    hide ResolveBases, CriticalBackground, ThemeName, Hex6, StartsWith, MutedToken, ResolveAnsi;
  }

  // ----- when the conversion fails -----

  predicate Usable(env: Env, theme: TextualTheme, key: string) {
    Given(theme, key).Some? ==> TokenColor(env, Given(theme, key).value).Ok?
  }

  predicate MutedUsable(env: Env, token: string) {
    if StartsWith(token, "ansi_") then ResolveAnsi(env, token).Ok?
    else if token == "auto" || StartsWith(token, "auto ") then AutoAlpha(env, token).Some?
    else Parse(token, env.functional).Ok?
  }

  lemma HexTokenParses(env: Env, token: string)
    requires token != "" && token[0] == '#'
    ensures TokenColor(env, token) == Parse(token, env.functional)
  {
    var prefix := "ansi_";
    assert 5 <= |token| ==> token[..5][0] != prefix[0];
  }

  /** A fallback printed by `hex6` always parses, so a base colour fails only on a token of the theme's own. */
  lemma FallbackParses(env: Env, theme: TextualTheme, key: string, c: Color)
    ensures Base(env, theme, key, Some(Hex6(c))).Ok? <==> Usable(env, theme, key)
  {
    Hex6IsHex6(c);
    Hex6RoundTrip(c, env.functional);
    HexTokenParses(env, Hex6(c));
    hide Hex6, TokenColor, Parse;
  }

  lemma DefaultBackgroundParses(env: Env, theme: TextualTheme)
    ensures Base(env, theme, "background", Some(DefaultBackground(theme))).Ok? <==> Usable(env, theme, "background")
  {
    var token := DefaultBackground(theme);
    assert token[0] == '#' && token[1..] == (if theme.dark then "121212" else "efefef");
    assert WithoutNewline(token) == token;
    HexTokenParses(env, token);
    hide TokenColor;
  }

  lemma BasesExactly(env: Env, theme: TextualTheme)
    ensures ResolveBases(env, theme).Ok? <==>
      Given(theme, "primary").Some? && Usable(env, theme, "primary") && Usable(env, theme, "secondary")
      && Usable(env, theme, "warning") && Usable(env, theme, "error") && Usable(env, theme, "success")
      && Usable(env, theme, "accent") && Usable(env, theme, "background") && Usable(env, theme, "foreground")
  {
    var primary := Base(env, theme, "primary", None);
    assert primary.Ok? <==> Given(theme, "primary").Some? && Usable(env, theme, "primary");
    hide Given;
    if primary.Ok? {
      var secondary := Base(env, theme, "secondary", Fallback(primary));
      var background := Base(env, theme, "background", Some(DefaultBackground(theme)));
      FallbackParses(env, theme, "secondary", primary.value);
      FallbackParses(env, theme, "warning", primary.value);
      FallbackParses(env, theme, "accent", primary.value);
      DefaultBackgroundParses(env, theme);
      hide Base, Usable, Hex6, DefaultBackground;
      if secondary.Ok? {
        FallbackParses(env, theme, "error", secondary.value);
        FallbackParses(env, theme, "success", secondary.value);
      }
      if background.Ok? {
        FallbackParses(env, theme, "foreground", Inverse(background.value));
      }
    }
  }

  /**
   * The conversion succeeds exactly when the theme has a primary colour, every token it gives itself can be resolved,
   * and an ANSI theme comes with a palette: no default, fallback or derived colour can make it fail.
   */
  lemma ConvertsExactly(env: Env, theme: TextualTheme, name: Option<string>, color: bool)
    ensures FromTextualTheme(env, theme, name, color).Ok? <==>
      && (theme.ansi ==> env.ansiPalette.Some?)
      && Given(theme, "primary").Some?
      && Usable(env, theme, "primary") && Usable(env, theme, "secondary")
      && Usable(env, theme, "warning") && Usable(env, theme, "error") && Usable(env, theme, "success")
      && Usable(env, theme, "accent") && Usable(env, theme, "background") && Usable(env, theme, "foreground")
      && MutedUsable(env, MutedToken(theme))
  {
    BasesExactly(env, theme);
    hide ResolveBases, Given, Usable, PaletteOf, CriticalBackground, StartsWith, ResolveAnsi, AutoAlpha, Parse, Flatten, ContrastText;
  }

  // ----- legibility -----

  lemma BaseInRange(env: Env, theme: TextualTheme, key: string, fallback: Option<string>)
    requires Base(env, theme, key, fallback).Ok?
    ensures InRange(Base(env, theme, key, fallback).value)
  {
    hide TokenColor, Given;
  }

  lemma BackgroundsInRange(env: Env, theme: TextualTheme)
    requires ResolveBases(env, theme).Ok?
    ensures var bases := ResolveBases(env, theme).value;
      InRange(bases.background) && InRange(CriticalBackground(env, theme, bases.error))
  {
    hide Base, Fallback, FallbackInverse, DefaultBackground;
    BaseInRange(env, theme, "background", Some(DefaultBackground(theme)));
    BaseInRange(env, theme, "error", Fallback(Base(env, theme, "secondary", Fallback(Base(env, theme, "primary", None)))));
  }

  /** As printed, the text of CRITICAL differs from its background by at least half the brightness scale. */
  lemma CriticalIsLegible(env: Env, theme: TextualTheme, name: Option<string>, color: bool)
    requires FromTextualTheme(env, theme, name, color).Ok?
    ensures var p := FromTextualTheme(env, theme, name, color).value.palette;
      && p.critical.Some? && p.criticalBg.Some?
      && Parse(p.critical.value, env.functional).Ok? && Parse(p.criticalBg.value, env.functional).Ok?
      && Abs(Brightness(Parse(p.critical.value, env.functional).value)
             - Brightness(Parse(p.criticalBg.value, env.functional).value)) >= 0.5
  {
    hide ResolveBases, ThemeName, Hex6, Parse;
    var bases := ResolveBases(env, theme).value;
    BackgroundsInRange(env, theme);
    var criticalBg := CriticalBackground(env, theme, bases.error);
    hide ResolveBases, CriticalBackground, TextMuted, Parse, Hex6;
    ContrastGap(criticalBg, 1.0);
    Hex6RoundTrip(criticalBg, env.functional);
    Hex6RoundTrip(ContrastText(criticalBg, 1.0), env.functional);
    hide ContrastText;
  }

  /**
   * As printed, a debug colour given as `auto a%` with 0 < a < 100 differs in brightness from the background by more
   * than half of what `a` leaves, less one 255th.
   */
  lemma DebugIsLegible(env: Env, theme: TextualTheme, name: Option<string>, color: bool, percent: real)
    requires FromTextualTheme(env, theme, name, color).Ok?
    requires StartsWith(MutedToken(theme), "auto ")
    requires env.number(StripPercent(MutedToken(theme)[5..])) == Some(percent) && 0.0 < percent < 100.0
    ensures var p := FromTextualTheme(env, theme, name, color).value.palette;
      && p.debug.Some? && Parse(p.debug.value, env.functional).Ok? && Parse(p.background, env.functional).Ok?
      && Abs(Brightness(Parse(p.debug.value, env.functional).value) - Brightness(Parse(p.background, env.functional).value))
           > (1.0 - percent / 100.0) / 2.0 - 1.0 / 255.0
  {
    hide ResolveBases, ThemeName, Hex6, Parse;
    var background := ResolveBases(env, theme).value.background;
    var alpha := percent / 100.0;
    BackgroundsInRange(env, theme);
    MutedDebug(env, theme, background, percent);
    hide ResolveBases, CriticalBackground, TextMuted, Parse, Hex6, MutedToken, StartsWith, StripPercent;
    MutedGap(background, alpha);
    Hex6RoundTrip(background, env.functional);
    Hex6RoundTrip(Muted(background, alpha), env.functional);
    hide Muted;
  }

  lemma MutedDebug(env: Env, theme: TextualTheme, background: Color, percent: real)
    requires StartsWith(MutedToken(theme), "auto ")
    requires env.number(StripPercent(MutedToken(theme)[5..])) == Some(percent) && 0.0 < percent < 100.0
    ensures TextMuted(env, theme, background) == Ok(Hex6(Muted(background, percent / 100.0)))
  {
    assert MutedToken(theme) != "auto";
    hide Hex6, Blend, StripPercent, MutedToken;
  }

  // ----- which token a slot shows -----

  /**
   * The colour of the first of `keys` that the theme gives, or else `last`; it is moved by no luminance where it is read
   * and again wherever it is handed on as a fallback, opaque.
   */
  function Chosen(env: Env, theme: TextualTheme, keys: seq<string>, last: Option<Color>): Option<Color> {
    if keys == [] then last
    else if Given(theme, keys[0]).Some? then
      (match TokenColor(env, Given(theme, keys[0]).value)
       case Ok(c) => Some(Clamped(env.lab(c, 0.0)))
       case Err(_) => None)
    else
      match Chosen(env, theme, keys[1..], last)
      case Some(c) => Some(Clamped(env.lab(c.(a := 1.0), 0.0)))
      case None => None
  }

  predicate Proper(c: Color) {
    InRange(c) && 0.0 <= c.a <= 1.0
  }

  lemma TokenOfPrinted(env: Env, c: Color)
    requires Proper(c)
    ensures TokenColor(env, Hex6(c)) == Ok(c.(a := 1.0))
  {
    Hex6IsHex6(c);
    Hex6RoundTrip(c, env.functional);
    HexTokenParses(env, Hex6(c));
    ClampedIsNearest(c, c);
    hide Hex6, TokenColor, Parse;
  }

  /** A base colour whose fallback stands for the colour of `keys` is the colour of one key more. */
  lemma BaseIsChosen(env: Env, theme: TextualTheme, key: string, fallback: Option<string>, keys: seq<string>, last: Option<Color>)
    requires Base(env, theme, key, fallback).Ok?
    requires fallback.Some? ==>
      var c := Chosen(env, theme, keys, last); c.Some? && TokenColor(env, fallback.value) == Ok(c.value.(a := 1.0))
    ensures Chosen(env, theme, [key] + keys, last) == Some(Base(env, theme, key, fallback).value)
    ensures Proper(Base(env, theme, key, fallback).value)
  {
    assert ([key] + keys)[1..] == keys;
    hide Given, TokenColor, InRange;
    ClampedIsProper(env, if Given(theme, key).Some? then Given(theme, key).value else fallback.value);
  }

  lemma ClampedIsProper(env: Env, token: string)
    requires TokenColor(env, token).Ok?
    ensures Proper(Canonical(env, TokenColor(env, token).value))
    ensures Canonical(env, TokenColor(env, token).value) == Clamped(env.lab(TokenColor(env, token).value, 0.0))
  {
    ClampedIsNearest(env.lab(TokenColor(env, token).value, 0.0), BLACK);
    hide TokenColor;
  }

  /** The one that hands on is printed. */
  lemma NextIsChosen(env: Env, theme: TextualTheme, key: string, r: Result<Color>, keys: seq<string>)
    requires r.Ok? && Proper(r.value) && Chosen(env, theme, keys, None) == Some(r.value)
    requires Base(env, theme, key, Fallback(r)).Ok?
    ensures Chosen(env, theme, [key] + keys, None) == Some(Base(env, theme, key, Fallback(r)).value)
    ensures Proper(Base(env, theme, key, Fallback(r)).value)
  {
    TokenOfPrinted(env, r.value);
    hide Base, Chosen, Proper, Hex6;
    BaseIsChosen(env, theme, key, Fallback(r), keys, None);
  }

  lemma DefaultBackgroundIs(env: Env, theme: TextualTheme)
    ensures TokenColor(env, DefaultBackground(theme)) == Ok(DefaultColor(theme))
  {
    var token := DefaultBackground(theme);
    assert token[1..] == (if theme.dark then "121212" else "efefef");
    assert WithoutNewline(token) == token;
    HexTokenParses(env, token);
  }

  function DefaultColor(theme: TextualTheme): Color {
    if theme.dark then Color(18, 18, 18, 1.0) else Color(239, 239, 239, 1.0)
  }

  /** The colours a palette is made from. */
  lemma BasesChosen(env: Env, theme: TextualTheme)
    requires ResolveBases(env, theme).Ok?
    ensures var bases := ResolveBases(env, theme).value;
      && Chosen(env, theme, ["success", "secondary", "primary"], None) == Some(bases.success)
      && Chosen(env, theme, ["error", "secondary", "primary"], None) == Some(bases.error)
      && Chosen(env, theme, ["warning", "primary"], None) == Some(bases.warning)
      && Chosen(env, theme, ["accent", "primary"], None) == Some(bases.accent)
      && Proper(bases.error)
  {
    hide Chosen, Proper, Given, Hex6, TokenColor, Base, Fallback, FallbackInverse, DefaultBackground;
    var primary := Base(env, theme, "primary", None);
    var secondary := Base(env, theme, "secondary", Fallback(primary));
    BaseIsChosen(env, theme, "primary", None, [], None);
    assert ["primary"] + [] == ["primary"];
    NextIsChosen(env, theme, "secondary", primary, ["primary"]);
    NextIsChosen(env, theme, "warning", primary, ["primary"]);
    NextIsChosen(env, theme, "accent", primary, ["primary"]);
    NextIsChosen(env, theme, "error", secondary, ["secondary"] + ["primary"]);
    NextIsChosen(env, theme, "success", secondary, ["secondary"] + ["primary"]);
    assert ["success"] + (["secondary"] + ["primary"]) == ["success", "secondary", "primary"];
    assert ["error"] + (["secondary"] + ["primary"]) == ["error", "secondary", "primary"];
    assert ["warning"] + ["primary"] == ["warning", "primary"] && ["accent"] + ["primary"] == ["accent", "primary"];
  }

  lemma GroundsChosen(env: Env, theme: TextualTheme)
    requires ResolveBases(env, theme).Ok?
    ensures var bases := ResolveBases(env, theme).value;
      && Chosen(env, theme, ["background"], Some(DefaultColor(theme))) == Some(bases.background)
      && Chosen(env, theme, ["foreground"], Some(Inverse(bases.background))) == Some(bases.foreground)
  {
    hide Given, Hex6, TokenColor, DefaultBackground;
    DefaultBackgroundIs(env, theme);
    BaseIsChosen(env, theme, "background", Some(DefaultBackground(theme)), [], Some(DefaultColor(theme)));
    var b := ResolveBases(env, theme).value.background;
    InverseMirrors(b);
    TokenOfPrinted(env, Inverse(b));
    BaseIsChosen(env, theme, "foreground", Some(Hex6(Inverse(b))), [], Some(Inverse(b)));
    assert ["background"] + [] == ["background"] && ["foreground"] + [] == ["foreground"];
    hide Base, Chosen;
  }

  /**
   * What each slot shows: the colour of its own token, or of the first fallback the theme gives; a missing foreground is
   * the inverse of the background, and on a dark theme the background of CRITICAL is the error colour darkened.
   */
  lemma SlotsShow(env: Env, theme: TextualTheme, name: Option<string>, color: bool)
    requires FromTextualTheme(env, theme, name, color).Ok?
    ensures var p := FromTextualTheme(env, theme, name, color).value.palette;
      && Shows(p.info, Chosen(env, theme, ["success", "secondary", "primary"], None))
      && Shows(p.warning, Chosen(env, theme, ["warning", "primary"], None))
      && Shows(p.error, Chosen(env, theme, ["error", "secondary", "primary"], None))
      && Shows(p.loggerName, Chosen(env, theme, ["accent", "primary"], None))
      && Shows(p.criticalBg, CriticalShown(env, theme, Chosen(env, theme, ["error", "secondary", "primary"], None)))
      && var background := Chosen(env, theme, ["background"], Some(DefaultColor(theme)));
      && Shows(Some(p.background), background)
      && background.Some? && Shows(Some(p.foreground), Chosen(env, theme, ["foreground"], Some(Inverse(background.value))))
  {
    hide Chosen, Hex6, CriticalShown, Shows;
    MadeFromBases(env, theme, name, color);
    BasesChosen(env, theme);
    GroundsChosen(env, theme);
    hide FromTextualTheme, ResolveBases, Inverse;
    PaletteShows(env, theme, ResolveBases(env, theme).value, FromTextualTheme(env, theme, name, color).value.palette.debug.value);
  }

  lemma MadeFromBases(env: Env, theme: TextualTheme, name: Option<string>, color: bool)
    requires FromTextualTheme(env, theme, name, color).Ok?
    ensures ResolveBases(env, theme).Ok?
    ensures var bases, p := ResolveBases(env, theme).value, FromTextualTheme(env, theme, name, color).value.palette;
      p.debug.Some? && p == PaletteOf(bases, CriticalBackground(env, theme, bases.error), p.debug.value)
      && TextMuted(env, theme, bases.background) == Ok(p.debug.value)
  {
    hide ResolveBases, TextMuted, CriticalBackground, ThemeName, Hex6, ContrastText;
  }

  lemma PaletteShows(env: Env, theme: TextualTheme, bases: Bases, debug: string)
    ensures var p := PaletteOf(bases, CriticalBackground(env, theme, bases.error), debug);
      && Shows(p.info, Some(bases.success)) && Shows(p.warning, Some(bases.warning)) && Shows(p.error, Some(bases.error))
      && Shows(p.loggerName, Some(bases.accent)) && Shows(p.criticalBg, CriticalShown(env, theme, Some(bases.error)))
      && Shows(Some(p.background), Some(bases.background)) && Shows(Some(p.foreground), Some(bases.foreground))
  {
    hide Hex6, ContrastText;
  }

  predicate Shows(slot: Option<string>, c: Option<Color>) {
    slot.Some? && c.Some? && slot.value == Hex6(c.value)
  }

  function CriticalShown(env: Env, theme: TextualTheme, error: Option<Color>): Option<Color> {
    if error.Some? && theme.dark then Some(Clamped(env.lab(error.value, -env.criticalDarken))) else error
  }

  // ----- tokens that are printed as they are -----

  /** Moving a colour by no luminance leaves it alone. */
  ghost predicate Steady(env: Env) {
    forall c: Color | Proper(c) :: env.lab(c, 0.0) == c
  }

  function FirstGiven(theme: TextualTheme, keys: seq<string>): Option<string> {
    if keys == [] then None
    else if Given(theme, keys[0]).Some? then Given(theme, keys[0])
    else FirstGiven(theme, keys[1..])
  }

  lemma {:induction false} GivenIsKept(env: Env, theme: TextualTheme, keys: seq<string>, last: Option<Color>, token: string)
    requires Steady(env) && FirstGiven(theme, keys) == Some(token) && IsHex6(token)
    ensures var c := Chosen(env, theme, keys, last);
      c.Some? && Proper(c.value) && c.value.a == 1.0 && Hex6(c.value) == token
  {
    hide Given, IsHex6, Hex6, Parse, InRange;
    if Given(theme, keys[0]).Some? {
      TokenIsKept(env, token);
    } else {
      GivenIsKept(env, theme, keys[1..], last, token);
      var c := Chosen(env, theme, keys[1..], last).value;
      ClampedIsNearest(c, c);
    }
  }

  lemma TokenIsKept(env: Env, token: string)
    requires Steady(env) && IsHex6(token)
    ensures TokenColor(env, token).Ok?
    ensures var c := Clamped(env.lab(TokenColor(env, token).value, 0.0)); Proper(c) && c.a == 1.0 && Hex6(c) == token
  {
    ParsePrints(token, env.functional);
    HexTokenParses(env, token);
    hide Parse, Hex6, IsHex6;
    var c := TokenColor(env, token).value;
    assert Proper(c);
    ClampedIsNearest(c, c);
  }

  /** When moving by no luminance changes nothing, a token given as `#RRGGBB` is printed by its slots as it is. */
  lemma TokensAreKept(env: Env, theme: TextualTheme, name: Option<string>, color: bool, token: string)
    requires FromTextualTheme(env, theme, name, color).Ok? && Steady(env) && IsHex6(token)
    ensures var p := FromTextualTheme(env, theme, name, color).value.palette;
      && (FirstGiven(theme, ["success", "secondary", "primary"]) == Some(token) ==> p.info == Some(token))
      && (FirstGiven(theme, ["warning", "primary"]) == Some(token) ==> p.warning == Some(token))
      && (FirstGiven(theme, ["error", "secondary", "primary"]) == Some(token) ==> p.error == Some(token))
      && (FirstGiven(theme, ["accent", "primary"]) == Some(token) ==> p.loggerName == Some(token))
      && (Given(theme, "background") == Some(token) ==> p.background == token)
      && (Given(theme, "foreground") == Some(token) ==> p.foreground == token)
      && (MutedToken(theme) == token ==> p.debug == Some(token))
  {
    hide Chosen, Hex6, Given, FirstGiven, Shows, FromTextualTheme, Inverse, IsHex6, MutedToken, CriticalShown, Steady;
    SlotsShow(env, theme, name, color);
    MadeFromBases(env, theme, name, color);
    MutedIsKept(env, theme, ResolveBases(env, theme).value.background, token);
    var p := FromTextualTheme(env, theme, name, color).value.palette;
    SlotIsKept(env, theme, ["success", "secondary", "primary"], None, token, p.info);
    SlotIsKept(env, theme, ["warning", "primary"], None, token, p.warning);
    SlotIsKept(env, theme, ["error", "secondary", "primary"], None, token, p.error);
    SlotIsKept(env, theme, ["accent", "primary"], None, token, p.loggerName);
    var background := Chosen(env, theme, ["background"], Some(DefaultColor(theme)));
    SlotIsKept(env, theme, ["background"], Some(DefaultColor(theme)), token, Some(p.background));
    SlotIsKept(env, theme, ["foreground"], Some(Inverse(background.value)), token, Some(p.foreground));
    OnlyKey(theme, "background");
    OnlyKey(theme, "foreground");
  }

  lemma SlotIsKept(env: Env, theme: TextualTheme, keys: seq<string>, last: Option<Color>, token: string, slot: Option<string>)
    requires Steady(env) && IsHex6(token) && Shows(slot, Chosen(env, theme, keys, last))
    ensures FirstGiven(theme, keys) == Some(token) ==> slot == Some(token)
  {
    hide Chosen, Hex6, FirstGiven, IsHex6;
    if FirstGiven(theme, keys) == Some(token) {
      GivenIsKept(env, theme, keys, last, token);
    }
  }

  lemma OnlyKey(theme: TextualTheme, key: string)
    ensures FirstGiven(theme, [key]) == Given(theme, key)
  {
    hide Given;
    assert FirstGiven(theme, [key][1..]) == None;
  }

  lemma MutedIsKept(env: Env, theme: TextualTheme, background: Color, token: string)
    requires IsHex6(token)
    ensures MutedToken(theme) == token ==> TextMuted(env, theme, background) == Ok(token)
  {
    if MutedToken(theme) == token {
      ParsePrints(token, env.functional);
      NotANotation(token);
      hide Parse, Hex6, IsHex6, MutedToken, StartsWith;
    }
  }

  lemma NotANotation(token: string)
    requires token != "" && token[0] == '#'
    ensures !StartsWith(token, "ansi_") && token != "auto" && !StartsWith(token, "auto ")
  {
    var ansi, auto := "ansi_", "auto ";
    assert 5 <= |token| ==> token[..5][0] != ansi[0] && token[..5][0] != auto[0];
  }

  /** A variable of the theme comes before its attribute, and an empty text counts as none. */
  lemma VariablesComeFirst(theme: TextualTheme, key: string, token: string)
    requires token != ""
    ensures Given(theme.(variables := theme.variables[key := token]), key) == Some(token)
    ensures Lookup(theme.variables, key) == "" ==>
      Given(theme.(attributes := theme.attributes[key := token]), key) == Some(token)
    ensures Lookup(theme.variables, key) == Lookup(theme.attributes, key) == "" ==> Given(theme, key) == None
  {
  }

  /** An ANSI name stands for what the caller's palette has in its place. */
  lemma AnsiIsReplaced(env: Env, token: string, replacement: string)
    requires StartsWith(token, "ansi_") && !StartsWith(replacement, "ansi_") && env.ansiPalette.Some?
    ensures var with := env.(ansiPalette := Some(env.ansiPalette.value[token := replacement]));
      TokenColor(with, token) == TokenColor(env, replacement)
    ensures token !in env.ansiPalette.value ==> TokenColor(env, token).Err?
  {
    hide Parse, StartsWith;
  }

  /** Without a text-muted token the debug colour is the contrast text at sixty per cent. */
  lemma DebugByDefault(env: Env, theme: TextualTheme, name: Option<string>, color: bool)
    requires FromTextualTheme(env, theme, name, color).Ok?
    requires "text-muted" !in theme.variables && env.number("60") == Some(60.0)
    ensures var p := FromTextualTheme(env, theme, name, color).value.palette;
      && p.debug.Some? && Parse(p.debug.value, env.functional).Ok? && Parse(p.background, env.functional).Ok?
      && Abs(Brightness(Parse(p.debug.value, env.functional).value) - Brightness(Parse(p.background, env.functional).value))
           > 0.2 - 1.0 / 255.0
  {
    hide FromTextualTheme, MutedToken, StartsWith, StripPercent, Brightness, Parse;
    DefaultMuted(theme);
    DebugIsLegible(env, theme, name, color, 60.0);
  }

  lemma DefaultMuted(theme: TextualTheme)
    requires "text-muted" !in theme.variables
    ensures StartsWith(MutedToken(theme), "auto ") && StripPercent(MutedToken(theme)[5..]) == "60"
  {
    assert MutedToken(theme)[5..] == "60%" && "60%"[..2] == "60";
  }

  /** A text-muted token that is given is taken, even an empty one; `%` signs behind its number do not matter. */
  lemma MutedIsTaken(theme: TextualTheme, token: string)
    ensures MutedToken(theme.(variables := theme.variables["text-muted" := token])) == token
    ensures StripPercent(token + "%") == StripPercent(token)
    ensures token == "" || token[|token| - 1] != '%' ==> StripPercent(token) == token
  {
    assert (token + "%")[..|token|] == token;
  }

  /** A translucent colour is printed as the mix of itself and the background, by its alpha towards the background. */
  lemma TranslucentMixes(c: Color, background: Color, functional: string -> Option<Color>)
    requires InRange(c) && InRange(background) && 0.0 < c.a < 1.0
    ensures var e := Parse(Flatten(c, background), functional);
      && e.Ok? && e.value.a == 1.0 && MixOf(c.r, background.r, c.a, e.value.r)
      && MixOf(c.g, background.g, c.a, e.value.g) && MixOf(c.b, background.b, c.a, e.value.b)
  {
    var e := Blend(c, background, c.a, Some(1.0));
    BlendMixes(c, background, c.a, Some(1.0));
    BlendBrightness(c, background, c.a, Some(1.0));
    hide Hex6, Parse, Blend, MixOf;
    Hex6RoundTrip(e, functional);
  }

  /** Plain `auto` is the contrast text itself. */
  lemma AutoIsContrast(env: Env, theme: TextualTheme, background: Color)
    requires MutedToken(theme) == "auto"
    ensures TextMuted(env, theme, background) == Ok(if Brightness(background) < 0.5 then "#FFFFFF" else "#000000")
  {
    assert !StartsWith("auto", "ansi_");
    assert Hex6(WHITE) == "#FFFFFF" && Hex6(BLACK) == "#000000";
    hide Brightness, MutedToken;
  }

  /** The name asked for, or else the theme's own. */
  lemma NamedAndSwitched(env: Env, theme: TextualTheme, name: Option<string>, color: bool)
    requires FromTextualTheme(env, theme, name, color).Ok?
    ensures var r := FromTextualTheme(env, theme, name, color).value;
      && r.color == color && r.name != ""
      && (name.Some? && name.value != "" ==> r.name == name.value)
      && (name == None && theme.name.Some? && theme.name.value != "" ==> r.name == theme.name.value)
      && (name == None && theme.name == None ==> r.name == "textual")
  {
    hide ResolveBases, TextMuted, PaletteOf, CriticalBackground;
  }
}
