/** Colour values and their arithmetic (`_color.py`), over the reals. */
module Color {
  import opened Records

  datatype Color = Color(r: int, g: int, b: int, a: real)

  const WHITE := Color(255, 255, 255, 1.0)
  const BLACK := Color(0, 0, 0, 1.0)

  /** Python's `int(x)`: towards zero. */
  function Trunc(x: real): int {
    if x >= 0.0 then x.Floor else -((-x).Floor)
  }

  /** It is the integer next to `x` on the side of zero. */
  lemma TowardsZero(x: real)
    ensures Trunc(-x) == -Trunc(x)
    ensures x >= 0.0 ==> 0 <= Trunc(x) && Trunc(x) as real <= x < Trunc(x) as real + 1.0
  {
  }

  function Max(x: real, y: real): real { if x >= y then x else y }

  function Min(x: real, y: real): real { if x <= y then x else y }

  function Abs(x: real): real { if x >= 0.0 then x else -x }

  /** A product the proofs keep folded. */
  function Times(x: real, y: real): real { x * y }

  // ----- HSL to RGB -----

  /** Python's `x % 1.0`. */
  function Mod1(x: real): real {
    x - x.Floor as real
  }

  function M2(lightness: real, s: real): real {
    if lightness <= 0.5 then lightness * (1.0 + s) else lightness + s - lightness * s
  }

  function M1(lightness: real, s: real): real {
    2.0 * lightness - M2(lightness, s)
  }

  /** `_to_rgb` on a hue already reduced modulo 1. */
  function Channel(m1: real, m2: real, hue: real): real {
    if hue < 1.0 / 6.0 then m1 + Times(m2 - m1, hue) * 6.0
    else if hue < 1.0 / 2.0 then m2
    else if hue < 2.0 / 3.0 then m1 + Times(m2 - m1, 2.0 / 3.0 - hue) * 6.0
    else m1
  }

  function HlsToRgb(h: real, lightness: real, s: real): (real, real, real) {
    if s == 0.0 then (lightness, lightness, lightness)
    else
      var m1, m2 := M1(lightness, s), M2(lightness, s);
      (Channel(m1, m2, Mod1(h + 1.0 / 3.0)), Channel(m1, m2, Mod1(h)), Channel(m1, m2, Mod1(h - 1.0 / 3.0)))
  }

  predicate OnHigh(hue: real) { 1.0 / 6.0 <= hue < 1.0 / 2.0 }

  predicate OnLow(hue: real) { 2.0 / 3.0 <= hue < 1.0 }

  function Count(a: bool, b: bool, c: bool): nat {
    (if a then 1 else 0) + (if b then 1 else 0) + (if c then 1 else 0)
  }

  lemma FloorIs(x: real, n: int)
    requires n as real <= x < n as real + 1.0
    ensures x.Floor == n
  {
  }

  /** A shift by `d`, less than a full turn, wraps at most once. */
  lemma ShiftedHue(h: real, d: real)
    requires 0.0 <= d < 1.0
    ensures 0.0 <= Mod1(h) < 1.0
    ensures Mod1(h + d) == if Mod1(h) + d < 1.0 then Mod1(h) + d else Mod1(h) + d - 1.0
    ensures Mod1(h - d) == if Mod1(h) >= d then Mod1(h) - d else Mod1(h) - d + 1.0
  {
    var n := h.Floor;
    FloorIs(h + d, if Mod1(h) + d < 1.0 then n else n + 1);
    FloorIs(h - d, if Mod1(h) >= d then n else n - 1);
  }

  lemma PlateausOfTurn(k: real)
    requires 0.0 <= k < 1.0
    ensures var x := if k + 1.0 / 3.0 < 1.0 then k + 1.0 / 3.0 else k + 1.0 / 3.0 - 1.0;
      var z := if k >= 1.0 / 3.0 then k - 1.0 / 3.0 else k - 1.0 / 3.0 + 1.0;
      Count(OnHigh(x), OnHigh(k), OnHigh(z)) == 1 && Count(OnLow(x), OnLow(k), OnLow(z)) == 1
  {
  }

  /** Whatever the hue, of its three phase shifts one is on the upper plateau and one on the lower. */
  lemma OneOnEachPlateau(h: real)
    ensures var x, y, z := Mod1(h + 1.0 / 3.0), Mod1(h), Mod1(h - 1.0 / 3.0);
      Count(OnHigh(x), OnHigh(y), OnHigh(z)) == 1 && Count(OnLow(x), OnLow(y), OnLow(z)) == 1
  {
    ShiftedHue(h, 1.0 / 3.0);
    hide Mod1;
    PlateausOfTurn(Mod1(h));
  }

  lemma Product(x: real, y: real)
    requires 0.0 <= x && 0.0 <= y
    ensures 0.0 <= x * y
  {
  }

  lemma Plateaus(lightness: real, s: real)
    requires 0.0 <= lightness <= 1.0 && 0.0 <= s <= 1.0
    ensures 0.0 <= M1(lightness, s) <= lightness <= M2(lightness, s) <= 1.0
    ensures M2(lightness, s) - M1(lightness, s) == s * (1.0 - Abs(2.0 * lightness - 1.0))
  {
    Product(lightness, s);
    Product(lightness, 1.0 - s);
    Product(1.0 - lightness, s);
    Product(1.0 - lightness, 1.0 - s);
  }

  lemma Scale(d: real, t: real)
    requires 0.0 <= d && 0.0 <= t <= 1.0
    ensures 0.0 <= Times(d, t) <= d
  {
    Product(d, t);
    Product(d, 1.0 - t);
  }

  lemma Sixth(d: real, t: real)
    requires 0.0 <= d && 0.0 <= t <= 1.0 / 6.0
    ensures 0.0 <= Times(d, t) * 6.0 <= d
  {
    Scale(d, t * 6.0);
  }

  lemma ChannelBetween(m1: real, m2: real, hue: real)
    requires m1 <= m2 && 0.0 <= hue < 1.0
    ensures m1 <= Channel(m1, m2, hue) <= m2
    ensures OnHigh(hue) ==> Channel(m1, m2, hue) == m2
    ensures OnLow(hue) ==> Channel(m1, m2, hue) == m1
  {
    hide Times;
    if hue < 1.0 / 6.0 {
      Sixth(m2 - m1, hue);
    } else if 1.0 / 2.0 <= hue < 2.0 / 3.0 {
      Sixth(m2 - m1, 2.0 / 3.0 - hue);
    }
  }

  /**
   * The conversion gives back the lightness it was asked for, as half the sum of the largest and the smallest channel,
   * and the saturation, as their difference over the largest difference that lightness allows.
   */
  lemma HslRecovered(h: real, s: real, lightness: real)
    requires 0.0 <= s <= 1.0 && 0.0 <= lightness <= 1.0
    ensures var (r, g, b) := HlsToRgb(h, lightness, s);
      var high, low := Max(r, Max(g, b)), Min(r, Min(g, b));
      && high + low == 2.0 * lightness
      && high - low == s * (1.0 - Abs(2.0 * lightness - 1.0))
      && 0.0 <= low <= high <= 1.0
  {
    Plateaus(lightness, s);
    if s != 0.0 {
      var m1, m2 := M1(lightness, s), M2(lightness, s);
      hide M1, M2;
      OneOnEachPlateau(h);
      ChannelBetween(m1, m2, Mod1(h + 1.0 / 3.0));
      ChannelBetween(m1, m2, Mod1(h));
      ChannelBetween(m1, m2, Mod1(h - 1.0 / 3.0));
      hide Mod1, Channel;
    }
  }

  // ----- and back to the hue -----

  /** The hue of three channels, in turns: the largest one decides the third of the turn, the others the place in it. */
  function HueOf(r: real, g: real, b: real): real
    requires Min(r, Min(g, b)) < Max(r, Max(g, b))
  {
    var high := Max(r, Max(g, b));
    var range := high - Min(r, Min(g, b));
    if r == high then Mod1((g - b) / range / 6.0)
    else if g == high then (2.0 + (b - r) / range) / 6.0
    else (4.0 + (r - g) / range) / 6.0
  }

  /** The three channels of the hue `k`, a fraction of a turn. */
  function Channels(m1: real, m2: real, k: real): (real, real, real) {
    (Channel(m1, m2, if k + 1.0 / 3.0 < 1.0 then k + 1.0 / 3.0 else k + 1.0 / 3.0 - 1.0), Channel(m1, m2, k),
     Channel(m1, m2, if k >= 1.0 / 3.0 then k - 1.0 / 3.0 else k - 1.0 / 3.0 + 1.0))
  }

  /** In each sixth of the turn one channel is on top, one at the bottom, and one on a ramp between them. */
  lemma Sextants(m1: real, m2: real, k: real)
    requires 0.0 <= k < 1.0
    ensures var (r, g, b) := Channels(m1, m2, k);
      if k < 1.0 / 6.0 then r == m2 && b == m1 && g == m1 + Times(m2 - m1, k) * 6.0
      else if k < 1.0 / 3.0 then g == m2 && b == m1 && r == m1 + Times(m2 - m1, 1.0 / 3.0 - k) * 6.0
      else if k < 1.0 / 2.0 then g == m2 && r == m1 && b == m1 + Times(m2 - m1, k - 1.0 / 3.0) * 6.0
      else if k < 2.0 / 3.0 then b == m2 && r == m1 && g == m1 + Times(m2 - m1, 2.0 / 3.0 - k) * 6.0
      else if k < 5.0 / 6.0 then b == m2 && g == m1 && r == m1 + Times(m2 - m1, k - 2.0 / 3.0) * 6.0
      else r == m2 && g == m1 && b == m1 + Times(m2 - m1, 1.0 - k) * 6.0
  {
    hide Times;
  }

  /** The ramp at `t` of its sixth. */
  lemma Ramp(d: real, t: real)
    requires 0.0 < d && 0.0 <= t <= 1.0 / 6.0
    ensures var x := Times(d, t) * 6.0;
      0.0 <= x <= d && (x == d <==> t == 1.0 / 6.0) && x / d == 6.0 * t && (0.0 - x) / d == 0.0 - 6.0 * t
  {
    Sixth(d, t);
    var x := Times(d, t) * 6.0;
    assert x == d * (6.0 * t);
    Cancels(d, 6.0 * t);
    Cancels(d, 0.0 - 6.0 * t);
    assert 0.0 - x == d * (0.0 - 6.0 * t);
    Cancels(d, 1.0);
    if x == d {
      assert x / d == 1.0;
    }
  }

  lemma Cancels(d: real, t: real)
    requires d != 0.0
    ensures d * t / d == t
  {
  }

  lemma HueBack(m1: real, m2: real, k: real)
    requires m1 < m2 && 0.0 <= k < 1.0
    ensures var (r, g, b) := Channels(m1, m2, k);
      Min(r, Min(g, b)) == m1 && Max(r, Max(g, b)) == m2 && HueOf(r, g, b) == k
  {
    Sextants(m1, m2, k);
    hide Channels, Times;
    var (r, g, b) := Channels(m1, m2, k);
    var d := m2 - m1;
    Cancels(d, 1.0);
    FloorIs(k, 0);
    FloorIs(k - 1.0, -1);
    if k < 1.0 / 6.0 {
      Ramp(d, k);
    } else if k < 1.0 / 3.0 {
      Ramp(d, 1.0 / 3.0 - k);
    } else if k < 1.0 / 2.0 {
      Ramp(d, k - 1.0 / 3.0);
    } else if k < 2.0 / 3.0 {
      Ramp(d, 2.0 / 3.0 - k);
    } else if k < 5.0 / 6.0 {
      Ramp(d, k - 2.0 / 3.0);
    } else {
      Ramp(d, 1.0 - k);
    }
  }

  /** The conversion gives back the hue it was asked for, a number of turns, modulo one turn. */
  lemma HueRecovered(h: real, s: real, lightness: real)
    requires 0.0 < s <= 1.0 && 0.0 < lightness < 1.0
    ensures var (r, g, b) := HlsToRgb(h, lightness, s);
      Min(r, Min(g, b)) < Max(r, Max(g, b)) && HueOf(r, g, b) == Mod1(h)
  {
    Plateaus(lightness, s);
    var room := 1.0 - Abs(2.0 * lightness - 1.0);
    assert 0.0 < s * room;
    ShiftedHue(h, 1.0 / 3.0);
    HueBack(M1(lightness, s), M2(lightness, s), Mod1(h));
    hide M1, M2, Channel, Mod1, HueOf;
  }

  function FromHsl(h: real, s: real, lightness: real): Color {
    var (r, g, b) := HlsToRgb(h, lightness, s);
    Color(Trunc(r * 255.0 + 0.5), Trunc(g * 255.0 + 0.5), Trunc(b * 255.0 + 0.5), 1.0)
  }

  predicate InRange(c: Color) {
    0 <= c.r <= 255 && 0 <= c.g <= 255 && 0 <= c.b <= 255
  }

  /** Channels are rounded to the nearest integer and stay in range. */
  lemma FromHslInRange(h: real, s: real, lightness: real)
    requires 0.0 <= s <= 1.0 && 0.0 <= lightness <= 1.0
    ensures InRange(FromHsl(h, s, lightness)) && FromHsl(h, s, lightness).a == 1.0
    ensures var (r, g, b) := HlsToRgb(h, lightness, s); var c := FromHsl(h, s, lightness);
      && Abs(c.r as real - r * 255.0) <= 0.5 && Abs(c.g as real - g * 255.0) <= 0.5 && Abs(c.b as real - b * 255.0) <= 0.5
  {
    HslRecovered(h, s, lightness);
    hide HlsToRgb;
  }

  // ----- clamping, brightness, contrast -----

  function ClampInt(v: int, low: int, high: int): int {
    if v < low then low else if v > high then high else v
  }

  function ClampReal(v: real, low: real, high: real): real {
    Max(low, Min(high, v))
  }

  function Clamped(c: Color): Color {
    Color(ClampInt(c.r, 0, 255), ClampInt(c.g, 0, 255), ClampInt(c.b, 0, 255), ClampReal(c.a, 0.0, 1.0))
  }

  /** Clamping leaves a colour in range as it is, and takes any other to the nearest one, channel by channel. */
  lemma ClampedIsNearest(c: Color, d: Color)
    requires InRange(d) && 0.0 <= d.a <= 1.0
    ensures InRange(Clamped(c)) && 0.0 <= Clamped(c).a <= 1.0
    ensures InRange(c) && 0.0 <= c.a <= 1.0 ==> Clamped(c) == c
    ensures var near := Clamped(c);
      && Distance(near.r, c.r) <= Distance(d.r, c.r) && Distance(near.g, c.g) <= Distance(d.g, c.g)
      && Distance(near.b, c.b) <= Distance(d.b, c.b) && Abs(near.a - c.a) <= Abs(d.a - c.a)
  {
  }

  function Distance(x: int, y: int): nat {
    if x >= y then x - y else y - x
  }

  function WithAlpha(c: Color, alpha: real): Color {
    c.(a := alpha)
  }

  function Inverse(c: Color): Color {
    Color(255 - c.r, 255 - c.g, 255 - c.b, c.a)
  }

  function Brightness(c: Color): real {
    (299.0 * (c.r as real / 255.0) + 587.0 * (c.g as real / 255.0) + 114.0 * (c.b as real / 255.0)) / 1000.0
  }

  /** Each primary's share of the brightness, out of a thousand. */
  lemma BrightnessShares(c: Color)
    ensures Brightness(WHITE) == 1.0 && Brightness(BLACK) == 0.0
    ensures Brightness(Color(255, 0, 0, c.a)) == 0.299 && Brightness(Color(0, 255, 0, c.a)) == 0.587
    ensures Brightness(Color(0, 0, 255, c.a)) == 0.114
    ensures Brightness(c) == Brightness(c.(g := 0, b := 0)) + Brightness(c.(r := 0, b := 0)) + Brightness(c.(r := 0, g := 0))
  {
  }

  /** The inverse makes up each channel to 255, so its brightness makes up the colour's to 1, and it is its own inverse. */
  lemma InverseMirrors(c: Color)
    ensures var i := Inverse(c);
      i.r + c.r == 255 && i.g + c.g == 255 && i.b + c.b == 255 && i.a == c.a && Inverse(i) == c
    ensures Brightness(Inverse(c)) == 1.0 - Brightness(c)
    ensures InRange(c) ==> InRange(Inverse(c))
  {
  }

  function ContrastText(c: Color, alpha: real): Color {
    WithAlpha(if Brightness(c) < 0.5 then WHITE else BLACK, alpha)
  }

  /** The contrast text differs from its background by at least half the brightness scale. */
  lemma ContrastGap(c: Color, alpha: real)
    requires InRange(c)
    ensures Abs(Brightness(ContrastText(c, alpha)) - Brightness(c)) >= 0.5
    ensures InRange(ContrastText(c, alpha)) && ContrastText(c, alpha).a == alpha
  {
  }

  // ----- blending -----

  function Blend(c: Color, d: Color, factor: real, alpha: Option<real>): Color {
    if factor <= 0.0 then c
    else if factor >= 1.0 then d
    else
      Color(Mix(c.r, d.r, factor), Mix(c.g, d.g, factor), Mix(c.b, d.b, factor),
            if alpha.Some? then alpha.value else c.a + (d.a - c.a) * factor)
  }

  function Lerp(from: real, to: real, factor: real): real {
    from + Times(to - from, factor)
  }

  function Mix(from: int, to: int, factor: real): int {
    Trunc(Lerp(from as real, to as real, factor))
  }

  lemma LerpBetween(from: real, to: real, factor: real)
    requires 0.0 <= factor <= 1.0
    ensures from <= to ==> from <= Lerp(from, to, factor) <= to
    ensures to <= from ==> to <= Lerp(from, to, factor) <= from
  {
    hide Times;
    if from <= to {
      Scale(to - from, factor);
    } else {
      Scale(from - to, factor);
      Negated(from - to, to - from, factor);
    }
  }

  lemma Negated(x: real, minus: real, y: real)
    requires minus == -x
    ensures Times(minus, y) == -Times(x, y)
  {
  }

  lemma TruncBetween(x: real, low: int, high: int)
    requires 0 <= low && low as real <= x <= high as real
    ensures low <= Trunc(x) <= high && x - 1.0 < Trunc(x) as real <= x
  {
  }

  /** The mix is the exact one but for what the truncation takes off, and lies between its two ends. */
  lemma MixNear(from: int, to: int, factor: real)
    requires 0 <= from <= 255 && 0 <= to <= 255 && 0.0 < factor < 1.0
    ensures var x := Lerp(from as real, to as real, factor); x - 1.0 < Mix(from, to, factor) as real <= x
    ensures from <= to ==> from <= Mix(from, to, factor) <= to
    ensures to <= from ==> to <= Mix(from, to, factor) <= from
  {
    hide Lerp, Trunc;
    LerpBetween(from as real, to as real, factor);
    TruncBetween(Lerp(from as real, to as real, factor), if from <= to then from else to, if from <= to then to else from);
  }

  /** A blend is one of its ends outside of the open unit interval, and inside mixes each channel with its own. */
  lemma BlendMixes(c: Color, d: Color, f: real, alpha: Option<real>)
    requires InRange(c) && InRange(d)
    ensures f <= 0.0 ==> Blend(c, d, f, alpha) == c
    ensures f >= 1.0 ==> Blend(c, d, f, alpha) == d
    ensures 0.0 < f < 1.0 ==>
      var e := Blend(c, d, f, alpha);
      && MixOf(c.r, d.r, f, e.r) && MixOf(c.g, d.g, f, e.g) && MixOf(c.b, d.b, f, e.b)
      && e.a == (if alpha.Some? then alpha.value else Lerp(c.a, d.a, f))
  {
    if 0.0 < f < 1.0 {
      MixNear(c.r, d.r, f);
      MixNear(c.g, d.g, f);
      MixNear(c.b, d.b, f);
      hide Mix;
    }
  }

  /** `x` is the exact mix of the two channels, less a fraction of one. */
  predicate MixOf(from: int, to: int, factor: real, x: int) {
    var exact := from as real + Times(to as real - from as real, factor);
    exact - 1.0 < x as real <= exact
  }

  /** The brightness of a colour whose channels are `x`, `y`, `z`, not necessarily integers. */
  function Shine(x: real, y: real, z: real): real {
    (299.0 * (x / 255.0) + 587.0 * (y / 255.0) + 114.0 * (z / 255.0)) / 1000.0
  }

  lemma Distribute(a: real, b: real, c: real, x: real, y: real, z: real, f: real)
    ensures (a * x + b * y + c * z) * f == a * (x * f) + b * (y * f) + c * (z * f)
  {
  }

  lemma ShineScale(x: real, y: real, z: real, f: real)
    ensures Shine(Times(x, f), Times(y, f), Times(z, f)) == Times(Shine(x, y, z), f)
  {
    Distribute(299.0 / 255000.0, 587.0 / 255000.0, 114.0 / 255000.0, x, y, z, f);
  }

  lemma ShineMix(x: real, y: real, z: real, u: real, v: real, w: real, f: real)
    ensures Shine(Lerp(x, u, f), Lerp(y, v, f), Lerp(z, w, f)) == Lerp(Shine(x, y, z), Shine(u, v, w), f)
  {
    hide Times;
    var d, e, g := Times(u - x, f), Times(v - y, f), Times(w - z, f);
    assert Shine(x + d, y + e, z + g) == Shine(x, y, z) + Shine(d, e, g);
    assert Shine(u, v, w) - Shine(x, y, z) == Shine(u - x, v - y, w - z);
    ShineScale(u - x, v - y, w - z, f);
  }

  lemma ShineNear(x: real, y: real, z: real, u: real, v: real, w: real)
    requires x - 1.0 < u <= x && y - 1.0 < v <= y && z - 1.0 < w <= z
    ensures Shine(x, y, z) - 1.0 / 255.0 < Shine(u, v, w) <= Shine(x, y, z)
  {
  }

  /** Blending mixes brightness in the same proportion, up to one 255th lost to truncation. */
  lemma BlendBrightness(c: Color, d: Color, f: real, alpha: Option<real>)
    requires InRange(c) && InRange(d) && 0.0 < f < 1.0
    ensures InRange(Blend(c, d, f, alpha))
    ensures var exact := Lerp(Brightness(c), Brightness(d), f);
      exact - 1.0 / 255.0 < Brightness(Blend(c, d, f, alpha)) <= exact
  {
    hide Lerp;
    var e := Blend(c, d, f, alpha);
    MixNear(c.r, d.r, f);
    MixNear(c.g, d.g, f);
    MixNear(c.b, d.b, f);
    ShineMix(c.r as real, c.g as real, c.b as real, d.r as real, d.g as real, d.b as real, f);
    assert Brightness(c) == Shine(c.r as real, c.g as real, c.b as real);
    assert Brightness(d) == Shine(d.r as real, d.g as real, d.b as real);
    assert Brightness(e) == Shine(e.r as real, e.g as real, e.b as real);
    hide Mix, Brightness, Shine, Lerp;
    ShineNear(Lerp(c.r as real, d.r as real, f), Lerp(c.g as real, d.g as real, f), Lerp(c.b as real, d.b as real, f),
              e.r as real, e.g as real, e.b as real);
  }

  /** What `_flatten` makes of a contrast text with alpha strictly between 0 and 1. */
  function Muted(background: Color, alpha: real): Color {
    Blend(ContrastText(background, alpha), background, alpha, Some(1.0))
  }

  /**
   * The muted text stays readable: as the blend runs from the text colour towards the background by `alpha`, its
   * brightness differs from the background's by more than half of what is left of the way, less one 255th.
   */
  lemma MutedGap(background: Color, alpha: real)
    requires InRange(background) && 0.0 < alpha < 1.0
    ensures InRange(Muted(background, alpha))
    ensures Abs(Brightness(Muted(background, alpha)) - Brightness(background)) > (1.0 - alpha) / 2.0 - 1.0 / 255.0
  {
    var text := ContrastText(background, alpha);
    ContrastGap(background, alpha);
    BlendBrightness(text, background, alpha, Some(1.0));
    hide ContrastText, Blend, Brightness, InRange, Lerp;
    GapLeft(Brightness(text), Brightness(background), Brightness(Muted(background, alpha)), alpha);
  }

  lemma WayLeft(gap: real, alpha: real)
    requires 0.5 <= gap && 0.0 < alpha < 1.0
    ensures gap - Times(gap, alpha) >= (1.0 - alpha) / 2.0
  {
    Product(gap - 0.5, 1.0 - alpha);
  }

  lemma GapLeft(text: real, background: real, muted: real, alpha: real)
    requires Abs(text - background) >= 0.5 && 0.0 < alpha < 1.0
    requires var exact := Lerp(text, background, alpha); exact - 1.0 / 255.0 < muted <= exact
    ensures Abs(muted - background) > (1.0 - alpha) / 2.0 - 1.0 / 255.0
  {
    hide Times;
    if text >= background {
      WayLeft(text - background, alpha);
      Negated(text - background, background - text, alpha);
    } else {
      WayLeft(background - text, alpha);
    }
  }

  // ----- hexadecimal text -----

  function HexDigit(d: nat): (c: char)
    requires d < 16
  {
    if d < 10 then ('0' as int + d) as char else ('A' as int + (d - 10)) as char
  }

  /** `int(c, 16)` of one hexadecimal digit of either case. */
  function DigitValue(c: char): Option<nat> {
    if '0' <= c <= '9' then Some(c as nat - '0' as nat)
    else if 'a' <= c <= 'f' then Some(c as nat - 'a' as nat + 10)
    else if 'A' <= c <= 'F' then Some(c as nat - 'A' as nat + 10)
    else None
  }

  predicate IsHexDigit(c: char) {
    DigitValue(c).Some?
  }

  predicate AllHex(s: string) {
    forall k | 0 <= k < |s| :: IsHexDigit(s[k])
  }

  function Value(c: char): nat
    requires IsHexDigit(c)
  {
    DigitValue(c).value
  }

  function Pair(c: char, d: char): nat
    requires IsHexDigit(c) && IsHexDigit(d)
  {
    16 * Value(c) + Value(d)
  }

  /** `f"{n:02X}"` for a channel. */
  function Hex2(n: nat): string
    requires n < 256
  {
    [HexDigit(n / 16), HexDigit(n % 16)]
  }

  function Hex6(c: Color): string {
    var d := Clamped(c);
    "#" + Hex2(d.r) + Hex2(d.g) + Hex2(d.b)
  }

  /** Exactly `#` and six upper-case hexadecimal digits. */
  predicate IsHex6(s: string) {
    |s| == 7 && s[0] == '#' && forall k | 1 <= k < 7 :: '0' <= s[k] <= '9' || 'A' <= s[k] <= 'F'
  }

  /** `$` also matches before a trailing newline. */
  function WithoutNewline(s: string): string {
    if s != "" && s[|s| - 1] == '\n' then s[..|s| - 1] else s
  }

  /** A `#` and hexadecimal digits: one or two for each channel, perhaps with an alpha. */
  function HexColor(t: string): Result<Color>
    requires t != "" && AllHex(t[1..])
  {
    if |t| == 4 then Ok(Color(Pair(t[1], t[1]), Pair(t[2], t[2]), Pair(t[3], t[3]), 1.0))
    else if |t| == 5 then
      Ok(Color(Pair(t[1], t[1]), Pair(t[2], t[2]), Pair(t[3], t[3]), Pair(t[4], t[4]) as real / 255.0))
    else if |t| == 7 then Ok(Color(Pair(t[1], t[2]), Pair(t[3], t[4]), Pair(t[5], t[6]), 1.0))
    else if |t| == 9 then
      Ok(Color(Pair(t[1], t[2]), Pair(t[3], t[4]), Pair(t[5], t[6]), Pair(t[7], t[8]) as real / 255.0))
    else Err("failed to parse")
  }

  /**
   * `Color.parse` of a text.  The functional notations never start with `#`; what they parse to is the parameter
   * `functional`.
   */
  function Parse(s: string, functional: string -> Option<Color>): Result<Color> {
    var t := WithoutNewline(s);
    if t != "" && t[0] == '#' then
      (if AllHex(t[1..]) then HexColor(t) else Err("failed to parse"))
    else
      (match functional(s)
       case Some(c) => Ok(c)
       case None => Err("failed to parse"))
  }

  lemma Hex2Parses(n: nat)
    requires n < 256
    ensures var h := Hex2(n); IsHexDigit(h[0]) && IsHexDigit(h[1]) && Pair(h[0], h[1]) == n
    ensures forall k | 0 <= k < 2 :: '0' <= Hex2(n)[k] <= '9' || 'A' <= Hex2(n)[k] <= 'F'
  {
  }

  lemma Hex6IsHex6(c: Color)
    ensures IsHex6(Hex6(c))
  {
    var d := Clamped(c);
    Hex2Parses(d.r);
    Hex2Parses(d.g);
    Hex2Parses(d.b);
    hide Hex2;
    assert Hex6(c) == "#" + Hex2(d.r) + Hex2(d.g) + Hex2(d.b);
  }

  /** Round trip: what `hex6` prints parses to the clamped, opaque colour. */
  lemma Hex6RoundTrip(c: Color, functional: string -> Option<Color>)
    ensures Parse(Hex6(c), functional) == Ok(Clamped(c).(a := 1.0))
  {
    var d, t := Clamped(c), Hex6(c);
    Hex6IsHex6(c);
    Hex2Parses(d.r);
    Hex2Parses(d.g);
    Hex2Parses(d.b);
    assert t[1] == Hex2(d.r)[0] && t[2] == Hex2(d.r)[1] && t[3] == Hex2(d.g)[0];
    assert t[4] == Hex2(d.g)[1] && t[5] == Hex2(d.b)[0] && t[6] == Hex2(d.b)[1];
    assert WithoutNewline(t) == t;
    hide Hex2, Hex6, Pair;
  }

  lemma DigitBack(c: char)
    requires '0' <= c <= '9' || 'A' <= c <= 'F'
    ensures IsHexDigit(c) && Value(c) < 16 && HexDigit(Value(c)) == c
  {
  }

  lemma Hex2Back(c: char, d: char)
    requires ('0' <= c <= '9' || 'A' <= c <= 'F') && ('0' <= d <= '9' || 'A' <= d <= 'F')
    ensures IsHexDigit(c) && IsHexDigit(d) && 0 <= Pair(c, d) < 256 && Hex2(Pair(c, d)) == [c, d]
  {
    DigitBack(c);
    DigitBack(d);
    hide HexDigit, Value, IsHexDigit;
  }

  /** And back: a six-digit upper-case text is what its colour prints as. */
  lemma ParsePrints(s: string, functional: string -> Option<Color>)
    requires IsHex6(s)
    ensures var c := Parse(s, functional); c.Ok? && InRange(c.value) && c.value.a == 1.0 && Hex6(c.value) == s
  {
    Hex2Back(s[1], s[2]);
    Hex2Back(s[3], s[4]);
    Hex2Back(s[5], s[6]);
    assert WithoutNewline(s) == s;
    hide Hex2, Pair;
    assert s == [s[0]] + [s[1], s[2]] + [s[3], s[4]] + [s[5], s[6]];
  }

  /** The short forms are the long forms with every digit doubled. */
  lemma ShortForms(r: char, g: char, b: char, a: char, functional: string -> Option<Color>)
    requires IsHexDigit(r) && IsHexDigit(g) && IsHexDigit(b) && IsHexDigit(a)
    ensures Parse(['#', r, g, b], functional) == Parse(['#', r, r, g, g, b, b], functional)
    ensures Parse(['#', r, g, b, a], functional) == Parse(['#', r, r, g, g, b, b, a, a], functional)
    ensures Parse(['#', r, g, b], functional).Ok?
  {
    hide Pair;
    assert WithoutNewline(['#', r, g, b]) == ['#', r, g, b];
    assert WithoutNewline(['#', r, r, g, g, b, b]) == ['#', r, r, g, g, b, b];
  }

  /** The functional notations are read by their own rules, and nothing else is a colour. */
  lemma Notations(s: string, functional: string -> Option<Color>)
    requires s == "" || s[0] != '#'
    ensures Parse(s, functional).Ok? <==> functional(s).Some?
    ensures Parse(s, functional).Ok? ==> functional(s) == Some(Parse(s, functional).value)
  {
  }

  /** Eight digits are six and an alpha in 255ths. */
  lemma AlphaDigits(c: Color, n: nat, functional: string -> Option<Color>)
    requires n < 256
    ensures Parse(Hex6(c) + Hex2(n), functional) == Ok(Clamped(c).(a := n as real / 255.0))
  {
    var d, t := Clamped(c), Hex6(c) + Hex2(n);
    Hex6IsHex6(c);
    Hex2Parses(d.r);
    Hex2Parses(d.g);
    Hex2Parses(d.b);
    Hex2Parses(n);
    assert Hex6(c) == "#" + Hex2(d.r) + Hex2(d.g) + Hex2(d.b);
    assert t[1..] == Hex2(d.r) + Hex2(d.g) + Hex2(d.b) + Hex2(n);
    assert WithoutNewline(t) == t;
    hide Hex2, Hex6, Pair;
  }

  function UpperDigit(c: char): char {
    if 'a' <= c <= 'f' then (c as int - 'a' as int + 'A' as int) as char else c
  }

  /** A digit counts the same in either case. */
  lemma EitherCase(c: char)
    ensures DigitValue(UpperDigit(c)) == DigitValue(c)
  {
  }

  /** So two texts of a `#` and digits that differ only in case parse alike. */
  lemma CaseDoesNotMatter(s: string, t: string, functional: string -> Option<Color>)
    requires |s| == |t| && s != "" && s[0] == t[0] == '#' && s[|s| - 1] != '\n' && t[|t| - 1] != '\n'
    requires forall k | 0 <= k < |s| :: UpperDigit(s[k]) == UpperDigit(t[k])
    ensures Parse(s, functional) == Parse(t, functional)
  {
    forall k | 0 <= k < |s| ensures DigitValue(s[k]) == DigitValue(t[k]) {
      EitherCase(s[k]);
      EitherCase(t[k]);
    }
    AllHexAlike(s, t);
    assert WithoutNewline(s) == s && WithoutNewline(t) == t;
    if AllHex(s[1..]) {
      DigitsAlike(s, t);
    }
    hide AllHex, DigitValue, UpperDigit, HexColor, WithoutNewline;
  }

  lemma DigitsAlike(s: string, t: string)
    requires |s| == |t| && s != "" && AllHex(s[1..]) && AllHex(t[1..])
    requires forall k | 1 <= k < |s| :: IsHexDigit(s[k]) && IsHexDigit(t[k]) && Value(s[k]) == Value(t[k])
    ensures HexColor(s) == HexColor(t)
  {
    hide IsHexDigit, Value, DigitValue;
  }

  lemma AllHexAlike(u: string, v: string)
    requires |u| == |v| && u != "" && forall k | 0 <= k < |u| :: DigitValue(u[k]) == DigitValue(v[k])
    ensures AllHex(u[1..]) <==> AllHex(v[1..])
    ensures AllHex(u[1..]) ==> forall k | 1 <= k < |u| :: IsHexDigit(u[k]) && IsHexDigit(v[k]) && Value(u[k]) == Value(v[k])
  {
    hide DigitValue;
    forall k | 1 <= k < |u| ensures u[1..][k - 1] == u[k] && v[1..][k - 1] == v[k] {
    }
    forall k | 0 <= k < |u| - 1 ensures IsHexDigit(u[1..][k]) <==> IsHexDigit(v[1..][k]) {
      assert u[1..][k] == u[k + 1] && v[1..][k] == v[k + 1];
    }
  }
}
