/**
 * The colour-string helpers of loki/math/color.js: `rgb8ToHex`, which writes a colour as the
 * `#rrggbb` hex notation of CSS Color Module Level 3 (section 4.2.1), and `parseHtmlColor`,
 * which reads a named colour or a `#rgb` / `#rrggbb` string into the caller's array.
 */
module Colors {
  import opened Wrappers
  import TypedArrays

  // ---------------------------------------------------------------- rgb8ToHex

  /** `Math.max(Math.min(255, x), 0) | 0`: clamped to [0, 255], then truncated. */
  function Channel(x: real): (c: int)
    ensures 0 <= c <= 255
    ensures x < 0.0 ==> c == 0
    ensures x >= 255.0 ==> c == 255
    ensures 0.0 <= x < 255.0 ==> c as real <= x < c as real + 1.0
  {
    var y := if x > 255.0 then 255.0 else x;
    TypedArrays.Trunc(if y < 0.0 then 0.0 else y)
  }

  /** The lowercase hex digit of a value below 16, as `toString(16)` writes it. */
  function HexDigit(d: nat): (c: char)
    requires d < 16
    ensures IsLowerHexDigit(c)
  {
    if d < 10 then (48 + d) as char else (87 + d) as char
  }

  predicate IsLowerHexDigit(c: char)
  {
    '0' <= c <= '9' || 'a' <= c <= 'f'
  }

  /** `n.toString(16)`: the hex digits of `n`, most significant first, without leading zeros. */
  function ToHex(n: nat): (s: string)
    ensures |s| >= 1
    decreases n
  {
    if n < 16 then [HexDigit(n)] else ToHex(n / 16) + [HexDigit(n % 16)]
  }

  /**
   * `rgb8ToHex(r, g, b)`: each channel clamped and truncated, packed above a leading 1 bit so
   * that `toString(16)` keeps the leading zeros, and the leading "1" sliced off.
   */
  function Rgb8ToHex(r: real, g: real, b: real): string
  {
    var n := 0x100_0000 + Channel(r) * 0x1_0000 + Channel(g) * 0x100 + Channel(b);
    "#" + ToHex(n)[1..]
  }

  /** The two hex digits of a byte. */
  function Byte2(v: nat): (s: string)
    requires v < 256
    ensures |s| == 2
  {
    [HexDigit(v / 16), HexDigit(v % 16)]
  }

  /** Writing one more digit: the digits of `16 * m + d` are those of `m` followed by `d`'s. */
  lemma ToHexAppend(m: nat, d: nat)
    requires m >= 1 && d < 16
    ensures ToHex(16 * m + d) == ToHex(m) + [HexDigit(d)]
  {
    assert (16 * m + d) / 16 == m && (16 * m + d) % 16 == d;
  }

  /** Writing one more byte: the digits of `256 * m + v` are those of `m` followed by `v`'s two. */
  lemma ToHexAppendByte(m: nat, v: nat)
    requires m >= 1 && v < 256
    ensures ToHex(256 * m + v) == ToHex(m) + Byte2(v)
  {
    var m1 := 16 * m + v / 16;
    assert 256 * m + v == 16 * m1 + v % 16;
    ToHexAppend(m, v / 16);
    ToHexAppend(m1, v % 16);
  }

  /** The digits of three bytes packed above a leading 1: "1" and two digits per byte. */
  lemma {:induction false} PackedDigits(R: nat, G: nat, B: nat)
    requires R < 256 && G < 256 && B < 256
    ensures ToHex(0x100_0000 + R * 0x1_0000 + G * 0x100 + B) == "1" + Byte2(R) + Byte2(G) + Byte2(B)
  {
    var m2 := 256 * 1 + R;
    var m4 := 256 * m2 + G;
    assert 0x100_0000 + R * 0x1_0000 + G * 0x100 + B == 256 * m4 + B;
    ToHexAppendByte(1, R);
    ToHexAppendByte(m2, G);
    ToHexAppendByte(m4, B);
  }

  /**
   * The output of `rgb8ToHex` is "#" followed by two lowercase hex digits per channel, in
   * r, g, b order, each channel clamped to [0, 255] and truncated.
   */
  lemma Rgb8ToHexDigits(r: real, g: real, b: real)
    ensures Rgb8ToHex(r, g, b) == "#" + Byte2(Channel(r)) + Byte2(Channel(g)) + Byte2(Channel(b))
  {
    PackedDigits(Channel(r), Channel(g), Channel(b));
  }

  /** `rgb8ToHex` yields seven characters: "#" and six lowercase hex digits. */
  lemma Rgb8ToHexShape(r: real, g: real, b: real)
    ensures var s := Rgb8ToHex(r, g, b);
      |s| == 7 && s[0] == '#' && forall i :: 1 <= i < 7 ==> IsLowerHexDigit(s[i])
  {
    Rgb8ToHexDigits(r, g, b);
  }

  // ---------------------------------------------------------------- parseHtmlColor

  /** The value handed to `parseHtmlColor` as the colour. */
  datatype ColorSource =
    | Text(s: string)
    /** A non-string value: its constructor is not `String`. */
    | NonString
    /** `null` or `undefined`, whose `.constructor` throws. */
    | Nullish

  /** The named colours `parseHtmlColor` knows, with their r, g, b (and a) components. */
  const NamedColors: map<string, seq<real>> := map[
    "white" := [1.0, 1.0, 1.0],
    "black" := [0.0, 0.0, 0.0],
    "gray" := [0.501960813999176, 0.501960813999176, 0.501960813999176],
    "red" := [1.0, 0.0, 0.0],
    "orange" := [1.0, 0.6470588445663452, 0.0],
    "pink" := [1.0, 0.7529411911964417, 0.7960784435272217],
    "green" := [0.0, 0.501960813999176, 0.0],
    "lime" := [0.0, 1.0, 0.0],
    "blue" := [0.0, 0.0, 1.0],
    "violet" := [0.9333333373069763, 0.5098039507865906, 0.9333333373069763],
    "magenta" := [1.0, 0.0, 1.0],
    "cyan" := [0.0, 1.0, 1.0],
    "yellow" := [1.0, 1.0, 0.0],
    "brown" := [0.6470588445663452, 0.16470588743686676, 0.16470588743686676],
    "silver" := [0.7529411911964417, 0.7529411911964417, 0.7529411911964417],
    "gold" := [1.0, 0.843137264251709, 0.0],
    "transparent" := [0.0, 0.0, 0.0, 0.0]]

  /** `t` occurs in `s` at index `i`. */
  predicate OccursAt(s: string, t: string, i: int)
  {
    0 <= i <= |s| - |t| && s[i..i + |t|] == t
  }

  /** `t` occurs in `s`: `s.indexOf(t) != -1`. */
  predicate Contains(s: string, t: string)
  {
    exists i :: 0 <= i <= |s| - |t| && OccursAt(s, t, i)
  }

  /** The strings the functional-notation branches (`rgba(`, `hsla(`, `rgb(`, `hsl(`) take. */
  predicate Functional(s: string)
  {
    Contains(s, "rgba(") || Contains(s, "hsla(") || Contains(s, "rgb(") || Contains(s, "hsl(")
  }

  /** A character `[a-f\d]` matches under the `i` flag. */
  predicate IsHexChar(c: char)
  {
    '0' <= c <= '9' || 'a' <= c <= 'f' || 'A' <= c <= 'F'
  }

  /** The value of a hex digit of either case. */
  function HexValue(c: char): (v: nat)
    requires IsHexChar(c)
    ensures v < 16
  {
    if c <= '9' then c as int - 48 else if c <= 'F' then c as int - 55 else c as int - 87
  }

  predicate AllHex(s: string)
  {
    forall i :: 0 <= i < |s| ==> IsHexChar(s[i])
  }

  /** What follows the optional leading `#`. */
  function Body(s: string): (b: string)
    ensures |b| == |s| || |b| == |s| - 1
  {
    if |s| > 0 && s[0] == '#' then s[1..] else s
  }

  /**
   * `hex.replace(/^#?([a-f\d])([a-f\d])([a-f\d])$/i, ...)`: a three-digit string, with or
   * without `#`, becomes its six-digit form `rrggbb` (without `#`); any other string is kept.
   */
  function ExpandShorthand(s: string): string
  {
    var b := Body(s);
    if |b| == 3 && AllHex(b) then [b[0], b[0], b[1], b[1], b[2], b[2]] else s
  }

  /** `parseInt(xy, 16)` of two hex digits. */
  function ByteOf(x: char, y: char): (v: nat)
    requires IsHexChar(x) && IsHexChar(y)
    ensures v < 256
  {
    16 * HexValue(x) + HexValue(y)
  }

  /** `/^#?([a-f\d]{2})([a-f\d]{2})([a-f\d]{2})$/i.exec(hex)`: the three bytes, if it matches. */
  function HexTriple(s: string): Option<(nat, nat, nat)>
  {
    var b := Body(s);
    if |b| == 6 && AllHex(b) then Some((ByteOf(b[0], b[1]), ByteOf(b[2], b[3]), ByteOf(b[4], b[5])))
    else None
  }

  /** `alpha === undefined ? 1 : alpha`. */
  function AlphaOf(alpha: Option<real>): real
  {
    if alpha.Some? then alpha.value else 1.0
  }

  /** The r, g, b that `parseHtmlColor` writes into slots 0..2, if it writes them. */
  function ParsedRgb(hex: ColorSource): Option<(real, real, real)>
  {
    if !hex.Text? then None
    else if hex.s in NamedColors then
      var col := NamedColors[hex.s];
      Some((col[0], col[1], col[2]))
    else
      match HexTriple(ExpandShorthand(hex.s))
      case None => None
      case Some((r, g, b)) => Some((r as real / 255.0, g as real / 255.0, b as real / 255.0))
  }

  /** What slot 3 of a four-slot `out` holds afterwards. */
  function FinalAlpha(hex: ColorSource, alpha: Option<real>): real
  {
    var a := AlphaOf(alpha);
    if hex.Text? && hex.s in NamedColors && |NamedColors[hex.s]| == 4 then NamedColors[hex.s][3] * a else a
  }

  /**
   * `parseHtmlColor(hex, out, alpha)`: writes the alpha into slot 3 of a four-slot `out`, then
   * the colour's r, g, b into slots 0..2, and throws a TypeError for a nullish `hex`.
   */
  method ParseHtmlColor(hex: ColorSource, out: array<real>, alpha: Option<real>) returns (outcome: Outcome)
    requires out.Length >= 3
    requires hex.Text? ==> !Functional(hex.s)
    modifies out
    ensures outcome == if hex.Nullish? then Threw("TypeError") else Done
    ensures ParsedRgb(hex).Some? ==>
      out[0] == ParsedRgb(hex).value.0 && out[1] == ParsedRgb(hex).value.1 && out[2] == ParsedRgb(hex).value.2
    ensures ParsedRgb(hex).None? ==> out[..3] == old(out[..3])
    ensures out.Length == 4 ==> out[3] == FinalAlpha(hex, alpha)
    ensures out.Length != 4 ==> out[3..] == old(out[3..])
  {
    var outLength := out.Length;
    var a := if alpha.Some? then alpha.value else 1.0;
    if outLength == 4 {
      out[3] := a;
    }
    if hex.Nullish? {
      return Threw("TypeError");
    }
    outcome := Done;
    if hex.NonString? {
      return;
    }
    var s := hex.s;
    if s in NamedColors {
      var col := NamedColors[s];
      out[0] := col[0];
      out[1] := col[1];
      out[2] := col[2];
      if outLength == 4 && |col| == 4 {
        out[3] := col[3] * a;
      }
      return;
    }
    var h := ExpandShorthand(s);
    var result := HexTriple(h);
    if result.None? {
      return;
    }
    var (r, g, b) := result.value;
    out[0] := r as real / 255.0;
    out[1] := g as real / 255.0;
    out[2] := b as real / 255.0;
  }

  /** A non-string colour writes no r, g, b, only the alpha (1 when absent). */
  lemma NonStringWritesAlphaOnly(hex: ColorSource, alpha: Option<real>)
    requires !hex.Text?
    ensures ParsedRgb(hex).None? && FinalAlpha(hex, alpha) == AlphaOf(alpha)
    ensures alpha.None? ==> FinalAlpha(hex, alpha) == 1.0
  {
  }

  /**
   * A named colour copies the table entry into slots 0..2; a four-component entry (only
   * "transparent") multiplies its alpha by the given one.
   */
  lemma NamedColorCopied(s: string, alpha: Option<real>)
    requires s in NamedColors
    ensures var col := NamedColors[s];
      ParsedRgb(Text(s)) == Some((col[0], col[1], col[2]))
      && FinalAlpha(Text(s), alpha) == if |col| == 4 then col[3] * AlphaOf(alpha) else AlphaOf(alpha)
  {
  }

  /** "transparent" is the one named colour that sets the alpha: to zero, whatever is given. */
  lemma TransparentClearsAlpha(alpha: Option<real>)
    ensures FinalAlpha(Text("transparent"), alpha) == 0.0
    ensures forall k :: k in NamedColors && k != "transparent" ==> FinalAlpha(Text(k), alpha) == AlphaOf(alpha)
  {
  }

  /** A string that is no named colour and matches neither hex form leaves r, g, b alone. */
  lemma NoMatchKeepsColor(s: string)
    requires s !in NamedColors && HexTriple(ExpandShorthand(s)).None?
    ensures ParsedRgb(Text(s)).None?
  {
  }

  /** A six-digit hex string, with or without `#`, gives each byte over 255. */
  lemma {:induction false} SixDigitsParsed(s: string)
    requires s !in NamedColors
    requires |Body(s)| == 6 && AllHex(Body(s))
    ensures var b := Body(s);
      ParsedRgb(Text(s)) == Some((ByteOf(b[0], b[1]) as real / 255.0, ByteOf(b[2], b[3]) as real / 255.0,
                                  ByteOf(b[4], b[5]) as real / 255.0))
  {
    assert ExpandShorthand(s) == s;
  }

  /**
   * The shorthand `#rgb` stands for `#rrggbb`: both, with or without `#`, give the same bytes,
   * each digit doubled.
   */
  lemma {:induction false} ShorthandDoubles(x: char, y: char, z: char, hash: bool)
    requires IsHexChar(x) && IsHexChar(y) && IsHexChar(z)
    ensures var s := (if hash then "#" else "") + [x, y, z];
      HexTriple(ExpandShorthand(s)) == Some((17 * HexValue(x), 17 * HexValue(y), 17 * HexValue(z)))
      && HexTriple(ExpandShorthand(s)) == HexTriple(ExpandShorthand("#" + [x, x, y, y, z, z]))
  {
    var s := (if hash then "#" else "") + [x, y, z];
    assert Body(s) == [x, y, z];
    assert AllHex(Body(s));
    var six := "#" + [x, x, y, y, z, z];
    assert Body(six) == [x, x, y, y, z, z];
    assert ExpandShorthand(six) == six;
  }

  /** Upper- and lowercase hex digits read the same. */
  lemma HexCaseInsensitive(d: nat)
    requires 10 <= d < 16
    ensures HexValue((87 + d) as char) == HexValue((55 + d) as char) == d
  {
  }

  /** Each hex digit `toString(16)` writes reads back as its value. */
  lemma HexDigitValue(d: nat)
    requires d < 16
    ensures IsHexChar(HexDigit(d)) && HexValue(HexDigit(d)) == d
  {
  }

  /** The two digits of a byte read back as that byte. */
  lemma Byte2Value(v: nat)
    requires v < 256
    ensures IsHexChar(Byte2(v)[0]) && IsHexChar(Byte2(v)[1]) && ByteOf(Byte2(v)[0], Byte2(v)[1]) == v
  {
    HexDigitValue(v / 16);
    HexDigitValue(v % 16);
  }

  /** A channel that is already a byte is kept as is by the clamp and truncation. */
  lemma ChannelOfByte(v: int)
    requires 0 <= v <= 255
    ensures Channel(v as real) == v
  {
  }

  /** A `#rrggbb` string written from three bytes reads back as those bytes. */
  lemma {:induction false} HexStringReads(R: nat, G: nat, B: nat)
    requires R < 256 && G < 256 && B < 256
    ensures var s := "#" + Byte2(R) + Byte2(G) + Byte2(B);
      HexTriple(ExpandShorthand(s)) == Some((R, G, B)) && s !in NamedColors
      && forall i :: 0 <= i < |s| ==> s[i] != '('
  {
    var body := Byte2(R) + Byte2(G) + Byte2(B);
    var s := "#" + body;
    Byte2Value(R);
    Byte2Value(G);
    Byte2Value(B);
    assert Body(s) == body;
    assert AllHex(body);
    assert ExpandShorthand(s) == s;
    assert body[0] == Byte2(R)[0] && body[1] == Byte2(R)[1];
    assert body[2] == Byte2(G)[0] && body[3] == Byte2(G)[1];
    assert body[4] == Byte2(B)[0] && body[5] == Byte2(B)[1];
    assert ByteOf(body[0], body[1]) == R && ByteOf(body[2], body[3]) == G && ByteOf(body[4], body[5]) == B;
    assert HexTriple(s) == Some((R, G, B));
    NotNamed(s);
  }

  /** No named colour starts with "#". */
  lemma NotNamed(s: string)
    requires |s| > 0 && s[0] == '#'
    ensures s !in NamedColors
  {
    assert forall k :: k in NamedColors ==> |k| > 0 && 'a' <= k[0] <= 'z';
  }

  /**
   * Round trip: for bytes r, g, b, parsing `rgb8ToHex(r, g, b)` yields r/255, g/255, b/255 in
   * slots 0..2.
   */
  lemma {:induction false} Rgb8ToHexParses(r: int, g: int, b: int)
    requires 0 <= r <= 255 && 0 <= g <= 255 && 0 <= b <= 255
    ensures var s := Rgb8ToHex(r as real, g as real, b as real);
      !Functional(s) && ParsedRgb(Text(s)) == Some((r as real / 255.0, g as real / 255.0, b as real / 255.0))
  {
    var s := Rgb8ToHex(r as real, g as real, b as real);
    ChannelOfByte(r);
    ChannelOfByte(g);
    ChannelOfByte(b);
    Rgb8ToHexDigits(r as real, g as real, b as real);
    assert s == "#" + Byte2(r) + Byte2(g) + Byte2(b);
    HexStringReads(r, g, b);
    NoParenthesis(s);
  }

  /** A string without "(" holds no text ending in "(". */
  lemma NoParenthesisAt(s: string, t: string, i: int)
    requires forall j :: 0 <= j < |s| ==> s[j] != '('
    requires |t| > 0 && t[|t| - 1] == '('
    ensures !OccursAt(s, t, i)
  {
    if 0 <= i <= |s| - |t| {
      assert s[i..i + |t|][|t| - 1] == s[i + |t| - 1] != '(';
    }
  }

  /** A string without "(" is not in functional notation. */
  lemma NoParenthesis(s: string)
    requires forall i :: 0 <= i < |s| ==> s[i] != '('
    ensures !Functional(s)
  {
    forall t, i | t in ["rgba(", "hsla(", "rgb(", "hsl("]
      ensures !OccursAt(s, t, i)
    {
      NoParenthesisAt(s, t, i);
    }
  }
}
