/** Colour conversions of the canvas manager (`hexToRgba`, `rgbToHex`):
    `#rrggbb` strings to 8-bit channels and back. */
module Colors {
  import opened Common

  predicate IsHexDigit(c: char)
  {
    '0' <= c <= '9' || 'a' <= c <= 'f' || 'A' <= c <= 'F'
  }

  predicate IsLowerHexDigit(c: char)
  {
    '0' <= c <= '9' || 'a' <= c <= 'f'
  }

  function HexDigitValue(c: char): (v: nat)
    requires IsHexDigit(c)
    ensures v < 16
  {
    if '0' <= c <= '9' then c as int - '0' as int
    else if 'a' <= c <= 'f' then c as int - 'a' as int + 10
    else c as int - 'A' as int + 10
  }

  /** The digit `Number.prototype.toString(16)` writes for `v`. */
  function LowerHexDigit(v: int): (c: char)
    requires 0 <= v < 16
    ensures IsLowerHexDigit(c) && HexDigitValue(c) == v
  {
    if v < 10 then ('0' as int + v) as char else ('a' as int + v - 10) as char
  }

  lemma LowerHexDigitOfValue(c: char)
    requires IsLowerHexDigit(c)
    ensures LowerHexDigit(HexDigitValue(c)) == c
  {
  }

  /** `#` followed by six hex digits of either case: the colour strings the
      grid holds. */
  predicate IsHexColor(s: string)
  {
    |s| == 7 && s[0] == '#' && forall i :: 1 <= i < 7 ==> IsHexDigit(s[i])
  }

  /** The colour strings `rgbToHex` produces. */
  predicate IsLowerHexColor(s: string)
  {
    |s| == 7 && s[0] == '#' && forall i :: 1 <= i < 7 ==> IsLowerHexDigit(s[i])
  }

  /** `parseInt(t, 16)` on a string of hex digits. */
  function ParseHex(t: string): nat
    requires forall i :: 0 <= i < |t| ==> IsHexDigit(t[i])
    decreases |t|
  {
    if t == [] then 0 else ParseHex(t[..|t| - 1]) * 16 + HexDigitValue(t[|t| - 1])
  }

  /** The value of a two-digit channel `hi lo`. */
  function PairValue(hi: char, lo: char): (v: int)
    requires IsHexDigit(hi) && IsHexDigit(lo)
    ensures 0 <= v < 256
  {
    16 * HexDigitValue(hi) + HexDigitValue(lo)
  }

  lemma ParseHexSnoc(t: string, i: nat)
    requires forall j :: 0 <= j < |t| ==> IsHexDigit(t[j])
    requires i < |t|
    ensures ParseHex(t[..i + 1]) == ParseHex(t[..i]) * 16 + HexDigitValue(t[i])
  {
    assert t[..i + 1][..i] == t[..i];
  }

  /** Two more digits shift the value by a byte. */
  lemma ParseHexPair(t: string, k: nat)
    requires forall j :: 0 <= j < |t| ==> IsHexDigit(t[j])
    requires k + 2 <= |t|
    ensures ParseHex(t[..k + 2]) == ParseHex(t[..k]) * 256 + PairValue(t[k], t[k + 1])
  {
    ParseHexSnoc(t, k);
    ParseHexSnoc(t, k + 1);
  }

  lemma ParseHexSix(t: string)
    requires |t| == 6 && forall j :: 0 <= j < 6 ==> IsHexDigit(t[j])
    ensures ParseHex(t) == PairValue(t[0], t[1]) * 65536 + PairValue(t[2], t[3]) * 256 + PairValue(t[4], t[5])
  {
    var hi, mid, lo := PairValue(t[0], t[1]), PairValue(t[2], t[3]), PairValue(t[4], t[5]);
    assert t[..0] == [];
    ParseHexPair(t, 0);
    var top := ParseHex(t[..2]);
    assert top == hi;
    ParseHexPair(t, 2);
    var upper := ParseHex(t[..4]);
    assert upper == top * 256 + mid;
    ParseHexPair(t, 4);
    assert t[..6] == t;
    assert ParseHex(t) == upper * 256 + lo;
  }

  /** The three 8-bit fields of a 24-bit value. */
  lemma ChannelFields(r: int, g: int, b: int)
    requires 0 <= r < 256 && 0 <= g < 256 && 0 <= b < 256
    ensures (r * 65536 + g * 256 + b) / 65536 % 256 == r
    ensures (r * 65536 + g * 256 + b) / 256 % 256 == g
    ensures (r * 65536 + g * 256 + b) % 256 == b
  {
    var v := r * 65536 + g * 256 + b;
    assert v / 65536 == r;
    assert v / 256 == r * 256 + g;
  }

  datatype Rgba = Rgba(r: int, g: int, b: int, a: int)
  {
    /** `rgba[i]`: red, green, blue, alpha. */
    function Channel(i: int): int
      requires 0 <= i < 4
    {
      if i == 0 then r else if i == 1 then g else if i == 2 then b else a
    }
  }

  /** `hexToRgba`: the 24-bit value of the six digits, split into its
      bytes; alpha is always opaque. Each channel is the value of its digit
      pair. */
  function HexToRgba(hex: string): (c: Rgba)
    requires IsHexColor(hex)
    ensures 0 <= c.r < 256 && 0 <= c.g < 256 && 0 <= c.b < 256 && c.a == 255
    ensures c.r == PairValue(hex[1], hex[2])
    ensures c.g == PairValue(hex[3], hex[4])
    ensures c.b == PairValue(hex[5], hex[6])
  {
    var t := hex[1..];
    ParseHexSix(t);
    ChannelFields(PairValue(hex[1], hex[2]), PairValue(hex[3], hex[4]), PairValue(hex[5], hex[6]));
    var v := ParseHex(t);
    Rgba((v / 65536) % 256, (v / 256) % 256, v % 256, 255)
  }

  /** ECMAScript ToInt32: the result of a shift is a signed 32-bit integer. */
  function Wrap32(v: int): (w: int)
    ensures -0x8000_0000 <= w < 0x8000_0000
    ensures 0 <= v < 0x8000_0000 ==> w == v
  {
    var m := v % 0x1_0000_0000;
    if m >= 0x8000_0000 then m - 0x1_0000_0000 else m
  }

  /** `n.toString(16)` for a natural number. */
  function NatToHex(n: nat): (s: string)
    ensures |s| >= 1
    decreases n
  {
    if n < 16 then [LowerHexDigit(n)] else NatToHex(n / 16) + [LowerHexDigit(n % 16)]
  }

  /** `n.toString(16)` for an integer-valued number. */
  function NumberToHex(n: int): (s: string)
    ensures |s| >= 1
  {
    if n < 0 then "-" + NatToHex(-n) else NatToHex(n)
  }

  /** `#${((1 << 24) + (r << 16) + (g << 8) + b).toString(16).slice(1)}` */
  function EncodeChannels(r: int, g: int, b: int): string
  {
    var t := NumberToHex(0x100_0000 + Wrap32(r * 0x1_0000) + Wrap32(g * 0x100) + b);
    "#" + t[1..]
  }

  lemma NatToHexStep(q: nat, d: int, n: nat)
    requires q >= 1 && 0 <= d < 16 && n == 16 * q + d
    ensures NatToHex(n) == NatToHex(q) + [LowerHexDigit(d)]
  {
    assert n / 16 == q;
    assert n % 16 == d;
  }

  /** `NatToHex` of `1` followed by six hex digits. The intermediate values
      are parameters so that the solver does not unfold `NatToHex` on the
      arithmetic that builds them. */
  lemma NatToHexSevenDigits(d0: int, d1: int, d2: int, d3: int, d4: int, d5: int,
                            q1: nat, q2: nat, q3: nat, q4: nat, q5: nat, n: nat)
    requires 0 <= d0 < 16 && 0 <= d1 < 16 && 0 <= d2 < 16
    requires 0 <= d3 < 16 && 0 <= d4 < 16 && 0 <= d5 < 16
    requires q1 == 16 + d0 && q2 == 16 * q1 + d1 && q3 == 16 * q2 + d2
    requires q4 == 16 * q3 + d3 && q5 == 16 * q4 + d4 && n == 16 * q5 + d5
    ensures NatToHex(n) ==
      ['1', LowerHexDigit(d0), LowerHexDigit(d1), LowerHexDigit(d2),
       LowerHexDigit(d3), LowerHexDigit(d4), LowerHexDigit(d5)]
  {
    assert NatToHex(1) == ['1'];
    var h0, h1, h2 := LowerHexDigit(d0), LowerHexDigit(d1), LowerHexDigit(d2);
    var h3, h4, h5 := LowerHexDigit(d3), LowerHexDigit(d4), LowerHexDigit(d5);
    NatToHexStep(1, d0, q1);
    assert NatToHex(q1) == ['1', h0];
    NatToHexStep(q1, d1, q2);
    assert NatToHex(q2) == ['1', h0, h1];
    NatToHexStep(q2, d2, q3);
    assert NatToHex(q3) == ['1', h0, h1, h2];
    NatToHexStep(q3, d3, q4);
    assert NatToHex(q4) == ['1', h0, h1, h2, h3];
    NatToHexStep(q4, d4, q5);
    assert NatToHex(q5) == ['1', h0, h1, h2, h3, h4];
    NatToHexStep(q5, d5, n);
  }

  lemma ShiftsInRange(r: int, g: int)
    requires 0 <= r < 256 && 0 <= g < 256
    ensures Wrap32(r * 0x1_0000) == r * 0x1_0000
    ensures Wrap32(g * 0x100) == g * 0x100
  {
  }

  lemma NibbleSplit(v: int)
    requires 0 <= v < 256
    ensures 0 <= v / 16 < 16 && 0 <= v % 16 < 16 && v == 16 * (v / 16) + v % 16
  {
  }

  /** For 8-bit channels the encoding is `#` and the six digits of the
      channels, high nibble first. */
  lemma EncodeChannelsDigits(r: int, g: int, b: int)
    requires 0 <= r < 256 && 0 <= g < 256 && 0 <= b < 256
    ensures EncodeChannels(r, g, b) ==
      ['#', LowerHexDigit(r / 16), LowerHexDigit(r % 16), LowerHexDigit(g / 16),
       LowerHexDigit(g % 16), LowerHexDigit(b / 16), LowerHexDigit(b % 16)]
  {
    ShiftsInRange(r, g);
    NibbleSplit(r);
    NibbleSplit(g);
    NibbleSplit(b);
    var r1, r0, g1, g0, b1, b0 := r / 16, r % 16, g / 16, g % 16, b / 16, b % 16;
    var q1 := 16 + r1;
    var q2 := 16 * q1 + r0;
    var q3 := 16 * q2 + g1;
    var q4 := 16 * q3 + g0;
    var q5 := 16 * q4 + b1;
    NatToHexSevenDigits(r1, r0, g1, g0, b1, b0, q1, q2, q3, q4, q5,
                        0x100_0000 + Wrap32(r * 0x1_0000) + Wrap32(g * 0x100) + b);
  }

  /** The argument forms `rgbToHex` distinguishes. */
  datatype ColorInput =
    | Text(s: string)                    // a string
    | Channels(r: int, g: int, b: int)   // an array `[r, g, b]`
    | OtherValue                         // anything else

  /** Length of the run of decimal digits that starts `s`. */
  function LeadingDigits(s: string): (k: nat)
    ensures k <= |s|
    ensures forall i :: 0 <= i < k ==> IsDecimalDigit(s[i])
    ensures k < |s| ==> !IsDecimalDigit(s[k])
  {
    if s == [] || !IsDecimalDigit(s[0]) then 0 else 1 + LeadingDigits(s[1..])
  }

  /** `s.match(/\d+/g).map(Number)`, with `[]` standing for the `null` of
      a string without digits. */
  function DigitRuns(s: string): seq<nat>
    decreases |s|
  {
    if s == [] then []
    else if !IsDecimalDigit(s[0]) then DigitRuns(s[1..])
    else
      var k := LeadingDigits(s);
      [DecimalValue(s[..k])] + DigitRuns(s[k..])
  }

  predicate IsCssRgb(s: string)
  {
    StartsWith(s, "rgb(") || StartsWith(s, "rgba(")
  }

  /** `rgbToHex`. `None` is the `TypeError` thrown for an `rgb(` string
      without digits; with one or two numbers the channel sum is `NaN`. */
  function RgbToHex(input: ColorInput): (r: Option<string>)
    ensures input.Text? && StartsWith(input.s, "#") ==> r == Some(input.s)
    ensures input.Text? && !StartsWith(input.s, "#") && !IsCssRgb(input.s) ==> r == Some("#000000")
    ensures input.OtherValue? ==> r == Some("#000000")
    ensures r.None? <==> input.Text? && !StartsWith(input.s, "#") && IsCssRgb(input.s) && DigitRuns(input.s) == []
  {
    match input
    case Text(s) =>
      if StartsWith(s, "#") then Some(s)
      else if IsCssRgb(s) then
        var values := DigitRuns(s);
        if |values| == 0 then None
        else if |values| < 3 then Some("#aN")
        else Some(EncodeChannels(values[0], values[1], values[2]))
      else Some("#000000")
    case Channels(r, g, b) => Some(EncodeChannels(r, g, b))
    case OtherValue => Some("#000000")
  }

  /** rgb -> hex -> rgb: 8-bit channels come back unchanged, with opaque
      alpha, through a lower-case six-digit string. */
  lemma ChannelsRoundTrip(r: int, g: int, b: int)
    requires 0 <= r < 256 && 0 <= g < 256 && 0 <= b < 256
    ensures RgbToHex(Channels(r, g, b)).Some?
    ensures IsLowerHexColor(RgbToHex(Channels(r, g, b)).value)
    ensures HexToRgba(RgbToHex(Channels(r, g, b)).value) == Rgba(r, g, b, 255)
  {
    EncodeChannelsDigits(r, g, b);
    var s := EncodeChannels(r, g, b);
    assert PairValue(s[1], s[2]) == r;
    assert PairValue(s[3], s[4]) == g;
    assert PairValue(s[5], s[6]) == b;
  }

  /** hex -> rgb -> hex is the identity on lower-case six-digit colours. */
  lemma HexRoundTrip(s: string)
    requires IsLowerHexColor(s)
    ensures RgbToHex(Channels(HexToRgba(s).r, HexToRgba(s).g, HexToRgba(s).b)) == Some(s)
  {
    var c := HexToRgba(s);
    EncodeChannelsDigits(c.r, c.g, c.b);
    forall i | 1 <= i < 7 ensures LowerHexDigit(HexDigitValue(s[i])) == s[i] {
      LowerHexDigitOfValue(s[i]);
    }
    assert c.r / 16 == HexDigitValue(s[1]) && c.r % 16 == HexDigitValue(s[2]);
    assert c.g / 16 == HexDigitValue(s[3]) && c.g % 16 == HexDigitValue(s[4]);
    assert c.b / 16 == HexDigitValue(s[5]) && c.b % 16 == HexDigitValue(s[6]);
    assert EncodeChannels(c.r, c.g, c.b) == s;
  }
}
