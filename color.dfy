/**
 * The colour converter: a hex colour string turned into the decimal
 * integer Discord's API takes for embed and role colours, with the brand
 * palette as presets.
 */
module ColorTool {
  import opened Wrappers
  import opened Chars
  import opened Decimal
  import opened JsText

  predicate AllHex(s: string) { forall i :: 0 <= i < |s| ==> IsHexDigit(s[i]) }

  function HexDigitValue(c: char): (d: nat)
    requires IsHexDigit(c)
    ensures d < 16
    ensures IsDigit(c) ==> d == DigitValue(c)
    ensures 'a' <= c <= 'f' ==> d == c as int - 'a' as int + 10
    ensures 'A' <= c <= 'F' ==> d == c as int - 'A' as int + 10
  {
    if IsDigit(c) then c as int - '0' as int
    else if 'a' <= c <= 'f' then c as int - 'a' as int + 10
    else c as int - 'A' as int + 10
  }

  /** The number a string of hex digits denotes, most significant first. */
  function Value16(s: string): nat
    requires AllHex(s)
    decreases |s|
  {
    if s == [] then 0 else Value16(s[..|s| - 1]) * 16 + HexDigitValue(s[|s| - 1])
  }

  lemma Value16Snoc(p: string, c: char)
    requires AllHex(p) && IsHexDigit(c)
    ensures AllHex(p + [c]) && Value16(p + [c]) == Value16(p) * 16 + HexDigitValue(c)
  {
    assert (p + [c])[..|p|] == p;
  }

  /** One more digit of a hex string, read from the left. */
  lemma Value16Prefix(s: string, k: nat)
    requires AllHex(s) && k < |s|
    ensures Value16(s[..k + 1]) == Value16(s[..k]) * 16 + HexDigitValue(s[k])
  {
    assert s[..k] + [s[k]] == s[..k + 1];
    Value16Snoc(s[..k], s[k]);
  }

  /** Six hex digits, as a colour is written, denote the number read digit by digit. */
  lemma Value16Six(s: string)
    requires |s| == 6 && AllHex(s)
    ensures Value16(s) == ((((HexDigitValue(s[0]) * 16 + HexDigitValue(s[1])) * 16
      + HexDigitValue(s[2])) * 16 + HexDigitValue(s[3])) * 16 + HexDigitValue(s[4])) * 16
      + HexDigitValue(s[5])
  {
    assert s[..0] == [] && s[..6] == s;
    Value16Prefix(s, 0);
    Value16Prefix(s, 1);
    Value16Prefix(s, 2);
    Value16Prefix(s, 3);
    Value16Prefix(s, 4);
    Value16Prefix(s, 5);
  }

  /** `s.replace(c, '')` with a string pattern: only the first occurrence goes. */
  function RemoveFirst(s: string, c: char): (r: string)
    ensures c !in s ==> r == s
    ensures c in s ==> |r| == |s| - 1
  {
    if s == [] then []
    else if s[0] == c then s[1..]
    else [s[0]] + RemoveFirst(s[1..], c)
  }

  /** The character removed is the first `c`; everything before and after stays in place. */
  lemma {:induction false} RemoveFirstAt(s: string, c: char, i: nat)
    requires i < |s| && s[i] == c && c !in s[..i]
    ensures RemoveFirst(s, c) == s[..i] + s[i + 1..]
  {
    if i > 0 {
      var t := s[1..];
      assert s[0] in s[..i];
      assert t[..i - 1] == s[1..i];
      assert t[i..] == s[i + 1..];
      assert t[..i - 1] == s[..i][1..];
      RemoveFirstAt(t, c, i - 1);
      assert s[..i] == [s[0]] + t[..i - 1];
    }
  }

  /** `t` with one leading `+` or `-` dropped. */
  function AfterSign(t: string): (u: string)
    ensures u == t || (t != [] && (t[0] == '-' || t[0] == '+') && u == t[1..])
    ensures t == [] || (t[0] != '-' && t[0] != '+') ==> u == t
  {
    if t != [] && (t[0] == '-' || t[0] == '+') then t[1..] else t
  }

  /** `u` with a leading `0x` or `0X` dropped, which radix 16 allows. */
  function AfterPrefix(u: string): (v: string)
    ensures v == u || (|u| >= 2 && u[0] == '0' && (u[1] == 'x' || u[1] == 'X') && v == u[2..])
    ensures u == [] || u[0] != '0' || (|u| >= 2 && u[1] != 'x' && u[1] != 'X') ==> v == u
  {
    if |u| >= 2 && u[0] == '0' && (u[1] == 'x' || u[1] == 'X') then u[2..] else u
  }

  /** The value of the longest leading run of hex digits; `None` when that run is empty. */
  function LeadingHex(v: string): (r: Option<nat>)
    ensures r.None? <==> v == [] || !IsHexDigit(v[0])
  {
    var n := RunLength(v, IsHexDigit);
    if n == 0 then None
    else
      assert AllHex(v[..n]);
      Some(Value16(v[..n]))
  }

  /**
   * `parseInt` on text whose leading whitespace is already gone: an
   * optional sign, an optional `0x`, then the longest run of hex digits.
   */
  function ParseTrimmed(t: string): Option<int>
  {
    match LeadingHex(AfterPrefix(AfterSign(t)))
    case None => None
    case Some(m) => Some(if t != [] && t[0] == '-' then -(m as int) else m)
  }

  /** What `ParseTrimmed` makes of a digit run's value: the sign decides. */
  lemma ParseTrimmedOf(t: string, v: nat)
    requires LeadingHex(AfterPrefix(AfterSign(t))) == Some(v)
    ensures ParseTrimmed(t) == Some(if t != [] && t[0] == '-' then -(v as int) else v)
  {
  }

  /**
   * `parseInt(s, 16)`: skip leading whitespace, then parse the rest. `None`
   * is NaN, which results when the run of hex digits is empty.
   */
  function ParseInt16(s: string): Option<int>
  {
    ParseTrimmed(TrimStart(s))
  }

  lemma HexDigitNotSpecial(c: char)
    requires IsHexDigit(c)
    ensures !IsSpace(c) && c != '-' && c != '+' && c != 'x' && c != 'X' && c != '#'
  {
  }

  lemma TrimStartNoLead(s: string)
    requires s == [] || !IsSpace(s[0])
    ensures TrimStart(s) == s
  {
  }

  /** The digit run stops at the first character that is not a hex digit. */
  lemma LeadingHexRun(p: string, rest: string)
    requires |p| >= 1 && AllHex(p) && (rest == [] || !IsHexDigit(rest[0]))
    ensures LeadingHex(p + rest) == Some(Value16(p))
  {
    var s := p + rest;
    var n := RunLength(s, IsHexDigit);
    assert forall k :: 0 <= k < |p| ==> s[k] == p[k];
    assert n <= |p| by {
      if |p| < |s| {
        assert s[|p|] == rest[0];
      }
    }
    assert s[..n] == p;
  }

  /** No `0x` prefix: the text does not start with `0` followed by `x` or `X`. */
  predicate NoHexPrefix(s: string)
  {
    |s| < 2 || s[0] != '0' || (s[1] != 'x' && s[1] != 'X')
  }

  /** Hex digits at the front are untouched by the whitespace, sign and prefix steps. */
  lemma DigitsStayInFront(s: string)
    requires s != [] && IsHexDigit(s[0]) && NoHexPrefix(s)
    ensures TrimStart(s) == s && AfterPrefix(AfterSign(s)) == s
  {
    HexDigitNotSpecial(s[0]);
    TrimStartNoLead(s);
  }

  /**
   * The prefix rule: a run of hex digits followed by anything that does not
   * start with a hex digit parses as the run alone, except that a lone `0`
   * followed by `x` or `X` is the `0x` prefix.
   */
  lemma ParseLongestRun(p: string, rest: string)
    requires |p| >= 1 && AllHex(p) && (rest == [] || !IsHexDigit(rest[0]))
    requires NoHexPrefix(p + rest)
    ensures ParseInt16(p + rest) == Some(Value16(p))
  {
    var s := p + rest;
    assert s[0] == p[0];
    HexDigitNotSpecial(p[0]);
    DigitsStayInFront(s);
    LeadingHexRun(p, rest);
  }

  /** A string of hex digits parses as its value. */
  lemma ParseHexDigits(p: string)
    requires |p| >= 1 && AllHex(p)
    ensures ParseInt16(p) == Some(Value16(p))
  {
    assert p + [] == p;
    if |p| >= 2 {
      HexDigitNotSpecial(p[1]);
    }
    ParseLongestRun(p, []);
  }

  /** Leading whitespace is skipped. */
  lemma ParseSkipsSpace(a: string, s: string)
    requires AllSpace(a)
    ensures ParseInt16(a + s) == ParseInt16(s)
  {
    TrimStartSkips(a, s);
  }

  /** A text that starts with anything but whitespace, a sign or a hex digit is NaN. */
  lemma ParseRejects(s: string)
    requires s == [] || (!IsSpace(s[0]) && s[0] != '-' && s[0] != '+' && !IsHexDigit(s[0]))
    ensures ParseInt16(s) == None
  {
    TrimStartNoLead(s);
    assert AfterSign(s) == s;
    assert AfterPrefix(s) == s;
  }

  /** Digits after a sign: the sign is read. */
  lemma DigitsAfterSign(p: string)
    requires |p| >= 1 && AllHex(p)
    ensures AfterPrefix(p) == p && LeadingHex(p) == Some(Value16(p))
  {
    if |p| >= 2 {
      HexDigitNotSpecial(p[1]);
    }
    assert p + [] == p;
    LeadingHexRun(p, []);
  }

  /** A minus sign negates; a plus sign is dropped. */
  lemma SignThenDigits(c: char, p: string)
    requires c == '-' || c == '+'
    requires |p| >= 1 && AllHex(p)
    ensures TrimStart([c] + p) == [c] + p && AfterSign([c] + p) == p && ([c] + p)[0] == c
  {
    var m := [c] + p;
    assert m[0] == c && m[1..] == p;
    TrimStartNoLead(m);
  }

  lemma ParseSigned(c: char, p: string)
    requires c == '-' || c == '+'
    requires |p| >= 1 && AllHex(p)
    ensures ParseInt16([c] + p) == Some(Signed(c == '-', Value16(p)))
  {
    SignThenDigits(c, p);
    DigitsAfterSign(p);
    ParseSteps([c] + p, p, p, Value16(p), c == '-');
  }

  /** A `0x` or `0X` before the digits is skipped; the prefix alone is NaN. */
  lemma ParseHexPrefix(x: char, p: string)
    requires x == 'x' || x == 'X'
    requires |p| >= 1 && AllHex(p)
    ensures ParseInt16(['0', x] + p) == Some(Value16(p))
    ensures ParseInt16(['0', x]) == None
  {
    var s := ['0', x] + p;
    assert s[0] == '0' && s[1] == x && s[2..] == p;
    TrimStartNoLead(s);
    TrimStartNoLead(['0', x]);
    DigitsAfterSign(p);
    assert AfterSign(s) == s && AfterSign(['0', x]) == ['0', x];
    assert AfterPrefix(s) == p && AfterPrefix(['0', x]) == [];
    ParseTrimmedOf(s, Value16(p));
  }

  lemma Regroup(a: string, b: string, c: string, d: string)
    ensures a + b + c + d == a + (b + (c + d))
  {
  }

  /** An optional sign in front of text that starts with neither whitespace nor a sign. */
  lemma SignStep(sg: string, u: string)
    requires |sg| <= 1 && (sg != [] ==> sg[0] == '-' || sg[0] == '+')
    requires u != [] && !IsSpace(u[0]) && u[0] != '-' && u[0] != '+'
    ensures TrimStart(sg + u) == sg + u && AfterSign(sg + u) == u
    ensures (sg + u)[0] == '-' <==> sg != [] && sg[0] == '-'
  {
    var s := sg + u;
    if sg != [] {
      assert s[0] == sg[0] && s[1..] == u;
    } else {
      assert s == u;
    }
    TrimStartNoLead(s);
  }

  /** An optional `0x` in front of a run of hex digits. */
  lemma PrefixStep(px: string, body: string)
    requires px == [] || (|px| == 2 && px[0] == '0' && (px[1] == 'x' || px[1] == 'X'))
    requires body != [] && IsHexDigit(body[0])
    requires px == [] ==> NoHexPrefix(body)
    ensures AfterPrefix(px + body) == body
    ensures !IsSpace((px + body)[0]) && (px + body)[0] != '-' && (px + body)[0] != '+'
  {
    var u := px + body;
    HexDigitNotSpecial(body[0]);
    if px != [] {
      assert u[0] == '0' && u[1] == px[1] && u[2..] == body;
    } else {
      assert u == body;
    }
  }

  /** A magnitude with its sign applied. */
  function Signed(neg: bool, v: nat): int
  {
    if neg then -(v as int) else v
  }

  /** `parseInt` read step by step: no whitespace, then the sign, the prefix and the digit run. */
  lemma ParseSteps(s: string, u: string, body: string, v: nat, neg: bool)
    requires s != [] && TrimStart(s) == s && AfterSign(s) == u && AfterPrefix(u) == body
    requires LeadingHex(body) == Some(v) && (s[0] == '-' <==> neg)
    ensures ParseInt16(s) == Some(Signed(neg, v))
  {
    ParseTrimmedOf(s, v);
  }

  /**
   * The whole grammar at once: an optional sign, an optional `0x`/`0X`, a
   * run of hex digits, then text that does not continue the run. The value
   * is the run's, negated after `-`. Without a written prefix the run must
   * not itself begin with `0x`, since the prefix rule would then apply.
   */
  lemma ParseShape(sg: string, px: string, h: string, rest: string)
    requires |sg| <= 1 && (sg != [] ==> sg[0] == '-' || sg[0] == '+')
    requires px == [] || (|px| == 2 && px[0] == '0' && (px[1] == 'x' || px[1] == 'X'))
    requires |h| >= 1 && AllHex(h) && (rest == [] || !IsHexDigit(rest[0]))
    requires px == [] ==> NoHexPrefix(h + rest)
    ensures ParseInt16(sg + px + h + rest) == Some(Signed(sg != [] && sg[0] == '-', Value16(h)))
  {
    var body := h + rest;
    var u := px + body;
    var s := sg + u;
    Regroup(sg, px, h, rest);
    assert body[0] == h[0];
    PrefixStep(px, body);
    SignStep(sg, u);
    LeadingHexRun(h, rest);
    ParseSteps(s, u, body, Value16(h), sg != [] && sg[0] == '-');
  }

  /** `hexToInt`: drop the first `#`, then `parseInt(…, 16)`. */
  function HexToInt(h: string): (r: Option<int>)
  {
    ParseInt16(RemoveFirst(h, '#'))
  }

  /** `#` followed by hex digits gives their value. */
  lemma HexToIntOfColor(c: char, p: string)
    requires c == '#' && |p| >= 1 && AllHex(p)
    ensures HexToInt([c] + p) == Some(Value16(p))
  {
    assert ([c] + p)[1..] == p;
    ParseHexDigits(p);
  }

  /** Without a `#` the text is parsed as it is. */
  lemma HexToIntNoHash(h: string)
    requires '#' !in h
    ensures HexToInt(h) == ParseInt16(h)
  {
  }

  /** Only the first `#` is removed: a second one makes the value NaN. */
  lemma HexToIntDoubleHash(c: char, rest: string)
    requires c == '#'
    ensures HexToInt([c, c] + rest) == None
  {
    assert ([c, c] + rest)[1..] == [c] + rest;
    ParseRejects([c] + rest);
  }

  /** `intValue.toString()` for an integer: a `-` before the digits when negative. */
  function DecimalText(v: int): (r: string)
    ensures |r| >= 1
    ensures v >= 0 ==> AllDigits(r) && Value(r) == v
    ensures v < 0 ==> r[0] == '-' && AllDigits(r[1..]) && Value(r[1..]) == -v
  {
    if v < 0 then
      var r := "-" + ToDecimal(-v);
      assert r[1..] == ToDecimal(-v);
      r
    else ToDecimal(v)
  }

  const InvalidHex: string := "Invalid Hex"

  /** The decimal panel: the integer, or "Invalid Hex" for NaN. */
  function DisplayText(h: string): (r: string)
    ensures HexToInt(h).None? <==> r == InvalidHex
    ensures HexToInt(h).Some? ==> r == DecimalText(HexToInt(h).value)
  {
    match HexToInt(h)
    case None => InvalidHex
    case Some(v) =>
      assert DecimalText(v) != InvalidHex by {
        var t := DecimalText(v);
        if v >= 0 { assert IsDigit(t[0]); } else { assert t[0] == '-'; }
      }
      DecimalText(v)
  }

  /** The copy button: disabled on NaN, otherwise copies what the panel shows. */
  function CopyText(h: string): (r: Option<string>)
    ensures r.None? <==> HexToInt(h).None?
    ensures r.Some? ==> r.value == DisplayText(h) && r.value != InvalidHex
  {
    match HexToInt(h)
    case None => None
    case Some(v) => Some(DecimalText(v))
  }

  datatype Swatch = Swatch(name: string, hex: string, desc: string)

  const BlurpleHex: string := "#5865F2"
  const GreenHex: string := "#57F287"
  const YellowHex: string := "#FEE75C"
  const FuchsiaHex: string := "#EB459E"
  const RedHex: string := "#ED4245"
  const BlackHex: string := "#23272A"

  /** The colour the converter starts with, Blurple. */
  const InitialHex: string := BlurpleHex

  const Palette: seq<Swatch> := [
    Swatch("Blurple", BlurpleHex, "Main brand color"),
    Swatch("Green", GreenHex, "Online status / Success"),
    Swatch("Yellow", YellowHex, "Idle status / Warning"),
    Swatch("Fuchsia", FuchsiaHex, "Nitro / Boosting"),
    Swatch("Red", RedHex, "DND status / Danger"),
    Swatch("Black", BlackHex, "Old dark theme background")
  ]

  /** A colour written `#rrggbb` converts to the number its six digits denote. */
  lemma ColorValue(h: string, v: nat)
    requires |h| == 7 && h[0] == '#' && AllHex(h[1..])
    requires v == ((((HexDigitValue(h[1]) * 16 + HexDigitValue(h[2])) * 16
      + HexDigitValue(h[3])) * 16 + HexDigitValue(h[4])) * 16 + HexDigitValue(h[5])) * 16
      + HexDigitValue(h[6])
    ensures HexToInt(h) == Some(v)
  {
    var p := h[1..];
    assert Value16(p) == v by {
      Value16Six(p);
      assert p[0] == h[1] && p[1] == h[2] && p[2] == h[3] && p[3] == h[4] && p[4] == h[5] && p[5] == h[6];
    }
    assert h == [h[0]] + p;
    HexToIntOfColor(h[0], p);
  }

  /** The brand colours convert to Discord's documented integers; Blurple is the initial colour. */
  lemma BlurpleValue() ensures HexToInt(BlurpleHex) == Some(5793266) { ColorValue(BlurpleHex, 5793266); }
  lemma GreenValue() ensures HexToInt(GreenHex) == Some(5763719) { ColorValue(GreenHex, 5763719); }
  lemma YellowValue() ensures HexToInt(YellowHex) == Some(16705372) { ColorValue(YellowHex, 16705372); }
  lemma FuchsiaValue() ensures HexToInt(FuchsiaHex) == Some(15418782) { ColorValue(FuchsiaHex, 15418782); }
  lemma RedValue() ensures HexToInt(RedHex) == Some(15548997) { ColorValue(RedHex, 15548997); }
  lemma BlackValue() ensures HexToInt(BlackHex) == Some(2303786) { ColorValue(BlackHex, 2303786); }

  /** Every swatch converts to a number, so the panel never shows "Invalid Hex" after a click. */
  lemma PaletteValid()
    ensures forall k :: 0 <= k < |Palette| ==> HexToInt(Palette[k].hex).Some?
  {
    forall k | 0 <= k < |Palette| ensures HexToInt(Palette[k].hex).Some? {
      var h := Palette[k].hex;
      if k == 0 { assert h == BlurpleHex; BlurpleValue(); }
      else if k == 1 { assert h == GreenHex; GreenValue(); }
      else if k == 2 { assert h == YellowHex; YellowValue(); }
      else if k == 3 { assert h == FuchsiaHex; FuchsiaValue(); }
      else if k == 4 { assert h == RedHex; RedValue(); }
      else { assert h == BlackHex; BlackValue(); }
    }
  }

  /** Clicking swatch `k` sets the colour to its hex, which the panel then shows as an integer. */
  function ClickSwatch(k: nat): (hex: string)
    requires k < |Palette|
    ensures hex == Palette[k].hex
    ensures HexToInt(hex).Some? && DisplayText(hex) != InvalidHex
  {
    PaletteValid();
    Palette[k].hex
  }
}
