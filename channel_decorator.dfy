/**
 * The channel decorator: a channel name cleaned up the way Discord spells
 * channel names, restyled in one of four fonts and prefixed with an emoji
 * and a vertical bar.
 */
module ChannelDecoratorTool {
  import opened Chars
  import opened Seqs
  import opened JsText
  import TextTransformTool

  /** The separator every prefix ends with: U+FE31, a vertical em dash. */
  const Bar: char := '\U{FE31}'

  /** The ready-made prefixes: an emoji, then the bar. */
  const Prefixes: seq<string> := [
    "\U{1F4AC}\U{FE31}", "\U{1F4E2}\U{FE31}", "\U{1F50A}\U{FE31}", "\U{1F4CC}\U{FE31}",
    "\U{1F4DC}\U{FE31}", "\U{1F512}\U{FE31}", "\U{2728}\U{FE31}", "\U{1F525}\U{FE31}",
    "\U{1F48E}\U{FE31}", "\U{1F6E0}\U{FE0F}\U{FE31}", "\U{1F3AE}\U{FE31}", "\U{1F4F7}\U{FE31}",
    "\U{1F9E0}\U{FE31}", "\U{1F6E1}\U{FE0F}\U{FE31}", "\U{1F9E9}\U{FE31}", "\U{1F3B5}\U{FE31}",
    "\U{1F4DA}\U{FE31}", "\U{1F680}\U{FE31}", "\U{1F3A8}\U{FE31}", "\U{1F4A1}\U{FE31}",
    "\U{2705}\U{FE31}", "\U{274C}\U{FE31}", "\U{1F44B}\U{FE31}"
  ]

  /** The characters a channel name keeps: `[a-z0-9\-_]`. */
  predicate IsChannelChar(c: char) { IsAsciiLower(c) || IsDigit(c) || c == '-' || c == '_' }

  /**
   * `sanitizeChannelBase`: trim, lower-case, each whitespace run becomes
   * one `-`, then everything outside `[a-z0-9\-_]` is dropped.
   */
  function Sanitize(value: string): (r: string)
    ensures forall i :: 0 <= i < |r| ==> IsChannelChar(r[i])
  {
    KeepOnly(ReplaceRuns(LowerString(Trim(value)), IsSpace, '-'), IsChannelChar)
  }

  lemma ChannelCharNotSpace(c: char)
    requires IsChannelChar(c)
    ensures !IsSpace(c) && !IsAsciiUpper(c)
  {
  }

  /** A sanitized name is left as it is by sanitizing it again. */
  lemma SanitizeIdempotent(value: string)
    ensures Sanitize(Sanitize(value)) == Sanitize(value)
  {
    var r := Sanitize(value);
    assert NoSpace(r) && NoAsciiUpper(r) by {
      forall i | 0 <= i < |r| ensures !IsSpace(r[i]) && !IsAsciiUpper(r[i]) {
        ChannelCharNotSpace(r[i]);
      }
    }
    TrimNoSpace(r);
    LowerStringNoUpper(r);
    assert ReplaceRuns(r, IsSpace, '-') == r by { ReplaceRunsNone(r, IsSpace, '-'); }
  }

  datatype Font = Default | SmallCaps | Monospace | Compact

  /** The font's key in the `FONTS` table, which is also its button label. */
  function FontName(f: Font): string
  {
    match f
    case Default => "Default"
    case SmallCaps => "Small Caps"
    case Monospace => "Monospace"
    case Compact => "Compact"
  }

  predicate NotHyphen(c: char) { c != '-' }

  /**
   * `FONTS[font](s)`. The small-caps table is the same as the text
   * transformer's, so the one definition serves both.
   */
  function ApplyFont(f: Font, s: string): (r: string)
  {
    var base := Sanitize(s);
    match f
    case Default => base
    case Monospace => base
    case Compact => KeepOnly(base, NotHyphen)
    case SmallCaps => seq(|base|, i requires 0 <= i < |base| => TextTransformTool.SmallCap(base[i]))
  }

  /** Default and Monospace are the sanitized name itself. */
  lemma PlainFonts(s: string)
    ensures ApplyFont(Default, s) == Sanitize(s) && ApplyFont(Monospace, s) == Sanitize(s)
  {
  }

  /** Compact is the sanitized name with every hyphen dropped and nothing else changed. */
  lemma CompactFont(s: string)
    ensures ApplyFont(Compact, s) == Filter(Sanitize(s), NotHyphen)
    ensures forall i :: 0 <= i < |ApplyFont(Compact, s)| ==> ApplyFont(Compact, s)[i] != '-'
  {
  }

  /**
   * Small Caps keeps the length of the sanitized name, keeps digits, `-` and
   * `_` in place, and replaces each letter by its table entry.
   */
  lemma SmallCapsFont(s: string)
    ensures |ApplyFont(SmallCaps, s)| == |Sanitize(s)|
    ensures forall i :: 0 <= i < |Sanitize(s)| && !IsAsciiLower(Sanitize(s)[i]) ==>
      ApplyFont(SmallCaps, s)[i] == Sanitize(s)[i]
    ensures forall i :: 0 <= i < |Sanitize(s)| ==>
      ApplyFont(SmallCaps, s)[i] == TextTransformTool.SmallCap(Sanitize(s)[i])
  {
    var base := Sanitize(s);
    forall i | 0 <= i < |base| && !IsAsciiLower(base[i]) ensures ApplyFont(SmallCaps, s)[i] == base[i] {
      TextTransformTool.SmallCapKeepsNonLetters(base[i]);
    }
  }

  /** `decorated`: the prefix, then the restyled name. */
  function Decorated(prefix: string, f: Font, input: string): (r: string)
    ensures |prefix| <= |r| && r[..|prefix|] == prefix && r[|prefix|..] == ApplyFont(f, input)
  {
    prefix + ApplyFont(f, input)
  }

  /** Choosing an emoji in the picker makes it the prefix, followed by the bar. */
  function PickedPrefix(emoji: string): (r: string)
    ensures |r| == |emoji| + 1 && r[..|emoji|] == emoji && r[|emoji|] == Bar
  {
    emoji + [Bar]
  }

  /** `item.split('︱')[0]`: the text before the first bar, the part a button shows. */
  function BeforeBar(s: string): (r: string)
    ensures r <= s && Bar !in r
    ensures |r| < |s| ==> s[|r|] == Bar
  {
    if s == [] || s[0] == Bar then [] else [s[0]] + BeforeBar(s[1..])
  }

  /** A picked emoji's button label is the emoji itself. */
  lemma {:induction false} PickedLabel(emoji: string)
    requires Bar !in emoji
    ensures BeforeBar(PickedPrefix(emoji)) == emoji
  {
    if emoji != [] {
      assert PickedPrefix(emoji)[1..] == PickedPrefix(emoji[1..]);
      PickedLabel(emoji[1..]);
    }
  }

  /** Every ready-made prefix is an emoji without a bar, followed by the bar. */
  lemma PrefixesArePicked()
    ensures forall k :: 0 <= k < |Prefixes| ==>
      |Prefixes[k]| >= 2 && Prefixes[k] == PickedPrefix(Prefixes[k][..|Prefixes[k]| - 1])
      && Bar !in Prefixes[k][..|Prefixes[k]| - 1]
  {
  }
}
