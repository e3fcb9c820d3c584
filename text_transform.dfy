/**
 * The text transformer: one input string shown in ten styles (mocking
 * case, regional indicators, small caps, upper, lower, title case,
 * reversed, leet speak, snake case, kebab case).
 */
module TextTransformTool {
  import opened Wrappers
  import opened Chars
  import opened Seqs
  import opened JsText

  // ---------------------------------------------------------------- tables

  /**
   * `smallCapsMap[c] || c`. The table sends every lower-case letter to its
   * small-capital form; `s` and `x` stay as they are.
   */
  function SmallCap(c: char): char
  {
    match c
    case 'a' => '\U{1D00}' case 'b' => '\U{0299}' case 'c' => '\U{1D04}' case 'd' => '\U{1D05}'
    case 'e' => '\U{1D07}' case 'f' => '\U{0493}' case 'g' => '\U{0262}' case 'h' => '\U{029C}'
    case 'i' => '\U{026A}' case 'j' => '\U{1D0A}' case 'k' => '\U{1D0B}' case 'l' => '\U{029F}'
    case 'm' => '\U{1D0D}' case 'n' => '\U{0274}' case 'o' => '\U{1D0F}' case 'p' => '\U{1D18}'
    case 'q' => '\U{01EB}' case 'r' => '\U{0280}' case 's' => 's' case 't' => '\U{1D1B}'
    case 'u' => '\U{1D1C}' case 'v' => '\U{1D20}' case 'w' => '\U{1D21}' case 'x' => 'x'
    case 'y' => '\U{028F}' case 'z' => '\U{1D22}'
    case _ => c
  }

  lemma SmallCapKeepsNonLetters(c: char)
    requires !IsAsciiLower(c)
    ensures SmallCap(c) == c
  {
  }

  /** `leetMap[c] || c`: ten letters become digits. */
  function Leet(c: char): char
  {
    match c
    case 'a' => '4' case 'b' => '8' case 'e' => '3' case 'g' => '6' case 'i' => '1'
    case 'l' => '1' case 'o' => '0' case 's' => '5' case 't' => '7' case 'z' => '2'
    case _ => c
  }

  /** The letters the leet table replaces. */
  predicate IsLeetLetter(c: char)
  {
    c == 'a' || c == 'b' || c == 'e' || c == 'g' || c == 'i' || c == 'l' || c == 'o' || c == 's' || c == 't' || c == 'z'
  }

  // ---------------------------------------------------------- transforms

  /** `toMocking`: even positions lower-cased, odd positions upper-cased. */
  function ToMocking(text: string): (r: string)
    ensures |r| == |text|
    ensures forall i :: 0 <= i < |text| ==> r[i] == (if i % 2 == 0 then Lower(text[i]) else Upper(text[i]))
  {
    seq(|text|, i requires 0 <= i < |text| => if i % 2 == 0 then Lower(text[i]) else Upper(text[i]))
  }

  /** Mockify on already mocked text changes nothing. */
  lemma MockingIdempotent(text: string)
    ensures ToMocking(ToMocking(text)) == ToMocking(text)
  {
  }

  /** Mocking case only changes letter case. */
  lemma MockingKeepsLetters(text: string)
    ensures LowerString(ToMocking(text)) == LowerString(text)
  {
    var m := ToMocking(text);
    forall i | 0 <= i < |text| ensures Lower(m[i]) == Lower(text[i]) {
      CaseRoundTrip(text[i]);
    }
  }

  /** What one (lower-cased) character becomes in regional-indicator text. */
  function RegionalPiece(c: char): (r: string)
    ensures 'a' <= c <= 'z' ==> r == ":regional_indicator_" + [c] + ":"
    ensures c == ' ' ==> r == "   "
    ensures !('a' <= c <= 'z') && c != ' ' ==> r == [c]
  {
    if 'a' <= c <= 'z' then ":regional_indicator_" + [c] + ":"
    else if c == ' ' then "   "
    else [c]
  }

  function RegionalPieces(t: string): (r: seq<string>)
    ensures |r| == |t| && forall i :: 0 <= i < |t| ==> r[i] == RegionalPiece(t[i])
  {
    seq(|t|, i requires 0 <= i < |t| => RegionalPiece(t[i]))
  }

  /** `toRegional`: lower-case, one piece per character, pieces joined by single spaces. */
  function ToRegional(text: string): string
  {
    Join(RegionalPieces(LowerString(text)), " ")
  }

  /** One character: a letter of either case becomes its indicator. */
  lemma RegionalOne(c: char)
    ensures IsAsciiUpper(c) || IsAsciiLower(c) ==> ToRegional([c]) == ":regional_indicator_" + [Lower(c)] + ":"
    ensures c == ' ' ==> ToRegional([c]) == "   "
    ensures !IsAsciiUpper(c) && !IsAsciiLower(c) && c != ' ' ==> ToRegional([c]) == [c]
  {
    assert LowerString([c]) == [Lower(c)];
    assert RegionalPieces([Lower(c)]) == [RegionalPiece(Lower(c))];
  }

  /** Pieces of consecutive text are separated by exactly one space. */
  lemma RegionalAppend(s: string, t: string)
    requires s != [] && t != []
    ensures ToRegional(s + t) == ToRegional(s) + " " + ToRegional(t)
  {
    LowerStringAppend(s, t);
    assert RegionalPieces(LowerString(s) + LowerString(t))
      == RegionalPieces(LowerString(s)) + RegionalPieces(LowerString(t));
    JoinAppend(RegionalPieces(LowerString(s)), RegionalPieces(LowerString(t)), " ");
  }

  /** `toSmallCaps`: lower-case, then the small-caps table. */
  function ToSmallCaps(text: string): (r: string)
    ensures |r| == |text|
    ensures forall i :: 0 <= i < |text| ==> r[i] == SmallCap(Lower(text[i]))
  {
    var t := LowerString(text);
    seq(|t|, i requires 0 <= i < |t| => SmallCap(t[i]))
  }

  /**
   * Characters that are not letters keep their place unchanged, and the
   * only ASCII letters left are `s` and `x`.
   */
  lemma SmallCapsTable(text: string)
    ensures forall i :: 0 <= i < |text| && !IsAsciiUpper(text[i]) && !IsAsciiLower(text[i]) ==>
      ToSmallCaps(text)[i] == text[i]
    ensures forall i :: 0 <= i < |text| ==>
      (IsAsciiLower(ToSmallCaps(text)[i]) || IsAsciiUpper(ToSmallCaps(text)[i])) ==> ToSmallCaps(text)[i] in "sx"
  {
  }

  /** `toLeet`: lower-case, then the leet table. */
  function ToLeet(text: string): (r: string)
    ensures |r| == |text|
    ensures forall i :: 0 <= i < |text| ==> r[i] == Leet(Lower(text[i]))
  {
    var t := LowerString(text);
    seq(|t|, i requires 0 <= i < |t| => Leet(t[i]))
  }

  /**
   * Characters that are not letters keep their place unchanged, and no
   * upper-case letter and no letter of the table is left.
   */
  lemma LeetTable(text: string)
    ensures forall i :: 0 <= i < |text| && !IsAsciiUpper(text[i]) && !IsAsciiLower(text[i]) ==>
      ToLeet(text)[i] == text[i]
    ensures forall i :: 0 <= i < |text| ==> !IsAsciiUpper(ToLeet(text)[i]) && !IsLeetLetter(ToLeet(text)[i])
  {
  }

  // ------------------------------------------------------------ title case

  /** `word ? word[0].toUpperCase() + word.slice(1) : ''`. */
  function Capitalize(w: string): (r: string)
    ensures |r| == |w|
    ensures w != [] ==> r[0] == Upper(w[0]) && r[1..] == w[1..]
  {
    if w == [] then [] else [Upper(w[0])] + w[1..]
  }

  function CapAll(ws: seq<string>): (r: seq<string>)
    ensures |r| == |ws| && forall k :: 0 <= k < |ws| ==> r[k] == Capitalize(ws[k])
  {
    if ws == [] then [] else [Capitalize(ws[0])] + CapAll(ws[1..])
  }

  /** `toTitleCase`: lower-case, split on whitespace runs, capitalise, join with spaces, trim. */
  function ToTitleCase(text: string): string
  {
    Trim(Join(CapAll(SplitWs(LowerString(text))), " "))
  }

  /** Joining the capitalised forms of a list with a given head. */
  lemma JoinCapCons(x: string, rest: seq<string>)
    ensures Join(CapAll([x] + rest), " ")
      == if rest == [] then Capitalize(x) else Capitalize(x) + " " + Join(CapAll(rest), " ")
  {
    assert ([x] + rest)[1..] == rest;
    assert CapAll([x] + rest) == [Capitalize(x)] + CapAll(rest);
    assert ([Capitalize(x)] + CapAll(rest))[1..] == CapAll(rest);
  }

  lemma SpaceCons(b: string)
    requires AllSpace(b)
    ensures AllSpace(" " + b)
  {
    assert forall k :: 0 < k < |b| + 1 ==> (" " + b)[k] == b[k - 1];
  }

  /** The step of `JoinStep` when the words stop at the head: the separator joins the padding. */
  lemma PadStep(c: string, jp: string, jw: string, b': string)
    requires AllSpace(b') && jp == c + " " + b' && jw == c
    ensures AllSpace(" " + b') && jp == jw + (" " + b')
  {
    SpaceCons(b');
  }

  /** The step of `JoinStep` when more words follow: the padding stays at the end. */
  lemma WordStep(c: string, x: string, jp: string, jw: string, b': string)
    requires jp == c + " " + (x + b') && jw == c + " " + x
    ensures jp == jw + b'
  {
  }

  /** The inductive step of `JoinPiecesNoLead`, on the lists alone. */
  lemma JoinStep(ps: seq<string>, ws: seq<string>, p0: string, pieces: seq<string>, w: seq<string>, b': string)
      returns (b: string)
    requires ps == [p0] + pieces && ws == [p0] + w && pieces != []
    requires AllSpace(b') && Join(CapAll(pieces), " ") == Join(CapAll(w), " ") + b'
    ensures AllSpace(b) && Join(CapAll(ps), " ") == Join(CapAll(ws), " ") + b
  {
    var c, x := Capitalize(p0), Join(CapAll(w), " ");
    var jp, jw := Join(CapAll(ps), " "), Join(CapAll(ws), " ");
    assert jp == c + " " + (x + b') by { JoinCapCons(p0, pieces); }
    if w == [] {
      assert jw == c && x == [] by { JoinCapCons(p0, w); }
      b := " " + b';
      PadStep(c, jp, jw, b');
    } else {
      assert jw == c + " " + x by { JoinCapCons(p0, w); }
      b := b';
      WordStep(c, x, jp, jw, b');
    }
  }

  /**
   * With no leading whitespace, joining every piece of the split gives the
   * joined words followed by at most some whitespace.
   */
  lemma {:induction false} JoinPiecesNoLead(s: string) returns (b: string)
    requires s == [] || !IsSpace(s[0])
    ensures AllSpace(b)
    ensures Join(CapAll(SplitWs(s)), " ") == Join(CapAll(Words(s)), " ") + b
    decreases |s|
  {
    var i := FirstSpace(s);
    if i == |s| {
      assert s[..i] == s;
      assert SplitWs(s) == [s] + [];
      FilterCons(s, [], IsWord);
      JoinCapCons(s, []);
      b := "";
    } else {
      var j := RunEnd(s, i);
      var p0, rest := s[..i], s[j..];
      var b' := JoinPiecesNoLead(rest);
      assert SplitWs(s) == [p0] + SplitWs(rest);
      assert Words(s) == [p0] + Words(rest) by {
        assert p0 != [];
        FilterCons(p0, SplitWs(rest), IsWord);
      }
      b := JoinStep(SplitWs(s), Words(s), p0, SplitWs(rest), Words(rest), b');
    }
  }

  /** A leading empty piece puts one space in front. */
  lemma LeadStep(ps: seq<string>, ws: seq<string>, pieces: seq<string>, b: string)
    requires ps == [[]] + pieces && pieces != []
    requires Join(CapAll(pieces), " ") == Join(CapAll(ws), " ") + b
    ensures Join(CapAll(ps), " ") == " " + Join(CapAll(ws), " ") + b
  {
    var e: string := [];
    JoinCapCons(e, pieces);
    assert Join(CapAll(ps), " ") == e + " " + (Join(CapAll(ws), " ") + b);
    EmptyFront(Join(CapAll(ws), " "), b);
  }

  lemma EmptyFront(x: string, b: string)
    ensures [] + " " + (x + b) == " " + x + b
  {
  }

  /** Joining every piece gives the joined words with whitespace around them. */
  lemma JoinPiecesPadded(s: string) returns (a: string, b: string)
    ensures AllSpace(a) && AllSpace(b)
    ensures Join(CapAll(SplitWs(s)), " ") == a + Join(CapAll(Words(s)), " ") + b
  {
    if s != [] && IsSpace(s[0]) {
      var j := RunEnd(s, 0);
      var rest := s[j..];
      b := JoinPiecesNoLead(rest);
      assert SplitWs(s) == [[]] + SplitWs(rest) by { assert s[..0] == []; }
      assert Words(s) == Words(rest) by { FilterCons([], SplitWs(rest), IsWord); }
      LeadStep(SplitWs(s), Words(s), SplitWs(rest), b);
      a := " ";
    } else {
      a := "";
      b := JoinPiecesNoLead(s);
      assert a + Join(CapAll(Words(s)), " ") == Join(CapAll(Words(s)), " ");
    }
  }

  /** A word as title case leaves it: non-empty, no whitespace, capital first, lower-case rest. */
  predicate TitleWord(w: string)
  {
    w != [] && NoSpace(w) && !IsAsciiLower(w[0]) && forall k :: 1 <= k < |w| ==> !IsAsciiUpper(w[k])
  }

  /** Each whitespace character is a single space between two non-space characters. */
  predicate SingleSpaced(r: string)
  {
    forall i :: 0 <= i < |r| && IsSpace(r[i]) ==> r[i] == ' ' && 0 < i < |r| - 1 && !IsSpace(r[i + 1])
  }

  /** A character starting a word is not lower-case; any other is not upper-case. */
  predicate Capitalised(r: string)
  {
    forall i :: 0 <= i < |r| ==> if i == 0 || r[i - 1] == ' ' then !IsAsciiLower(r[i]) else !IsAsciiUpper(r[i])
  }

  lemma {:induction false} JoinTitleWords(ws: seq<string>)
    requires forall k :: 0 <= k < |ws| ==> TitleWord(ws[k])
    ensures Trimmed(Join(ws, " ")) && SingleSpaced(Join(ws, " ")) && Capitalised(Join(ws, " "))
  {
    if |ws| > 1 {
      var w, r' := ws[0], Join(ws[1..], " ");
      JoinTitleWords(ws[1..]);
      var r := Join(ws, " ");
      assert r == w + " " + r';
      assert r' != [] by { assert ws[1..][0] == ws[1]; }
      forall i | 0 <= i < |r|
        ensures IsSpace(r[i]) ==> r[i] == ' ' && 0 < i < |r| - 1 && !IsSpace(r[i + 1])
        ensures if i == 0 || r[i - 1] == ' ' then !IsAsciiLower(r[i]) else !IsAsciiUpper(r[i])
      {
        if i < |w| {
          assert r[i] == w[i];
          if i > 0 { assert r[i - 1] == w[i - 1]; }
        } else if i > |w| {
          assert r[i] == r'[i - |w| - 1];
          if i > |w| + 1 { assert r[i - 1] == r'[i - |w| - 2]; }
          if i < |r| - 1 { assert r[i + 1] == r'[i - |w|]; }
        } else {
          assert r[i - 1] == w[|w| - 1];
          assert r[i + 1] == r'[0];
        }
      }
    }
  }

  /** Capitalising words without upper-case letters gives title words. */
  lemma TitleWordsOfLower(s: string)
    requires NoAsciiUpper(s)
    ensures forall k :: 0 <= k < |CapAll(Words(s))| ==> TitleWord(CapAll(Words(s))[k])
  {
    WordsKeepCase(s);
  }

  /** Title case is exactly the input's words, lower-cased and capitalised, joined by single spaces. */
  lemma TitleCaseWords(text: string)
    ensures ToTitleCase(text) == Join(CapAll(Words(LowerString(text))), " ")
  {
    var s := LowerString(text);
    var a, b := JoinPiecesPadded(s);
    var ws := CapAll(Words(s));
    TitleWordsOfLower(s);
    JoinTitleWords(ws);
    TrimPadded(a, Join(ws, " "), b);
  }

  /** The output is trimmed, single-spaced and capitalised word by word. */
  lemma TitleCaseShape(text: string)
    ensures Trimmed(ToTitleCase(text)) && SingleSpaced(ToTitleCase(text)) && Capitalised(ToTitleCase(text))
  {
    TitleCaseWords(text);
    TitleWordsOfLower(LowerString(text));
    JoinTitleWords(CapAll(Words(LowerString(text))));
  }

  // ------------------------------------------------------ snake and kebab

  /** The characters `/[^\w\s-]/g` keeps. */
  predicate KeptForCase(c: char) { IsWordChar(c) || IsSpace(c) || c == '-' }

  predicate IsSpaceOrHyphen(c: char) { IsSpace(c) || c == '-' }

  predicate IsSpaceOrUnderscore(c: char) { IsSpace(c) || c == '_' }

  /** `trim`, `toLowerCase`, then `replace(/[^\w\s-]/g, '')`: the text both cases start from. */
  function CaseBase(text: string): (r: string)
    ensures forall i :: 0 <= i < |r| ==> KeptForCase(r[i]) && !IsAsciiUpper(r[i])
  {
    var t := LowerString(Trim(text));
    var r := KeepOnly(t, KeptForCase);
    assert forall i :: 0 <= i < |r| ==> KeptForCase(r[i]) && !IsAsciiUpper(r[i]) by {
      forall i | 0 <= i < |r| ensures KeptForCase(r[i]) && !IsAsciiUpper(r[i]) {
        var j :| 0 <= j < |t| && t[j] == r[i];
        assert t[j] == Lower(Trim(text)[j]);
      }
    }
    r
  }

  /** `toSnakeCase`: every run of whitespace and hyphens becomes one `_`. */
  function ToSnakeCase(text: string): (r: string)
    ensures forall i :: 0 <= i < |r| ==> IsAsciiLower(r[i]) || IsDigit(r[i]) || r[i] == '_'
  {
    var b := CaseBase(text);
    SnakeChars(b);
    ReplaceRuns(b, IsSpaceOrHyphen, '_')
  }

  /** Replacing the separator runs of a case base leaves only snake characters. */
  lemma SnakeChars(b: string)
    requires forall i :: 0 <= i < |b| ==> KeptForCase(b[i]) && !IsAsciiUpper(b[i])
    ensures var r := ReplaceRuns(b, IsSpaceOrHyphen, '_');
      forall i :: 0 <= i < |r| ==> IsAsciiLower(r[i]) || IsDigit(r[i]) || r[i] == '_'
  {
    var r := ReplaceRuns(b, IsSpaceOrHyphen, '_');
    assert forall i :: 0 <= i < |r| ==> r[i] == '_' || r[i] in b;
  }

  /** `toKebabCase`: every run of whitespace and underscores becomes one `-`. */
  function ToKebabCase(text: string): (r: string)
    ensures forall i :: 0 <= i < |r| ==> IsAsciiLower(r[i]) || IsDigit(r[i]) || r[i] == '-'
    ensures forall i :: 0 <= i < |r| ==> !IsSpace(r[i]) && r[i] != '_'
  {
    var b := CaseBase(text);
    KebabChars(b);
    ReplaceRuns(b, IsSpaceOrUnderscore, '-')
  }

  /** Replacing the separator runs of a case base leaves only kebab characters. */
  lemma KebabChars(b: string)
    requires forall i :: 0 <= i < |b| ==> KeptForCase(b[i]) && !IsAsciiUpper(b[i])
    ensures var r := ReplaceRuns(b, IsSpaceOrUnderscore, '-');
      forall i :: 0 <= i < |r| ==> (IsAsciiLower(r[i]) || IsDigit(r[i]) || r[i] == '-') && !IsSpace(r[i]) && r[i] != '_'
  {
    var r := ReplaceRuns(b, IsSpaceOrUnderscore, '-');
    forall i | 0 <= i < |r|
      ensures (IsAsciiLower(r[i]) || IsDigit(r[i]) || r[i] == '-') && !IsSpace(r[i]) && r[i] != '_'
    {
      if r[i] != '-' {
        var j :| 0 <= j < |b| && b[j] == r[i];
        KebabChar(b[j]);
      }
    }
  }

  /** A character of the case base that is neither whitespace nor `_` is kept by kebab case. */
  lemma KebabChar(c: char)
    requires KeptForCase(c) && !IsAsciiUpper(c) && !IsSpaceOrUnderscore(c)
    ensures IsAsciiLower(c) || IsDigit(c) || c == '-'
  {
  }

  /** Text of lower-case letters, digits and the given separator passes through both steps untouched. */
  lemma CaseBaseKeeps(r: string, sep: char)
    requires sep == '_' || sep == '-'
    requires forall i :: 0 <= i < |r| ==> IsAsciiLower(r[i]) || IsDigit(r[i]) || r[i] == sep
    ensures CaseBase(r) == r
  {
    assert NoSpace(r);
    TrimNoSpace(r);
    assert NoAsciiUpper(r);
    LowerStringNoUpper(r);
    assert forall i :: 0 <= i < |r| ==> KeptForCase(r[i]);
  }

  /** Converting snake-case text to snake case again changes nothing. */
  lemma SnakeCaseIdempotent(text: string)
    ensures ToSnakeCase(ToSnakeCase(text)) == ToSnakeCase(text)
  {
    var r := ToSnakeCase(text);
    assert CaseBase(r) == r by { CaseBaseKeeps(r, '_'); }
    assert ReplaceRuns(r, IsSpaceOrHyphen, '_') == r by {
      forall i | 0 <= i < |r| ensures !IsSpaceOrHyphen(r[i]) {
        WordCharNotSpace(r[i]);
      }
      ReplaceRunsNone(r, IsSpaceOrHyphen, '_');
    }
  }

  /** Converting kebab-case text to kebab case again changes nothing. */
  lemma KebabCaseIdempotent(text: string)
    ensures ToKebabCase(ToKebabCase(text)) == ToKebabCase(text)
  {
    var r := ToKebabCase(text);
    assert CaseBase(r) == r by { CaseBaseKeeps(r, '-'); }
    assert ReplaceRuns(r, IsSpaceOrUnderscore, '-') == r by {
      forall i | 0 <= i < |r| ensures !IsSpaceOrUnderscore(r[i]) {
        if r[i] != '-' { WordCharNotSpace(r[i]); }
      }
      ReplaceRunsNone(r, IsSpaceOrUnderscore, '-');
    }
  }

  // ------------------------------------------------------------ the page

  /** `input.split('').reverse().join('')`. */
  function ReverseText(text: string): (r: string)
    ensures |r| == |text| && forall i :: 0 <= i < |text| ==> r[i] == text[|text| - 1 - i]
  {
    assert forall i :: 0 <= i < |text| ==> Reverse(text)[i] == text[|text| - 1 - i] by {
      forall i | 0 <= i < |text| ensures Reverse(text)[i] == text[|text| - 1 - i] {
        ReverseAt(text, i);
      }
    }
    Reverse(text)
  }

  /** Reversing twice gives the input back. */
  lemma ReverseTwice(text: string)
    ensures ReverseText(ReverseText(text)) == text
  {
    ReverseReverse(text);
  }

  /** `copy`: nothing is copied when the transformed text is empty. */
  function CopyText(text: string): (r: Option<string>)
    ensures r.None? <==> text == []
    ensures r.Some? ==> r.value == text
  {
    if text == [] then None else Some(text)
  }
}
