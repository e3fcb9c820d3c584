/**
 * The Markdown helper: a message buffer that format buttons append
 * snippets to, one per line, with a reference table of the snippets.
 */
module MarkdownTool {
  import opened Wrappers
  import opened Seqs

  datatype Format = Format(name: string, code: string)

  /** The eleven quick actions, in button order. */
  const Formats: seq<Format> := [
    Format("Bold", "**text**"),
    Format("Italic", "*text*"),
    Format("Strikethrough", "~~text~~"),
    Format("Spoiler", "||text||"),
    Format("Header 1", "# text"),
    Format("Header 2", "## text"),
    Format("Quote", "> text"),
    Format("Inline Code", "`text`"),
    Format("Code Block", "```js\ntext\n```"),
    Format("Bullet List", "- item"),
    Format("Numbered List", "1. item")
  ]

  /** The labels (`name`), which key the buttons, are all different, and no snippet is empty. */
  lemma FormatsTable()
    ensures |Formats| == 11
    ensures forall i, j :: 0 <= i < j < |Formats| ==> Formats[i].name != Formats[j].name
    ensures forall i :: 0 <= i < |Formats| ==> Formats[i].code != []
  {
  }

  /**
   * What `applyFormat` makes of the previous text: the snippet alone when
   * the text is empty, else the text, a newline and the snippet.
   */
  function Appended(prev: string, code: string): (r: string)
    ensures prev == [] ==> r == code
    ensures prev != [] ==> |r| == |prev| + 1 + |code|
    ensures prev <= r && r[|r| - |code|..] == code
  {
    var r := prev + (if |prev| > 0 then "\n" else "") + code;
    assert r[|r| - |code|..] == code;
    r
  }

  /** The new text on a non-empty buffer: the old text, one newline, the snippet. */
  lemma AppendedShape(prev: string, code: string)
    requires prev != []
    ensures Appended(prev, code)[..|prev|] == prev
    ensures Appended(prev, code)[|prev|] == '\n'
    ensures Appended(prev, code)[|prev| + 1..] == code
  {
    var r := Appended(prev, code);
    assert r == prev + "\n" + code;
  }

  /** Applying snippets one after another, starting from `text`. */
  function ApplyAll(text: string, codes: seq<string>): string
    decreases |codes|
  {
    if codes == [] then text else ApplyAll(Appended(text, codes[0]), codes[1..])
  }

  /**
   * From an empty buffer, snippets end up one per line, as long as the
   * first is not empty (an empty first snippet leaves the buffer empty, so
   * the next one gets no newline).
   */
  lemma ApplyAllFromEmpty(codes: seq<string>)
    requires codes == [] || codes[0] != []
    ensures ApplyAll("", codes) == Join(codes, "\n")
  {
    if codes != [] {
      ApplyAllOnto(codes[0], codes[1..]);
    }
  }

  lemma {:induction false} ApplyAllOnto(text: string, codes: seq<string>)
    requires text != []
    ensures ApplyAll(text, codes) == if codes == [] then text else text + "\n" + Join(codes, "\n")
    decreases |codes|
  {
    if codes != [] {
      var next := Appended(text, codes[0]);
      ApplyAllOnto(next, codes[1..]);
      if |codes| > 1 {
        assert next + "\n" + Join(codes[1..], "\n") == text + "\n" + (codes[0] + "\n" + Join(codes[1..], "\n"));
      }
    }
  }

  /** The editor's buffer. */
  class MarkdownEditor {
    var text: string

    constructor()
      ensures text == ""
    {
      text := "";
    }

    /** Typing in the editor replaces the buffer. */
    method SetText(t: string)
      modifies this
      ensures text == t
    {
      text := t;
    }

    method ApplyFormat(code: string)
      modifies this
      ensures text == Appended(old(text), code)
    {
      if |text| > 0 {
        text := text + "\n" + code;
      } else {
        text := text + code;
      }
    }

    /** Clear All. */
    method Clear()
      modifies this
      ensures text == ""
    {
      text := "";
    }

    /** `copyToClipboard`: nothing is copied from an empty buffer. */
    function CopyText(): (r: Option<string>)
      reads this
      ensures r.None? <==> text == []
      ensures r.Some? ==> r.value == text
    {
      if text == [] then None else Some(text)
    }
  }
}
