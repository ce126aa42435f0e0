/**
 * The story preview of app/components/story-preview.tsx: the story text is
 * cut into paragraphs at blank lines, the whole preview is styled by the
 * story's format, and each paragraph becomes one rendered block, a script
 * line `CHARACTER: dialogue` becoming a speaker and a speech.
 */
module StoryPreview {
  import opened Strings

  const PARAGRAPH_BREAK: string := "\n\n"

  const SCRIPT_STYLE: string := "font-mono text-sm leading-6"
  const POEM_STYLE: string := "font-serif text-center italic"
  const NEWS_STYLE: string := "font-sans text-base leading-7"
  const BLOG_STYLE: string := "font-sans text-lg leading-8"
  /** The style of a short story, and of every format the preview does not know. */
  const DEFAULT_STYLE: string := "font-serif text-lg leading-8"

  /** `content.split('\n\n').filter(Boolean)` */
  function Paragraphs(content: string): (ps: seq<string>)
    ensures forall p :: p in ps ==> p != "" && !Contains(p, PARAGRAPH_BREAK)
  {
    SplitPiecesFree(content, PARAGRAPH_BREAK);
    NonEmpty(Split(content, PARAGRAPH_BREAK))
  }

  /** `getFormatStyles()`: a switch on the lower-cased format. */
  function FormatStyles(format: string): (style: string)
    ensures ToLower(format) == "script" ==> style == SCRIPT_STYLE
    ensures ToLower(format) == "poem" ==> style == POEM_STYLE
    ensures ToLower(format) == "news-article" ==> style == NEWS_STYLE
    ensures ToLower(format) == "blog-post" ==> style == BLOG_STYLE
    ensures ToLower(format) !in {"script", "poem", "news-article", "blog-post"} ==> style == DEFAULT_STYLE
  {
    match ToLower(format)
    case "script" => SCRIPT_STYLE
    case "poem" => POEM_STYLE
    case "news-article" => NEWS_STYLE
    case "blog-post" => BLOG_STYLE
    case _ => DEFAULT_STYLE
  }

  /** What one paragraph renders as: a speaker over a speech, or one `<p>` with its classes. */
  datatype Block = Speech(character: string, dialogue: string) | Paragraph(text: string, className: string)

  /**
   * The `map` callback. A script paragraph with a colon is destructured from
   * `split(':')`: the first two pieces, trimmed; a script paragraph without
   * one is shown upper-cased; poems keep their line breaks.
   */
  function Render(format: string, paragraph: string): (b: Block)
    ensures b.Speech? <==> ToLower(format) == "script" && Contains(paragraph, ":")
    ensures b.Speech? ==> b.character == Trim(Split(paragraph, ":")[0])
    ensures ToLower(format) == "script" && !Contains(paragraph, ":") ==> b == Paragraph(paragraph, "mb-4 uppercase")
    ensures ToLower(format) != "script" ==>
              b.Paragraph? && b.text == paragraph &&
              b.className == (if ToLower(format) == "poem" then "mb-6 whitespace-pre-line" else "mb-6")
  {
    if ToLower(format) == "script" then
      if Contains(paragraph, ":") then
        var pieces := Split(paragraph, ":");
        if |pieces| > 1 then Speech(Trim(pieces[0]), Trim(pieces[1]))
        else Speech(Trim(pieces[0]), "") // not reached: a colon always makes a second piece
      else Paragraph(paragraph, "mb-4 uppercase")
    else if ToLower(format) == "poem" then Paragraph(paragraph, "mb-6 whitespace-pre-line")
    else Paragraph(paragraph, "mb-6")
  }

  /** The rendered blocks: one per paragraph, in the paragraphs' order. */
  function Blocks(content: string, format: string): (bs: seq<Block>)
    ensures |bs| == |Paragraphs(content)|
    ensures forall i :: 0 <= i < |bs| ==> bs[i] == Render(format, Paragraphs(content)[i])
  {
    var ps := Paragraphs(content);
    seq(|ps|, i requires 0 <= i < |ps| => Render(format, ps[i]))
  }

  /** The format is compared without regard to case, for the style and for every block. */
  lemma FormatCaseIgnored(format: string, content: string)
    ensures FormatStyles(ToLower(format)) == FormatStyles(format)
    ensures Blocks(content, ToLower(format)) == Blocks(content, format)
  {
    ToLowerIdempotent(format);
  }

  /** A paragraph that does not end in a line break stops just before a following blank line. */
  lemma ParagraphStops(p: string, rest: string)
    requires p != "" && !Contains(p, PARAGRAPH_BREAK) && p[|p| - 1] != '\n'
    ensures forall j :: 0 <= j < |p| ==> !StartsWith((p + PARAGRAPH_BREAK + rest)[j..], PARAGRAPH_BREAK)
  {
    var s := p + PARAGRAPH_BREAK + rest;
    ContainsAt(p, PARAGRAPH_BREAK);
    forall j | 0 <= j < |p| ensures !StartsWith(s[j..], PARAGRAPH_BREAK) {
      if j + 1 < |p| {
        assert s[j..][..2] == p[j..][..2];
      } else {
        assert s[j..][0] == p[|p| - 1];
      }
    }
  }

  /** Splitting a join at the separator gives back its pieces, when no piece runs into the separator. */
  lemma {:induction false} SplitOfJoin(ps: seq<string>)
    requires |ps| > 0
    requires forall p :: p in ps ==> p != "" && !Contains(p, PARAGRAPH_BREAK) && p[|p| - 1] != '\n'
    ensures Split(Join(ps, PARAGRAPH_BREAK), PARAGRAPH_BREAK) == ps
    decreases |ps|
  {
    if |ps| == 1 {
      ContainsAt(ps[0], PARAGRAPH_BREAK);
      forall j | 0 <= j < |ps[0]| ensures !StartsWith(ps[0][j..], PARAGRAPH_BREAK) {
        if j + 1 < |ps[0]| {
          assert ps[0][j..][..2] == ps[0][j..j + 2];
        }
      }
      SplitWhole(ps[0], PARAGRAPH_BREAK);
    } else {
      var rest := Join(ps[1..], PARAGRAPH_BREAK);
      assert ps[0] in ps;
      ParagraphStops(ps[0], rest);
      SplitAfterPiece(ps[0], PARAGRAPH_BREAK, rest);
      assert forall p :: p in ps[1..] ==> p in ps;
      SplitOfJoin(ps[1..]);
    }
  }

  /** A list with no empty string passes `filter(Boolean)` whole. */
  lemma {:induction false} NonEmptyKeepsAll(ps: seq<string>)
    requires forall p :: p in ps ==> p != ""
    ensures NonEmpty(ps) == ps
    decreases |ps|
  {
    if |ps| > 0 {
      assert ps[0] in ps;
      assert forall p :: p in ps[1..] ==> p in ps;
      NonEmptyKeepsAll(ps[1..]);
      assert ps == [ps[0]] + ps[1..];
    }
  }

  /**
   * Paragraphs written out with blank lines between them are read back as
   * the same paragraphs in the same order, as long as none of them ends in a
   * line break (which would merge into the blank line).
   */
  lemma ParagraphsRoundTrip(ps: seq<string>)
    requires forall p :: p in ps ==> p != "" && !Contains(p, PARAGRAPH_BREAK) && p[|p| - 1] != '\n'
    ensures Paragraphs(Join(ps, PARAGRAPH_BREAK)) == ps
  {
    if |ps| == 0 {
      assert Split("", PARAGRAPH_BREAK) == [""];
    } else {
      SplitOfJoin(ps);
      NonEmptyKeepsAll(ps);
    }
  }

  /**
   * A script line names its speaker before the first colon and speaks up to
   * the second; whatever follows a second colon is dropped.
   */
  lemma ScriptSpeech(format: string, character: string, dialogue: string, dropped: string)
    requires ToLower(format) == "script"
    requires forall i :: 0 <= i < |character| ==> character[i] != ':'
    requires forall i :: 0 <= i < |dialogue| ==> dialogue[i] != ':'
    ensures Render(format, character + ":" + dialogue) == Speech(Trim(character), Trim(dialogue))
    ensures Render(format, character + ":" + dialogue + ":" + dropped) == Speech(Trim(character), Trim(dialogue))
  {
    var one := character + ":" + dialogue;
    var two := character + ":" + dialogue + ":" + dropped;
    assert Contains(one, ":") by {
      assert one[|character|..][..1] == ":";
      ContainsAt(one, ":");
    }
    assert Contains(two, ":") by {
      assert two[|character|..][..1] == ":";
      ContainsAt(two, ":");
    }
    NoColonAnywhere(character, dialogue);
    NoColonAnywhere(character, dialogue + ":" + dropped);
    NoColonAnywhere(dialogue, dropped);
    assert two == character + ":" + (dialogue + ":" + dropped);
    SplitAfterPiece(character, ":", dialogue);
    SplitAfterPiece(character, ":", dialogue + ":" + dropped);
    SplitWhole(dialogue, ":");
    SplitAfterPiece(dialogue, ":", dropped);
  }

  /** `:` starts at no position of a colon-free text, alone or followed by a colon and more. */
  lemma NoColonAnywhere(p: string, rest: string)
    requires forall i :: 0 <= i < |p| ==> p[i] != ':'
    ensures forall j :: 0 <= j < |p| ==> !StartsWith((p + ":" + rest)[j..], ":")
    ensures forall j :: 0 <= j < |p| ==> !StartsWith(p[j..], ":")
  {
    forall j | 0 <= j < |p| ensures !StartsWith((p + ":" + rest)[j..], ":") && !StartsWith(p[j..], ":") {
      StartsWithChar((p + ":" + rest)[j..], ':');
      StartsWithChar(p[j..], ':');
    }
  }

  /** A script paragraph without a colon is one upper-cased paragraph holding the text as it is. */
  lemma ScriptWithoutColon(format: string, paragraph: string)
    requires ToLower(format) == "script"
    requires forall i :: 0 <= i < |paragraph| ==> paragraph[i] != ':'
    ensures Render(format, paragraph) == Paragraph(paragraph, "mb-4 uppercase")
  {
    NoLeadCharNotContained(paragraph, ":");
  }

  /**
   * Outside the script format a paragraph is shown whole: poems keep their
   * line breaks, every other format shows it as ordinary prose.
   */
  lemma OtherFormatsKeepText(format: string, paragraph: string)
    requires ToLower(format) != "script"
    ensures Render(format, paragraph).Paragraph? && Render(format, paragraph).text == paragraph
    ensures ToLower(format) == "poem" <==> Render(format, paragraph).className == "mb-6 whitespace-pre-line"
  {
  }
}
