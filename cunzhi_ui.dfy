/**
  The stand-alone interaction program: its line-by-line rendering of simple Markdown, with
  each terminal style kept as a tag on the rendered line instead of escape codes, and its
  choice between option selection and free input.
*/
module CunzhiUi {
  import opened Results
  import opened Strings

  /** The terminal styles the renderer applies. */
  datatype Style =
    | Heading1Style   // bold cyan
    | Heading2Style   // bold yellow
    | Heading3Style   // bold green
    | BoldStyle
    | ItalicStyle
    | CodeStyle       // white on black
    | DimStyle
    | Unstyled

  /** One rendered line (its terminating "\n" is added when the text is assembled). */
  datatype StyledLine = StyledLine(style: Style, text: string)

  /** A text that starts and ends with the ASCII delimiter `d` and is more than twice as many
      bytes long as `d` has at least twice as many characters, so the delimiters do not
      overlap. */
  lemma DelimitedLength(t: string, d: string)
    requires StartsWith(t, d) && EndsWith(t, d)
    requires forall k :: 0 <= k < |d| ==> d[k] as int < 0x80
    requires Utf8Len(t) > 2 * |d|
    ensures |t| >= 2 * |d|
  {
    if |t| < 2 * |d| {
      forall k | 0 <= k < |t| ensures t[k] as int < 0x80 {
        if k < |d| {
          assert t[k] == d[k];
        } else {
          assert t[k] == t[|t| - |d|..][k - (|t| - |d|)] == d[k - (|t| - |d|)];
        }
      }
      Utf8LenAscii(t);
    }
  }

  /** How `render_simple_markdown` renders one line; the trimmed line is compared with the
      forms in a fixed order and the first that matches wins. */
  function ClassifyLine(line: string): StyledLine {
    RenderTrimmed(Trim(line), line)
  }

  /** The rendering of `line`, whose trimmed text is `t`. */
  function RenderTrimmed(t: string, line: string): (r: StyledLine)
    ensures '\n' !in t && '\n' !in line ==> '\n' !in r.text
  {
    if StartsWith(t, "# ") then StyledLine(Heading1Style, t[2..])
    else if StartsWith(t, "## ") then StyledLine(Heading2Style, t[3..])
    else if StartsWith(t, "### ") then StyledLine(Heading3Style, t[4..])
    else if StartsWith(t, "- ") || StartsWith(t, "* ") then StyledLine(Unstyled, "  • " + t[2..])
    else if StartsWith(t, "**") && EndsWith(t, "**") && Utf8Len(t) > 4 then
      DelimitedLength(t, "**");
      StyledLine(BoldStyle, t[2..|t| - 2])
    else if StartsWith(t, "*") && EndsWith(t, "*") && Utf8Len(t) > 2 then
      DelimitedLength(t, "*");
      StyledLine(ItalicStyle, t[1..|t| - 1])
    else if StartsWith(t, "`") && EndsWith(t, "`") && Utf8Len(t) > 2 then
      DelimitedLength(t, "`");
      StyledLine(CodeStyle, t[1..|t| - 1])
    else if StartsWith(t, "```") then StyledLine(DimStyle, "───")
    else if t == [] then StyledLine(Unstyled, "")
    else StyledLine(Unstyled, line)
  }

  /** A rendered line holds a line break only if its input line does. */
  lemma ClassifyLineNoBreak(line: string)
    requires '\n' !in line
    ensures '\n' !in ClassifyLine(line).text
  {
    var t := Trim(line);
    assert t == TrimEnd(TrimStart(line));
    assert '\n' !in t;
  }

  /** `render_simple_markdown`: one rendered line per line of the text, in order. */
  method RenderSimpleMarkdown(text: string) returns (result: seq<StyledLine>)
    ensures |result| == |Lines(text)|
    ensures forall i :: 0 <= i < |result| ==> result[i] == ClassifyLine(Lines(text)[i])
  {
    var lines := Lines(text);
    result := [];
    for i := 0 to |lines|
      invariant |result| == i
      invariant forall k :: 0 <= k < i ==> result[k] == ClassifyLine(lines[k])
    {
      result := result + [ClassifyLine(lines[i])];
    }
  }

  /** The rendered text: each line followed by "\n". */
  function RenderedText(result: seq<StyledLine>): string {
    if result == [] then "" else result[0].text + "\n" + RenderedText(result[1..])
  }

  function Texts(result: seq<StyledLine>): (r: seq<string>)
    ensures |r| == |result| && forall i :: 0 <= i < |result| ==> r[i] == result[i].text
  {
    seq(|result|, i requires 0 <= i < |result| => result[i].text)
  }

  lemma {:induction false} RenderedTextIsJoin(result: seq<StyledLine>)
    ensures RenderedText(result) == Join(Texts(result) + [""], "\n")
  {
    if result != [] {
      RenderedTextIsJoin(result[1..]);
      assert (Texts(result) + [""])[1..] == Texts(result[1..]) + [""];
    }
  }

  /** No line `str::lines` yields holds a line break. */
  lemma {:induction false} LinesHaveNoBreak(s: string)
    ensures forall k :: 0 <= k < |Lines(s)| ==> '\n' !in Lines(s)[k]
    decreases |s|
  {
    if s != [] {
      match IndexOf(s, '\n')
      case None =>
      case Some(i) =>
        LinesHaveNoBreak(s[i + 1..]);
        assert '\n' !in s[..i];
        assert Lines(s) == [StripCr(s[..i])] + Lines(s[i + 1..]);
    }
  }

  /** Splitting the rendered text at line breaks gives back exactly one line per input line,
      followed by the empty remainder after the final "\n". */
  lemma RenderedLinesPerInputLine(text: string, result: seq<StyledLine>)
    requires |result| == |Lines(text)|
    requires forall i :: 0 <= i < |result| ==> result[i] == ClassifyLine(Lines(text)[i])
    ensures Split(RenderedText(result), '\n') == Texts(result) + [""]
    ensures |Split(RenderedText(result), '\n')| == |Lines(text)| + 1
  {
    LinesHaveNoBreak(text);
    RenderedTextIsJoin(result);
    var xs := Texts(result) + [""];
    assert forall k :: 0 <= k < |xs| ==> '\n' !in xs[k] by {
      forall k | 0 <= k < |xs| ensures '\n' !in xs[k] {
        if k < |result| {
          assert xs[k] == ClassifyLine(Lines(text)[k]).text;
          ClassifyLineNoBreak(Lines(text)[k]);
        }
      }
    }
    SplitJoin(xs, '\n');
  }

  /** A level-one heading renders as its title in the level-one style (a bare "# " is not a
      heading: trimming leaves "#"). */
  lemma HeadingRendersTitle(title: string)
    requires title != [] && !IsWhitespace(title[|title| - 1])
    ensures ClassifyLine("# " + title) == StyledLine(Heading1Style, title)
  {
    var line := "# " + title;
    TrimNoEdges(line);
    assert line[2..] == title;
  }

  /** A level-two heading is not taken for a level-one heading ("## " does not start with "# "). */
  lemma SecondLevelHeading(title: string)
    requires title != [] && !IsWhitespace(title[|title| - 1])
    ensures ClassifyLine("## " + title) == StyledLine(Heading2Style, title)
  {
    var line := "## " + title;
    TrimNoEdges(line);
    assert line[1] != ' ';
    assert line[3..] == title;
  }

  /** A list item renders with a bullet in place of its marker. */
  lemma ListItemRendersBullet(item: string)
    requires item != [] && !IsWhitespace(item[|item| - 1])
    ensures ClassifyLine("- " + item) == StyledLine(Unstyled, "  • " + item)
  {
    var line := "- " + item;
    TrimNoEdges(line);
    assert line[2..] == item;
  }

  /** A fence line on its own is taken for inline code, because that test comes first: it
      renders as a single back-quote. */
  lemma FenceLineIsInlineCode()
    ensures ClassifyLine("```") == StyledLine(CodeStyle, "`")
  {
    TrimNoEdges("```");
    assert Utf8Len("```") == 3;
  }

  /** A line whose trimmed text starts with none of the marker characters is kept as it is,
      surrounding white space included. */
  lemma PlainLineKeptUntrimmed(line: string)
    requires Trim(line) != [] && Trim(line)[0] !in "#-*`"
    ensures ClassifyLine(line) == StyledLine(Unstyled, line)
  {
  }

  /** A white-space-only line renders as an empty line. */
  lemma BlankLineRendersEmpty(line: string)
    requires forall k :: 0 <= k < |line| ==> IsWhitespace(line[k])
    ensures ClassifyLine(line) == StyledLine(Unstyled, "")
  {
    TrimEmptyIff(line);
  }

  /** How the program asks for the reply. */
  datatype Interaction = OptionSelection(options: seq<string>) | CustomInput

  /** The branch of `execute_cli_interaction`: option selection when there are options. */
  function ChooseInteraction(options: Option<seq<string>>): (r: Interaction)
    ensures r.OptionSelection? <==> options.Some? && options.value != []
    ensures r.OptionSelection? ==> r.options == options.value
  {
    if options.Some? && options.value != [] then OptionSelection(options.value) else CustomInput
  }

  /** `execute_cli_interaction`, with the two interaction results as inputs: the chosen
      interaction's answer, or its error prefixed with "交互失败: ". */
  function ExecuteCliInteraction(options: Option<seq<string>>, selection: Result<string, string>,
                                 custom: Result<string, string>): (r: Result<string, string>)
    ensures var chosen := if ChooseInteraction(options).OptionSelection? then selection else custom;
      (chosen.Ok? ==> r == chosen) && (chosen.Err? ==> r == Err("交互失败: " + chosen.error))
  {
    var chosen := if options.Some? && options.value != [] then selection else custom;
    match chosen
    case Ok(answer) => Ok(answer)
    case Err(e) => Err("交互失败: " + e)
  }
}
