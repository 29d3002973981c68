/**
  Command-line helpers: the spinner, file-size and duration formatting, the colour switch,
  the boxed message layout, and the yes/no and free-text prompts. Terminal detection,
  environment variables and the line read from standard input are parameters.
*/
module CliHelpers {
  import opened Results
  import opened Strings

  /** Rust's `u64`. */
  type U64 = x: nat | x < 0x1_0000_0000_0000_0000

  /** The spinner frames. */
  const SpinnerChars: seq<char> := ['⠋', '⠙', '⠹', '⠸', '⠼', '⠴', '⠦', '⠧', '⠇', '⠏']

  /** A spinner that shows the next frame on every tick. */
  class ProgressIndicator {
    var message: string
    var currentChar: nat

    ghost predicate Valid()
      reads this
    {
      currentChar < |SpinnerChars|
    }

    /** `ProgressIndicator::new`: starts at the first frame. */
    constructor(message: string)
      ensures Valid()
      ensures this.message == message && currentChar == 0
    {
      this.message := message;
      currentChar := 0;
    }

    /** `tick`: when standard error is a terminal, writes the current frame and the message
        and moves to the next frame, wrapping after the last; otherwise does nothing. */
    method Tick(stderrIsTty: bool) returns (written: Option<string>)
      requires Valid()
      modifies this
      ensures Valid()
      ensures message == old(message)
      ensures stderrIsTty ==> currentChar == (old(currentChar) + 1) % |SpinnerChars|
      ensures stderrIsTty ==> written == Some("\r" + [SpinnerChars[old(currentChar)]] + " " + message)
      ensures !stderrIsTty ==> currentChar == old(currentChar) && written == None
    {
      if stderrIsTty {
        written := Some("\r" + [SpinnerChars[currentChar]] + " " + message);
        currentChar := (currentChar + 1) % |SpinnerChars|;
      } else {
        written := None;
      }
    }
  }

  /** The size units, smallest first. */
  const Units: seq<string> := ["B", "KB", "MB", "GB", "TB"]

  function Pow1024(k: nat): (r: nat)
    ensures r >= 1
  {
    if k == 0 then 1 else 1024 * Pow1024(k - 1)
  }

  /** The unit a byte count is shown in: the largest of B … TB whose size it reaches. */
  function UnitIndexFor(bytes: nat): (k: nat)
    ensures k < |Units|
    ensures bytes >= Pow1024(k)  || k == 0
    ensures k < |Units| - 1 ==> bytes < Pow1024(k + 1)
  {
    if bytes >= Pow1024(4) then 4
    else if bytes >= Pow1024(3) then 3
    else if bytes >= Pow1024(2) then 2
    else if bytes >= Pow1024(1) then 1
    else 0
  }

  /** A formatted size: the exact byte count, or a value to be written with one decimal
      followed by its unit. */
  datatype FileSizeText = Exact(text: string) | Scaled(value: real, unit: string)

  /** `format_file_size`: divides by 1024 while the size reaches 1024 and a larger unit is
      left. Below 1024 bytes the count is written exactly as "{bytes} B". */
  method FormatFileSize(bytes: U64) returns (r: FileSizeText)
    ensures UnitIndexFor(bytes) == 0 ==> r == Exact(NatToString(bytes) + " B")
    ensures UnitIndexFor(bytes) > 0 ==>
      r == Scaled((bytes as real) / (Pow1024(UnitIndexFor(bytes)) as real), Units[UnitIndexFor(bytes)])
    ensures bytes < 1024 <==> r.Exact?
  {
    var size: real := bytes as real;
    var unitIndex: nat := 0;
    while size >= 1024.0 && unitIndex < |Units| - 1
      invariant unitIndex < |Units|
      invariant size == (bytes as real) / (Pow1024(unitIndex) as real)
      invariant unitIndex == 0 || bytes >= Pow1024(unitIndex)
      decreases |Units| - unitIndex
    {
      ScaleStep(bytes, unitIndex);
      size := size / 1024.0;
      unitIndex := unitIndex + 1;
    }
    LoopExitUnit(bytes, unitIndex, size);
    if unitIndex == 0 {
      r := Exact(NatToString(bytes) + " B");
    } else {
      r := Scaled(size, Units[unitIndex]);
    }
  }

  /** One division step keeps `size` equal to bytes over the current power of 1024. */
  lemma ScaleStep(bytes: nat, k: nat)
    ensures (bytes as real) / (Pow1024(k) as real) / 1024.0 == (bytes as real) / (Pow1024(k + 1) as real)
  {
    assert Pow1024(k + 1) as real == (Pow1024(k) as real) * 1024.0;
  }

  /** Where the loop stops is the unit `UnitIndexFor` names. */
  lemma LoopExitUnit(bytes: nat, k: nat, size: real)
    requires k < |Units| && (k == 0 || bytes >= Pow1024(k))
    requires size == (bytes as real) / (Pow1024(k) as real)
    requires !(size >= 1024.0 && k < |Units| - 1)
    ensures k == UnitIndexFor(bytes)
  {
    if k < |Units| - 1 {
      assert size < 1024.0;
      assert Pow1024(k + 1) as real == (Pow1024(k) as real) * 1024.0;
      assert (bytes as real) < 1024.0 * (Pow1024(k) as real);
    }
  }

  /** `format_duration` of `secs` whole seconds and `millis` further milliseconds:
      hours, minutes and seconds when there are hours; minutes and seconds when there are
      minutes; seconds with one tenth digit when there are seconds; otherwise milliseconds. */
  function FormatDuration(secs: U64, millis: nat): (r: string)
    requires millis < 1000
  {
    var hours := secs / 3600;
    var minutes := (secs % 3600) / 60;
    var seconds := secs % 60;
    if hours > 0 then NatToString(hours) + "h " + NatToString(minutes) + "m " + NatToString(seconds) + "s"
    else if minutes > 0 then NatToString(minutes) + "m " + NatToString(seconds) + "s"
    else if seconds > 0 then NatToString(seconds) + "." + NatToString(millis / 100) + "s"
    else NatToString(millis) + "ms"
  }

  /** The hours, minutes and seconds split the total exactly, with minutes and seconds
      below 60, and the case chosen follows the largest non-zero part. */
  lemma FormatDurationParts(secs: U64, millis: nat)
    requires millis < 1000
    ensures (secs / 3600) * 3600 + ((secs % 3600) / 60) * 60 + secs % 60 == secs
    ensures (secs % 3600) / 60 < 60 && secs % 60 < 60
    ensures secs >= 3600 ==> (FormatDuration(secs, millis) ==
      NatToString(secs / 3600) + "h " + NatToString((secs % 3600) / 60) + "m " + NatToString(secs % 60) + "s")
    ensures 60 <= secs < 3600 ==>
      FormatDuration(secs, millis) == NatToString(secs / 60) + "m " + NatToString(secs % 60) + "s"
    ensures 0 < secs < 60 ==>
      FormatDuration(secs, millis) == NatToString(secs) + "." + NatToString(millis / 100) + "s" && millis / 100 < 10
    ensures secs == 0 ==> FormatDuration(secs, millis) == NatToString(millis) + "ms"
  {
    if secs < 3600 {
      assert secs / 3600 == 0 && secs % 3600 == secs;
      if secs < 60 {
        assert secs / 60 == 0 && secs % 60 == secs;
      } else {
        assert secs / 60 > 0;
      }
    }
  }

  /** The durations the module's tests format. */
  lemma FormatDurationExamples()
    ensures FormatDuration(0, 500) == "500ms"
    ensures FormatDuration(1, 0) == "1.0s"
    ensures FormatDuration(65, 0) == "1m 5s"
    ensures FormatDuration(3665, 0) == "1h 1m 5s"
  {
    assert NatToString(500) == "500" by {
      assert NatToString(5) == "5";
      assert NatToString(50) == NatToString(5) + "0";
    }
    assert NatToString(1) == "1" && NatToString(0) == "0" && NatToString(5) == "5";
    assert 65 / 3600 == 0 && (65 % 3600) / 60 == 1 && 65 % 60 == 5;
    assert 3665 / 3600 == 1 && (3665 % 3600) / 60 == 1 && 3665 % 60 == 5;
  }

  /** The CI markers: one of these variables is set. */
  predicate IsCiEnvironment(env: map<string, string>) {
    "CI" in env || "GITHUB_ACTIONS" in env || "GITLAB_CI" in env || "JENKINS_URL" in env
  }

  /** `supports_color`: standard error is a terminal, NO_COLOR is unset and not on CI. */
  predicate SupportsColor(stderrIsTty: bool, env: map<string, string>) {
    stderrIsTty && "NO_COLOR" !in env && !IsCiEnvironment(env)
  }

  /** The escape sequence that ends a colour. */
  const Reset: string := "\U{1b}[0m"

  /** `colorize`, with `supported` for `supports_color()`. */
  function Colorize(text: string, color: string, supported: bool): (r: string)
    ensures !supported ==> r == text
    ensures supported ==> StartsWith(r, color) && EndsWith(r, Reset)
  {
    if supported then color + text + Reset else text
  }

  /** The coloured text is the original text between the colour and the reset. */
  lemma ColorizeStrips(text: string, color: string)
    ensures Colorize(text, color, true)[|color|..|color| + |text|] == text
    ensures |Colorize(text, color, true)| == |color| + |text| + |Reset|
  {
  }

  /** Colour is never added under NO_COLOR or on CI. */
  lemma NoColorMeansPlain(text: string, color: string, stderrIsTty: bool, env: map<string, string>)
    requires "NO_COLOR" in env || IsCiEnvironment(env)
    ensures Colorize(text, color, SupportsColor(stderrIsTty, env)) == text
  {
  }

  /** The largest byte length of the lines, at least `floor`. */
  function MaxWidth(lines: seq<string>, floor: nat): (w: nat)
    ensures w >= floor
    ensures forall k :: 0 <= k < |lines| ==> Utf8Len(lines[k]) <= w
    ensures w == floor || exists k :: 0 <= k < |lines| && Utf8Len(lines[k]) == w
  {
    if lines == [] then floor
    else
      var rest := MaxWidth(lines[1..], floor);
      if Utf8Len(lines[0]) > rest then Utf8Len(lines[0]) else rest
  }

  /** A text padded with spaces to `width` bytes. */
  function PadTo(text: string, width: nat): string
    requires Utf8Len(text) <= width
  {
    text + Repeat(" ", width - Utf8Len(text))
  }

  /** A box row: the bars around the text padded to `width`. */
  function BoxRow(text: string, width: nat): string
    requires Utf8Len(text) <= width
  {
    "│ " + PadTo(text, width) + " │"
  }

  /** The rule between the corners: `width + 2` horizontal bars. */
  function Border(left: string, width: nat, right: string): string {
    left + Repeat("─", width + 2) + right
  }

  /** The lines `print_boxed_message` writes: top border, title row, and when the message
      is not empty a separator and one row per message line, then the bottom border. The
      width is the byte length of the longest message line or of the title. */
  ghost function BoxLayout(title: string, message: string): seq<string> {
    var lines := Lines(message);
    var width := MaxWidth(lines, Utf8Len(title));
    [Border("┌", width, "┐"), BoxRow(title, width)]
    + (if message != "" then [Border("├", width, "┤")]
         + seq(|lines|, k requires 0 <= k < |lines| => BoxRow(lines[k], width))
       else [])
    + [Border("└", width, "┘")]
  }

  /** `print_boxed_message`: the loop over the message lines, with the printed lines as
      the result. */
  method PrintBoxedMessage(title: string, message: string) returns (printed: seq<string>)
    ensures printed == BoxLayout(title, message)
  {
    var lines := Lines(message);
    var width := MaxWidth(lines, Utf8Len(title));
    printed := [Border("┌", width, "┐"), BoxRow(title, width)];
    if message != "" {
      printed := printed + [Border("├", width, "┤")];
      var rows: seq<string> := [];
      for i := 0 to |lines|
        invariant rows == seq(i, k requires 0 <= k < i => BoxRow(lines[k], width))
      {
        rows := rows + [BoxRow(lines[i], width)];
      }
      printed := printed + rows;
    }
    printed := printed + [Border("└", width, "┘")];
  }

  lemma {:induction false} Utf8LenSpaces(n: nat)
    ensures Utf8Len(Repeat(" ", n)) == n
  {
    Utf8LenAscii(Repeat(" ", n));
  }

  /** Every padded text is exactly `width` bytes long, so all rows of a box line up. */
  lemma PadToWidth(text: string, width: nat)
    requires Utf8Len(text) <= width
    ensures Utf8Len(PadTo(text, width)) == width
  {
    Utf8LenAppend(text, Repeat(" ", width - Utf8Len(text)));
    Utf8LenSpaces(width - Utf8Len(text));
  }

  /** In a box, the title row and every message row have the same byte length, the
      width plus the four bytes of bar and space at each side. */
  lemma BoxRowsAligned(title: string, message: string)
    ensures var layout := BoxLayout(title, message);
      var width := MaxWidth(Lines(message), Utf8Len(title));
      forall k :: 1 <= k < |layout| - 1 && k != 2 ==> Utf8Len(layout[k]) == width + 8
  {
    var lines := Lines(message);
    var width := MaxWidth(lines, Utf8Len(title));
    var layout := BoxLayout(title, message);
    forall k | 1 <= k < |layout| - 1 && k != 2 ensures Utf8Len(layout[k]) == width + 8 {
      var text := BoxLayoutRowAt(title, message, k);
      RowLength(text, width);
    }
  }

  /** The text shown in row `k` of a box: the title in row 1, message line `k - 3` below the
      separator. */
  lemma BoxLayoutRowAt(title: string, message: string, k: nat) returns (text: string)
    requires 1 <= k < |BoxLayout(title, message)| - 1 && k != 2
    ensures Utf8Len(text) <= MaxWidth(Lines(message), Utf8Len(title))
    ensures BoxLayout(title, message)[k] == BoxRow(text, MaxWidth(Lines(message), Utf8Len(title)))
  {
    var lines := Lines(message);
    var width := MaxWidth(lines, Utf8Len(title));
    var head := [Border("┌", width, "┐"), BoxRow(title, width)];
    var last := [Border("└", width, "┘")];
    if k == 1 {
      text := title;
      assert BoxLayout(title, message)[k] == head[1];
    } else {
      var rows := seq(|lines|, j requires 0 <= j < |lines| => BoxRow(lines[j], width));
      assert message != "";
      assert BoxLayout(title, message) == head + ([Border("├", width, "┤")] + rows) + last;
      text := lines[k - 3];
      assert BoxLayout(title, message)[k] == rows[k - 3];
    }
  }

  lemma RowLength(text: string, width: nat)
    requires Utf8Len(text) <= width
    ensures Utf8Len(BoxRow(text, width)) == width + 8
  {
    PadToWidth(text, width);
    Utf8LenAppend("│ ", PadTo(text, width));
    Utf8LenAppend("│ " + PadTo(text, width), " │");
    assert Utf8Len("│ ") == 4;
    assert Utf8Len(" │") == 4;
  }

  /** The prompt `confirm` writes: the question and the default's capitalised letter. */
  function ConfirmPrompt(message: string, default: bool): (r: string)
    ensures StartsWith(r, message + " [") && EndsWith(r, "]: ") && |r| == |message| + 8
    ensures r[|message| + 2] == 'Y' <==> default
    ensures r[|message| + 4] == 'N' <==> !default
  {
    message + " " + (if default then "[Y/n]" else "[y/N]") + ": "
  }

  /** A yes answer, ignoring case and surrounding white space. */
  predicate IsYes(answer: string) {
    Lower(Trim(answer)) == "y" || Lower(Trim(answer)) == "yes"
  }

  /** A no answer, ignoring case and surrounding white space. */
  predicate IsNo(answer: string) {
    Lower(Trim(answer)) == "n" || Lower(Trim(answer)) == "no"
  }

  /** `confirm`: `line` is what standard input gave, `None` for a read error. */
  function Confirm(line: Option<string>, default: bool): (r: bool)
    ensures line.Some? && IsYes(line.value) ==> r
    ensures line.Some? && IsNo(line.value) ==> !r
    ensures !(line.Some? && (IsYes(line.value) || IsNo(line.value))) ==> r == default
  {
    match line
    case None => default
    case Some(s) =>
      var answer := Lower(Trim(s));
      if answer == "y" || answer == "yes" then true
      else if answer == "n" || answer == "no" then false
      else default
  }

  /** The answer differs from the default only on an explicit yes or no. */
  lemma ConfirmOverridesOnlyExplicitly(line: Option<string>, default: bool)
    ensures Confirm(line, default) != default ==>
      line.Some? && (if default then IsNo(line.value) else IsYes(line.value))
  {
  }

  /** `prompt`: the trimmed line, or `None` on a read error or blank line. */
  function Prompt(line: Option<string>): (r: Option<string>)
    ensures r.None? <==> line.None? || Trim(line.value) == ""
    ensures r.Some? ==> r.value == Trim(line.value)
  {
    match line
    case None => None
    case Some(s) => if Trim(s) == "" then None else Some(Trim(s))
  }

  /** A prompted answer is never blank and has no white space at either end. */
  lemma PromptAnswerTrimmed(line: Option<string>)
    requires Prompt(line).Some?
    ensures var a := Prompt(line).value;
      a != "" && !IsWhitespace(a[0]) && !IsWhitespace(a[|a| - 1])
  {
    TrimEdges(line.value);
  }
}
