/** What a reply of the model stands for and when it is rejected, told from its text
    (validate_repair_output and normalize_repair_output in src/agentic_dev/local_repair_loop.py). */
module RepairReplies {
  import opened Common
  import opened Strings
  import opened RepairModel

  // ---------------------------------------------------------------- lines

  /** Where `str.splitlines` breaks a line. */
  lemma LineBreaksAre(c: char)
    ensures IsLineBreak(c) <==>
            c in ['\n', '\r', '\U{0B}', '\U{0C}', '\U{1C}', '\U{1D}', '\U{1E}', '\U{85}', '\U{2028}', '\U{2029}']
  {
  }

  ghost predicate OneLine(s: string) {
    forall i | 0 <= i < |s| :: !IsLineBreak(s[i])
  }

  /** The only line breaks of the text are "\n". */
  ghost predicate PlainBreaks(s: string) {
    forall i | 0 <= i < |s| :: IsLineBreak(s[i]) ==> s[i] == '\n'
  }

  lemma {:induction false} FirstBreakAfter(line: string, rest: string)
    requires OneLine(line) && (rest == "" || IsLineBreak(rest[0]))
    ensures FirstBreak(line + rest) == |line|
  {
    if line == "" {
      assert line + rest == rest;
    } else {
      FirstBreakAfter(line[1..], rest);
      assert (line + rest)[1..] == line[1..] + rest;
    }
  }

  lemma LastLine(line: string)
    requires OneLine(line) && line != ""
    ensures SplitLines(line) == [line]
  {
    FirstBreakAfter(line, "");
    assert line + "" == line;
  }

  /** Splitting takes the text up to the first break, which is one character or "\r\n". */
  lemma {:induction false} FirstLine(line: string, break_: string, rest: string)
    requires OneLine(line)
    requires || break_ == ['\r', '\n']
             || (|break_| == 1 && IsLineBreak(break_[0]) && !(break_ == ['\r'] && rest != "" && rest[0] == '\n'))
    ensures SplitLines(line + break_ + rest) == [line] + SplitLines(rest)
  {
    var s := line + break_ + rest;
    assert s == line + (break_ + rest);
    FirstBreakAfter(line, break_ + rest);
    assert s[..|line|] == line && s[|line| + |break_|..] == rest;
  }

  /** A text before a last line splits into lines that join to it again. */
  lemma {:induction false} SplitBeforeLast(text: string, last: string) returns (lines: seq<string>)
    requires PlainBreaks(text) && OneLine(last) && last != ""
    ensures SplitLines(text + "\n" + last) == lines + [last]
    ensures lines != [] && JoinLines(lines) == text
    decreases |text|
  {
    hide SplitLines;
    var k := FirstBreak(text);
    if k == |text| {
      NoBreakBefore(text);
      FirstLine(text, "\n", last);
      LastLine(last);
      lines := [text];
    } else {
      NoBreakBefore(text);
      var line, after := text[..k], text[k + 1..];
      assert text == line + "\n" + after;
      assert text + "\n" + last == line + "\n" + (after + "\n" + last);
      FirstLine(line, "\n", after + "\n" + last);
      var rest := SplitBeforeLast(after, last);
      lines := [line] + rest;
      assert lines[1..] == rest;
    }
  }

  lemma {:induction false} NoBreakBefore(s: string)
    ensures OneLine(s[..FirstBreak(s)])
  {
    if s != "" && !IsLineBreak(s[0]) {
      NoBreakBefore(s[1..]);
      assert s[..FirstBreak(s)] == [s[0]] + s[1..][..FirstBreak(s[1..])];
    }
  }

  // ---------------------------------------------------------------- the file a reply stands for

  predicate IsFence(t: string) {
    StartsWith(t, "```") || StartsWith(t, "~~~")
  }

  lemma EmptyIsNoFence()
    ensures !StartsWith("", "```") && !StartsWith("", "~~~")
  {
  }

  /** The lines between the opening and the closing fence. */
  ghost predicate FenceBody(t: string, body: seq<string>) {
    exists opening, closing :: SplitLines(t) == [opening] + body + [closing]
                               && StartsWith(Strip(opening), "```") && Strip(closing) == "```"
  }

  /** A reply stands for its own text, or outside strict mode for the body of its one outer fence. */
  ghost predicate Carries(text: string, strict: bool, output: string) {
    if IsFence(Strip(text))
    then !strict && exists body :: FenceBody(Strip(text), body) && output == Strip(JoinLines(body))
    else output == Strip(text)
  }

  ghost predicate HoldsAll(output: string, required: seq<string>) {
    forall k | 0 <= k < |required| :: Embeds(output, required[k])
  }

  lemma HoldsAllIs(output: string, required: seq<string>)
    ensures HoldsAll(output, required) <==> forall k | 0 <= k < |required| :: Contains(output, required[k])
  {
    hide Contains, Embeds;
    forall k | 0 <= k < |required| ensures Contains(output, required[k]) <==> Embeds(output, required[k]) {
      ContainsExactly(output, required[k]);
    }
  }

  lemma FenceBodyIs(t: string, body: seq<string>)
    ensures FenceBody(t, body) <==>
            var lines := SplitLines(t);
            && |lines| >= 2 && StartsWith(Strip(lines[0]), "```") && Strip(lines[|lines| - 1]) == "```"
            && body == lines[1..|lines| - 1]
  {
    hide SplitLines, Strip, StartsWith;
    var lines := SplitLines(t);
    if |lines| >= 2 && body == lines[1..|lines| - 1] {
      assert lines == [lines[0]] + body + [lines[|lines| - 1]];
    }
  }

  /** Normalisation gives the one output a stripped reply stands for, if there is one. */
  lemma NormalizeGives(text: string, strict: bool, output: string)
    requires !(strict && IsFence(Strip(text)))
    ensures NormalizeOutput(Strip(text), !strict) == Some(output) <==> Carries(text, strict, output)
  {
    hide SplitLines, Strip, StartsWith, JoinLines, FenceBody;
    StripIsIdempotent(text);
    var t := Strip(text);
    var lines := SplitLines(t);
    if IsFence(t) {
      forall body { FenceBodyIs(t, body); }
      if |lines| >= 2 { FenceBodyIs(t, lines[1..|lines| - 1]); }
    }
  }

  /** A reply is accepted exactly as the non-empty file it stands for, when that holds every required API
      string and names no disallowed domain. */
  lemma {:induction false} AcceptedAs(text: string, required: seq<string>, strict: bool, banned: string -> bool, output: string)
    ensures Validate(text, required, strict, banned) == Accepted(output) <==>
            Carries(text, strict, output) && output != "" && HoldsAll(output, required) && !banned(output)
  {
    hide Contains, Strip, StartsWith, HoldsAll, FenceBody, NormalizeOutput, JoinLines;
    EmptyIsNoFence();
    StripIsIdempotent(text);
    HoldsAllIs(output, required);
    if !(strict && IsFence(Strip(text))) { NormalizeGives(text, strict, output); }
    if Carries(text, strict, output) { CarriedIsStripped(text, strict, output); }
  }

  lemma CarriedIsStripped(text: string, strict: bool, output: string)
    requires Carries(text, strict, output)
    ensures Strip(output) == output
  {
    hide Strip, SplitLines, JoinLines, StartsWith, FenceBody;
    StripIsIdempotent(text);
    if IsFence(Strip(text)) {
      var body :| FenceBody(Strip(text), body) && output == Strip(JoinLines(body));
      StripIsIdempotent(JoinLines(body));
    }
  }

  /** The table of rejections. */
  ghost predicate RejectedAs(text: string, required: seq<string>, strict: bool, banned: string -> bool, kind: Kind) {
    match kind
    case EmptyLocalOutput => Carries(text, strict, "")
    case MarkdownFenceInStrictPython => strict && IsFence(Strip(text))
    case MalformedOutput => !strict && IsFence(Strip(text)) && forall body :: !FenceBody(Strip(text), body)
    case MissingRequiredApi => exists output :: Carries(text, strict, output) && output != "" && !HoldsAll(output, required)
    case WrongDomain =>
      exists output :: Carries(text, strict, output) && output != "" && HoldsAll(output, required) && banned(output)
    case _ => false
  }

  /** A reply stands for at most one file, and for none exactly when its fence is not allowed or not whole. */
  lemma {:induction false} CarriesAtMostOne(text: string, strict: bool, a: string, b: string)
    requires Carries(text, strict, a) && Carries(text, strict, b)
    ensures a == b
  {
    hide Strip, SplitLines, JoinLines, StartsWith, FenceBody;
    if IsFence(Strip(text)) {
      NormalizeGives(text, strict, a);
      NormalizeGives(text, strict, b);
    }
  }

  /** A reply is rejected, always as the developer's to repair, exactly as the table says. */
  lemma {:induction false} RejectedExactly(text: string, required: seq<string>, strict: bool, banned: string -> bool,
                                           failure: Classification)
    ensures Validate(text, required, strict, banned) == Rejected(failure) <==>
            failure.owner == Developer && RejectedAs(text, required, strict, banned, failure.kind)
  {
    hide Contains, Strip, StartsWith, HoldsAll, FenceBody, NormalizeOutput, JoinLines, Carries;
    EmptyIsNoFence();
    StripIsIdempotent(text);
    StrippedNothing(text, strict);
    if !(strict && IsFence(Strip(text))) {
      match NormalizeOutput(Strip(text), !strict)
      case Some(output) =>
        NormalizeGives(text, strict, output);
        CarriedIsStripped(text, strict, output);
        HoldsAllIs(output, required);
        forall other | Carries(text, strict, other) ensures other == output { CarriesAtMostOne(text, strict, output, other); }
        NoneIsMalformed(text, strict);
      case None =>
        forall other ensures !Carries(text, strict, other) { NormalizeGives(text, strict, other); }
        NoneIsMalformed(text, strict);
    }
  }

  lemma StrippedNothing(text: string, strict: bool)
    ensures Strip(text) == "" ==> Carries(text, strict, "")
    ensures strict && IsFence(Strip(text)) ==> forall output :: !Carries(text, strict, output)
    ensures strict && IsFence(Strip(text)) ==> Strip(text) != ""
  {
    hide Strip, StartsWith, FenceBody;
    EmptyIsNoFence();
  }

  lemma NoneIsMalformed(text: string, strict: bool)
    requires !(strict && IsFence(Strip(text)))
    ensures NormalizeOutput(Strip(text), !strict).None? <==>
            !strict && IsFence(Strip(text)) && forall body :: !FenceBody(Strip(text), body)
  {
    hide SplitLines, Strip, StartsWith, JoinLines, FenceBody;
    StripIsIdempotent(text);
    var t := Strip(text);
    var lines := SplitLines(t);
    forall body { FenceBodyIs(t, body); }
    if |lines| >= 2 { FenceBodyIs(t, lines[1..|lines| - 1]); }
  }

  /** A text that begins with a fence and ends with one is stripped already. */
  lemma FenceToFence(opening: string, middle: string, fence: string)
    requires fence == "```" && StartsWith(opening, fence)
    ensures Strip(opening + middle + fence) == opening + middle + fence && StartsWith(opening + middle + fence, fence)
    ensures Strip(fence) == fence && OneLine(fence) && fence != ""
  {
    hide Strip;
    var text := opening + middle + fence;
    assert fence[0] == '`' && fence[|fence| - 1] == '`' && !IsSpace('`') && !IsLineBreak('`');
    assert text[0] == fence[0] && text[|text| - 1] == fence[|fence| - 1];
    StripKeeps(text);
    StripKeeps(fence);
  }

  /** Outside strict mode a reply fenced as a whole stands for the text between its fences, character for
      character but for the white space at both ends. */
  lemma {:induction false} FencedReplyIsItsBody(opening: string, body: string, fence: string)
    requires fence == "```" && OneLine(opening) && StartsWith(opening, fence) && !IsSpace(opening[|opening| - 1])
    requires PlainBreaks(body)
    ensures Carries(opening + "\n" + body + "\n" + fence, false, Strip(body))
  {
    hide SplitLines, JoinLines, Strip, IsSpace, IsLineBreak, OneLine, PlainBreaks, StartsWith;
    var text := opening + "\n" + body + "\n" + fence;
    assert text == opening + ("\n" + body + "\n") + fence;
    FenceToFence(opening, "\n" + body + "\n", fence);
    FenceIsStripped(opening, fence);
    var lines := SplitFenced(opening, body, fence);
    assert FenceBody(text, lines);
  }

  lemma FenceIsStripped(opening: string, fence: string)
    requires fence == "```" && StartsWith(opening, fence) && !IsSpace(opening[|opening| - 1])
    ensures Strip(opening) == opening
  {
    hide Strip;
    assert opening[0] == fence[0];
    StripKeeps(opening);
  }

  lemma SplitFenced(opening: string, body: string, fence: string) returns (lines: seq<string>)
    requires OneLine(opening) && PlainBreaks(body) && OneLine(fence) && fence != ""
    ensures SplitLines(opening + "\n" + body + "\n" + fence) == [opening] + lines + [fence] && JoinLines(lines) == body
  {
    hide SplitLines, JoinLines, OneLine, PlainBreaks;
    lines := SplitBeforeLast(body, fence);
    assert opening + "\n" + body + "\n" + fence == opening + "\n" + (body + "\n" + fence);
    FirstLine(opening, "\n", body + "\n" + fence);
  }
}
