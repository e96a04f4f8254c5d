/** The icon prompt file parser: a line-by-line state machine over a
    Markdown document whose "## N. Section" headers name a section, whose
    "### Item" headers name an icon, and whose fenced blocks hold the
    prompt text for the icon named last. */
module IconPrompts {
  import opened GameTypes
  import opened IconText
  import opened IconFiles

  const FENCE: string := "```"
  const DEFAULT_DIMENSIONS: string := "32x32"

  /** One icon to generate. */
  datatype IconPrompt = IconPrompt(category: string, name: string, prompt: string, outputPath: string, dimensions: string)

  // ---- Header lines ----

  /** The end of the run of ASCII digits that starts at `k`. */
  function DigitRunEnd(s: string, k: nat): (n: nat)
    requires k <= |s|
    ensures k <= n <= |s|
    decreases |s| - k
  {
    if k < |s| && IsDigit(s[k]) then DigitRunEnd(s, k + 1) else k
  }

  /** The run is all digits and is followed by a non-digit or the end. */
  lemma {:induction false} DigitRunEndMeaning(s: string, k: nat)
    requires k <= |s|
    ensures forall i :: k <= i < DigitRunEnd(s, k) ==> IsDigit(s[i])
    ensures DigitRunEnd(s, k) < |s| ==> !IsDigit(s[DigitRunEnd(s, k)])
    decreases |s| - k
  {
    if k < |s| && IsDigit(s[k]) {
      DigitRunEndMeaning(s, k + 1);
    }
  }

  predicate NoLineTerminator(s: string)
  {
    forall i :: 0 <= i < |s| ==> !IsLineTerminator(s[i])
  }

  /** The text `^## \d+\.\s+(.+)$` captures, if the line matches. The digits
      and the white space are taken greedily; when nothing follows the white
      space, the capture is its last character, which needs a run of two. */
  function CategoryCapture(line: string): Option<string>
  {
    if |line| < 3 || line[..3] != "## " then None
    else
      var d := DigitRunEnd(line, 3);
      if d == 3 || d == |line| || line[d] != '.' then None
      else
        var w := SpaceRunEnd(line, d + 1);
        if w == d + 1 then None
        else if w < |line| then (if NoLineTerminator(line[w..]) then Some(line[w..]) else None)
        else if w >= d + 3 && !IsLineTerminator(line[w - 1]) then Some(line[w - 1..])
        else None
  }

  /** The text `^### (.+)$` captures, if the line matches. */
  function ItemCapture(line: string): Option<string>
  {
    if |line| >= 5 && line[..4] == "### " && NoLineTerminator(line[4..]) then Some(line[4..])
    else None
  }

  /** A captured header, trimmed and without a trailing "(...)" remark. */
  function HeaderName(capture: string): string
  {
    StripParenSuffix(Trim(capture))
  }

  /** "## N. Title" yields the title when it starts with a character that
      is not white space. */
  lemma SectionHeaderCaptured(n: string, title: string)
    requires |n| > 0 && forall i :: 0 <= i < |n| ==> IsDigit(n[i])
    requires |title| > 0 && !IsSpace(title[0]) && NoLineTerminator(title)
    ensures CategoryCapture("## " + n + ". " + title) == Some(title)
  {
    var line := ("## " + n) + (". " + title);
    assert "## " + n + ". " + title == line;
    var d := 3 + |n|;
    assert line[..3] == "## ";
    assert forall i :: 3 <= i < d ==> line[i] == n[i - 3];
    assert line[d] == '.' && line[d + 1] == ' ' && line[d + 2] == title[0];
    DigitRunEndUnique(line, 3, d);
    SpaceRunEndUnique(line, d + 1, d + 2);
    assert line[d + 2..] == title;
  }

  /** "### Title" yields the title. */
  lemma ItemHeaderCaptured(title: string)
    requires |title| > 0 && NoLineTerminator(title)
    ensures ItemCapture("### " + title) == Some(title)
  {
    var line := "### " + title;
    assert line[..4] == "### ";
    assert line[4..] == title;
  }

  /** A header line that ends in a carriage return (a file saved with
      "\r\n" line ends) is not a header: `.` does not match "\r" and `$`
      needs the end of the line. */
  lemma CarriageReturnHidesHeaders(line: string)
    requires |line| > 0 && line[|line| - 1] == '\r'
    ensures CategoryCapture(line).None? && ItemCapture(line).None?
  {
    if |line| >= 5 && line[..4] == "### " {
      assert line[4..][|line| - 5] == '\r';
    }
    if |line| >= 3 && line[..3] == "## " {
      var d := DigitRunEnd(line, 3);
      if d != 3 && d != |line| && line[d] == '.' {
        var w := SpaceRunEnd(line, d + 1);
        if w < |line| {
          assert line[w..][|line| - 1 - w] == '\r';
        }
      }
    }
  }

  /** A line that opens or closes a code block. */
  predicate IsFence(line: string)
  {
    Trim(line) == FENCE
  }

  // ---- Dimensions ----

  /** A start and end position in a string. */
  datatype Span = Span(start: nat, end: nat)

  /** Where the capture of `(\d+x\d+)\s*pixels?` (case-insensitive) ends when
      the match starts at `p`. Each run is taken whole: giving back a digit
      or a white-space character leaves a character the next part cannot
      match. The optional "s" never decides whether there is a match. */
  function DimCaptureEnd(s: string, p: nat): Option<nat>
    requires p <= |s|
  {
    var q := DigitRunEnd(s, p);
    if q == p || q == |s| || LowerChar(s[q]) != 'x' then None
    else
      var r := DigitRunEnd(s, q + 1);
      if r == q + 1 then None
      else
        if PixelAt(s, SpaceRunEnd(s, r)) then Some(r) else None
  }

  /** "pixel" in any mix of ASCII case starts at `t`. */
  predicate PixelAt(s: string, t: nat)
  {
    t + 5 <= |s| && LowerChar(s[t]) == 'p' && LowerChar(s[t + 1]) == 'i' && LowerChar(s[t + 2]) == 'x'
    && LowerChar(s[t + 3]) == 'e' && LowerChar(s[t + 4]) == 'l'
  }

  /** The leftmost match from position `i` on. */
  function FirstDimMatch(s: string, i: nat): (r: Option<Span>)
    requires i <= |s|
    ensures r.Some? ==> i <= r.value.start < r.value.end <= |s|
                        && DimCaptureEnd(s, r.value.start) == Some(r.value.end)
    ensures r.Some? ==> forall k :: i <= k < r.value.start ==> DimCaptureEnd(s, k).None?
    ensures r.None? ==> forall k :: i <= k <= |s| ==> DimCaptureEnd(s, k).None?
    decreases |s| - i
  {
    match DimCaptureEnd(s, i)
    case Some(e) => Some(Span(i, e))
    case None => if i == |s| then None else FirstDimMatch(s, i + 1)
  }

  /** The dimensions a prompt states, "32x32" when it states none. */
  function Dimensions(prompt: string): string
  {
    match FirstDimMatch(prompt, 0)
    case Some(m) => prompt[m.start..m.end]
    case None => DEFAULT_DIMENSIONS
  }

  /** Text of the form digits, "x" or "X", digits. */
  predicate DimensionText(d: string)
  {
    var q := DigitRunEnd(d, 0);
    0 < q < |d| - 1 && LowerChar(d[q]) == 'x' && DigitRunEnd(d, q + 1) == |d|
  }

  lemma {:induction false} DigitRunEndUnique(s: string, k: nat, n: nat)
    requires k <= n <= |s|
    requires forall i :: k <= i < n ==> IsDigit(s[i])
    requires n < |s| ==> !IsDigit(s[n])
    ensures DigitRunEnd(s, k) == n
    decreases n - k
  {
    if k < n {
      DigitRunEndUnique(s, k + 1, n);
    }
  }

  /** The pieces of a match at `p`: digits up to an "x" or "X", then
      digits up to the end of the capture. */
  lemma DimCaptureParts(s: string, p: nat)
    requires p <= |s| && DimCaptureEnd(s, p).Some?
    ensures var q := DigitRunEnd(s, p);
            p < q < |s| && LowerChar(s[q]) == 'x' && q + 1 < DimCaptureEnd(s, p).value == DigitRunEnd(s, q + 1)
  {
  }

  /** The digit run of a piece of `s` is the digit run of `s`, cut off
      where the piece ends. */
  lemma DigitRunOfSlice(s: string, p: nat, r: nat, k: nat)
    requires p <= k <= r <= |s| && DigitRunEnd(s, k) <= r
    requires DigitRunEnd(s, k) == r || r == |s| || DigitRunEnd(s, k) < r
    ensures DigitRunEnd(s[p..r], k - p) == DigitRunEnd(s, k) - p
  {
    var d := s[p..r];
    var n := DigitRunEnd(s, k);
    DigitRunEndMeaning(s, k);
    assert forall i :: k - p <= i < n - p ==> d[i] == s[p + i];
    if n - p < |d| {
      assert d[n - p] == s[n];
    }
    DigitRunEndUnique(d, k - p, n - p);
  }

  /** The text a match captures is digits, "x" or "X", digits. */
  lemma MatchIsDimensionText(s: string, p: nat)
    requires p <= |s| && DimCaptureEnd(s, p).Some?
    ensures DimensionText(s[p..DimCaptureEnd(s, p).value])
  {
    var r := DimCaptureEnd(s, p).value;
    DimCaptureParts(s, p);
    var q := DigitRunEnd(s, p);
    DigitRunOfSlice(s, p, r, p);
    DigitRunOfSlice(s, p, r, q + 1);
    assert s[p..r][q - p] == s[q];
  }

  /** The dimensions are the default when nothing matches, and otherwise
      text of the form digits, "x" or "X", digits. */
  lemma DimensionsMeaning(prompt: string)
    ensures FirstDimMatch(prompt, 0).None? ==> Dimensions(prompt) == DEFAULT_DIMENSIONS
    ensures Dimensions(prompt) == DEFAULT_DIMENSIONS || DimensionText(Dimensions(prompt))
  {
    var m := FirstDimMatch(prompt, 0);
    if m.Some? {
      MatchIsDimensionText(prompt, m.value.start);
    }
  }

  /** A match at `p` with none before it gives the dimensions. */
  lemma DimensionsFromMatch(s: string, p: nat, r: nat)
    requires p <= |s| && DimCaptureEnd(s, p) == Some(r)
    requires forall k :: 0 <= k < p ==> DimCaptureEnd(s, k).None?
    ensures Dimensions(s) == s[p..r]
  {
    var m := FirstDimMatch(s, 0);
    assert m.Some?;
    assert m.value.start == p;
  }

  /** The capture at the start of "WxH pixels". */
  lemma SizeMatches(s: string, p: nat, q: nat, r: nat)
    requires p < q && q + 1 < r && r + 6 <= |s|
    requires forall i :: p <= i < q ==> IsDigit(s[i])
    requires forall i :: q + 1 <= i < r ==> IsDigit(s[i])
    requires s[q] == 'x' && s[r] == ' ' && s[r + 1] == 'p' && s[r + 2] == 'i' && s[r + 3] == 'x'
             && s[r + 4] == 'e' && s[r + 5] == 'l'
    ensures DimCaptureEnd(s, p) == Some(r)
  {
    DigitRunEndUnique(s, p, q);
    DigitRunEndUnique(s, q + 1, r);
    assert SpaceRunEnd(s, r + 1) == r + 1;
    assert PixelAt(s, r + 1);
  }

  /** No match starts among leading characters that are not digits. */
  lemma NoMatchBeforeDigits(s: string, p: nat)
    requires p <= |s|
    requires forall i :: 0 <= i < p ==> !IsDigit(s[i])
    ensures forall k :: 0 <= k < p ==> DimCaptureEnd(s, k).None?
  {
  }

  /** Where the digits of "WxH pixels" sit after `before`. */
  lemma SizedPromptDigits(before: string, w: string, h: string, after: string)
    requires forall i :: 0 <= i < |before| ==> !IsDigit(before[i])
    requires forall i :: 0 <= i < |w| ==> IsDigit(w[i])
    requires forall i :: 0 <= i < |h| ==> IsDigit(h[i])
    ensures var s := before + w + "x" + h + " pixels" + after;
            var p, q := |before|, |before| + |w|;
            var r := q + 1 + |h|;
            r <= |s|
            && (forall i :: 0 <= i < p ==> !IsDigit(s[i]))
            && (forall i :: p <= i < q ==> IsDigit(s[i]))
            && (forall i :: q + 1 <= i < r ==> IsDigit(s[i]))
            && s[q] == 'x' && s[p..r] == w + "x" + h
  {
    var wxh := w + "x" + h;
    var s := (before + wxh) + (" pixels" + after);
    assert before + w + "x" + h + " pixels" + after == s;
    var p := |before|;
    assert forall i :: 0 <= i < p ==> s[i] == before[i];
    assert forall i :: p <= i < p + |wxh| ==> s[i] == wxh[i - p];
    assert s[p..p + |wxh|] == wxh;
  }

  /** Where " pixel" sits after "WxH". */
  lemma SizedPromptUnit(before: string, w: string, h: string, after: string)
    ensures var s := before + w + "x" + h + " pixels" + after;
            var r := |before| + |w| + 1 + |h|;
            r + 6 <= |s| && s[r] == ' ' && s[r + 1] == 'p' && s[r + 2] == 'i' && s[r + 3] == 'x'
            && s[r + 4] == 'e' && s[r + 5] == 'l'
  {
    var tail := " pixels" + after;
    var s := (before + w + "x" + h) + tail;
    assert before + w + "x" + h + " pixels" + after == s;
    var r := |before| + |w| + 1 + |h|;
    assert s[r..] == tail;
    assert tail[0] == ' ' && tail[1] == 'p' && tail[2] == 'i' && tail[3] == 'x' && tail[4] == 'e' && tail[5] == 'l';
  }

  /** The usual way a prompt states its size: "WxH pixels" after text with
      no digits. */
  lemma DimensionsOfSizedPrompt(before: string, w: string, h: string, after: string)
    requires forall i :: 0 <= i < |before| ==> !IsDigit(before[i])
    requires |w| > 0 && forall i :: 0 <= i < |w| ==> IsDigit(w[i])
    requires |h| > 0 && forall i :: 0 <= i < |h| ==> IsDigit(h[i])
    ensures Dimensions(before + w + "x" + h + " pixels" + after) == w + "x" + h
  {
    var s := before + w + "x" + h + " pixels" + after;
    var p := |before|;
    var q := p + |w|;
    var r := q + 1 + |h|;
    SizedPromptDigits(before, w, h, after);
    SizedPromptUnit(before, w, h, after);
    SizeMatches(s, p, q, r);
    NoMatchBeforeDigits(s, p);
    DimensionsFromMatch(s, p, r);
  }

  // ---- The parser ----

  /** The parser's variables: the current section, the current item,
      whether a code block is open, the prompt collected so far, and the
      prompts found. */
  datatype ParserState = ParserState(
    category: string, name: string, inCodeBlock: bool, prompt: string, prompts: seq<IconPrompt>)

  const INITIAL: ParserState := ParserState("", "", false, "", [])

  /** A fence closes a prompt when a block is open and the prompt, the item
      and the section are all non-empty. */
  predicate ClosesPrompt(st: ParserState)
  {
    st.inCodeBlock && st.prompt != "" && st.name != "" && st.category != ""
  }

  /** A prompt line joins the prompt after a "\n", unless the prompt is
      still empty. */
  function AppendLine(prompt: string, line: string): string
  {
    prompt + (if prompt != "" then "\n" else "") + line
  }

  /** The icon a closing fence records. */
  function MakePrompt(st: ParserState, config: CategoryConfig): IconPrompt
  {
    IconPrompt(st.category, st.name, Trim(st.prompt), OutputPath(config, st.name), Dimensions(st.prompt))
  }

  /** What one line does: a section header, then an item header, then a
      fence, then (inside a block) a prompt line. Unknown sections are
      passed over, but their prompt is still cleared. */
  function Step(st: ParserState, line: string): ParserState
  {
    match CategoryCapture(line)
    case Some(c) => st.(category := HeaderName(c))
    case None =>
      match ItemCapture(line)
      case Some(n) => st.(name := HeaderName(n))
      case None =>
        if IsFence(line) then
          if ClosesPrompt(st) then
            var found := match ConfigFor(st.category)
                         case Some(config) => [MakePrompt(st, config)]
                         case None => [];
            st.(prompts := st.prompts + found, prompt := "", inCodeBlock := false)
          else st.(inCodeBlock := !st.inCodeBlock)
        else if st.inCodeBlock then st.(prompt := AppendLine(st.prompt, line))
        else st
  }

  /** The state after the lines, one at a time. */
  function Steps(st: ParserState, lines: seq<string>): ParserState
  {
    if |lines| == 0 then st else Step(Steps(st, lines[..|lines| - 1]), lines[|lines| - 1])
  }

  function ParsePrompts(content: string): seq<IconPrompt>
  {
    Steps(INITIAL, SplitLines(content)).prompts
  }

  /** What the parser reads from a file, line by line. */
  method ParsePromptsFile(content: string) returns (prompts: seq<IconPrompt>)
    ensures prompts == ParsePrompts(content)
    ensures forall k :: 0 <= k < |prompts| ==> WellFormed(prompts[k])
  {
    prompts := [];
    var currentCategory := "";
    var currentName := "";
    var inCodeBlock := false;
    var currentPrompt := "";
    var lines := SplitLines(content);
    for i := 0 to |lines|
      invariant ParserState(currentCategory, currentName, inCodeBlock, currentPrompt, prompts) == Steps(INITIAL, lines[..i])
    {
      var line := lines[i];
      assert lines[..i + 1][..i] == lines[..i];
      var categoryMatch := CategoryCapture(line);
      if categoryMatch.Some? {
        currentCategory := HeaderName(categoryMatch.value);
        continue;
      }
      var itemMatch := ItemCapture(line);
      if itemMatch.Some? {
        currentName := HeaderName(itemMatch.value);
        continue;
      }
      if Trim(line) == FENCE {
        if inCodeBlock && currentPrompt != "" && currentName != "" && currentCategory != "" {
          var config := ConfigFor(currentCategory);
          if config.Some? {
            var dimensions := Dimensions(currentPrompt);
            prompts := prompts + [IconPrompt(currentCategory, currentName, Trim(currentPrompt),
                                             OutputPath(config.value, currentName), dimensions)];
          }
          currentPrompt := "";
        }
        inCodeBlock := !inCodeBlock;
        continue;
      }
      if inCodeBlock {
        currentPrompt := currentPrompt + (if currentPrompt != "" then "\n" else "") + line;
      }
    }
    assert lines[..|lines|] == lines;
    StepsKeepWellFormed(INITIAL, lines);
  }

  // ---- Properties ----

  /** What every recorded icon satisfies: a known section, a named item, the
      section's output path, which ends in ".png", and a trimmed prompt. */
  predicate WellFormed(p: IconPrompt)
  {
    ConfigFor(p.category).Some? && p.name != ""
    && p.outputPath == OutputPath(ConfigFor(p.category).value, p.name)
    && EndsWith(p.outputPath, PNG)
    && Trim(p.prompt) == p.prompt
  }

  /** A step keeps the earlier icons and adds at most one, well formed. */
  lemma StepKeepsWellFormed(st: ParserState, line: string)
    requires forall k :: 0 <= k < |st.prompts| ==> WellFormed(st.prompts[k])
    ensures forall k :: 0 <= k < |Step(st, line).prompts| ==> WellFormed(Step(st, line).prompts[k])
  {
    var next := Step(st, line);
    if |next.prompts| > |st.prompts| {
      var config := ConfigFor(st.category).value;
      OutputPathShape(config, st.name);
      TrimMeaning(st.prompt);
      assert next.prompts == st.prompts + [MakePrompt(st, config)];
    } else {
      assert next.prompts == st.prompts;
    }
  }

  lemma {:induction false} StepsKeepWellFormed(st: ParserState, lines: seq<string>)
    requires forall k :: 0 <= k < |st.prompts| ==> WellFormed(st.prompts[k])
    ensures forall k :: 0 <= k < |Steps(st, lines).prompts| ==> WellFormed(Steps(st, lines).prompts[k])
    decreases |lines|
  {
    if |lines| > 0 {
      StepsKeepWellFormed(st, lines[..|lines| - 1]);
      StepKeepsWellFormed(Steps(st, lines[..|lines| - 1]), lines[|lines| - 1]);
    }
  }

  /** A fence line is never a header, so it always reaches the fence
      check, and it always flips the code-block flag. */
  lemma FenceToggles(st: ParserState, line: string)
    requires IsFence(line)
    ensures CategoryCapture(line).None? && ItemCapture(line).None?
    ensures Step(st, line).inCodeBlock == !st.inCodeBlock
    ensures Step(st, line).category == st.category && Step(st, line).name == st.name
  {
  }

  /** Headers are matched before the fence check, so a header line inside
      a code block renames the section or item and is not collected into
      the prompt; the block stays open. */
  lemma HeaderInsideBlock(st: ParserState, line: string)
    requires CategoryCapture(line).Some? || ItemCapture(line).Some?
    ensures Step(st, line).inCodeBlock == st.inCodeBlock
    ensures Step(st, line).prompt == st.prompt
    ensures Step(st, line).prompts == st.prompts
    ensures CategoryCapture(line).Some? ==> Step(st, line).category == HeaderName(CategoryCapture(line).value)
    ensures CategoryCapture(line).None? ==> Step(st, line).name == HeaderName(ItemCapture(line).value)
  {
  }

  /** An icon is recorded exactly at a fence that closes a prompt of a
      known section, and it is the section, item, trimmed prompt, path and
      dimensions of that moment; every other line leaves the list alone. */
  lemma EmitsExactly(st: ParserState, line: string)
    ensures |Step(st, line).prompts| == |st.prompts| + 1 <==>
      CategoryCapture(line).None? && ItemCapture(line).None? && IsFence(line)
      && ClosesPrompt(st) && ConfigFor(st.category).Some?
    ensures |Step(st, line).prompts| == |st.prompts| ==> Step(st, line).prompts == st.prompts
    ensures |Step(st, line).prompts| == |st.prompts| + 1 ==>
      Step(st, line).prompts == st.prompts + [IconPrompt(st.category, st.name, Trim(st.prompt),
                                                         OutputPath(ConfigFor(st.category).value, st.name),
                                                         Dimensions(st.prompt))]
  {
  }

  /** The prompt is cleared only by a fence that closes it, whether or not
      its section is known; otherwise it grows or stays. */
  lemma PromptClearedOnlyOnClose(st: ParserState, line: string)
    ensures st.prompt != "" && Step(st, line).prompt == "" ==> IsFence(line) && ClosesPrompt(st)
    ensures st.inCodeBlock && CategoryCapture(line).None? && ItemCapture(line).None? && !IsFence(line)
            ==> Step(st, line).prompt == AppendLine(st.prompt, line)
    ensures !st.inCodeBlock && CategoryCapture(line).None? && ItemCapture(line).None? && !IsFence(line)
            ==> Step(st, line) == st
  {
  }

  /** A prompt line is the prompt's last line: after one line the prompt is
      exactly it, after more they are joined with "\n". */
  lemma AppendLineMeaning(prompt: string, line: string)
    ensures prompt == "" ==> AppendLine(prompt, line) == line
    ensures prompt != "" ==> AppendLine(prompt, line) == prompt + "\n" + line
    ensures prompt != "" ==> AppendLine(prompt, line)[..|prompt|] == prompt
  {
    if prompt != "" {
      assert (prompt + "\n" + line)[..|prompt|] == prompt;
    }
  }

  /** Steps over a sequence of lines is stepping over its parts in turn. */
  lemma {:induction false} StepsAppend(st: ParserState, a: seq<string>, b: seq<string>)
    ensures Steps(st, a + b) == Steps(Steps(st, a), b)
    decreases |b|
  {
    if |b| == 0 {
      assert a + b == a;
    } else {
      assert (a + b)[..|a + b| - 1] == a + b[..|b| - 1];
      StepsAppend(st, a, b[..|b| - 1]);
    }
  }

  /** Steps only ever append to the icon list. */
  lemma {:induction false} StepsOnlyAppend(st: ParserState, lines: seq<string>)
    ensures |Steps(st, lines).prompts| >= |st.prompts|
    ensures Steps(st, lines).prompts[..|st.prompts|] == st.prompts
    decreases |lines|
  {
    if |lines| > 0 {
      var mid := Steps(st, lines[..|lines| - 1]);
      StepsOnlyAppend(st, lines[..|lines| - 1]);
      EmitsExactly(mid, lines[|lines| - 1]);
      assert Step(mid, lines[|lines| - 1]).prompts[..|mid.prompts|] == mid.prompts;
    }
  }

  /** A block of one prompt line under a named item of a known section
      records that icon, with the line trimmed as its prompt. */
  lemma SingleBlockRecorded(st: ParserState, line: string)
    requires !st.inCodeBlock && st.prompt == "" && st.name != "" && ConfigFor(st.category).Some?
    requires CategoryCapture(line).None? && ItemCapture(line).None? && !IsFence(line) && line != ""
    ensures var after := Step(Step(Step(st, FENCE), line), FENCE);
            after.prompts == st.prompts + [IconPrompt(st.category, st.name, Trim(line),
                                                      OutputPath(ConfigFor(st.category).value, st.name),
                                                      Dimensions(line))]
            && !after.inCodeBlock && after.prompt == ""
  {
    FenceStep(st);
    var s1 := st.(inCodeBlock := true);
    var s2 := s1.(prompt := line);
    assert Step(s1, line) == s2;
    FenceStep(s2);
    assert ClosesPrompt(s2);
  }

  /** What a bare fence line does: close the prompt, or flip the flag. */
  lemma FenceStep(st: ParserState)
    ensures ClosesPrompt(st) ==> Step(st, FENCE).prompt == "" && !Step(st, FENCE).inCodeBlock
                                 && Step(st, FENCE).prompts == st.prompts + (match ConfigFor(st.category)
                                                                            case Some(config) => [MakePrompt(st, config)]
                                                                            case None => [])
    ensures !ClosesPrompt(st) ==> Step(st, FENCE) == st.(inCodeBlock := !st.inCodeBlock)
  {
    FenceIsFence();
    FenceToggles(st, FENCE);
  }

  lemma FenceIsFence()
    ensures IsFence(FENCE)
  {
    assert SpaceRunEnd(FENCE, 0) == 0;
    assert ContentEnd(FENCE) == 3;
    assert FENCE[0..3] == FENCE;
  }

  /** As written, a block closed while no item is named keeps its text: the
      next block's lines are joined onto it. */
  lemma UnnamedBlockCarriesOver(st: ParserState, line: string)
    requires st.inCodeBlock && st.prompt != "" && st.name == ""
    requires CategoryCapture(line).None? && ItemCapture(line).None? && !IsFence(line)
    ensures var after := Step(Step(Step(st, FENCE), FENCE), line);
            after.prompt == st.prompt + "\n" + line && after.inCodeBlock && after.prompts == st.prompts
  {
    FenceStep(st);
    var s1 := st.(inCodeBlock := false);
    FenceStep(s1);
    assert Step(s1, FENCE) == st;
  }
}
