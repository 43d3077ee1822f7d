/**
 * The response normaliser and prompt construction of the extractor: trimming
 * schedule markdown, the user prompts sent to the model, the staged parsing
 * of the model's reply (direct parse, repair, salvage of `{...}` spans), the
 * mapping of parsed items into `Event` records, and the post-filter for
 * extracted links. The model endpoint itself is the `ModelClient`
 * collaborator, whose `complete` function stands for the streamed HTTP call.
 */
module Extractor {
  import opened Common
  import opened Json
  import opened Models
  import opened Prompts


  // ---------------------------------------------------------------------
  // Markdown trimming (app/extractor.py:121-148)
  // ---------------------------------------------------------------------

  /**
   * One letter of an upper-case pattern word under Python's IGNORECASE:
   * either case, and for `S` also the long s (U+017F), which folds to it.
   */
  predicate LetterMatches(c: char, upper: char)
  {
    c == upper || ('A' <= upper <= 'Z' && c as int == upper as int + 32) ||
    (upper == 'S' && c == '\U{17f}')
  }

  /** `s` spells `word` letter by letter under IGNORECASE. */
  predicate MatchesWord(s: string, word: string)
    decreases |word|
  {
    |s| == |word| && (word == [] || (LetterMatches(s[0], word[0]) && MatchesWord(s[1..], word[1..])))
  }

  predicate AllSpace(s: string)
    decreases |s|
  {
    s == [] || (IsSpace(s[0]) && AllSpace(s[1..]))
  }

  /** `^##\s*SCHEDULE\s*$` with IGNORECASE, matched at the start of `s`. */
  predicate IsScheduleHeading(s: string)
  {
    StartsWith(s, "##") &&
    var rest := LStrip(s[2..]);
    |rest| >= 8 && MatchesWord(rest[..8], "SCHEDULE") && AllSpace(rest[8..])
  }

  /** Python's `any(s.startswith(m) for m in markers)`. */
  predicate StartsWithAny(s: string, markers: seq<string>)
    decreases |markers|
  {
    markers != [] && (StartsWith(s, markers[0]) || StartsWithAny(s, markers[1..]))
  }

  /** Python's `any(m in s for m in markers)`. */
  predicate ContainsAny(s: string, markers: seq<string>)
    decreases |markers|
  {
    markers != [] && (Contains(s, markers[0]) || ContainsAny(s, markers[1..]))
  }

  /** A line where the schedule content begins: a SCHEDULE heading, a start marker, or a `---` rule. */
  predicate IsStartLine(line: string)
  {
    IsScheduleHeading(Strip(line)) || StartsWithAny(Strip(line), ["**0", "* * *"]) || Strip(line) == "---"
  }

  /** A line holding a footer marker (checked on the unstripped line). */
  predicate IsFooterLine(line: string)
  {
    ContainsAny(line, ["PAGETOP", "Copyright", "copyright", "©"])
  }

  /** The first line at or after `i` passing `test`, or `|lines|` when there is none. */
  function FirstMatchFrom(lines: seq<string>, i: nat, test: string -> bool): (k: nat)
    requires i <= |lines|
    ensures i <= k <= |lines|
    ensures k < |lines| ==> test(lines[k])
    ensures forall j :: i <= j < k ==> !test(lines[j])
    decreases |lines| - i
  {
    if i == |lines| || test(lines[i]) then i else FirstMatchFrom(lines, i + 1, test)
  }

  /** The last line strictly between `lo` and `hi` passing `test`, or -1. */
  function LastMatchBetween(lines: seq<string>, lo: nat, hi: nat, test: string -> bool): (k: int)
    requires lo <= hi <= |lines|
    ensures k == -1 || (lo < k < hi && test(lines[k]))
    ensures forall j :: lo < j < hi && k < j ==> !test(lines[j])
    decreases hi
  {
    if hi <= lo + 1 then -1
    else if test(lines[hi - 1]) then hi - 1
    else LastMatchBetween(lines, lo, hi - 1, test)
  }

  /** The index of the first line kept: the first line passing `isStart`, else 0. */
  function SliceStart(lines: seq<string>, isStart: string -> bool): (start: nat)
    ensures start < |lines| || start == 0
    ensures start > 0 ==> isStart(lines[start])
    ensures forall j :: 0 <= j < start ==> !isStart(lines[j])
    ensures (exists j :: 0 <= j < |lines| && isStart(lines[j])) ==> isStart(lines[start])
  {
    var k := FirstMatchFrom(lines, 0, isStart);
    if k < |lines| then k else 0
  }

  /** The index just past the last line kept: the last line after `start` passing `isEnd`, else `|lines|`. */
  function SliceEnd(lines: seq<string>, start: nat, isEnd: string -> bool): (end: nat)
    requires start <= |lines|
    ensures start <= end <= |lines|
    ensures end < |lines| ==> start < end && isEnd(lines[end])
    ensures forall j :: start < j < |lines| && end < j ==> !isEnd(lines[j])
    ensures end == |lines| ==> forall j :: start < j < |lines| ==> !isEnd(lines[j])
  {
    var k := LastMatchBetween(lines, start, |lines|, isEnd);
    if k == -1 then |lines| else k
  }

  /** What `_trim_markdown` returns: the lines from the start line up to (not including) the footer line. */
  function Trimmed(markdown: string): string
  {
    var lines := Split(markdown, '\n');
    var start := SliceStart(lines, IsStartLine);
    Join(lines[start..SliceEnd(lines, start, IsFooterLine)], "\n")
  }

  /** The two scans of `_trim_markdown`: forwards for the first start line, backwards for the last end line. */
  method SliceBounds(lines: seq<string>, isStart: string -> bool, isEnd: string -> bool)
    returns (start: nat, end: nat)
    ensures start == SliceStart(lines, isStart) && end == SliceEnd(lines, start, isEnd)
  {
    start := 0;
    end := |lines|;
    var i := 0;
    while i < |lines|
      invariant 0 <= i <= |lines| && start == 0
      invariant forall j :: 0 <= j < i ==> !isStart(lines[j])
    {
      if isStart(lines[i]) {
        start := i;
        break;
      }
      i := i + 1;
    }
    var k := |lines| - 1;
    while k > start
      invariant start <= k + 1 && k < |lines| && end == |lines|
      invariant forall j :: k < j < |lines| ==> !isEnd(lines[j])
    {
      if isEnd(lines[k]) {
        end := k;
        break;
      }
      k := k - 1;
    }
  }

  method TrimMarkdown(markdown: string) returns (trimmed: string)
    ensures trimmed == Trimmed(markdown)
  {
    var lines := Split(markdown, '\n');
    var start, end := SliceBounds(lines, IsStartLine, IsFooterLine);
    trimmed := Join(lines[start..end], "\n");
  }

  /** Without start markers or footer markers the markdown comes back unchanged. */
  lemma TrimmedWithoutMarkers(markdown: string)
    requires forall line :: line in Split(markdown, '\n') ==> !IsStartLine(line) && !IsFooterLine(line)
    ensures Trimmed(markdown) == markdown
  {
    var lines := Split(markdown, '\n');
    assert SliceStart(lines, IsStartLine) == 0;
    assert SliceEnd(lines, 0, IsFooterLine) == |lines|;
    assert lines[0..|lines|] == lines;
    JoinSplit(markdown, '\n');
  }

  /** Trimming only ever removes whole leading and trailing lines: the result occurs in the input. */
  lemma TrimmedOccursInMarkdown(markdown: string)
    ensures Contains(markdown, Trimmed(markdown))
  {
    var lines := Split(markdown, '\n');
    var start := SliceStart(lines, IsStartLine);
    JoinSliceOccurs(lines, "\n", start, SliceEnd(lines, start, IsFooterLine));
    JoinSplit(markdown, '\n');
  }

  // ---------------------------------------------------------------------
  // Reasoning-tag removal (app/extractor.py:203-204)
  // ---------------------------------------------------------------------

  /** The last piece of Python's `s.split(sep)`: the suffix after the last occurrence of `sep`. */
  function AfterLast(s: string, sep: string): string
    requires |sep| > 0
    decreases |s|
  {
    var i := IndexOf(s, sep);
    if i == -1 then s else AfterLast(s[i + |sep|..], sep)
  }

  /** The last piece holds no separator. */
  lemma {:induction false} AfterLastHasNoSeparator(s: string, sep: string)
    requires |sep| > 0
    ensures !Contains(AfterLast(s, sep), sep)
    decreases |s|
  {
    IndexOfFirst(s, sep);
    var i := IndexOf(s, sep);
    if i != -1 {
      AfterLastHasNoSeparator(s[i + |sep|..], sep);
    }
  }

  /** The last piece ends the text. */
  lemma {:induction false} AfterLastIsSuffix(s: string, sep: string)
    requires |sep| > 0
    ensures |AfterLast(s, sep)| <= |s| && AfterLast(s, sep) == s[|s| - |AfterLast(s, sep)|..]
    decreases |s|
  {
    var i := IndexOf(s, sep);
    if i != -1 {
      var rest := s[i + |sep|..];
      var r := AfterLast(rest, sep);
      assert AfterLast(s, sep) == r;
      AfterLastIsSuffix(rest, sep);
      assert rest[|rest| - |r|..] == s[|s| - |r|..];
    }
  }

  /** The tag that opens, or closes, the model's thinking. */
  function ThinkTag(closing: bool): string
  {
    if closing then "</think>" else "<think>"
  }

  /**
   * When the reply holds a `<think>` tag, only the stripped text after the
   * last `</think>` is kept; otherwise the reply is unchanged.
   */
  function StripThinking(raw: string): (r: string)
    ensures !Contains(raw, ThinkTag(false)) ==> r == raw
  {
    if Contains(raw, ThinkTag(false)) then Strip(AfterLast(raw, ThinkTag(true))) else raw
  }

  /** With a `<think>` tag present, the kept text is a piece of the reply that holds no `</think>`. */
  lemma StripThinkingSpec(raw: string)
    requires Contains(raw, ThinkTag(false))
    ensures !Contains(StripThinking(raw), ThinkTag(true)) && Contains(raw, StripThinking(raw))
  {
    var tail := AfterLast(raw, ThinkTag(true));
    AfterLastHasNoSeparator(raw, ThinkTag(true));
    AfterLastIsSuffix(raw, ThinkTag(true));
    DropIsSuffix(raw, |raw| - |tail|);
    StripOfSuffix(raw, tail, ThinkTag(true));
  }

  /** Stripping a suffix keeps a piece of the text, so it adds no occurrence of anything. */
  lemma StripOfSuffix(s: string, tail: string, sub: string)
    requires SuffixOf(tail, s)
    ensures Contains(s, Strip(tail))
    ensures !Contains(tail, sub) ==> !Contains(Strip(tail), sub)
  {
    assert tail[..|tail|] == tail;
    PrefixOfSuffix(s, tail, tail);
    StripOccurs(s, tail, |s| - |tail|);
    if Contains(Strip(tail), sub) {
      ContainsTransitive(tail, Strip(tail), sub, |tail| - |LStrip(tail)|);
    }
  }

  // ---------------------------------------------------------------------
  // The model endpoint
  // ---------------------------------------------------------------------

  /** One request to the model: the two prompts and the streamed text (None when the HTTP call failed). */
  datatype Exchange = Exchange(system: SystemPrompt, user: UserPrompt, reply: Option<string>)

  /** What the n-th request with these prompts returns to its caller. */
  function Answer(complete: (nat, SystemPrompt, UserPrompt) -> Option<string>, n: nat, system: SystemPrompt,
                  user: UserPrompt): (r: Result<string>)
    ensures r.Err? <==> complete(n, system, user).None?
    ensures r.Err? ==> r.error == HttpError
  {
    match complete(n, system, user)
    case None => Err(HttpError)
    case Some(text) => Ok(StripThinking(text))
  }

  /**
   * The chat-completion endpoint. `complete(n, system, user)` is the text the
   * n-th request accumulates from the stream when it is sent with the system
   * prompt `PromptText(system)` and the user prompt `UserText(user)`, or None when the
   * request fails with an HTTP error; every request is recorded in `exchanges`.
   */
  class ModelClient {
    const complete: (nat, SystemPrompt, UserPrompt) -> Option<string>
    var exchanges: seq<Exchange>

    constructor(complete: (nat, SystemPrompt, UserPrompt) -> Option<string>)
      ensures this.complete == complete && exchanges == []
    {
      this.complete := complete;
      exchanges := [];
    }

    /** `_call_llm`: one request, recorded, whose reply loses its reasoning section. */
    method Call(system: SystemPrompt, user: UserPrompt) returns (r: Result<string>)
      modifies this
      ensures exchanges == old(exchanges) + [Exchange(system, user, complete(|old(exchanges)|, system, user))]
      ensures r == Answer(complete, |old(exchanges)|, system, user)
    {
      var reply := complete(|exchanges|, system, user);
      r := Answer(complete, |exchanges|, system, user);
      exchanges := exchanges + [Exchange(system, user, reply)];
    }
  }

  // ---------------------------------------------------------------------
  // Prompt builders (app/extractor.py:215-298)
  // ---------------------------------------------------------------------

  datatype PageType = SchedulePage | DetailPage

  /** `_system_prompt_for`: the schedule page type gets the schedule prompt, every other page type the detail prompt. */
  function SystemPromptFor(pageType: PageType): (r: SystemPrompt)
    ensures r == ScheduleInstructions <==> pageType == SchedulePage
    ensures r == DetailInstructions <==> pageType != SchedulePage
  {
    if pageType == SchedulePage then ScheduleInstructions else DetailInstructions
  }

  /** Where the parts of a prompt end up once they are concatenated. */
  lemma Layout(lead: string, middle: string, intro: string, closing: string)
    ensures StartsWith(lead + middle + intro + closing, lead)
    ensures EndsWith(lead + middle + intro + closing, closing)
    ensures forall x :: Contains(middle, x) ==> Contains(lead + middle + intro + closing, x)
  {
    var r := lead + middle + intro + closing;
    assert r[..|lead|] == lead;
    assert r[|r| - |closing|..] == closing;
    assert OccursAt(r, middle, |lead|) by {
      assert r[|lead|..|lead| + |middle|] == middle;
    }
    forall x | Contains(middle, x)
      ensures Contains(r, x)
    {
      ContainsTransitive(r, middle, x, |lead|);
    }
  }

  /** A string that starts with `x` contains it, and so does anything it is concatenated with. */
  lemma StartsWithInConcat(a: string, s: string, b: string, x: string)
    requires StartsWith(s, x)
    ensures Contains(s, x) && Contains(a + s, x) && Contains(s + b, x)
  {
    assert OccursAt(s, x, 0);
    assert (a + s)[|a|..|a| + |x|] == x;
    assert OccursAt(a + s, x, |a|);
    assert (s + b)[..|x|] == x;
    assert OccursAt(s + b, x, 0);
  }

  /** The instructions sentence. */
  function InstructionsLine(extra: string): string
  {
    "Additional instructions: " + extra
  }

  /** The `Additional instructions` paragraph, present only for truthy instructions. */
  function InstructionsParagraph(extra: Option<string>): (r: string)
    ensures IsTruthyText(extra) ==> StartsWith(r, InstructionsLine(extra.value))
    ensures !IsTruthyText(extra) ==> r == []
  {
    if IsTruthyText(extra) then
      var r := InstructionsLine(extra.value) + "\n\n";
      assert r[..|InstructionsLine(extra.value)|] == InstructionsLine(extra.value);
      r
    else []
  }

  /** The expected-title sentence. */
  function TitleLine(title: string): string
  {
    "Expected event title (match this): " + title
  }

  /** The paragraph naming the expected title and date of a detail page, if either is truthy. */
  function ExpectationParagraph(expectedTitle: Option<string>, expectedDate: Option<string>): (r: string)
    ensures IsTruthyText(expectedTitle) ==> StartsWith(r, TitleLine(expectedTitle.value))
    ensures !IsTruthyText(expectedTitle) && !IsTruthyText(expectedDate) ==> r == []
  {
    var parts :=
      (if IsTruthyText(expectedTitle) then [TitleLine(expectedTitle.value)] else []) +
      (if IsTruthyText(expectedDate) then ["Expected date: " + expectedDate.value] else []);
    if parts == [] then []
    else
      var joined := Join(parts, " ");
      assert StartsWith(joined, parts[0]) by {
        if |parts| > 1 {
          assert joined == parts[0] + (" " + Join(parts[1..], " "));
          assert joined[..|parts[0]|] == parts[0];
        }
      }
      assert (joined + "\n\n")[..|parts[0]|] == joined[..|parts[0]|];
      joined + "\n\n"
  }

  /** The opening paragraph of the schedule-page prompt, naming the venue. */
  function ScheduleLead(venueName: string): string
  {
    "Extract all events from the main schedule section only (ignore featured/pickup/ads) for venue: " + venueName + "\n\n"
  }

  /** The opening paragraph of the detail-page prompt, naming the venue. */
  function DetailLead(venueName: string): string
  {
    "Extract the main event(s) from this detail or day page for venue: " + venueName + ".\n\n"
  }

  /** The opening paragraph of the combined-pages prompt, naming the venue. */
  function CombinedLead(venueName: string): string
  {
    "Extract all events from these combined event pages for venue: " + venueName + "\n\n"
  }

  /** The opening paragraph of the link prompt, naming the venue. */
  function LinkLead(venueName: string): string
  {
    "Extract all event detail page links from the schedule for venue: " + venueName + "\n\n"
  }

  /** The line that introduces a page, as structured data or as text. */
  function PageIntro(isJson: bool): string
  {
    if isJson then "Structured data extracted from the page (JSON):\n\n" else "Page content:\n\n"
  }

  /** The line that introduces the combined pages. */
  function CombinedIntro(isJson: bool): string
  {
    if isJson then "Structured data extracted from the pages (JSON):\n\n" else "Combined page content:\n\n"
  }

  /** The line that introduces the schedule page of the link prompt. */
  function LinkIntro(isJson: bool): string
  {
    if isJson then "Structured data extracted from the schedule page (JSON):\n\n" else "Schedule page content:\n\n"
  }

  /** The content, followed by the switch that turns the model's thinking off. */
  function NoThink(content: string): string
  {
    content + "\n\n/no_think"
  }

  /**
   * `_build_event_extraction_prompt`. Markdown content is trimmed first; the
   * content closes the prompt, followed only by the `/no_think` switch.
   * The expected title and date are mentioned only for detail pages.
   */
  function EventPrompt(content: string, venueName: string, extra: Option<string>, pageType: PageType,
                       expectedTitle: Option<string>, expectedDate: Option<string>, isJson: bool): string
  {
    var lead := if pageType == SchedulePage then ScheduleLead(venueName) else DetailLead(venueName);
    var expectation := if pageType == SchedulePage then [] else ExpectationParagraph(expectedTitle, expectedDate);
    var body := if isJson then content else Trimmed(content);
    lead + (expectation + InstructionsParagraph(extra)) + PageIntro(isJson) + NoThink(body)
  }

  /** The schedule-page prompt opens with the venue, carries the instructions, and ends with the content. */
  lemma SchedulePromptShape(content: string, venueName: string, extra: Option<string>,
                            expectedTitle: Option<string>, expectedDate: Option<string>, isJson: bool)
    ensures var r := EventPrompt(content, venueName, extra, SchedulePage, expectedTitle, expectedDate, isJson);
            StartsWith(r, ScheduleLead(venueName)) &&
            EndsWith(r, NoThink(if isJson then content else Trimmed(content))) &&
            (IsTruthyText(extra) ==> Contains(r, InstructionsLine(extra.value)))
  {
    var instructions := InstructionsParagraph(extra);
    var closing := NoThink(if isJson then content else Trimmed(content));
    var r := EventPrompt(content, venueName, extra, SchedulePage, expectedTitle, expectedDate, isJson);
    assert r == ScheduleLead(venueName) + ([] + instructions) + PageIntro(isJson) + closing;
    Layout(ScheduleLead(venueName), [] + instructions, PageIntro(isJson), closing);
    if IsTruthyText(extra) {
      StartsWithInConcat([], instructions, [], InstructionsLine(extra.value));
    }
  }

  /** The detail-page prompt opens with the venue, names the expected title, carries the instructions, and ends with the content. */
  lemma DetailPromptShape(content: string, venueName: string, extra: Option<string>,
                          expectedTitle: Option<string>, expectedDate: Option<string>, isJson: bool)
    ensures var r := EventPrompt(content, venueName, extra, DetailPage, expectedTitle, expectedDate, isJson);
            StartsWith(r, DetailLead(venueName)) &&
            EndsWith(r, NoThink(if isJson then content else Trimmed(content))) &&
            (IsTruthyText(extra) ==> Contains(r, InstructionsLine(extra.value))) &&
            (IsTruthyText(expectedTitle) ==> Contains(r, TitleLine(expectedTitle.value)))
  {
    var instructions := InstructionsParagraph(extra);
    var expectation := ExpectationParagraph(expectedTitle, expectedDate);
    var closing := NoThink(if isJson then content else Trimmed(content));
    var r := EventPrompt(content, venueName, extra, DetailPage, expectedTitle, expectedDate, isJson);
    assert r == DetailLead(venueName) + (expectation + instructions) + PageIntro(isJson) + closing;
    Layout(DetailLead(venueName), expectation + instructions, PageIntro(isJson), closing);
    if IsTruthyText(extra) {
      StartsWithInConcat(expectation, instructions, [], InstructionsLine(extra.value));
    }
    if IsTruthyText(expectedTitle) {
      StartsWithInConcat([], expectation, instructions, TitleLine(expectedTitle.value));
    }
  }

  /** `_build_combined_extraction_prompt`: the combined pages are passed as given. */
  function CombinedPrompt(combined: string, venueName: string, extra: Option<string>, isJson: bool): string
  {
    CombinedLead(venueName) + InstructionsParagraph(extra) + CombinedIntro(isJson) + NoThink(combined)
  }

  /** The combined prompt opens with the venue, carries the instructions, and ends with the combined pages. */
  lemma CombinedPromptShape(combined: string, venueName: string, extra: Option<string>, isJson: bool)
    ensures var r := CombinedPrompt(combined, venueName, extra, isJson);
            StartsWith(r, CombinedLead(venueName)) &&
            EndsWith(r, NoThink(combined)) &&
            (IsTruthyText(extra) ==> Contains(r, InstructionsLine(extra.value)))
  {
    var instructions := InstructionsParagraph(extra);
    Layout(CombinedLead(venueName), instructions, CombinedIntro(isJson), NoThink(combined));
    if IsTruthyText(extra) {
      StartsWithInConcat([], instructions, [], InstructionsLine(extra.value));
    }
  }

  /** `_build_link_extraction_prompt`: like the event prompt, markdown content is trimmed first. */
  function LinkPrompt(content: string, venueName: string, extra: Option<string>, isJson: bool): string
  {
    var body := if isJson then content else Trimmed(content);
    LinkLead(venueName) + InstructionsParagraph(extra) + LinkIntro(isJson) + NoThink(body)
  }

  /** The link prompt opens with the venue, carries the instructions, and ends with the content. */
  lemma LinkPromptShape(content: string, venueName: string, extra: Option<string>, isJson: bool)
    ensures var r := LinkPrompt(content, venueName, extra, isJson);
            StartsWith(r, LinkLead(venueName)) &&
            EndsWith(r, NoThink(if isJson then content else Trimmed(content))) &&
            (IsTruthyText(extra) ==> Contains(r, InstructionsLine(extra.value)))
  {
    var instructions := InstructionsParagraph(extra);
    var body := if isJson then content else Trimmed(content);
    Layout(LinkLead(venueName), instructions, LinkIntro(isJson), NoThink(body));
    if IsTruthyText(extra) {
      StartsWithInConcat([], instructions, [], InstructionsLine(extra.value));
    }
  }

  /**
   * A user prompt by what it asks for: the page (or combined pages) and the
   * arguments its builder takes. `UserText` renders it; the model endpoint
   * receives the rendered text.
   */
  datatype UserPrompt =
    | PagePrompt(content: string, venueName: string, extra: Option<string>, pageType: PageType,
                 expectedTitle: Option<string>, expectedDate: Option<string>, isJson: bool)
    | CombinedPagesPrompt(combined: string, venueName: string, extra: Option<string>, isJson: bool)
    | LinksPrompt(content: string, venueName: string, extra: Option<string>, isJson: bool)

  /** The text of a user prompt, as its builder (`_build_event_extraction_prompt`, `_build_combined_extraction_prompt` or `_build_link_extraction_prompt`) writes it. */
  function UserText(u: UserPrompt): string
  {
    match u
    case PagePrompt(content, venueName, extra, pageType, expectedTitle, expectedDate, isJson) =>
      EventPrompt(content, venueName, extra, pageType, expectedTitle, expectedDate, isJson)
    case CombinedPagesPrompt(combined, venueName, extra, isJson) => CombinedPrompt(combined, venueName, extra, isJson)
    case LinksPrompt(content, venueName, extra, isJson) => LinkPrompt(content, venueName, extra, isJson)
  }

  // ---------------------------------------------------------------------
  // JSON repair (app/extractor.py:306-314)
  // ---------------------------------------------------------------------

  predicate IsCloser(c: char) { c == '}' || c == ']' }

  predicate IsComma(c: char) { c == ',' }

  /** The index of the first character at or after `k` that is not whitespace (`|text|` if none). */
  function NextNonSpace(text: string, k: nat): (r: nat)
    requires k <= |text|
    ensures k <= r <= |text|
    ensures r == |text| || !IsSpace(text[r])
    decreases |text| - k
  {
    if k < |text| && IsSpace(text[k]) then NextNonSpace(text, k + 1) else k
  }

  /** Everything skipped on the way to the next non-whitespace character is whitespace. */
  lemma {:induction false} NextNonSpaceSkipsSpace(text: string, k: nat)
    requires k <= |text|
    ensures forall m :: k <= m < NextNonSpace(text, k) ==> IsSpace(text[m])
    decreases |text| - k
  {
    if k < |text| && IsSpace(text[k]) {
      NextNonSpaceSkipsSpace(text, k + 1);
    }
  }

  /** The comma at index `i` is followed, after optional whitespace, by a closer. */
  predicate CloserFollows(text: string, i: nat)
    requires i < |text|
  {
    var j := NextNonSpace(text, i + 1);
    j < |text| && IsCloser(text[j])
  }

  /**
   * `re.sub(r",\s*([}\]])", r"\1", text)` applied to the text from index `i`:
   * scanning left to right, a comma followed by whitespace and a closer is
   * replaced by that closer, and scanning resumes after the closer.
   */
  function DropCommasFrom(text: string, i: nat): (r: string)
    requires i <= |text|
    decreases |text| - i
  {
    if i == |text| then []
    else if text[i] == ',' && CloserFollows(text, i) then
      var j := NextNonSpace(text, i + 1);
      [text[j]] + DropCommasFrom(text, j + 1)
    else [text[i]] + DropCommasFrom(text, i + 1)
  }

  function DropCommas(text: string): string
  {
    DropCommasFrom(text, 0)
  }

  function Max0(n: int): nat { if n < 0 then 0 else n }

  /** The closing braces, then the closing brackets, for what `text` leaves open. */
  function Closers(text: string): string
  {
    Repeat('}', Max0(Count(text, '{') - Count(text, '}'))) + Repeat(']', Max0(Count(text, '[') - Count(text, ']')))
  }

  /** What `_repair_json` returns: the counts are taken once commas are dropped, before the tail is stripped. */
  function Repair(text: string): string
  {
    var dropped := DropCommas(text);
    RStripWhile(RStrip(dropped), IsComma) + Closers(dropped)
  }

  /** The index of the first non-whitespace character at or after `from`. */
  method SkipSpaces(text: string, from: nat) returns (j: nat)
    requires from <= |text|
    ensures j == NextNonSpace(text, from)
  {
    j := from;
    while j < |text| && IsSpace(text[j])
      invariant from <= j <= |text|
      invariant NextNonSpace(text, from) == NextNonSpace(text, j)
    {
      j := j + 1;
    }
  }

  /**
   * One match attempt of the substitution at index `i`: the characters it
   * produces and the index where scanning resumes.
   */
  method ScanAt(text: string, i: nat) returns (piece: string, next: nat)
    requires i < |text|
    ensures i < next <= |text|
    ensures DropCommasFrom(text, i) == piece + DropCommasFrom(text, next)
  {
    var j := SkipSpaces(text, i + 1);
    if text[i] == ',' && j < |text| && IsCloser(text[j]) {
      piece, next := [text[j]], j + 1;
    } else {
      piece, next := [text[i]], i + 1;
    }
  }

  /** The regular-expression substitution of `_repair_json` as a left-to-right scan. */
  method DropCommasScan(text: string) returns (out: string)
    ensures out == DropCommas(text)
  {
    out := [];
    var i := 0;
    while i < |text|
      invariant 0 <= i <= |text|
      invariant out + DropCommasFrom(text, i) == DropCommas(text)
    {
      var piece, next := ScanAt(text, i);
      out := out + piece;
      i := next;
    }
  }

  /** `_repair_json`: drop commas before closers, strip the tail, then close what is still open. */
  method RepairJson(text: string) returns (repaired: string)
    ensures repaired == Repair(text)
  {
    repaired := DropCommasScan(text);
    var openBrackets := Count(repaired, '[') - Count(repaired, ']');
    var openBraces := Count(repaired, '{') - Count(repaired, '}');
    repaired := RStripWhile(RStrip(repaired), IsComma);
    ghost var body := repaired;
    repaired := repaired + Repeat('}', Max0(openBraces));
    repaired := repaired + Repeat(']', Max0(openBrackets));
    assert repaired == body + (Repeat('}', Max0(openBraces)) + Repeat(']', Max0(openBrackets)));
  }

  /** The characters repair may delete. */
  predicate Erasable(c: char) { c == ',' || IsSpace(c) }

  /** The text without commas and whitespace. */
  function Erase(s: string): string
  {
    if s == [] then [] else (if Erasable(s[0]) then [] else [s[0]]) + Erase(s[1..])
  }

  lemma {:induction false} EraseAppend(a: string, b: string)
    ensures Erase(a + b) == Erase(a) + Erase(b)
  {
    if a == [] {
      assert a + b == b;
    } else {
      assert (a + b)[1..] == a[1..] + b;
      EraseAppend(a[1..], b);
    }
  }

  /** Removing erasable characters from the front or the back does not change what is left after erasing. */
  lemma {:induction false} EraseLStrip(s: string)
    ensures Erase(LStrip(s)) == Erase(s)
    decreases |s|
  {
    if s != [] && IsSpace(s[0]) {
      EraseLStrip(s[1..]);
    }
  }

  lemma {:induction false} EraseTrailing(s: string, k: nat)
    requires k <= |s| && forall i :: k <= i < |s| ==> Erasable(s[i])
    ensures Erase(s[..k]) == Erase(s)
    decreases |s| - k
  {
    if k < |s| {
      EraseTrailing(s, k + 1);
      assert s[..k + 1] == s[..k] + [s[k]];
      EraseAppend(s[..k], [s[k]]);
      assert Erase([s[k]]) == [] by {
        assert [s[k]][1..] == [];
      }
    } else {
      assert s[..k] == s;
    }
  }

  lemma EraseCons(c: char, s: string)
    ensures Erase([c] + s) == (if Erasable(c) then [] else [c]) + Erase(s)
  {
    assert ([c] + s)[1..] == s;
  }

  /** Erasable characters between `i` and `j` leave nothing behind. */
  lemma {:induction false} EraseErasableRun(text: string, i: nat, j: nat)
    requires i <= j <= |text| && forall m :: i <= m < j ==> Erasable(text[m])
    ensures Erase(text[i..]) == Erase(text[j..])
    decreases j - i
  {
    if i < j {
      assert text[i..] == [text[i]] + text[i + 1..];
      EraseCons(text[i], text[i + 1..]);
      EraseErasableRun(text, i + 1, j);
    }
  }

  lemma {:induction false} EraseDropCommasFrom(text: string, i: nat)
    requires i <= |text|
    ensures Erase(DropCommasFrom(text, i)) == Erase(text[i..])
    decreases |text| - i
  {
    if i < |text| {
      if text[i] == ',' && CloserFollows(text, i) {
        EraseDropCommasFrom(text, NextNonSpace(text, i + 1) + 1);
        EraseDroppedComma(text, i);
      } else {
        EraseDropCommasFrom(text, i + 1);
        EraseKeptChar(text, i);
      }
    }
  }

  /** One dropped comma: the whitespace run before the closer erases with it. */
  lemma EraseDroppedComma(text: string, i: nat)
    requires i < |text| && text[i] == ',' && CloserFollows(text, i)
    requires Erase(DropCommasFrom(text, NextNonSpace(text, i + 1) + 1)) == Erase(text[NextNonSpace(text, i + 1) + 1..])
    ensures Erase(DropCommasFrom(text, i)) == Erase(text[i..])
  {
    var j := NextNonSpace(text, i + 1);
    var d := DropCommasFrom(text, j + 1);
    assert !Erasable(text[j]) by { assert IsCloser(text[j]); }
    calc {
      Erase(DropCommasFrom(text, i));
      { assert DropCommasFrom(text, i) == [text[j]] + d; }
      Erase([text[j]] + d);
      { EraseCons(text[j], d); }
      [text[j]] + Erase(text[j + 1..]);
      { assert text[j..] == [text[j]] + text[j + 1..]; EraseCons(text[j], text[j + 1..]); }
      Erase(text[j..]);
      { NextNonSpaceSkipsSpace(text, i + 1); EraseErasableRun(text, i, j); }
      Erase(text[i..]);
    }
  }

  /** One character kept as it is. */
  lemma EraseKeptChar(text: string, i: nat)
    requires i < |text| && !(text[i] == ',' && CloserFollows(text, i))
    requires Erase(DropCommasFrom(text, i + 1)) == Erase(text[i + 1..])
    ensures Erase(DropCommasFrom(text, i)) == Erase(text[i..])
  {
    var d := DropCommasFrom(text, i + 1);
    assert DropCommasFrom(text, i) == [text[i]] + d;
    EraseCons(text[i], d);
    assert text[i..] == [text[i]] + text[i + 1..];
    EraseCons(text[i], text[i + 1..]);
  }

  lemma EraseDropCommas(text: string)
    ensures Erase(DropCommas(text)) == Erase(text)
  {
    EraseDropCommasFrom(text, 0);
    assert text[0..] == text;
  }

  lemma {:induction false} EraseRepeat(c: char, n: nat)
    requires !Erasable(c)
    ensures Erase(Repeat(c, n)) == Repeat(c, n)
  {
    if n > 0 {
      assert Repeat(c, n)[1..] == Repeat(c, n - 1);
      EraseRepeat(c, n - 1);
    }
  }

  /** Counting a character that repair never deletes gives the same on the erased text. */
  lemma {:induction false} CountErase(s: string, c: char)
    requires !Erasable(c)
    ensures Count(Erase(s), c) == Count(s, c)
  {
    if s != [] {
      CountErase(s[1..], c);
      CountAppend(if Erasable(s[0]) then [] else [s[0]], Erase(s[1..]), c);
      assert Count([s[0]], c) == (if s[0] == c then 1 else 0) by { assert [s[0]][1..] == []; }
    }
  }

  /** Stripping trailing whitespace and then trailing commas deletes only erasable characters. */
  lemma EraseStripTail(s: string)
    ensures Erase(RStripWhile(RStrip(s), IsComma)) == Erase(s)
  {
    var r1 := RStrip(s);
    var r2 := RStripWhile(r1, IsComma);
    RStripWhileRemoves(s, IsSpace);
    EraseTrailing(s, |r1|);
    assert s[..|r1|] == r1;
    RStripWhileRemoves(r1, IsComma);
    EraseTrailing(r1, |r2|);
    assert r1[..|r2|] == r2;
  }

  /** The repaired text before its closers: commas and whitespace removed, nothing else. */
  function RepairBody(text: string): string
  {
    RStripWhile(RStrip(DropCommas(text)), IsComma)
  }

  lemma EraseRepairBody(text: string)
    ensures Erase(RepairBody(text)) == Erase(text)
  {
    EraseDropCommas(text);
    EraseStripTail(DropCommas(text));
  }

  /** Characters other than commas and whitespace are counted alike before and after repair's deletions. */
  lemma CountRepairBody(text: string, c: char)
    requires !Erasable(c)
    ensures Count(RepairBody(text), c) == Count(text, c)
  {
    EraseRepairBody(text);
    CountErase(RepairBody(text), c);
    CountErase(text, c);
  }

  /** `Repair` is its body followed by the closers the original text leaves open. */
  lemma RepairShape(text: string)
    ensures Repair(text) == RepairBody(text) + Closers(text)
  {
    ClosersDropCommas(text);
  }

  /** Dropping commas changes no count of brackets, so no closer. */
  lemma ClosersDropCommas(text: string)
    ensures Closers(DropCommas(text)) == Closers(text)
  {
    var dropped := DropCommas(text);
    CountDropCommas(text, '{');
    CountDropCommas(text, '}');
    CountDropCommas(text, '[');
    CountDropCommas(text, ']');
    assert Count(dropped, '{') - Count(dropped, '}') == Count(text, '{') - Count(text, '}');
    assert Count(dropped, '[') - Count(dropped, ']') == Count(text, '[') - Count(text, ']');
  }

  /** Dropping trailing commas leaves every other character's count alone. */
  lemma CountDropCommas(text: string, c: char)
    requires !Erasable(c)
    ensures Count(DropCommas(text), c) == Count(text, c)
  {
    EraseDropCommas(text);
    CountErase(DropCommas(text), c);
    CountErase(text, c);
  }

  /**
   * Repair deletes only commas and whitespace and then appends closing braces
   * before closing brackets: one `}` per unclosed `{` and one `]` per unclosed `[`.
   */
  lemma RepairOnlyDeletesAndCloses(text: string)
    ensures Erase(Repair(text)) == Erase(text) + Closers(text)
  {
    calc {
      Erase(Repair(text));
      { RepairShape(text); }
      Erase(RepairBody(text) + Closers(text));
      { EraseAppend(RepairBody(text), Closers(text)); }
      Erase(RepairBody(text)) + Erase(Closers(text));
      { EraseRepairBody(text); EraseClosers(text); }
      Erase(text) + Closers(text);
    }
  }

  /** Closers survive erasing. */
  lemma EraseClosers(text: string)
    ensures Erase(Closers(text)) == Closers(text)
  {
    var braces := Max0(Count(text, '{') - Count(text, '}'));
    var brackets := Max0(Count(text, '[') - Count(text, ']'));
    EraseAppend(Repeat('}', braces), Repeat(']', brackets));
    EraseRepeat('}', braces);
    EraseRepeat(']', brackets);
  }

  /** Counting one character in the repaired text. */
  lemma CountRepair(text: string, c: char)
    requires !Erasable(c)
    ensures Count(Repair(text), c) == Count(text, c) + Count(Closers(text), c)
  {
    RepairShape(text);
    CountAppend(RepairBody(text), Closers(text), c);
    CountRepairBody(text, c);
  }

  /** The closers hold one `}` per unclosed `{` and one `]` per unclosed `[`, and no opener. */
  lemma CountClosers(text: string)
    ensures Count(Closers(text), '{') == 0 && Count(Closers(text), '[') == 0
    ensures Count(Closers(text), '}') == Max0(Count(text, '{') - Count(text, '}'))
    ensures Count(Closers(text), ']') == Max0(Count(text, '[') - Count(text, ']'))
  {
    var braces := Max0(Count(text, '{') - Count(text, '}'));
    var brackets := Max0(Count(text, '[') - Count(text, ']'));
    CountAppend(Repeat('}', braces), Repeat(']', brackets), '{');
    CountAppend(Repeat('}', braces), Repeat(']', brackets), '}');
    CountAppend(Repeat('}', braces), Repeat(']', brackets), '[');
    CountAppend(Repeat('}', braces), Repeat(']', brackets), ']');
    CountRepeat('}', braces, '{');
    CountRepeat('}', braces, '}');
    CountRepeat('}', braces, '[');
    CountRepeat('}', braces, ']');
    CountRepeat(']', brackets, '{');
    CountRepeat(']', brackets, '}');
    CountRepeat(']', brackets, '[');
    CountRepeat(']', brackets, ']');
  }

  /**
   * After repair the brace excess (count of `{` minus count of `}`) is the
   * original excess when that was negative and zero otherwise; likewise for brackets.
   */
  lemma RepairBalances(text: string)
    ensures Count(Repair(text), '{') - Count(Repair(text), '}') == Min0(Count(text, '{') - Count(text, '}'))
    ensures Count(Repair(text), '[') - Count(Repair(text), ']') == Min0(Count(text, '[') - Count(text, ']'))
  {
    CountRepair(text, '{');
    CountRepair(text, '}');
    CountRepair(text, '[');
    CountRepair(text, ']');
    CountClosers(text);
  }

  function Min0(n: int): int { if n < 0 then n else 0 }

  /** No comma is followed (after optional whitespace) by a closer. */
  predicate NoCommaBeforeCloser(s: string)
  {
    forall i :: 0 <= i < |s| && s[i] == ',' ==> !CloserFollows(s, i)
  }

  lemma {:induction false} DropCommasFromIdentity(s: string, i: nat)
    requires i <= |s| && NoCommaBeforeCloser(s)
    ensures DropCommasFrom(s, i) == s[i..]
    decreases |s| - i
  {
    if i < |s| {
      DropCommasFromIdentity(s, i + 1);
      assert s[i..] == [s[i]] + s[i + 1..];
    }
  }

  /** Text that is already clean and balanced comes back unchanged from repair. */
  lemma RepairIdentity(text: string)
    requires NoCommaBeforeCloser(text)
    requires Count(text, '{') == Count(text, '}') && Count(text, '[') == Count(text, ']')
    requires text == [] || !Erasable(text[|text| - 1])
    ensures Repair(text) == text
  {
    RepairShape(text);
    CleanBody(text);
    BalancedClosers(text);
    assert text + [] == text;
  }

  /** Clean text, ending in neither whitespace nor a comma, is its own repair body. */
  lemma CleanBody(text: string)
    requires NoCommaBeforeCloser(text)
    requires text == [] || !Erasable(text[|text| - 1])
    ensures RepairBody(text) == text
  {
    DropCommasFromIdentity(text, 0);
    assert text[0..] == text;
    assert RStrip(text) == text;
  }

  /** Balanced text needs no closers. */
  lemma BalancedClosers(text: string)
    requires Count(text, '{') == Count(text, '}') && Count(text, '[') == Count(text, ']')
    ensures Closers(text) == []
  {
    assert Max0(Count(text, '{') - Count(text, '}')) == 0;
    assert Max0(Count(text, '[') - Count(text, ']')) == 0;
  }

  // ---------------------------------------------------------------------
  // Code fences (app/extractor.py:317-326)
  // ---------------------------------------------------------------------

  const Fence := "```"

  /**
   * `_strip_markdown_fences`: the stripped reply; when it opens with a fence,
   * its first line is dropped, then one closing fence, then surrounding whitespace.
   */
  function StripFences(raw: string): (r: string)
    ensures !StartsWith(Strip(raw), Fence) ==> r == Strip(raw)
  {
    var text := Strip(raw);
    if StartsWith(text, Fence) then
      var inner := Join(Split(text, '\n')[1..], "\n");
      Strip(if EndsWith(inner, Fence) then inner[..|inner| - |Fence|] else inner)
    else
      text
  }

  /** Whatever fences are removed, the result is a piece of the reply. */
  lemma StripFencesWithin(raw: string)
    ensures Contains(raw, StripFences(raw))
  {
    if StartsWith(Strip(raw), Fence) {
      FencedWithin(raw);
    } else {
      assert OccursAt(raw, Strip(raw), |raw| - |LStrip(raw)|);
    }
  }

  /** The body of a fenced reply is a piece of the reply. */
  lemma FencedWithin(raw: string)
    requires StartsWith(Strip(raw), Fence)
    ensures Contains(raw, StripFences(raw))
  {
    var text := Strip(raw);
    var inner := Join(Split(text, '\n')[1..], "\n");
    SplitTailIsSuffix(text, '\n');
    var unfenced := if EndsWith(inner, Fence) then inner[..|inner| - |Fence|] else inner;
    assert StripFences(raw) == Strip(unfenced);
    var n := if EndsWith(inner, Fence) then |inner| - |Fence| else |inner|;
    assert unfenced == inner[..n];
    PieceOccurs(raw, text, |raw| - |LStrip(raw)|, inner, n);
  }

  /** The stripped start of a suffix of an occurrence occurs in the outer text. */
  lemma PieceOccurs(raw: string, text: string, at: int, inner: string, n: nat)
    requires OccursAt(raw, text, at)
    requires SuffixOf(inner, text)
    requires n <= |inner|
    ensures Contains(raw, Strip(inner[..n]))
  {
    var piece := inner[..n];
    PrefixOfSuffix(text, inner, piece);
    OccursCompose(raw, text, piece, at, |text| - |inner|);
    StripOccurs(raw, piece, at + |text| - |inner|);
  }

  /** Dropping the first line of a text leaves one of its suffixes. */
  lemma {:induction false} SplitTailIsSuffix(s: string, sep: char)
    ensures SuffixOf(Join(Split(s, sep)[1..], [sep]), s)
  {
    if s != [] {
      var rest := Split(s[1..], sep);
      if s[0] == sep {
        assert Split(s, sep)[1..] == rest;
        JoinSplit(s[1..], sep);
      } else {
        assert Split(s, sep)[1..] == rest[1..];
        SplitTailIsSuffix(s[1..], sep);
      }
    }
  }

  /**
   * A reply that is exactly one fenced block, with an info string on the
   * opening line, comes back as the stripped block content.
   */
  lemma FencedBlock(info: string, body: string)
    requires forall k :: 0 <= k < |info| ==> info[k] != '\n'
    ensures StripFences(Fence + info + "\n" + body + "\n" + Fence) == Strip(body)
  {
    var rest := body + "\n" + Fence;
    var block := Fence + info + "\n" + body + "\n" + Fence;
    assert block == (Fence + info) + ['\n'] + rest;
    OpeningFence(info, rest);
    assert Join(Split(block, '\n')[1..], "\n") == rest;
    assert EndsWith(rest, Fence);
    assert rest[..|rest| - |Fence|] == body + "\n";
    StripAppendSpace(body, '\n');
  }

  /** A block opening with a fence line is unchanged by stripping, and loses exactly its first line. */
  lemma OpeningFence(info: string, rest: string)
    requires forall k :: 0 <= k < |info| ==> info[k] != '\n'
    requires rest != [] && rest[|rest| - 1] == '`'
    ensures var block := (Fence + info) + ['\n'] + rest;
            Strip(block) == block && StartsWith(block, Fence) && Join(Split(block, '\n')[1..], "\n") == rest
  {
    var block := (Fence + info) + ['\n'] + rest;
    StripUnchanged(block);
    assert block[..|Fence|] == Fence;
    SplitFirstLine(Fence + info, rest, '\n');
    JoinSplit(rest, '\n');
  }

  // ---------------------------------------------------------------------
  // Partial extraction (app/extractor.py:397-421)
  // ---------------------------------------------------------------------

  /** The fragment `text[start..end]`. */
  datatype Span = Span(start: nat, end: nat)

  /** A span of `text` that starts at or after `lower` with `{` and ends with `}`. */
  predicate BraceSpan(text: string, sp: Span, lower: nat)
  {
    lower <= sp.start < sp.end <= |text| && text[sp.start] == '{' && text[sp.end - 1] == '}'
  }

  /** Spans in left-to-right order, none overlapping the next. */
  predicate Ordered(spans: seq<Span>)
  {
    forall k :: 0 <= k < |spans| - 1 ==> spans[k].end <= spans[k + 1].start
  }

  /**
   * The spans the depth counter of `_extract_partial_json` closes, scanning
   * from index `i` with the given depth and the start of the open span.
   */
  function ScanSpans(text: string, i: nat, depth: int, start: Option<nat>): seq<Span>
    requires i <= |text|
    decreases |text| - i
  {
    if i == |text| then []
    else if text[i] == '{' then
      ScanSpans(text, i + 1, depth + 1, if depth == 0 then Some(i) else start)
    else if text[i] == '}' then
      if depth - 1 == 0 && start.Some? then
        [Span(start.value, i + 1)] + ScanSpans(text, i + 1, 0, None)
      else
        ScanSpans(text, i + 1, depth - 1, start)
    else
      ScanSpans(text, i + 1, depth, start)
  }

  function Spans(text: string): seq<Span>
  {
    ScanSpans(text, 0, 0, None)
  }

  /** The spans closed from index `i` on start with `{`, end with `}`, and come in order. */
  lemma {:induction false} ScanSpansShape(text: string, i: nat, depth: int, start: Option<nat>)
    requires i <= |text|
    requires start.Some? ==> start.value < i && text[start.value] == '{'
    ensures Ordered(ScanSpans(text, i, depth, start))
    ensures forall k :: 0 <= k < |ScanSpans(text, i, depth, start)| ==>
              BraceSpan(text, ScanSpans(text, i, depth, start)[k], if start.Some? then start.value else i)
    decreases |text| - i
  {
    if i < |text| {
      if text[i] == '{' {
        ScanSpansShape(text, i + 1, depth + 1, if depth == 0 then Some(i) else start);
      } else if text[i] == '}' {
        if depth - 1 == 0 && start.Some? {
          ScanSpansShape(text, i + 1, 0, None);
          var rest := ScanSpans(text, i + 1, 0, None);
          var all := [Span(start.value, i + 1)] + rest;
          assert all[1..] == rest;
        } else {
          ScanSpansShape(text, i + 1, depth - 1, start);
        }
      } else {
        ScanSpansShape(text, i + 1, depth, start);
      }
    }
  }

  /** The fragments `_extract_partial_json` parses are `{...}` spans of the text, in left-to-right order. */
  lemma SpansShape(text: string)
    ensures Ordered(Spans(text))
    ensures forall k :: 0 <= k < |Spans(text)| ==> BraceSpan(text, Spans(text)[k], 0)
  {
    ScanSpansShape(text, 0, 0, None);
  }

  /** How many more `{` than `}` a string holds. */
  function Excess(s: string): int
  {
    Count(s, '{') - Count(s, '}')
  }

  lemma ExcessStep(text: string, s: nat, i: nat)
    requires s <= i < |text|
    ensures Excess(text[s..i + 1]) ==
              Excess(text[s..i]) + (if text[i] == '{' then 1 else if text[i] == '}' then -1 else 0)
  {
    assert text[s..i + 1] == text[s..i] + [text[i]];
    CountAppend(text[s..i], [text[i]], '{');
    CountAppend(text[s..i], [text[i]], '}');
    assert [text[i]][1..] == [];
  }

  /**
   * What the scan state means: a span is open exactly when the depth is
   * positive, and then the depth is the excess of `{` since the span's start,
   * which has stayed positive since.
   */
  predicate DepthTracksOpenSpan(text: string, i: nat, depth: int, start: Option<nat>)
    requires i <= |text|
  {
    (start.Some? <==> depth >= 1) &&
    (start.Some? ==>
       start.value < i && depth == Excess(text[start.value..i]) &&
       forall p :: start.value < p <= i ==> Excess(text[start.value..p]) >= 1)
  }

  /** A closed span is balanced, and every proper prefix of it leaves a `{` open: it is a top-level `{...}`. */
  predicate TopLevel(text: string, sp: Span)
  {
    sp.start < sp.end <= |text| && Excess(text[sp.start..sp.end]) == 0 &&
    forall p :: sp.start < p < sp.end ==> Excess(text[sp.start..p]) >= 1
  }

  lemma {:induction false} ScanSpansTopLevel(text: string, i: nat, depth: int, start: Option<nat>)
    requires i <= |text| && DepthTracksOpenSpan(text, i, depth, start)
    ensures forall k :: 0 <= k < |ScanSpans(text, i, depth, start)| ==> TopLevel(text, ScanSpans(text, i, depth, start)[k])
    decreases |text| - i
  {
    if i < |text| {
      if text[i] == '{' {
        OpenBraceTracked(text, i, depth, start);
        ScanSpansTopLevel(text, i + 1, depth + 1, if depth == 0 then Some(i) else start);
      } else if text[i] == '}' {
        CloseBraceTracked(text, i, depth, start);
        if depth - 1 == 0 && start.Some? {
          ScanSpansTopLevel(text, i + 1, 0, None);
          TopLevelCons(text, Span(start.value, i + 1), ScanSpans(text, i + 1, 0, None));
        } else {
          ScanSpansTopLevel(text, i + 1, depth - 1, start);
        }
      } else {
        OtherCharTracked(text, i, depth, start);
        ScanSpansTopLevel(text, i + 1, depth, start);
      }
    }
  }

  /** A `{` opens a span at depth 0 and deepens an open one. */
  lemma OpenBraceTracked(text: string, i: nat, depth: int, start: Option<nat>)
    requires i < |text| && text[i] == '{' && DepthTracksOpenSpan(text, i, depth, start)
    ensures DepthTracksOpenSpan(text, i + 1, depth + 1, if depth == 0 then Some(i) else start)
  {
    if start.Some? {
      ExcessStep(text, start.value, i);
    }
    if depth == 0 {
      ExcessStep(text, i, i);
      assert text[i..i] == [];
    }
  }

  /** A `}` that brings the depth back to 0 closes a top-level span; otherwise it only lowers the depth. */
  lemma CloseBraceTracked(text: string, i: nat, depth: int, start: Option<nat>)
    requires i < |text| && text[i] == '}' && DepthTracksOpenSpan(text, i, depth, start)
    ensures depth - 1 == 0 && start.Some? ==> TopLevel(text, Span(start.value, i + 1)) && DepthTracksOpenSpan(text, i + 1, 0, None)
    ensures !(depth - 1 == 0 && start.Some?) ==> DepthTracksOpenSpan(text, i + 1, depth - 1, start)
  {
    if start.Some? {
      ExcessStep(text, start.value, i);
    }
  }

  /** Any other character leaves the depth alone. */
  lemma OtherCharTracked(text: string, i: nat, depth: int, start: Option<nat>)
    requires i < |text| && text[i] != '{' && text[i] != '}' && DepthTracksOpenSpan(text, i, depth, start)
    ensures DepthTracksOpenSpan(text, i + 1, depth, start)
  {
    if start.Some? {
      ExcessStep(text, start.value, i);
    }
  }

  lemma TopLevelCons(text: string, sp: Span, rest: seq<Span>)
    requires TopLevel(text, sp) && forall k :: 0 <= k < |rest| ==> TopLevel(text, rest[k])
    ensures forall k :: 0 <= k < |[sp] + rest| ==> TopLevel(text, ([sp] + rest)[k])
  {
    assert forall k :: 0 < k < |[sp] + rest| ==> ([sp] + rest)[k] == rest[k - 1];
  }

  /** Every fragment partial extraction parses is a balanced, top-level `{...}` span. */
  lemma SpansTopLevel(text: string)
    ensures forall k :: 0 <= k < |Spans(text)| ==> TopLevel(text, Spans(text)[k])
  {
    ScanSpansTopLevel(text, 0, 0, None);
  }

  predicate IsTitled(parsed: Option<JValue>)
  {
    parsed.Some? && IsObjectWith(parsed.value, "title")
  }

  /** The text of a span (Python's slice `text[start:end]`, here always within bounds). */
  function Fragment(text: string, sp: Span): string
  {
    if sp.start <= sp.end <= |text| then text[sp.start..sp.end] else []
  }

  /** The span's fragment when it parses to an object with a "title" key. */
  function TitledObjectAt(codec: JsonCodec, text: string, sp: Span): (r: Option<JValue>)
    ensures r.Some? <==> IsTitled(codec.parse(Fragment(text, sp)))
    ensures r.Some? ==> Some(r.value) == codec.parse(Fragment(text, sp))
  {
    var parsed := codec.parse(Fragment(text, sp));
    if IsTitled(parsed) then parsed else None
  }

  /** The titled objects of the given spans, in span order. */
  function TitledObjects(codec: JsonCodec, text: string, spans: seq<Span>): seq<JValue>
  {
    if spans == [] then []
    else
      match TitledObjectAt(codec, text, spans[0])
      case Some(o) => [o] + TitledObjects(codec, text, spans[1..])
      case None => TitledObjects(codec, text, spans[1..])
  }

  /** Every titled object comes from one of the spans, and there is one for every span whose fragment parses to a titled object. */
  lemma {:induction false} TitledObjectsFromSpans(codec: JsonCodec, text: string, spans: seq<Span>)
    ensures |TitledObjects(codec, text, spans)| <= |spans|
    ensures forall o :: o in TitledObjects(codec, text, spans) ==>
              IsObjectWith(o, "title") && exists k :: 0 <= k < |spans| && TitledObjectAt(codec, text, spans[k]) == Some(o)
    ensures TitledObjects(codec, text, spans) == [] <==>
              forall k :: 0 <= k < |spans| ==> TitledObjectAt(codec, text, spans[k]).None?
  {
    if spans != [] {
      TitledObjectsFromSpans(codec, text, spans[1..]);
      assert forall k :: 0 < k < |spans| ==> spans[k] == spans[1..][k - 1];
      forall o | o in TitledObjects(codec, text, spans[1..])
        ensures exists k :: 0 <= k < |spans| && TitledObjectAt(codec, text, spans[k]) == Some(o)
      {
        var k :| 0 <= k < |spans[1..]| && TitledObjectAt(codec, text, spans[1..][k]) == Some(o);
        assert TitledObjectAt(codec, text, spans[k + 1]) == Some(o);
      }
      if TitledObjectAt(codec, text, spans[0]).Some? {
        assert TitledObjectAt(codec, text, spans[0]) == Some(TitledObjectAt(codec, text, spans[0]).value);
      }
    }
  }

  /** What `_extract_partial_json` returns: the titled objects, or None when there are none. */
  function PartialJson(codec: JsonCodec, text: string): Option<seq<JValue>>
  {
    var objects := TitledObjects(codec, text, Spans(text));
    if objects == [] then None else Some(objects)
  }

  /**
   * Partial extraction never yields an empty list: it is None exactly when no
   * span parses to an object with a "title", and otherwise every element is
   * such an object, parsed from one of the spans.
   */
  lemma PartialJsonNeverEmpty(codec: JsonCodec, text: string)
    ensures PartialJson(codec, text).Some? ==> PartialJson(codec, text).value != []
    ensures PartialJson(codec, text).None? <==>
              forall k :: 0 <= k < |Spans(text)| ==> !IsTitled(codec.parse(Fragment(text, Spans(text)[k])))
    ensures PartialJson(codec, text).Some? ==> forall o :: o in PartialJson(codec, text).value ==>
              IsObjectWith(o, "title") &&
              exists k :: 0 <= k < |Spans(text)| && codec.parse(Fragment(text, Spans(text)[k])) == Some(o)
  {
    var spans := Spans(text);
    SpansShape(text);
    TitledObjectsFromSpans(codec, text, spans);
  }

  /**
   * One iteration of the scan in `_extract_partial_json` at index `i`: the new
   * depth and open-span start, and the object found when a span closes.
   */
  method PartialStep(codec: JsonCodec, text: string, i: nat, depth: int, start: Option<nat>)
    returns (found: seq<JValue>, depth': int, start': Option<nat>)
    requires i < |text|
    requires start.Some? ==> start.value < i
    ensures start'.Some? ==> start'.value < i + 1
    ensures TitledObjects(codec, text, ScanSpans(text, i, depth, start)) ==
              found + TitledObjects(codec, text, ScanSpans(text, i + 1, depth', start'))
  {
    found, depth', start' := [], depth, start;
    if text[i] == '{' {
      if depth == 0 {
        start' := Some(i);
      }
      depth' := depth + 1;
    } else if text[i] == '}' {
      depth' := depth - 1;
      if depth' == 0 && start.Some? {
        var fragment := text[start.value..i + 1];
        var parsed := codec.parse(fragment);
        if parsed.Some? && parsed.value.JObj? && "title" in parsed.value.fields {
          found := [parsed.value];
        }
        start' := None;
        TitledCons(codec, text, Span(start.value, i + 1), ScanSpans(text, i + 1, 0, None));
      }
    }
  }

  lemma TitledCons(codec: JsonCodec, text: string, sp: Span, rest: seq<Span>)
    ensures TitledObjects(codec, text, [sp] + rest) ==
              (match TitledObjectAt(codec, text, sp) case Some(o) => [o] case None => []) + TitledObjects(codec, text, rest)
  {
    assert ([sp] + rest)[1..] == rest;
  }

  /** `_extract_partial_json`: track the brace depth and parse every top-level `{...}` span it closes. */
  method ExtractPartialJson(codec: JsonCodec, text: string) returns (r: Option<seq<JValue>>)
    ensures r == PartialJson(codec, text)
  {
    var results: seq<JValue> := [];
    var depth := 0;
    var start: Option<nat> := None;
    var i := 0;
    while i < |text|
      invariant 0 <= i <= |text|
      invariant start.Some? ==> start.value < i
      invariant results + TitledObjects(codec, text, ScanSpans(text, i, depth, start)) == TitledObjects(codec, text, Spans(text))
    {
      var found;
      found, depth, start := PartialStep(codec, text, i, depth, start);
      results := results + found;
      i := i + 1;
    }
    assert ScanSpans(text, i, depth, start) == [];
    assert results + [] == results;
    assert results == TitledObjects(codec, text, Spans(text));
    r := if results != [] then Some(results) else None;
  }

  // ---------------------------------------------------------------------
  // Staged parsing of a reply (app/extractor.py:329-351)
  // ---------------------------------------------------------------------

  /**
   * What `_parse_json_response` returns: the parse of the fence-stripped text;
   * failing that, the parse of its repair; failing that, the salvaged objects
   * as a list; None when all three fail. `Some(JNull)` is a reply that parsed
   * to JSON `null`, which the callers treat like None.
   */
  function ParsedReply(codec: JsonCodec, raw: string): Option<JValue>
  {
    var text := StripFences(raw);
    match codec.parse(text)
    case Some(v) => Some(v)
    case None =>
      match codec.parse(Repair(text))
      case Some(v) => Some(v)
      case None =>
        match PartialJson(codec, text)
        case Some(objects) => Some(JArr(objects))
        case None => None
  }

  /**
   * The stages come in order: repair is used only when the direct parse fails,
   * salvage only when the repaired parse fails too, and the result is None only
   * when all three fail. A salvaged result is a non-empty list of titled objects.
   */
  lemma ParseStages(codec: JsonCodec, raw: string)
    ensures codec.parse(StripFences(raw)).Some? ==> ParsedReply(codec, raw) == codec.parse(StripFences(raw))
    ensures codec.parse(StripFences(raw)).None? && codec.parse(Repair(StripFences(raw))).Some? ==>
              ParsedReply(codec, raw) == codec.parse(Repair(StripFences(raw)))
    ensures ParsedReply(codec, raw).None? <==>
              codec.parse(StripFences(raw)).None? && codec.parse(Repair(StripFences(raw))).None? &&
              PartialJson(codec, StripFences(raw)).None?
    ensures codec.parse(StripFences(raw)).None? && codec.parse(Repair(StripFences(raw))).None? &&
            ParsedReply(codec, raw).Some? ==>
              ParsedReply(codec, raw).value.JArr? && ParsedReply(codec, raw).value.items != [] &&
              forall o :: o in ParsedReply(codec, raw).value.items ==> IsObjectWith(o, "title")
  {
    PartialJsonNeverEmpty(codec, StripFences(raw));
  }

  /** `_parse_json_response`, without the diagnostic file written when every stage fails. */
  method ParseJsonResponse(codec: JsonCodec, raw: string) returns (r: Option<JValue>)
    ensures r == ParsedReply(codec, raw)
  {
    var text := StripFences(raw);
    r := codec.parse(text);
    if r.Some? {
      return;
    }
    var repaired := RepairJson(text);
    r := codec.parse(repaired);
    if r.Some? {
      return;
    }
    var partial := ExtractPartialJson(codec, text);
    if partial.Some? {
      return Some(JArr(partial.value));
    }
    return None;
  }

  // ---------------------------------------------------------------------
  // Events from a reply (app/extractor.py:354-394)
  // ---------------------------------------------------------------------

  /** The keys under which an object reply may wrap its list, tried in order. */
  function WrapperKeys(forLinks: bool): seq<string>
  {
    if forLinks then ["links", "urls", "data", "results"] else ["events", "data", "results"]
  }

  /** The message of the `ValueError` for a reply that is not JSON, or for JSON that is not a list. */
  function ReplyProblem(notList: bool): string
  {
    if notList then "Expected a JSON array" else "Could not parse LLM response as JSON"
  }

  /**
   * The fields of a dict item that `Event(...)` accepts: every value present
   * validates as its field's type (an absent one takes the call's default).
   */
  predicate FieldsValidate(f: map<string, JValue>)
  {
    (forall key :: key in f && key in StrFields ==> AsStr(f[key]).Some?) &&
    (forall key :: key in f && key in OptStrFields ==> AsOptStr(f[key]).Some?) &&
    ("price" in f ==> AsOptInt(f["price"]).Some?) &&
    ("artists" in f ==> AsStrList(f["artists"]).Some?)
  }

  /** The keys `Event(...)` reads as `str` and as `Optional[str]`. */
  const StrFields: set<string> := {"title", "date"}
  const OptStrFields: set<string> := {"time_open", "time_start", "price_text", "image_url", "detail_url"}

  /**
   * One item of the reply as an `Event`, or None when it is skipped: an item
   * that is not a dict has no `.get`, and a dict whose values do not validate
   * fails the `Event` constructor. Missing keys take the defaults of the call.
   */
  function EventFromItem(codec: JsonCodec, item: JValue, venueId: string, now: DateTime): (r: Option<Event>)
    ensures r.Some? <==> item.JObj? && FieldsValidate(item.fields)
    ensures r.Some? ==> r.value.venueId == venueId && r.value.scrapedAt == now && r.value.rawText == Some(codec.dump(item))
    ensures r.Some? ==> (if "title" in item.fields then item.fields["title"] == JStr(r.value.title) else r.value.title == "Unknown")
    ensures r.Some? ==> (if "date" in item.fields then item.fields["date"] == JStr(r.value.date) else r.value.date == "")
    ensures r.Some? ==> Some(r.value.timeOpen) == AsOptStr(GetOr(item.fields, "time_open", JNull)) &&
                        Some(r.value.timeStart) == AsOptStr(GetOr(item.fields, "time_start", JNull)) &&
                        Some(r.value.price) == AsOptInt(GetOr(item.fields, "price", JNull)) &&
                        Some(r.value.priceText) == AsOptStr(GetOr(item.fields, "price_text", JNull)) &&
                        Some(r.value.imageUrl) == AsOptStr(GetOr(item.fields, "image_url", JNull))
    ensures r.Some? ==> (if "artists" in item.fields then AsStrList(item.fields["artists"]) == Some(r.value.artists)
                         else r.value.artists == [])
    ensures r.Some? ==> (if "detail_url" in item.fields then AsOptStr(item.fields["detail_url"]) == Some(r.value.detailUrl)
                         else r.value.detailUrl == None)
    ensures item.JObj? && "title" in item.fields && !item.fields["title"].JStr? ==> r.None?
  {
    if !item.JObj? then None
    else
      var f := item.fields;
      var title := AsStr(GetOr(f, "title", JStr("Unknown")));
      var date := AsStr(GetOr(f, "date", JStr("")));
      var timeOpen := AsOptStr(GetOr(f, "time_open", JNull));
      var timeStart := AsOptStr(GetOr(f, "time_start", JNull));
      var price := AsOptInt(GetOr(f, "price", JNull));
      var priceText := AsOptStr(GetOr(f, "price_text", JNull));
      var artists := AsStrList(GetOr(f, "artists", JArr([])));
      var imageUrl := AsOptStr(GetOr(f, "image_url", JNull));
      var detailUrl := AsOptStr(GetOr(f, "detail_url", JNull));
      if title.Some? && date.Some? && timeOpen.Some? && timeStart.Some? && price.Some? &&
         priceText.Some? && artists.Some? && imageUrl.Some? && detailUrl.Some? then
        Some(Event(venueId, title.value, date.value, timeOpen.value, timeStart.value, price.value,
                   priceText.value, artists.value, imageUrl.value, detailUrl.value,
                   Some(codec.dump(item)), now))
      else None
  }

  /** An empty dict becomes the default event: title "Unknown", empty date, no artists, nothing else set. */
  lemma EmptyItemIsDefaultEvent(codec: JsonCodec, venueId: string, now: DateTime)
    ensures EventFromItem(codec, JObj(map[]), venueId, now) ==
              Some(NewEvent(venueId, "Unknown", "", now).(rawText := Some(codec.dump(JObj(map[])))))
  {
  }

  /** The events of the items, in item order, skipping the items that do not validate. */
  function EventsFromItems(codec: JsonCodec, items: seq<JValue>, venueId: string, now: DateTime): seq<Event>
  {
    if items == [] then []
    else
      var init := EventsFromItems(codec, items[..|items| - 1], venueId, now);
      match EventFromItem(codec, items[|items| - 1], venueId, now)
      case Some(e) => init + [e]
      case None => init
  }

  /**
   * Mapping items keeps their order and only drops: there are at most as many
   * events as items, exactly as many when every item validates, each event
   * comes from one of the items, and all carry the venue and the one timestamp.
   */
  lemma {:induction false} EventsFromItemsProperties(codec: JsonCodec, items: seq<JValue>, venueId: string, now: DateTime)
    ensures |EventsFromItems(codec, items, venueId, now)| <= |items|
    ensures (forall k :: 0 <= k < |items| ==> EventFromItem(codec, items[k], venueId, now).Some?) ==>
              |EventsFromItems(codec, items, venueId, now)| == |items|
    ensures forall e :: e in EventsFromItems(codec, items, venueId, now) ==>
              e.venueId == venueId && e.scrapedAt == now &&
              exists k :: 0 <= k < |items| && EventFromItem(codec, items[k], venueId, now) == Some(e)
  {
    if items != [] {
      var init := items[..|items| - 1];
      EventsFromItemsProperties(codec, init, venueId, now);
      assert forall k :: 0 <= k < |init| ==> init[k] == items[k];
    }
  }

  /** Mapping a concatenation maps each part in turn. */
  lemma {:induction false} EventsFromItemsAppend(codec: JsonCodec, a: seq<JValue>, b: seq<JValue>, venueId: string, now: DateTime)
    ensures EventsFromItems(codec, a + b, venueId, now) ==
              EventsFromItems(codec, a, venueId, now) + EventsFromItems(codec, b, venueId, now)
    decreases |b|
  {
    if b == [] {
      assert a + b == a;
    } else {
      var b' := b[..|b| - 1];
      assert (a + b)[..|a + b| - 1] == a + b';
      EventsFromItemsAppend(codec, a, b', venueId, now);
    }
  }

  /** What `_parse_llm_response_as_events` makes of the parsed reply. */
  function EventsFromParsed(codec: JsonCodec, parsed: Option<JValue>, venueId: string, now: DateTime): Result<seq<Event>>
  {
    if parsed.None? || parsed.value.JNull? then Err(ValueError(ReplyProblem(false)))
    else
      var unwrapped := Unwrap(parsed.value, WrapperKeys(false));
      if !unwrapped.JArr? then Err(ValueError(ReplyProblem(true)))
      else Ok(EventsFromItems(codec, unwrapped.items, venueId, now))
  }

  /** What `_parse_llm_response_as_events` returns for a reply. */
  function EventsFromReply(codec: JsonCodec, raw: string, venueId: string, now: DateTime): Result<seq<Event>>
  {
    EventsFromParsed(codec, ParsedReply(codec, raw), venueId, now)
  }

  /**
   * The shape of the parse decides the outcome: an unparsable reply (or JSON
   * `null`) is a ValueError; a list is mapped item by item; a dict is replaced
   * by its value under the first of events/data/results it has, or else
   * becomes a one-item list; a scalar is a ValueError.
   */
  lemma EventsFromParsedShapes(codec: JsonCodec, parsed: Option<JValue>, venueId: string, now: DateTime)
    ensures parsed.None? || parsed == Some(JNull) ==>
              EventsFromParsed(codec, parsed, venueId, now) == Err(ValueError(ReplyProblem(false)))
    ensures parsed.Some? && parsed.value.JArr? ==>
              EventsFromParsed(codec, parsed, venueId, now) == Ok(EventsFromItems(codec, parsed.value.items, venueId, now))
    ensures parsed.Some? && parsed.value.JObj? &&
            "events" !in parsed.value.fields && "data" !in parsed.value.fields && "results" !in parsed.value.fields ==>
              EventsFromParsed(codec, parsed, venueId, now) == Ok(EventsFromItems(codec, [parsed.value], venueId, now))
    ensures parsed.Some? && parsed.value.JObj? && "events" in parsed.value.fields ==>
              EventsFromParsed(codec, parsed, venueId, now) == EventsUnder(codec, parsed.value.fields["events"], venueId, now)
    ensures parsed.Some? && parsed.value.JObj? && "events" !in parsed.value.fields && "data" in parsed.value.fields ==>
              EventsFromParsed(codec, parsed, venueId, now) == EventsUnder(codec, parsed.value.fields["data"], venueId, now)
    ensures parsed.Some? && parsed.value.JObj? &&
            "events" !in parsed.value.fields && "data" !in parsed.value.fields && "results" in parsed.value.fields ==>
              EventsFromParsed(codec, parsed, venueId, now) == EventsUnder(codec, parsed.value.fields["results"], venueId, now)
    ensures parsed.Some? && (parsed.value.JStr? || parsed.value.JNum? || parsed.value.JBool?) ==>
              EventsFromParsed(codec, parsed, venueId, now) == Err(ValueError(ReplyProblem(true)))
  {
    if parsed.Some? && parsed.value.JObj? {
      var f := parsed.value.fields;
      if "events" in f {
        UnwrapFirstPresent(parsed.value, WrapperKeys(false), 0);
      } else if "data" in f {
        UnwrapFirstPresent(parsed.value, WrapperKeys(false), 1);
      } else if "results" in f {
        UnwrapFirstPresent(parsed.value, WrapperKeys(false), 2);
      }
    }
  }

  /** The events of the value found under a wrapper key: its items when it is a list, a `ValueError` otherwise. */
  function EventsUnder(codec: JsonCodec, inner: JValue, venueId: string, now: DateTime): Result<seq<Event>>
  {
    if inner.JArr? then Ok(EventsFromItems(codec, inner.items, venueId, now)) else Err(ValueError(ReplyProblem(true)))
  }

  /** `_parse_llm_response_as_events`: parse, unwrap, then map the items one by one, skipping invalid ones. */
  method ParseLlmResponseAsEvents(codec: JsonCodec, raw: string, venueId: string, now: DateTime)
    returns (r: Result<seq<Event>>)
    ensures r == EventsFromReply(codec, raw, venueId, now)
  {
    var parsed := ParseJsonResponse(codec, raw);
    if parsed.None? || parsed.value.JNull? {
      return Err(ValueError(ReplyProblem(false)));
    }
    var unwrapped := Unwrap(parsed.value, WrapperKeys(false));
    if !unwrapped.JArr? {
      return Err(ValueError(ReplyProblem(true)));
    }
    var items := unwrapped.items;
    var events: seq<Event> := [];
    var i := 0;
    while i < |items|
      invariant 0 <= i <= |items|
      invariant events == EventsFromItems(codec, items[..i], venueId, now)
    {
      var event := EventFromItem(codec, items[i], venueId, now);
      EventsFromItemsStep(codec, items, i, venueId, now);
      if event.Some? {
        events := events + [event.value];
      }
      i := i + 1;
    }
    assert items[..i] == items;
    return Ok(events);
  }

  /** One more item adds its event, if it has one, at the end. */
  lemma EventsFromItemsStep(codec: JsonCodec, items: seq<JValue>, i: nat, venueId: string, now: DateTime)
    requires i < |items|
    ensures EventsFromItems(codec, items[..i + 1], venueId, now) ==
            EventsFromItems(codec, items[..i], venueId, now)
              + (match EventFromItem(codec, items[i], venueId, now) case Some(e) => [e] case None => [])
  {
    assert items[..i + 1][..i] == items[..i];
  }

  // ---------------------------------------------------------------------
  // Links from a reply (app/extractor.py:529-549)
  // ---------------------------------------------------------------------

  /** An item `extract_links` keeps: a dict whose "url" is present and truthy. */
  predicate IsLink(item: JValue)
  {
    item.JObj? && "url" in item.fields && Truthy(item.fields["url"])
  }

  /** The list comprehension of `extract_links`. */
  function LinkItems(items: seq<JValue>): (r: seq<JValue>)
    ensures |r| <= |items|
    ensures forall x :: x in r <==> x in items && IsLink(x)
  {
    if items == [] then []
    else
      var rest := LinkItems(items[1..]);
      assert forall x :: x in items <==> x == items[0] || x in items[1..];
      if IsLink(items[0]) then [items[0]] + rest else rest
  }

  /** What `extract_links` makes of the parsed reply: [] when it did not parse or does not unwrap to a list. */
  function LinksFromParsed(parsed: Option<JValue>): (r: seq<JValue>)
    ensures forall x :: x in r ==> IsLink(x)
  {
    if parsed.None? || parsed.value.JNull? then []
    else
      var unwrapped := Unwrap(parsed.value, WrapperKeys(true));
      if !unwrapped.JArr? then [] else LinkItems(unwrapped.items)
  }

  function LinksFromReply(codec: JsonCodec, raw: string): seq<JValue>
  {
    LinksFromParsed(ParsedReply(codec, raw))
  }

  /**
   * Links are unwrapped by links/urls/data/results: a list is filtered; a dict
   * with none of the keys is a one-item list, kept when it is itself a link;
   * a scalar, JSON `null` or a failed parse gives no links.
   */
  lemma LinksFromParsedShapes(parsed: Option<JValue>)
    ensures parsed.None? ==> LinksFromParsed(parsed) == []
    ensures parsed.Some? && parsed.value.JArr? ==> LinksFromParsed(parsed) == LinkItems(parsed.value.items)
    ensures parsed.Some? && parsed.value.JObj? && "links" !in parsed.value.fields && "urls" !in parsed.value.fields &&
            "data" !in parsed.value.fields && "results" !in parsed.value.fields ==>
              LinksFromParsed(parsed) == (if IsLink(parsed.value) then [parsed.value] else [])
    ensures parsed.Some? && parsed.value.JObj? && "links" in parsed.value.fields ==>
              LinksFromParsed(parsed) == LinksUnder(parsed.value.fields["links"])
    ensures parsed.Some? && parsed.value.JObj? && "links" !in parsed.value.fields && "urls" in parsed.value.fields ==>
              LinksFromParsed(parsed) == LinksUnder(parsed.value.fields["urls"])
    ensures parsed.Some? && parsed.value.JObj? && "links" !in parsed.value.fields && "urls" !in parsed.value.fields &&
            "data" in parsed.value.fields ==>
              LinksFromParsed(parsed) == LinksUnder(parsed.value.fields["data"])
    ensures parsed.Some? && parsed.value.JObj? && "links" !in parsed.value.fields && "urls" !in parsed.value.fields &&
            "data" !in parsed.value.fields && "results" in parsed.value.fields ==>
              LinksFromParsed(parsed) == LinksUnder(parsed.value.fields["results"])
    ensures parsed.Some? && (parsed.value.JStr? || parsed.value.JNum? || parsed.value.JBool? || parsed.value.JNull?) ==>
              LinksFromParsed(parsed) == []
  {
    if parsed.Some? && parsed.value.JObj? {
      var f := parsed.value.fields;
      if "links" in f {
        UnwrapFirstPresent(parsed.value, WrapperKeys(true), 0);
      } else if "urls" in f {
        UnwrapFirstPresent(parsed.value, WrapperKeys(true), 1);
      } else if "data" in f {
        UnwrapFirstPresent(parsed.value, WrapperKeys(true), 2);
      } else if "results" in f {
        UnwrapFirstPresent(parsed.value, WrapperKeys(true), 3);
      }
      var one := [parsed.value];
      assert one[1..] == [];
    }
  }

  /** The links of the value found under a wrapper key: its link items when it is a list, none otherwise. */
  function LinksUnder(inner: JValue): seq<JValue>
  {
    if inner.JArr? then LinkItems(inner.items) else []
  }

  // ---------------------------------------------------------------------
  // Public extraction functions (app/extractor.py:429-549)
  // ---------------------------------------------------------------------

  /** The events the n-th request yields: an HTTP failure propagates, a reply is parsed into events. */
  function ReplyEvents(complete: (nat, SystemPrompt, UserPrompt) -> Option<string>, codec: JsonCodec, n: nat,
                       system: SystemPrompt, user: UserPrompt, venueId: string, now: DateTime): Result<seq<Event>>
  {
    match Answer(complete, n, system, user)
    case Err(e) => Err(e)
    case Ok(raw) => EventsFromReply(codec, raw, venueId, now)
  }

  /** The links the n-th request with the link prompts yields. */
  function ReplyLinks(complete: (nat, SystemPrompt, UserPrompt) -> Option<string>, codec: JsonCodec, n: nat,
                      user: UserPrompt): (r: Result<seq<JValue>>)
    ensures r.Ok? ==> forall x :: x in r.value ==> IsLink(x)
  {
    match Answer(complete, n, LinkInstructions, user)
    case Err(e) => Err(e)
    case Ok(raw) => Ok(LinksFromReply(codec, raw))
  }

  /** `extract_events`: one model request with the page-type prompts, its reply parsed into events. */
  method ExtractEvents(client: ModelClient, codec: JsonCodec, content: string, venueId: string, venueName: string,
                       extra: Option<string>, pageType: PageType, expectedTitle: Option<string>,
                       expectedDate: Option<string>, isJson: bool, now: DateTime)
    returns (r: Result<seq<Event>>)
    modifies client
    ensures var user := PagePrompt(content, venueName, extra, pageType, expectedTitle, expectedDate, isJson);
            var n := |old(client.exchanges)|;
            client.exchanges == old(client.exchanges) +
                                [Exchange(SystemPromptFor(pageType), user, client.complete(n, SystemPromptFor(pageType), user))] &&
            r == ReplyEvents(client.complete, codec, n, SystemPromptFor(pageType), user, venueId, now)
  {
    var user := PagePrompt(content, venueName, extra, pageType, expectedTitle, expectedDate, isJson);
    var raw := client.Call(SystemPromptFor(pageType), user);
    if raw.Err? {
      return Err(raw.error);
    }
    r := ParseLlmResponseAsEvents(codec, raw.value, venueId, now);
  }

  /** `extract_events_combined`: the same with the combined prompts. */
  method ExtractEventsCombined(client: ModelClient, codec: JsonCodec, combined: string, venueId: string,
                               venueName: string, extra: Option<string>, isJson: bool, now: DateTime)
    returns (r: Result<seq<Event>>)
    modifies client
    ensures var user := CombinedPagesPrompt(combined, venueName, extra, isJson);
            var n := |old(client.exchanges)|;
            client.exchanges == old(client.exchanges) +
                                [Exchange(CombinedInstructions, user, client.complete(n, CombinedInstructions, user))] &&
            r == ReplyEvents(client.complete, codec, n, CombinedInstructions, user, venueId, now)
  {
    var user := CombinedPagesPrompt(combined, venueName, extra, isJson);
    var raw := client.Call(CombinedInstructions, user);
    if raw.Err? {
      return Err(raw.error);
    }
    r := ParseLlmResponseAsEvents(codec, raw.value, venueId, now);
  }

  /** `extract_links`: one model request with the link prompts, its reply filtered down to links. */
  method ExtractLinks(client: ModelClient, codec: JsonCodec, content: string, venueName: string,
                      extra: Option<string>, isJson: bool)
    returns (r: Result<seq<JValue>>)
    modifies client
    ensures var user := LinksPrompt(content, venueName, extra, isJson);
            var n := |old(client.exchanges)|;
            client.exchanges == old(client.exchanges) +
                                [Exchange(LinkInstructions, user, client.complete(n, LinkInstructions, user))] &&
            r == ReplyLinks(client.complete, codec, n, user)
  {
    var user := LinksPrompt(content, venueName, extra, isJson);
    var raw := client.Call(LinkInstructions, user);
    if raw.Err? {
      return Err(raw.error);
    }
    var parsed := ParseJsonResponse(codec, raw.value);
    if parsed.None? || parsed.value.JNull? {
      return Ok([]);
    }
    var unwrapped := Unwrap(parsed.value, WrapperKeys(true));
    if !unwrapped.JArr? {
      return Ok([]);
    }
    return Ok(LinkItems(unwrapped.items));
  }
}
