/**
  The local-model client's text handling: the prompt it sends, and the
  recovery of a JSON object from the model's free-form reply. Sending the
  prompt and decoding the JSON are left to foreign code.
*/
module LocalAi {
  import opened Types
  import opened Text

  // ---------------------------------------------------------------------
  // extractJsonFromString
  // ---------------------------------------------------------------------

  const FenceOpen: string := "```json"
  const FenceClose: string := "```"

  /** Where the first match of /```json\s*([\s\S]*?)\s*```/ lies: the opening
      fence at `open`, the capture `s[start..end]`, the closing fence at `close`. */
  datatype FenceMatch = FenceMatch(open: nat, start: nat, end: nat, close: nat)

  /** What the regular-expression engine reports for the leftmost match:
      the first opening fence; the greedy `\s*` takes all whitespace after
      it; the lazy group stops at the first closing fence after that; the
      whitespace in front of that fence goes to the second `\s*`. */
  ghost predicate IsFirstLazyMatch(s: string, m: FenceMatch) {
    && IsAt(s, FenceOpen, m.open)
    && (forall k :: 0 <= k < m.open ==> !IsAt(s, FenceOpen, k))
    && m.open + |FenceOpen| <= m.start <= m.end <= m.close
    && IsAt(s, FenceClose, m.close)
    && AllWhitespace(s, m.open + |FenceOpen|, m.start)
    && !IsJsWhitespace(s[m.start])
    && (forall k :: m.start <= k < m.close ==> !IsAt(s, FenceClose, k))
    && AllWhitespace(s, m.end, m.close)
    && (m.end == m.start || !IsJsWhitespace(s[m.end - 1]))
  }

  /** No opening fence is followed, anywhere after it, by a closing fence. */
  ghost predicate NoFencedBlock(s: string) {
    forall p: nat, k: nat :: IsAt(s, FenceOpen, p) && p + |FenceOpen| <= k ==> !IsAt(s, FenceClose, k)
  }

  /** A closing fence cannot start on a whitespace character. */
  lemma NoCloseInWhitespace(s: string, lo: nat, hi: nat, k: nat)
    requires lo <= k < hi <= |s| && AllWhitespace(s, lo, hi)
    ensures !IsAt(s, FenceClose, k)
  {
    if k + |FenceClose| <= |s| {
      assert s[k..k + |FenceClose|][0] != FenceClose[0];
    }
  }

  /** `str.match(/```json\s*([\s\S]*?)\s*```/)` */
  function MatchJsonFence(s: string): (m: Option<FenceMatch>)
    ensures m.Some? ==> IsFirstLazyMatch(s, m.value)
    ensures m.None? <==> NoFencedBlock(s)
  {
    var open := IndexOf(s, FenceOpen, 0);
    if open < 0 then
      None
    else
      var start := SkipWhitespace(s, open + |FenceOpen|);
      var close := IndexOf(s, FenceClose, start);
      if close < 0 then
        NoFencedBlockWhenNoClose(s, open, start);
        None
      else
        var m := FenceMatch(open, start, TrimWhitespaceBack(s, start, close), close);
        assert s[start] == s[close..close + |FenceClose|][0] || start < close;
        assert IsAt(s, FenceOpen, open) && open + |FenceOpen| <= close && IsAt(s, FenceClose, close);
        Some(m)
  }

  lemma NoFencedBlockWhenNoClose(s: string, open: nat, start: nat)
    requires forall k :: 0 <= k < open ==> !IsAt(s, FenceOpen, k)
    requires open + |FenceOpen| <= start <= |s|
    requires AllWhitespace(s, open + |FenceOpen|, start)
    requires forall k :: start <= k ==> !IsAt(s, FenceClose, k)
    ensures NoFencedBlock(s)
  {
    forall p: nat, k: nat | IsAt(s, FenceOpen, p) && p + |FenceOpen| <= k
      ensures !IsAt(s, FenceClose, k)
    {
      if k < start {
        NoCloseInWhitespace(s, open + |FenceOpen|, start, k);
      }
    }
  }

  /** The first capture group, or the empty string when there is no match. */
  function FencedCapture(s: string): (c: string)
    ensures Contains(s, c)
    ensures c != "" ==> !IsJsWhitespace(c[0]) && !IsJsWhitespace(c[|c| - 1])
  {
    match MatchJsonFence(s)
    case None => EmptyContained(s); ""
    case Some(m) => MatchedCaptureTrimmed(s, m); s[m.start..m.end]
  }

  lemma EmptyContained(s: string)
    ensures Contains(s, "")
  {
    assert IsAt(s, "", 0);
    ContainsAt(s, "", 0);
  }

  /** Some `{` occurs before some `}`; equivalently, the first `{` comes
      before the last `}`. */
  ghost predicate HasBracePair(s: string) {
    exists i, j :: 0 <= i < j < |s| && s[i] == '{' && s[j] == '}'
  }

  /** Steps 2 and 3: the text from the first `{` through the last `}`, or
      the whole input when there is no such pair. */
  function ExtractOutermostBraces(s: string): (r: string)
    ensures !HasBracePair(s) ==> r == s
    ensures HasBracePair(s) ==>
      |r| >= 2 && r[0] == '{' && r[|r| - 1] == '}' &&
      var f := FirstIndexOf(s, '{');
      0 <= f && IsAt(s, r, f) &&
      (forall k :: 0 <= k < f ==> s[k] != '{') &&
      (forall k :: f + |r| <= k < |s| ==> s[k] != '}')
  {
    var first := FirstIndexOf(s, '{');
    var last := LastIndexOf(s, '}');
    if first != -1 && last > first then
      assert HasBracePair(s);
      s[first..last + 1]
    else
      assert !HasBracePair(s) by {
        forall i, j | 0 <= i < j < |s| && s[i] == '{'
          ensures s[j] != '}'
        {
          assert first != -1 && first <= i < j;
        }
      }
      s
  }

  /** `extractJsonFromString` */
  function ExtractJsonFromString(s: string): (r: string)
    ensures Contains(s, r)
    ensures FencedCapture(s) != "" ==>
      r == FencedCapture(s) && !IsJsWhitespace(r[0]) && !IsJsWhitespace(r[|r| - 1])
    ensures FencedCapture(s) == "" ==> r == ExtractOutermostBraces(s)
  {
    var captured := FencedCapture(s);
    if captured != "" then
      captured
    else
      BracesContained(s);
      ExtractOutermostBraces(s)
  }

  /** The capture of a match sits inside the input, and when it is not
      empty, neither of its ends is whitespace. */
  lemma MatchedCaptureTrimmed(s: string, m: FenceMatch)
    requires IsFirstLazyMatch(s, m)
    ensures m.start <= m.end <= |s|
    ensures var c := s[m.start..m.end];
      Contains(s, c) && (c != "" ==> !IsJsWhitespace(c[0]) && !IsJsWhitespace(c[|c| - 1]))
  {
    var c := s[m.start..m.end];
    assert IsAt(s, c, m.start);
    ContainsAt(s, c, m.start);
    if c != "" {
      assert c[0] == s[m.start] && c[|c| - 1] == s[m.end - 1];
    }
  }

  lemma BracesContained(s: string)
    ensures Contains(s, ExtractOutermostBraces(s))
  {
    var r := ExtractOutermostBraces(s);
    if HasBracePair(s) {
      ContainsAt(s, r, FirstIndexOf(s, '{'));
    } else {
      assert IsAt(s, s, 0);
      ContainsAt(s, s, 0);
    }
  }

  /** Applying the brace step to its own result changes nothing. */
  lemma ExtractOutermostBracesIdempotent(s: string)
    ensures ExtractOutermostBraces(ExtractOutermostBraces(s)) == ExtractOutermostBraces(s)
  {
    var r := ExtractOutermostBraces(s);
    if HasBracePair(s) {
      assert HasBracePair(r) by {
        assert 0 < |r| - 1 && r[0] == '{' && r[|r| - 1] == '}';
      }
      var r2 := ExtractOutermostBraces(r);
      assert FirstIndexOf(r, '{') == 0;
      assert r2 == r[0..|r2|];
      assert |r2| == |r| by {
        assert r[|r| - 1] == '}';
        assert !(|r2| <= |r| - 1);
      }
    }
  }

  // ---------------------------------------------------------------------
  // buildPrompt
  // ---------------------------------------------------------------------

  /** The simplified response schema embedded in the prompt. */
  const JsonSchema: string :=
    "{\n" +
    "    \"summary\": \"string\",\n" +
    "    \"fuelAdjustments\": [{ \"rpmRange\": \"string\", \"loadCondition\": \"string\", " +
    "\"currentAFR\": \"string\", \"targetAFR\": \"string\", \"suggestion\": \"string\", \"reason\": \"string\" }],\n" +
    "    \"ignitionAdjustments\": [{ \"rpmRange\": \"string\", \"loadCondition\": \"string\", " +
    "\"suggestion\": \"string\", \"reason\": \"string\" }],\n" +
    "    \"otherObservations\": [{ \"observation\": \"string\", \"recommendation\": \"string\" }]\n" +
    "}"

  /** The instructions that precede the wide-open-throttle goal line; they
      depend on no argument. */
  const PromptIntro: string :=
    "\n        You are an expert engine tuner for Hondata systems. Your task is to analyze the provided CSV datalog based on the user's hardware." +
    "\n        Provide actionable tuning advice for the Hondata SManager software." +
    "\n        Your entire response must be a single, valid JSON object, without any markdown formatting, comments, or extra text." +
    "\n        The JSON object must conform to this structure: " + JsonSchema +
    "\n\n        Tuning Goals:" +
    "\n        - Safety first, then performance." +
    "\n        - Idle/Cruise AFR: ~14.7" +
    "\n        "

  const PromptGoalsTail: string :=
    "\n        - Identify risky ignition timing." +
    "\n        - Check for high injector duty cycle (>85%)." +
    "\n        - Correlate issues with the user's provided hardware." +
    "\n\n        "

  const WotGoalLead: string := "- WOT AFR for "

  function TargetAfrWot(e: EngineType): string {
    if e == Boosted then "11.0-11.5" else "12.8-13.2"
  }

  /** The goal line that depends on the engine type. */
  function WotGoalLine(e: EngineType): string {
    WotGoalLead + EngineTypeText(e) + ": " + TargetAfrWot(e)
  }

  /** JavaScript's `a || b` on strings: the empty string is falsy. */
  function OrElse(a: string, b: string): string {
    if a != "" then a else b
  }

  function EngineLine(engineSetup: string): string {
    "- Engine Details: " + OrElse(engineSetup, "Not specified.") + "\n"
  }

  function TurboLine(e: EngineType, turboSetup: string): string {
    "- Turbo/Induction Setup: " +
    OrElse(turboSetup, if e == Boosted then "Boosted setup not specified." else "Naturally Aspirated.") + "\n"
  }

  /** The `hardwareContext` template: a heading, the engine line and the
      turbo line, each indented by eight spaces. */
  function HardwareContext(e: EngineType, engineSetup: string, turboSetup: string): string {
    "\n        User Hardware Information:\n        " + EngineLine(engineSetup) +
    "        " + TurboLine(e, turboSetup) + "    "
  }

  const CsvFenceOpen: string := "\n\n        Analyze this datalog:\n        "
  const CsvFenceClose: string := "\n        ```\n    "

  /** The datalog inside its csv code fence, which closes the prompt. */
  function FencedDatalog(datalog: string): string {
    "```csv\n        " + datalog + CsvFenceClose
  }

  /** `buildPrompt`: the fixed intro, a goal line that tells the engine
      type, the hardware the user described and the datalog in a csv code
      fence. The lemmas below it state what the prompt carries. */
  function BuildPrompt(datalog: string, e: EngineType, engineSetup: string, turboSetup: string): string
  {
    Assemble(PromptIntro, datalog, e, engineSetup, turboSetup)
  }

  /** The intro followed by the goal line that names the engine type. */
  function Opening(intro: string, e: EngineType): string {
    intro + WotGoalLine(e)
  }

  /** The prompt after a given intro. */
  function Assemble(intro: string, datalog: string, e: EngineType, engineSetup: string, turboSetup: string): string
  {
    intro + WotGoalLine(e) + PromptGoalsTail + HardwareContext(e, engineSetup, turboSetup) +
    (CsvFenceOpen + FencedDatalog(datalog))
  }

  /** The prompt opens with the goal line of the engine type it was built
      for ... */
  lemma BuildPromptOpensWithEngineType(datalog: string, e: EngineType, engineSetup: string, turboSetup: string)
    ensures StartsWith(BuildPrompt(datalog, e, engineSetup, turboSetup), Opening(PromptIntro, e))
  {
    PromptShape(PromptIntro, datalog, e, engineSetup, turboSetup, e);
  }

  /** ... and with the goal line of no other engine type. */
  lemma BuildPromptNamesOnlyItsEngineType(datalog: string, e: EngineType, engineSetup: string, turboSetup: string,
                                          t: EngineType)
    requires t != e
    ensures !StartsWith(BuildPrompt(datalog, e, engineSetup, turboSetup), Opening(PromptIntro, t))
  {
    PromptShape(PromptIntro, datalog, e, engineSetup, turboSetup, t);
  }

  /** The prompt carries the hardware lines, each with its default. */
  lemma BuildPromptCarriesInputs(datalog: string, e: EngineType, engineSetup: string, turboSetup: string)
    ensures Contains(BuildPrompt(datalog, e, engineSetup, turboSetup), EngineLine(engineSetup))
    ensures Contains(BuildPrompt(datalog, e, engineSetup, turboSetup), TurboLine(e, turboSetup))
  {
    PromptShape(PromptIntro, datalog, e, engineSetup, turboSetup, e);
  }

  /** The prompt ends with the datalog, verbatim, in a csv code fence. */
  lemma BuildPromptEndsWithDatalog(datalog: string, e: EngineType, engineSetup: string, turboSetup: string)
    ensures EndsWith(BuildPrompt(datalog, e, engineSetup, turboSetup), FencedDatalog(datalog))
  {
    PromptShape(PromptIntro, datalog, e, engineSetup, turboSetup, e);
  }

  /** The shape of the prompt holds whatever fixed intro precedes the goal
      line. */
  lemma PromptShape(intro: string, datalog: string, e: EngineType, engineSetup: string, turboSetup: string,
                    t: EngineType)
    ensures StartsWith(Assemble(intro, datalog, e, engineSetup, turboSetup), Opening(intro, t)) <==> e == t
    ensures Contains(Assemble(intro, datalog, e, engineSetup, turboSetup), EngineLine(engineSetup))
    ensures Contains(Assemble(intro, datalog, e, engineSetup, turboSetup), TurboLine(e, turboSetup))
    ensures EndsWith(Assemble(intro, datalog, e, engineSetup, turboSetup), FencedDatalog(datalog))
  {
    var head := intro + WotGoalLine(e) + PromptGoalsTail;
    var hardware := HardwareContext(e, engineSetup, turboSetup);
    OuterPieces(head, hardware, CsvFenceOpen, FencedDatalog(datalog));
    PromptStartsWithGoal(Assemble(intro, datalog, e, engineSetup, turboSetup), intro, head, e, t);
    PiecesContained(head, "\n        User Hardware Information:\n        ", EngineLine(engineSetup),
                    "        ", TurboLine(e, turboSetup), "    ", CsvFenceOpen + FencedDatalog(datalog));
  }

  lemma OuterPieces(a: string, b: string, c: string, d: string)
    ensures StartsWith(a + b + (c + d), a)
    ensures EndsWith(a + b + (c + d), d)
  {
    var s := a + b + (c + d);
    assert s[..|a|] == a;
    assert s[|s| - |d|..] == d;
  }

  /** The second and fourth of five pieces glued between two others are
      contained in the whole. */
  lemma PiecesContained(a: string, b: string, c: string, d: string, e: string, f: string, g: string)
    ensures Contains(a + (b + c + d + e + f) + g, c)
    ensures Contains(a + (b + c + d + e + f) + g, e)
  {
    var s := a + (b + c + d + e + f) + g;
    assert IsAt(s, c, |a| + |b|) by {
      assert s[|a| + |b|..|a| + |b| + |c|] == c;
    }
    assert IsAt(s, e, |a| + |b| + |c| + |d|) by {
      assert s[|a| + |b| + |c| + |d|..|a| + |b| + |c| + |d| + |e|] == e;
    }
    ContainsAt(s, c, |a| + |b|);
    ContainsAt(s, e, |a| + |b| + |c| + |d|);
  }

  /** After any fixed intro, the goal line tells the engine type. */
  lemma PromptStartsWithGoal(r: string, intro: string, head: string, e: EngineType, t: EngineType)
    requires head == intro + WotGoalLine(e) + PromptGoalsTail
    requires StartsWith(r, head)
    ensures StartsWith(r, Opening(intro, t)) <==> e == t
  {
    var n := |intro| + |WotGoalLead|;
    StartsWithAppend(intro + WotGoalLine(e), PromptGoalsTail);
    StartsWithTrans(r, head, intro + WotGoalLine(e));
    GoalLineTypeChar(e);
    GoalLineTypeChar(t);
    assert r[n] == (intro + WotGoalLine(e))[n];
    assert (intro + WotGoalLine(e))[n] == WotGoalLine(e)[|WotGoalLead|];
    assert Opening(intro, t)[n] == WotGoalLine(t)[|WotGoalLead|];
  }

  /** The character right after "- WOT AFR for " names the engine type. */
  lemma GoalLineTypeChar(e: EngineType)
    ensures |WotGoalLine(e)| > |WotGoalLead|
    ensures WotGoalLine(e)[|WotGoalLead|] == (if e == Boosted then 'B' else 'N')
  {
    var line := WotGoalLine(e);
    assert line == WotGoalLead + (EngineTypeText(e) + ": " + TargetAfrWot(e));
    assert line[|WotGoalLead|] == EngineTypeText(e)[0];
  }
}
