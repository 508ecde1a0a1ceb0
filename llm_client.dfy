/**
 * The deterministic wrappers around the language model in the Python
 * backend: the extraction of code from a reply (a scanner for fenced
 * blocks), the guards taken when no API key is configured, and the two
 * keyword-routed mock generators.
 */
module LlmClient {
  import opened Common
  import opened Text

  const Fence := "```"
  const Tag := "python"

  // ---------------------------------------------------------------------
  // `_extract_code`: `re.findall(r"```(?:python)?(.*?)```", text, re.DOTALL)`
  // ---------------------------------------------------------------------

  /** A fence, three backquotes, starts at position `i`. */
  predicate FenceAt(text: string, i: int) {
    0 <= i && i + 3 <= |text| && text[i] == '`' && text[i + 1] == '`' && text[i + 2] == '`'
  }

  /** The language tag `python` starts at `i`, checked character by character. */
  predicate TagAt(text: string, i: int) {
    0 <= i && i + 6 <= |text| && text[i] == 'p' && text[i + 1] == 'y' && text[i + 2] == 't' &&
    text[i + 3] == 'h' && text[i + 4] == 'o' && text[i + 5] == 'n'
  }

  /**
   * One match of the pattern: the captured text is `text[start..stop]`, the
   * closing fence starts at `stop`, and the search resumes after it.
   */
  datatype Match = Match(start: nat, stop: nat)

  /** The first fence at or after `start`, or -1 when there is none. */
  function NextFence(text: string, start: nat): (j: int)
    ensures j == -1 || (start <= j && FenceAt(text, j))
    decreases |text| - start
  {
    if start + 3 > |text| then -1
    else if FenceAt(text, start) then start
    else NextFence(text, start + 1)
  }

  /** The lazy `(.*?)` from `start`: the text up to the first fence, which closes the match. */
  function Closing(text: string, start: nat): (m: Option<Match>)
    ensures m.Some? ==> m.value.start == start <= m.value.stop && FenceAt(text, m.value.stop)
  {
    var j := NextFence(text, start);
    if j == -1 then None else Some(Match(start, j))
  }

  /**
   * The match of the pattern starting exactly at `i`, if any: an opening
   * fence, then the optional tag (tried first), then the shortest text up
   * to the next fence. When the tagged form finds no closing fence the
   * untagged form is tried.
   */
  function MatchAt(text: string, i: nat): (m: Option<Match>)
    ensures m.Some? ==> FenceAt(text, i) && i + 3 <= m.value.start <= m.value.stop && FenceAt(text, m.value.stop)
  {
    if !FenceAt(text, i) then None
    else if TagAt(text, i + 3) && Closing(text, i + 9).Some? then Closing(text, i + 9)
    else Closing(text, i + 3)
  }

  /** `findall` from position `p`: leftmost matches, each search resuming after the previous match. */
  function FindAll(text: string, p: nat): seq<string>
    decreases |text| - p
  {
    if p >= |text| then []
    else
      match MatchAt(text, p)
      case Some(m) => [text[m.start..m.stop]] + FindAll(text, m.stop + 3)
      case None => FindAll(text, p + 1)
  }

  /** Each piece with surrounding whitespace stripped, as Python's `strip()` does. */
  function Stripped(pieces: seq<string>): (r: seq<string>)
    ensures |r| == |pieces|
    ensures forall i :: 0 <= i < |pieces| ==> r[i] == Strip(pieces[i])
  {
    seq(|pieces|, i requires 0 <= i < |pieces| => Strip(pieces[i]))
  }

  /** `_extract_code`: the stripped blocks joined by newlines, or else the whole text stripped. */
  function ExtractCode(text: string): (code: string)
    ensures (forall k :: !FenceAt(text, k)) ==> code == Strip(text)
  {
    var matches := FindAll(text, 0);
    NoFenceNoMatch(text, 0);
    if matches != [] then Join(Stripped(matches), "\n") else Strip(text)
  }

  /** A block the scanner gives back unchanged: no backquote, and no leading tag. */
  predicate Plain(block: string) {
    '`' !in block && !StartsWith(block, Tag)
  }

  /** Text written with every block in fences, one after the other. */
  function Fenced(blocks: seq<string>): string {
    if blocks == [] then "" else Fence + blocks[0] + Fence + Fenced(blocks[1..])
  }

  // ---------------------------------------------------------------------
  // Properties of the scanner
  // ---------------------------------------------------------------------

  /** `FenceAt` is an occurrence of the three-backquote fence. */
  lemma FenceIsOccurrence(text: string, i: int)
    ensures FenceAt(text, i) <==> OccursAt(text, Fence, i)
  {
    if 0 <= i && i + 3 <= |text| {
      var w := text[i..i + 3];
      assert w[0] == text[i] && w[1] == text[i + 1] && w[2] == text[i + 2];
      assert FenceAt(text, i) ==> w == Fence;
    }
  }

  /** `TagAt` is an occurrence of the tag. */
  lemma TagIsOccurrence(text: string, i: int)
    ensures TagAt(text, i) <==> OccursAt(text, Tag, i)
  {
    if 0 <= i && i + 6 <= |text| {
      var w := text[i..i + 6];
      assert forall j :: 0 <= j < 6 ==> w[j] == text[i + j];
      assert TagAt(text, i) ==> w == Tag;
    }
  }

  /** `NextFence` finds the first fence: there is none between `start` and it, and none at all after `start` when it gives -1. */
  lemma {:induction false} NextFenceFirst(text: string, start: nat)
    ensures var j := NextFence(text, start); forall k :: start <= k && (j == -1 || k < j) ==> !FenceAt(text, k)
    decreases |text| - start
  {
    if start + 3 <= |text| && !FenceAt(text, start) {
      NextFenceFirst(text, start + 1);
    }
  }

  /** With no fence at or after `p` there is no match. */
  lemma {:induction false} NoFenceNoMatch(text: string, p: nat)
    ensures (forall k :: p <= k ==> !FenceAt(text, k)) ==> FindAll(text, p) == []
    decreases |text| - p
  {
    if p < |text| {
      NoFenceNoMatch(text, p + 1);
    }
  }

  /** With no backquote at or after `p` there is no match. */
  lemma NoBackquoteNoMatch(text: string, p: nat)
    requires forall k :: p <= k < |text| ==> text[k] != '`'
    ensures FindAll(text, p) == []
  {
    NoFenceNoMatch(text, p);
  }

  /** A fence at `i` in the suffix from `d` is a fence at `d + i` in the whole text, and back. */
  lemma FenceAtSuffix(text: string, d: nat, i: nat)
    requires d <= |text|
    ensures FenceAt(text, d + i) <==> FenceAt(text[d..], i)
  {
  }

  /** Searching the suffix from `d` for a fence is searching the text from `d + start`, shifted by `d`. */
  lemma {:induction false} NextFenceSuffix(text: string, d: nat, start: nat)
    requires d <= |text|
    ensures NextFence(text, d + start) == if NextFence(text[d..], start) == -1 then -1 else d + NextFence(text[d..], start)
    decreases |text| - d - start
  {
    FenceAtSuffix(text, d, start);
    if d + start + 3 <= |text| && !FenceAt(text, d + start) {
      NextFenceSuffix(text, d, start + 1);
    }
  }

  /** A match moved `d` characters to the right. */
  function Shifted(m: Option<Match>, d: nat): Option<Match> {
    match m
    case None => None
    case Some(mm) => Some(Match(d + mm.start, d + mm.stop))
  }

  /** The closing fence in the suffix from `d`, found in the whole text. */
  lemma ClosingSuffix(text: string, d: nat, start: nat)
    requires d <= |text|
    ensures Closing(text, d + start) == Shifted(Closing(text[d..], start), d)
  {
    NextFenceSuffix(text, d, start);
  }

  /** The tag at `d + i` in the text is the tag at `i` in the suffix from `d`. */
  lemma TagAtSuffix(text: string, d: nat, i: nat)
    requires d <= |text|
    ensures TagAt(text, d + i) <==> TagAt(text[d..], i)
  {
  }

  /** A match in the suffix from `d` is the same match, shifted, in the whole text. */
  lemma MatchAtSuffix(text: string, d: nat, i: nat)
    requires d <= |text|
    ensures MatchAt(text, d + i) == Shifted(MatchAt(text[d..], i), d)
  {
    FenceAtSuffix(text, d, i);
    TagAtSuffix(text, d, i + 3);
    ClosingSuffix(text, d, i + 9);
    ClosingSuffix(text, d, i + 3);
  }

  /** Every block found costs at least its two fences: `k` blocks need `6 * k` characters after `p`. */
  lemma {:induction false} FindAllBound(text: string, p: nat)
    ensures FindAll(text, p) != [] ==> p + 6 * |FindAll(text, p)| <= |text|
    decreases |text| - p
  {
    if p < |text| {
      match MatchAt(text, p)
      case Some(m) => FindAllBound(text, m.stop + 3);
      case None => FindAllBound(text, p + 1);
    }
  }

  /** Scanning `text` from `d + p` finds what scanning its suffix from `d` finds from `p`. */
  predicate ScansAlike(text: string, d: nat, p: nat)
    requires d <= |text|
  {
    FindAll(text, d + p) == FindAll(text[d..], p)
  }

  /** Scanning the suffix from `d` is scanning the whole text from there: earlier text cannot affect later matches. */
  lemma {:induction false} FindAllSuffix(text: string, d: nat, p: nat)
    requires d <= |text|
    ensures ScansAlike(text, d, p)
    decreases |text| - d - p
  {
    if d + p < |text| {
      MatchAtSuffix(text, d, p);
      match MatchAt(text[d..], p)
      case Some(m) =>
        assert text[d + m.start..d + m.stop] == text[d..][m.start..m.stop];
        FindAllSuffix(text, d, m.stop + 3);
      case None =>
        FindAllSuffix(text, d, p + 1);
    }
  }

  /** Text without a backquote before `q` is skipped. */
  lemma {:induction false} SkipProse(text: string, p: nat, q: nat)
    requires p <= q <= |text|
    requires forall k :: p <= k < q ==> text[k] != '`'
    ensures FindAll(text, p) == FindAll(text, q)
    decreases q - p
  {
    if p < q {
      SkipProse(text, p + 1, q);
    }
  }

  /** After a block without backquotes, a fence is the first one. */
  lemma NextFenceAfter(text: string, start: nat, block: string)
    requires '`' !in block
    requires start + |block| <= |text| && forall k :: 0 <= k < |block| ==> text[start + k] == block[k]
    requires FenceAt(text, start + |block|)
    ensures NextFence(text, start) == start + |block|
  {
    NextFenceFirst(text, start);
    forall k | start <= k < start + |block| ensures !FenceAt(text, k) {
      assert text[k] == block[k - start];
    }
  }

  /** An untagged block: the match spans exactly the text between the fences, whatever follows. */
  lemma PlainBlock(block: string, rest: string)
    requires Plain(block)
    ensures MatchAt(Fence + block + Fence + rest, 0) == Some(Match(3, 3 + |block|))
  {
    var text := Fence + block + Fence + rest;
    assert forall k :: 0 <= k < |block| ==> text[3 + k] == block[k];
    assert FenceAt(text, 0);
    assert FenceAt(text, 3 + |block|);
    assert !TagAt(text, 3) by {
      if |block| >= 6 {
        assert !StartsWith(block, Tag);
        assert block[..6] != Tag;
        var j :| 0 <= j < 6 && block[j] != Tag[j];
        assert text[3 + j] == block[j];
      }
    }
    NextFenceAfter(text, 3, block);
  }

  /** A block tagged `python`: the match starts after the tag. */
  lemma TaggedBlock(block: string, rest: string)
    requires '`' !in block
    ensures MatchAt(Fence + Tag + block + Fence + rest, 0) == Some(Match(9, 9 + |block|))
  {
    var text := Fence + Tag + block + Fence + rest;
    assert forall k :: 0 <= k < |block| ==> text[9 + k] == block[k];
    assert FenceAt(text, 0);
    assert FenceAt(text, 9 + |block|);
    assert TagAt(text, 3);
    NextFenceAfter(text, 9, block);
  }

  /** Fenced blocks followed by text the scanner finds nothing in give back exactly the blocks. */
  lemma {:induction false} FencedRoundTrip(blocks: seq<string>, rest: string)
    requires forall i :: 0 <= i < |blocks| ==> Plain(blocks[i])
    ensures FindAll(Fenced(blocks) + rest, 0) == blocks + FindAll(rest, 0)
  {
    if blocks != [] {
      var b := blocks[0];
      var tail := Fenced(blocks[1..]) + rest;
      assert Fenced(blocks) + rest == Fence + b + Fence + tail;
      PlainTail(blocks);
      calc {
        FindAll(Fence + b + Fence + tail, 0);
      == { FirstBlock(b, tail); }
        [b] + FindAll(tail, 0);
      == { FencedRoundTrip(blocks[1..], rest); }
        [b] + (blocks[1..] + FindAll(rest, 0));
      == { assert [b] + blocks[1..] == blocks; }
        blocks + FindAll(rest, 0);
      }
    } else {
      assert Fenced(blocks) + rest == rest;
    }
  }

  /** The blocks after the first are plain when all are. */
  lemma PlainTail(blocks: seq<string>)
    requires |blocks| >= 1 && forall i :: 0 <= i < |blocks| ==> Plain(blocks[i])
    ensures Plain(blocks[0]) && forall i :: 0 <= i < |blocks[1..]| ==> Plain(blocks[1..][i])
  {
    forall i | 0 <= i < |blocks[1..]| ensures Plain(blocks[1..][i]) {
      assert blocks[1..][i] == blocks[i + 1];
    }
  }

  /** The first fenced block is the first match, and scanning resumes right after it. */
  lemma FirstBlock(b: string, tail: string)
    requires Plain(b)
    ensures FindAll(Fence + b + Fence + tail, 0) == [b] + FindAll(tail, 0)
  {
    var head := Fence + b + Fence;
    var text := head + tail;
    PlainBlock(b, tail);
    assert text[3..3 + |b|] == b;
    assert FindAll(text, 0) == [b] + FindAll(text, |head| + 0);
    FindAllSuffix(text, |head|, 0);
    assert text[|head|..] == tail;
  }

  /** The matches of prose, then fenced blocks, then text without matches, are the blocks. */
  lemma MatchesAfterProse(before: string, blocks: seq<string>, after: string)
    requires '`' !in before && FindAll(after, 0) == []
    requires forall i :: 0 <= i < |blocks| ==> Plain(blocks[i])
    ensures FindAll(before + Fenced(blocks) + after, 0) == blocks
  {
    var rest := Fenced(blocks) + after;
    var text := before + rest;
    assert before + Fenced(blocks) + after == text;
    SkipProse(text, 0, |before|);
    FindAllSuffix(text, |before|, 0);
    assert text[|before|..] == rest;
    FencedRoundTrip(blocks, after);
    assert blocks + [] == blocks;
  }

  /**
   * Prose around fenced blocks is dropped: the result is the blocks,
   * stripped and joined by newlines.
   */
  lemma ExtractFromProse(before: string, blocks: seq<string>, after: string)
    requires |blocks| >= 1
    requires '`' !in before && '`' !in after
    requires forall i :: 0 <= i < |blocks| ==> Plain(blocks[i])
    ensures ExtractCode(before + Fenced(blocks) + after) == Join(Stripped(blocks), "\n")
  {
    NoBackquoteNoMatch(after, 0);
    MatchesAfterProse(before, blocks, after);
  }

  /** A fence with nothing closing it yields no match. */
  lemma DanglingFence(dangling: string)
    requires '`' !in dangling
    ensures FindAll(Fence + dangling, 0) == []
  {
    var after := Fence + dangling;
    forall k | 1 <= k ensures !FenceAt(after, k) {
      if k + 2 < |after| {
        assert after[k + 2] == dangling[k - 1];
      }
    }
    assert MatchAt(after, 0) == None;
    NoFenceNoMatch(after, 1);
  }

  /** A last opening fence without a closing one is ignored. */
  lemma UnpairedFenceIgnored(before: string, blocks: seq<string>, dangling: string)
    requires |blocks| >= 1
    requires '`' !in before && '`' !in dangling
    requires forall i :: 0 <= i < |blocks| ==> Plain(blocks[i])
    ensures ExtractCode(before + Fenced(blocks) + (Fence + dangling)) == Join(Stripped(blocks), "\n")
  {
    DanglingFence(dangling);
    MatchesAfterProse(before, blocks, Fence + dangling);
  }

  /** A reply that is a single tagged block gives the block's code, stripped. */
  lemma TaggedReply(block: string)
    requires '`' !in block
    ensures ExtractCode(Fence + Tag + block + Fence) == Strip(block)
  {
    var text := Fence + Tag + block + Fence;
    TaggedBlock(block, "");
    assert text + "" == text;
    assert text[9..9 + |block|] == block;
    assert FindAll(text, |block| + 12) == [];
    assert FindAll(text, 0) == [block];
    assert Stripped([block]) == [Strip(block)];
  }

  // ---------------------------------------------------------------------
  // The API-key guards
  // ---------------------------------------------------------------------

  /** What the chat-completion call does: reply with a message text, or raise. */
  datatype Completion = Replied(content: string) | Failed(message: string)

  /** A result together with whether the API was called to produce it. */
  datatype Answer<T> = Answer(value: T, apiCalled: bool)

  /** `generate_code`: no key, no call and no code; a failed call gives no code either. */
  function GenerateCode(apiKey: Option<string>, completion: Completion): (r: Answer<Option<string>>)
    ensures !Truthy(apiKey) ==> r == Answer(None, false)
    ensures Truthy(apiKey) ==> r.apiCalled
    ensures r.value.Some? <==> Truthy(apiKey) && completion.Replied?
    ensures r.value.Some? ==> r.value.value == ExtractCode(completion.content)
  {
    if !Truthy(apiKey) then Answer(None, false)
    else
      match completion
      case Replied(content) => Answer(Some(ExtractCode(content)), true)
      case Failed(_) => Answer(None, true)
  }

  const NoKeyExplanation := "No explanation available (API key not configured)."

  /** `generate_explanation`: no key gives a fixed notice without a call; a failed call is reported in the text. */
  function GenerateExplanation(apiKey: Option<string>, completion: Completion): (r: Answer<string>)
    ensures !Truthy(apiKey) ==> r == Answer(NoKeyExplanation, false)
    ensures Truthy(apiKey) ==> r.apiCalled
    ensures Truthy(apiKey) && completion.Replied? ==> r.value == completion.content
    ensures Truthy(apiKey) && completion.Failed? ==>
      r.value == "Could not generate explanation: " + completion.message
  {
    if !Truthy(apiKey) then Answer(NoKeyExplanation, false)
    else
      match completion
      case Replied(content) => Answer(content, true)
      case Failed(message) => Answer("Could not generate explanation: " + message, true)
  }

  // ---------------------------------------------------------------------
  // The mocks
  // ---------------------------------------------------------------------

  /** The branches of the two mocks. */
  datatype MockBranch = AgeHistogram | SurvivalByGender | Generic

  /** The keyword tests both mocks make, in order, on the lowercased prompt. */
  function MockBranchOf(prompt: string): (b: MockBranch)
    ensures var p := Lower(prompt);
      (b == AgeHistogram <==> Contains(p, "histogram") && Contains(p, "age")) &&
      (b == SurvivalByGender <==> !(Contains(p, "histogram") && Contains(p, "age")) &&
                                  Contains(p, "survival") && Contains(p, "gender"))
  {
    var p := Lower(prompt);
    if Contains(p, "histogram") && Contains(p, "age") then AgeHistogram
    else if Contains(p, "survival") && Contains(p, "gender") then SurvivalByGender
    else Generic
  }

  const AgeHistogramCode := @"
# Create histogram of passenger ages
plt.figure(figsize=(10, 6))
plt.hist(df['age'].dropna(), bins=20, color='skyblue', edgecolor='black')
plt.title('Distribution of Passenger Ages')
plt.xlabel('Age (years)')
plt.ylabel('Frequency')
plt.grid(True, alpha=0.3)
plt.axvline(df['age'].mean(), color='red', linestyle='--', label=f'Mean: {df[""age""].mean():.1f}')
plt.legend()
"

  const SurvivalByGenderCode := @"
# Calculate survival rate by gender
survival_by_gender = df.groupby('sex')['survived'].mean() * 100

# Create bar plot
plt.figure(figsize=(8, 6))
bars = plt.bar(survival_by_gender.index, survival_by_gender.values, color=['blue', 'pink'])
plt.title('Survival Rate by Gender')
plt.xlabel('Gender')
plt.ylabel('Survival Rate (%)')
plt.ylim(0, 100)
plt.grid(axis='y', linestyle='--', alpha=0.7)

# Add percentage labels on bars
for bar in bars:
    height = bar.get_height()
    plt.text(bar.get_x() + bar.get_width()/2., height + 1,
             f'{height:.1f}%', ha='center', va='bottom')
"

  const GenericCode := @"
# Create a simple visualization
plt.figure(figsize=(10, 6))
plt.plot(df.iloc[:, 0], df.iloc[:, 1], 'o-', color='blue', alpha=0.7)
plt.title('Data Visualization')
plt.xlabel(df.columns[0])
plt.ylabel(df.columns[1])
plt.grid(True, alpha=0.3)
"

  const AgeHistogramExplanation := @"
This histogram shows the distribution of passenger ages on the Titanic. The x-axis represents age ranges, while the y-axis shows the count of passengers within each age range.

Key observations:
1. Most passengers were young to middle-aged adults (20-40 years old).
2. There's a noticeable group of children under 10 years old.
3. The red dashed line indicates the mean age of passengers.
4. There were very few elderly passengers (over 70 years old).

This visualization helps understand the demographic makeup of the Titanic's passengers and could be useful for analyzing survival rates across different age groups.
"

  const SurvivalByGenderExplanation := @"
This bar chart illustrates the stark difference in survival rates between genders on the Titanic. 

Key insights:
1. Female passengers had a significantly higher survival rate (approximately 74%) compared to male passengers (about 19%).
2. This disparity reflects the ""women and children first"" protocol followed during the evacuation.
3. The nearly four-fold difference in survival probability based solely on gender was one of the most decisive factors determining one's chance of survival.

This visualization confirms the historical accounts that priority was given to female passengers when lifeboats were being loaded.
"

  const GenericExplanation := @"
This visualization displays the relationship between two variables in the dataset. The points represent individual data points, while the line shows the overall trend.

Some observations:
1. There appears to be a correlation between the two variables.
2. The data points show some scatter around the trend line, indicating variability.
3. This visualization helps identify patterns that might not be apparent from looking at raw numbers.

Further analysis would be needed to determine statistical significance and causality between these variables.
"

  /** `mock_generate_code`. */
  function MockGenerateCode(prompt: string): (code: string)
    ensures code == BranchCode(MockBranchOf(prompt))
  {
    if Contains(Lower(prompt), "histogram") && Contains(Lower(prompt), "age") then AgeHistogramCode
    else if Contains(Lower(prompt), "survival") && Contains(Lower(prompt), "gender") then SurvivalByGenderCode
    else GenericCode
  }

  /** `mock_generate_explanation`. */
  function MockGenerateExplanation(prompt: string): (explanation: string)
    ensures explanation == BranchExplanation(MockBranchOf(prompt))
  {
    if Contains(Lower(prompt), "histogram") && Contains(Lower(prompt), "age") then AgeHistogramExplanation
    else if Contains(Lower(prompt), "survival") && Contains(Lower(prompt), "gender") then SurvivalByGenderExplanation
    else GenericExplanation
  }

  function BranchCode(b: MockBranch): string {
    match b
    case AgeHistogram => AgeHistogramCode
    case SurvivalByGender => SurvivalByGenderCode
    case Generic => GenericCode
  }

  function BranchExplanation(b: MockBranch): string {
    match b
    case AgeHistogram => AgeHistogramExplanation
    case SurvivalByGender => SurvivalByGenderExplanation
    case Generic => GenericExplanation
  }

  /** The mock code and the mock explanation for a prompt always come from the same branch. */
  lemma MocksAgree(prompt: string)
    ensures MockGenerateCode(prompt) == BranchCode(MockBranchOf(prompt))
    ensures MockGenerateExplanation(prompt) == BranchExplanation(MockBranchOf(prompt))
  {
  }

  /** A lowercase word inside a text is inside the lowercased text. */
  lemma LowerKeepsWord(before: string, word: string, after: string)
    requires Lower(word) == word
    ensures Contains(Lower(before + word + after), word)
  {
    LowerConcat(before + word, after);
    LowerConcat(before, word);
    ContainsMiddle(Lower(before), word, Lower(after));
  }

  /** A prompt with "histogram" and "age" gets the histogram, even when it also names survival and gender. */
  lemma HistogramWins(a: string, b: string, rest: string)
    ensures MockBranchOf("histogram" + a + "age" + b + rest) == AgeHistogram
  {
    var s := "histogram" + a + "age" + b + rest;
    assert Contains(Lower(s), "histogram") by {
      assert s == [] + "histogram" + (a + "age" + b + rest);
      LowerKeepsWord([], "histogram", a + "age" + b + rest);
    }
    assert Contains(Lower(s), "age") by {
      assert s == ("histogram" + a) + "age" + (b + rest);
      LowerKeepsWord("histogram" + a, "age", b + rest);
    }
  }
}
