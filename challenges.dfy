/**
 * The challenge quality validator (validation/validate-challenges.js): each
 * Markdown challenge gets a difficulty from its path, then structure checks
 * (required and recommended section headings, step-by-step markers for
 * beginners) and content checks (objective, success criteria, a weighted
 * keyword complexity score, Port terminology, code examples).  The checks
 * are specified by pure functions; the class `ChallengeValidator` pushes the
 * same findings in place, and tallies them per difficulty.
 */
module ChallengeRules {
  import opened Options
  import opened Strings
  import opened Findings

  datatype Difficulty = Beginner | Intermediate | Advanced

  function DifficultyName(d: Difficulty): string {
    match d
    case Beginner => "beginner"
    case Intermediate => "intermediate"
    case Advanced => "advanced"
  }

  /** `detectDifficulty`: the lower-cased path is searched for each name, beginner first. */
  function DetectDifficulty(path: string): Option<Difficulty> {
    var lower := AsciiLower(path);
    if Contains(lower, "beginner") then Some(Beginner)
    else if Contains(lower, "intermediate") then Some(Intermediate)
    else if Contains(lower, "advanced") then Some(Advanced)
    else None
  }

  /** The difficulty named first in priority order wins; none is found only when no name occurs. */
  lemma DifficultyPriority(path: string)
    ensures var lower := AsciiLower(path);
      && (DetectDifficulty(path) == Some(Beginner) <==> Contains(lower, "beginner"))
      && (DetectDifficulty(path) == Some(Intermediate) <==> !Contains(lower, "beginner") && Contains(lower, "intermediate"))
      && (DetectDifficulty(path) == Some(Advanced) <==>
            !Contains(lower, "beginner") && !Contains(lower, "intermediate") && Contains(lower, "advanced"))
      && (DetectDifficulty(path) == None <==>
            !Contains(lower, "beginner") && !Contains(lower, "intermediate") && !Contains(lower, "advanced"))
  {
  }

  /** One difficulty's rule table. */
  datatype Requirements = Requirements(
    required: seq<string>,
    recommended: seq<string>,
    maxComplexity: nat,
    shouldHaveStepByStep: bool)

  const TitleHeading := "# "
  const ObjectiveHeading := "## Objective"
  const PrerequisitesHeading := "## Prerequisites"
  const InstructionsHeading := "## Instructions"
  const SuccessHeading := "## Success Criteria"

  /** `getChallengeRequirements()`, indexed by difficulty. */
  function ChallengeRequirements(d: Difficulty): (r: Requirements)
    ensures r.shouldHaveStepByStep <==> d == Beginner
    ensures TitleHeading in r.required && ObjectiveHeading in r.required
  {
    match d
    case Beginner =>
      Requirements([TitleHeading, ObjectiveHeading, PrerequisitesHeading, InstructionsHeading, SuccessHeading],
                   ["## Hints", "## Resources", "## Next Steps"], 3, true)
    case Intermediate =>
      Requirements([TitleHeading, ObjectiveHeading, PrerequisitesHeading, InstructionsHeading, SuccessHeading],
                   ["## Hints", "## Extension Challenges", "## Resources"], 6, false)
    case Advanced =>
      Requirements([TitleHeading, ObjectiveHeading, PrerequisitesHeading, SuccessHeading],
                   ["## Extension Challenges", "## Resources"], 10, false)
  }

  // Finding categories.
  const StructureErrorSuffix := " Challenge Structure Error"
  const StructureWarningSuffix := " Challenge Structure Warning"
  const BeginnerWarning := "Beginner Challenge Warning"
  const ContentWarning := "Challenge Content Warning"
  const ContentError := "Challenge Content Error"
  const ComplexityWarning := "Challenge Complexity Warning"
  const UnknownDifficulty := "Unknown Difficulty"
  const ReadErrorCategory := "Challenge Read Error"

  // Messages and message fragments.
  const MissingRequiredPrefix := "Missing required sections: "
  const MissingRecommendedPrefix := "Missing recommended sections: "
  const StepByStepMessage := "Beginner challenges should include step-by-step instructions"
  const BriefObjective := "Objective section seems too brief (< 50 characters)"
  const NoActionVerb := "Objective should include clear action verbs (create, build, implement, etc.)"
  const NoBullets := "Success criteria should be formatted as a bulleted list"
  const OneBullet := "Consider adding more specific success criteria (found only 1)"
  const ComplexityPrefix := "Challenge complexity ("
  const ComplexityInfix := ") may be too high for "
  const ComplexityMaxInfix := " level (max: "
  const NoPortTerms := "Challenge should include Port-specific terminology and concepts"
  const NoCodeExamples := "Consider adding code examples or configuration snippets"
  const NoYamlJson := "Port challenges typically include YAML or JSON configuration examples"
  const UnknownDifficultyMessage := "Could not determine challenge difficulty level"

  const ActionVerbs: seq<string> := ["create", "build", "implement", "configure", "set up", "develop", "design"]
  const PortTerms: seq<string> := ["blueprint", "entity", "action", "scorecard", "dashboard", "integration"]
  const ConfigFences: seq<string> := ["```yaml", "```json", "```yml"]

  // ---------------------------------------------------------------------
  // Text predicates standing for the regular expressions of the source.
  // ---------------------------------------------------------------------

  /** `sections.filter(section => !content.includes(section))` */
  function MissingSections(content: string, sections: seq<string>): (missing: seq<string>)
    ensures |missing| <= |sections|
  {
    if sections == [] then []
    else (if Contains(content, sections[0]) then [] else [sections[0]]) + MissingSections(content, sections[1..])
  }

  /** A section is listed exactly when it is in the table and absent from the text. */
  lemma {:induction false} MissingSectionsMeaning(content: string, sections: seq<string>)
    ensures forall s :: s in MissingSections(content, sections) <==> s in sections && !Contains(content, s)
    ensures MissingSections(content, sections) == [] <==> forall k | 0 <= k < |sections| :: Contains(content, sections[k])
  {
    if sections != [] {
      MissingSectionsMeaning(content, sections[1..]);
      assert forall k | 1 <= k < |sections| :: sections[k] == sections[1..][k - 1];
    }
  }

  /** Index `i` is where a line begins: `^` under the multiline flag. */
  predicate LineStart(s: string, i: nat)
    requires i <= |s|
  {
    i == 0 || IsLineTerminator(s[i - 1])
  }

  /** From index `k`, digits continue up to a `.`. */
  predicate DigitsThenDot(s: string, k: nat)
    decreases |s| - k
  {
    k < |s| && (s[k] == '.' || (IsDigit(s[k]) && DigitsThenDot(s, k + 1)))
  }

  /** `/^\d+\./m.test(s)`: some line starts with a number followed by a dot. */
  predicate HasNumberedSteps(s: string) {
    exists i | 0 <= i < |s| :: LineStart(s, i) && IsDigit(s[i]) && DigitsThenDot(s, i + 1)
  }

  /**
   * `/step \d+/i.test(s)`.  Without the unicode flag a case-insensitive
   * match folds only ASCII letters onto ASCII letters, so folding A-Z is exact.
   */
  predicate HasStepWord(s: string) {
    var lower := AsciiLower(s);
    exists i | 0 <= i && i + 5 < |lower| :: OccursAt(lower, "step ", i) && IsDigit(lower[i + 5])
  }

  predicate HasStepByStep(s: string) {
    HasStepWord(s) || HasNumberedSteps(s)
  }

  /**
   * The lookahead `(?=\n##|\n$)` holds at index `e`.  Without the multiline
   * flag `$` is the end of the text only.
   */
  predicate SectionEndsAt(s: string, e: nat) {
    OccursAt(s, "\n##", e) || (e + 1 == |s| && s[e] == '\n')
  }

  /** Where the lazy `(.*?)` stops: the first index from `from` on where the lookahead holds. */
  function FirstSectionEnd(s: string, from: nat): (e: Option<nat>)
    requires from <= |s|
    ensures e.Some? ==> from <= e.value < |s| && SectionEndsAt(s, e.value)
    ensures e.Some? ==> forall k | from <= k < e.value :: !SectionEndsAt(s, k)
    decreases |s| - from
  {
    if from == |s| then None
    else if SectionEndsAt(s, from) then Some(from)
    else FirstSectionEnd(s, from + 1)
  }

  /** The first index at or after `q` that is not white space. */
  function SpaceRunEnd(s: string, q: nat): (r: nat)
    requires q <= |s|
    ensures q <= r <= |s|
    ensures r == |s| || !IsJsSpace(s[r])
    ensures forall k | q <= k < r :: IsJsSpace(s[k])
    decreases |s| - q
  {
    if q < |s| && IsJsSpace(s[q]) then SpaceRunEnd(s, q + 1) else q
  }

  /** A body that the lookahead closes contains no later `\n##`. */
  lemma BodyIsOneSection(s: string, n: nat, e: nat)
    requires n <= e < |s|
    requires forall k | n <= k < e :: !SectionEndsAt(s, k)
    ensures !Contains(s[n..e], "\n##")
  {
    var body := s[n..e];
    forall k | 0 <= k <= |body| - 3
      ensures !OccursAt(body, "\n##", k)
    {
      assert !SectionEndsAt(s, n + k);
      OccursInSlice(s, n, e, "\n##", k);
    }
  }

  /**
   * `\s*\n(.*?)` after the heading, which ends at `q`: the greedy `\s*` backs
   * off through the white-space run `s[q..n)`, trying each newline in it from
   * the last; the body starts after the first newline from which the
   * lookahead can be reached.
   */
  function BodyAfter(s: string, q: nat, n: nat): (body: Option<string>)
    requires q <= n <= |s|
    ensures body.Some? ==> !Contains(body.value, "\n##")
    decreases n - q
  {
    if n == q then None
    else if s[n - 1] == '\n' && FirstSectionEnd(s, n).Some? then
      BodyIsOneSection(s, n, FirstSectionEnd(s, n).value);
      Some(s[n..FirstSectionEnd(s, n).value])
    else BodyAfter(s, q, n - 1)
  }

  /** The regular expression tried at each start index from `p` on, leftmost first. */
  function SectionFrom(s: string, heading: string, p: nat): (body: Option<string>)
    requires p <= |s|
    ensures body.Some? ==> Contains(s, heading) && !Contains(body.value, "\n##")
    decreases |s| - p
  {
    if p + |heading| > |s| then None
    else
      var q := p + |heading|;
      if s[p..q] == heading && BodyAfter(s, q, SpaceRunEnd(s, q)).Some? then
        assert OccursAt(s, heading, p);
        BodyAfter(s, q, SpaceRunEnd(s, q))
      else if p == |s| then None
      else SectionFrom(s, heading, p + 1)
  }

  /**
   * `s.match(new RegExp(heading + '\\s*\\n(.*?)(?=\\n##|\\n$)', 's'))[1]`:
   * the text of the section under the first heading occurrence that has one.
   */
  function Section(s: string, heading: string): Option<string> {
    SectionFrom(s, heading, 0)
  }

  /** The lazy body stops at the first index where the lookahead holds. */
  lemma {:induction false} FirstSectionEndAt(s: string, from: nat, e: nat)
    requires from <= e < |s| && SectionEndsAt(s, e)
    requires forall k | from <= k < e :: !SectionEndsAt(s, k)
    ensures FirstSectionEnd(s, from) == Some(e)
    decreases e - from
  {
    if from < e {
      FirstSectionEndAt(s, from + 1, e);
    }
  }

  /** Start indices before the first occurrence of the heading are passed over. */
  lemma {:induction false} SectionFromSkips(s: string, heading: string, p: nat, at: nat)
    requires p <= at && at + |heading| <= |s|
    requires forall j | p <= j < at :: !OccursAt(s, heading, j)
    ensures SectionFrom(s, heading, p) == SectionFrom(s, heading, at)
    decreases at - p
  {
    if p < at {
      assert !OccursAt(s, heading, p);
      SectionFromSkips(s, heading, p + 1, at);
    }
  }

  /** A body without `\n##` that is followed by `\n##` ends right before it. */
  lemma BodyClosedAt(s: string, n: nat, body: string)
    requires n + |body| + 3 <= |s| && s[n..n + |body|] == body && s[n + |body|..n + |body| + 3] == "\n##"
    requires !Contains(body, "\n##")
    ensures FirstSectionEnd(s, n) == Some(n + |body|)
  {
    var e := n + |body|;
    assert s[e] == '\n';
    assert OccursAt(s, "\n##", e);
    forall k | n <= k < e
      ensures !SectionEndsAt(s, k)
    {
      if k + 3 <= e {
        assert !OccursAt(body, "\n##", k - n);
        OccursInSlice(s, n, e, "\n##", k - n);
      } else if k + 1 == e {
        assert s[k..k + 3][1] == s[e] == '\n';
      } else {
        assert s[k..k + 3][2] == s[e] == '\n';
      }
    }
    FirstSectionEndAt(s, n, e);
  }

  /**
   * A section laid out as the first occurrence of its heading, a line
   * break, a body that starts with a visible character and holds no `\n##`,
   * then the next `##` heading, is read back as exactly that body.
   */
  lemma SectionRoundTrip(pre: string, heading: string, body: string, rest: string)
    requires forall j | 0 <= j < |pre| :: !OccursAt(pre + heading, heading, j)
    requires body != [] && !IsJsSpace(body[0])
    requires !Contains(body, "\n##")
    ensures Section(pre + heading + "\n" + body + "\n##" + rest, heading) == Some(body)
  {
    var head := pre + heading;
    var s := head + ("\n" + body + "\n##" + rest);
    assert s == pre + heading + "\n" + body + "\n##" + rest;
    var q := |head|;
    var n := q + 1;
    assert s[..q] == head;
    forall j | 0 <= j < |pre|
      ensures !OccursAt(s, heading, j)
    {
      assert !OccursAt(head, heading, j);
      assert s[j..j + |heading|] == head[j..j + |heading|];
    }
    assert s[|pre|..q] == head[|pre|..] == heading;
    var tail := s[n..];
    assert tail == body + "\n##" + rest;
    assert s[q] == '\n';
    assert s[n..n + |body|] == tail[..|body|] == body;
    assert s[n + |body|..n + |body| + 3] == tail[|body|..|body| + 3] == "\n##";
    SectionLaidOut(s, heading, |pre|, body);
  }

  /** The same, stated over the positions of the pieces in the text. */
  lemma SectionLaidOut(s: string, heading: string, p: nat, body: string)
    requires p + |heading| + 1 + |body| + 3 <= |s|
    requires forall j | 0 <= j < p :: !OccursAt(s, heading, j)
    requires s[p..p + |heading|] == heading && s[p + |heading|] == '\n'
    requires s[p + |heading| + 1..p + |heading| + 1 + |body|] == body
    requires s[p + |heading| + 1 + |body|..p + |heading| + 1 + |body| + 3] == "\n##"
    requires body != [] && !IsJsSpace(body[0]) && !Contains(body, "\n##")
    ensures Section(s, heading) == Some(body)
  {
    var n := p + |heading| + 1;
    var e := n + |body|;
    assert s[n..e] == body;
    assert Section(s, heading) == SectionFrom(s, heading, p) by {
      SectionFromSkips(s, heading, 0, p);
    }
    assert FirstSectionEnd(s, n) == Some(e) by {
      BodyClosedAt(s, n, body);
    }
    assert s[n] == body[0];
    SectionBodyAt(s, heading, p, e);
  }

  /**
   * A heading followed by a line break and a visible character: the body
   * starts at that character and runs to where the lookahead first holds.
   */
  lemma SectionBodyAt(s: string, heading: string, p: nat, e: nat)
    requires p + |heading| + 1 < |s| && s[p..p + |heading|] == heading && s[p + |heading|] == '\n'
    requires !IsJsSpace(s[p + |heading| + 1])
    requires FirstSectionEnd(s, p + |heading| + 1) == Some(e)
    ensures SectionFrom(s, heading, p) == Some(s[p + |heading| + 1..e])
  {
    var q := p + |heading|;
    var n := q + 1;
    assert SpaceRunEnd(s, n) == n;
    assert SpaceRunEnd(s, q) == n;
    BodyAfterNewline(s, q, n);
    SectionFromAt(s, heading, p);
  }

  /** The regular expression matches at a heading occurrence whose body can be closed. */
  lemma SectionFromAt(s: string, heading: string, p: nat)
    requires p + |heading| <= |s| && s[p..p + |heading|] == heading
    requires BodyAfter(s, p + |heading|, SpaceRunEnd(s, p + |heading|)).Some?
    ensures SectionFrom(s, heading, p) == BodyAfter(s, p + |heading|, SpaceRunEnd(s, p + |heading|))
  {
  }

  /** When the white-space run after the heading ends in a line break, the body starts right after it. */
  lemma BodyAfterNewline(s: string, q: nat, n: nat)
    requires q < n <= |s| && s[n - 1] == '\n' && FirstSectionEnd(s, n).Some?
    ensures BodyAfter(s, q, n) == Some(s[n..FirstSectionEnd(s, n).value])
  {
  }

  /** A match of `^[-*]\s` at index `i`, multiline. */
  predicate BulletAt(s: string, i: nat)
    requires i < |s|
  {
    LineStart(s, i) && (s[i] == '-' || s[i] == '*') && i + 1 < |s| && IsJsSpace(s[i + 1])
  }

  /** The bullet matches that start below index `n`. */
  function BulletsBelow(s: string, n: nat): (count: nat)
    requires n <= |s|
    ensures count <= n
  {
    if n == 0 then 0 else BulletsBelow(s, n - 1) + (if BulletAt(s, n - 1) then 1 else 0)
  }

  /**
   * `(s.match(/^[-*]\s/gm) || []).length`.  Two matches never overlap: the
   * second character of a match is white space, where no match can start.
   */
  function BulletCount(s: string): nat {
    BulletsBelow(s, |s|)
  }

  /** No bullet is counted exactly when no line starts with `-` or `*` and a space. */
  lemma {:induction false} BulletsBelowZero(s: string, n: nat)
    requires n <= |s|
    ensures BulletsBelow(s, n) == 0 <==> forall i | 0 <= i < n :: !BulletAt(s, i)
  {
    if n > 0 {
      BulletsBelowZero(s, n - 1);
    }
  }

  // ---------------------------------------------------------------------
  // The complexity score.
  // ---------------------------------------------------------------------

  type Pattern = s: string | s != [] witness "```"

  /**
   * One complexity indicator, with its weight doubled so that the code-block
   * weight 0.5 is a whole number.
   */
  datatype Indicator = Indicator(pattern: Pattern, ignoreCase: bool, doubledWeight: nat)

  const Indicators: seq<Indicator> := [
    Indicator("blueprint", true, 2), Indicator("integration", true, 4), Indicator("action", true, 2),
    Indicator("scorecard", true, 4), Indicator("dashboard", true, 2), Indicator("terraform", true, 6),
    Indicator("api", true, 4), Indicator("webhook", true, 4), Indicator("jq", true, 4),
    Indicator("```", false, 1)]

  /** `(content.match(pattern) || []).length` for a global pattern. */
  function Occurrences(content: string, indicator: Indicator): nat {
    if indicator.ignoreCase then CountMatches(AsciiLower(content), indicator.pattern)
    else CountMatches(content, indicator.pattern)
  }

  function Counts(content: string): (counts: seq<nat>)
    ensures |counts| == |Indicators|
  {
    seq(|Indicators|, k requires 0 <= k < |Indicators| => Occurrences(content, Indicators[k]))
  }

  function DoubledWeights(): (weights: seq<nat>)
    ensures |weights| == |Indicators|
  {
    seq(|Indicators|, k requires 0 <= k < |Indicators| => Indicators[k].doubledWeight)
  }

  function WeightedSum(counts: seq<nat>, weights: seq<nat>): nat
    requires |counts| == |weights|
  {
    if counts == [] then 0 else counts[0] * weights[0] + WeightedSum(counts[1..], weights[1..])
  }

  /**
   * `Math.round` of the weighted sum: the sum is half the doubled sum, and
   * rounding half up is `(doubled + 1) / 2`.
   */
  function Score(counts: seq<nat>): nat
    requires |counts| == |Indicators|
  {
    (WeightedSum(counts, DoubledWeights()) + 1) / 2
  }

  /** `assessComplexity(content)` */
  function Complexity(content: string): nat {
    Score(Counts(content))
  }

  lemma {:induction false} WeightedSumSnoc(counts: seq<nat>, weights: seq<nat>, i: nat)
    requires |counts| == |weights| && i < |counts|
    ensures WeightedSum(counts[..i + 1], weights[..i + 1]) == WeightedSum(counts[..i], weights[..i]) + counts[i] * weights[i]
  {
    if i > 0 {
      WeightedSumSnoc(counts[1..], weights[1..], i - 1);
      assert counts[..i + 1][1..] == counts[1..][..i];
      assert weights[..i + 1][1..] == weights[1..][..i];
      assert counts[..i][1..] == counts[1..][..i - 1];
      assert weights[..i][1..] == weights[1..][..i - 1];
    }
  }

  lemma {:induction false} WeightedSumMonotone(a: seq<nat>, b: seq<nat>, weights: seq<nat>)
    requires |a| == |b| == |weights|
    requires forall k | 0 <= k < |a| :: a[k] <= b[k]
    ensures WeightedSum(a, weights) <= WeightedSum(b, weights)
  {
    if a != [] {
      WeightedSumMonotone(a[1..], b[1..], weights[1..]);
      assert a[0] * weights[0] <= b[0] * weights[0];
    }
  }

  /** The score never decreases when any occurrence count grows. */
  lemma ScoreMonotone(a: seq<nat>, b: seq<nat>)
    requires |a| == |b| == |Indicators|
    requires forall k | 0 <= k < |a| :: a[k] <= b[k]
    ensures Score(a) <= Score(b)
  {
    WeightedSumMonotone(a, b, DoubledWeights());
  }

  /**
   * The score is the integer-weighted keyword sum plus half the code fences
   * rounded up; keywords are counted case-insensitively, fences exactly.
   */
  lemma WeightedSumUnfold(counts: seq<nat>, weights: seq<nat>, k: nat)
    requires |counts| == |weights| && k < |counts|
    ensures WeightedSum(counts[k..], weights[k..]) == counts[k] * weights[k] + WeightedSum(counts[k + 1..], weights[k + 1..])
  {
    assert counts[k..][1..] == counts[k + 1..] && weights[k..][1..] == weights[k + 1..];
  }

  lemma DoubledWeightsListed()
    ensures DoubledWeights() == [2, 4, 2, 4, 2, 6, 4, 4, 4, 1]
  {
    assert |Indicators| == 10;
  }

  /** The doubled weights written out: every keyword weight doubled, the fence weight 1. */
  lemma DoubledSumFormula(c: seq<nat>)
    requires |c| == |Indicators|
    ensures WeightedSum(c, DoubledWeights()) ==
      2 * c[0] + 4 * c[1] + 2 * c[2] + 4 * c[3] + 2 * c[4] + 6 * c[5] + 4 * c[6] + 4 * c[7] + 4 * c[8] + c[9]
  {
    DoubledWeightsListed();
    WeightedSumOfTen(c, DoubledWeights());
  }

  /** A weighted sum of ten counts, unfolded. */
  lemma WeightedSumOfTen(c: seq<nat>, w: seq<nat>)
    requires |c| == |w| == 10
    ensures WeightedSum(c, w) ==
      w[0] * c[0] + w[1] * c[1] + w[2] * c[2] + w[3] * c[3] + w[4] * c[4]
      + w[5] * c[5] + w[6] * c[6] + w[7] * c[7] + w[8] * c[8] + w[9] * c[9]
  {
    assert c[10..] == [] && w[10..] == [];
    WeightedSumUnfold(c, w, 9);
    WeightedSumUnfold(c, w, 8);
    WeightedSumUnfold(c, w, 7);
    WeightedSumUnfold(c, w, 6);
    WeightedSumUnfold(c, w, 5);
    WeightedSumUnfold(c, w, 4);
    WeightedSumUnfold(c, w, 3);
    WeightedSumUnfold(c, w, 2);
    WeightedSumUnfold(c, w, 1);
    WeightedSumUnfold(c, w, 0);
    assert c[0..] == c && w[0..] == w;
  }

  /**
   * The score is the integer-weighted keyword sum plus half the code fences
   * rounded up; keywords are counted case-insensitively, fences exactly.
   */
  lemma ComplexityFormula(content: string)
    ensures var lower := AsciiLower(content);
      Complexity(content) ==
        CountMatches(lower, "blueprint") + 2 * CountMatches(lower, "integration") + CountMatches(lower, "action")
        + 2 * CountMatches(lower, "scorecard") + CountMatches(lower, "dashboard") + 3 * CountMatches(lower, "terraform")
        + 2 * CountMatches(lower, "api") + 2 * CountMatches(lower, "webhook") + 2 * CountMatches(lower, "jq")
        + (CountMatches(content, "```") + 1) / 2
  {
    var c := Counts(content);
    DoubledSumFormula(c);
    var lower := AsciiLower(content);
    assert c[0] == CountMatches(lower, "blueprint") && c[1] == CountMatches(lower, "integration");
    assert c[2] == CountMatches(lower, "action") && c[3] == CountMatches(lower, "scorecard");
    assert c[4] == CountMatches(lower, "dashboard") && c[5] == CountMatches(lower, "terraform");
    assert c[6] == CountMatches(lower, "api") && c[7] == CountMatches(lower, "webhook");
    assert c[8] == CountMatches(lower, "jq") && c[9] == CountMatches(content, "```");
  }

  // ---------------------------------------------------------------------
  // The rule passes.
  // ---------------------------------------------------------------------

  /** `validateChallengeStructure` */
  function StructureReport(path: string, content: string, d: Difficulty): Report {
    var requirements := ChallengeRequirements(d);
    var missingRequired := MissingSections(content, requirements.required);
    var missingRecommended := MissingSections(content, requirements.recommended);
    Report(
      if missingRequired == [] then []
      else [Finding(path, DifficultyName(d) + StructureErrorSuffix, MissingRequiredPrefix + Join(missingRequired, ", "))],
      (if missingRecommended == [] then []
       else [Finding(path, DifficultyName(d) + StructureWarningSuffix, MissingRecommendedPrefix + Join(missingRecommended, ", "))])
      + (if requirements.shouldHaveStepByStep && !HasStepByStep(content) then [Finding(path, BeginnerWarning, StepByStepMessage)] else []),
      None)
  }

  /** The objective checks: length of the trimmed section, and an action verb in it. */
  function ObjectiveWarnings(path: string, content: string): seq<Finding> {
    match Section(content, ObjectiveHeading)
    case None => []
    case Some(body) => ObjectiveTextWarnings(path, Trim(body))
  }

  /** The warnings about the trimmed objective text. */
  function ObjectiveTextWarnings(path: string, objective: string): seq<Finding> {
    (if Utf16Length(objective) < 50 then [Finding(path, ContentWarning, BriefObjective)] else [])
    + (if ContainsAny(AsciiLower(objective), ActionVerbs) then [] else [Finding(path, ContentWarning, NoActionVerb)])
  }

  /** The success-criteria check: no bullet is an error, a single bullet a warning. */
  function CriteriaReport(path: string, content: string): Report {
    match Section(content, SuccessHeading)
    case None => NoFindings
    case Some(body) =>
      var count := BulletCount(Trim(body));
      if count == 0 then Errors([Finding(path, ContentError, NoBullets)])
      else if count < 2 then Warnings([Finding(path, ContentWarning, OneBullet)])
      else NoFindings
  }

  function ComplexityMessage(complexity: nat, d: Difficulty): string {
    ComplexityPrefix + NatToString(complexity) + ComplexityInfix + DifficultyName(d)
    + ComplexityMaxInfix + NatToString(ChallengeRequirements(d).maxComplexity) + ")"
  }

  function ComplexityWarnings(path: string, content: string, d: Difficulty): seq<Finding> {
    var complexity := Complexity(content);
    if complexity > ChallengeRequirements(d).maxComplexity
    then [Finding(path, ComplexityWarning, ComplexityMessage(complexity, d))]
    else []
  }

  function PortTermWarnings(path: string, content: string): seq<Finding> {
    if ContainsAny(AsciiLower(content), PortTerms) then [] else [Finding(path, ContentWarning, NoPortTerms)]
  }

  /** The code-example checks: fences expected below advanced, and a YAML or JSON fence among them. */
  function CodeWarnings(path: string, content: string, d: Difficulty): seq<Finding> {
    var hasCodeBlocks := Contains(content, "```");
    (if d != Advanced && !hasCodeBlocks then [Finding(path, ContentWarning, NoCodeExamples)] else [])
    + (if hasCodeBlocks && !ContainsAny(AsciiLower(content), ConfigFences) then [Finding(path, ContentWarning, NoYamlJson)] else [])
  }

  /** `validateChallengeContent` */
  function ContentReport(path: string, content: string, d: Difficulty): Report {
    var criteria := CriteriaReport(path, content);
    Report(
      criteria.errors,
      ObjectiveWarnings(path, content) + criteria.warnings + ComplexityWarnings(path, content, d)
      + PortTermWarnings(path, content) + CodeWarnings(path, content, d),
      None)
  }

  /** `validateChallenge`, with the file read given as an outcome. */
  function ChallengeFile(path: string, read: ReadOutcome): FileResult {
    match read
    case ReadFailed(message) => FileResult([Finding(path, ReadErrorCategory, message)], [], false)
    case Read(content) =>
      match DetectDifficulty(path)
      case None => FileResult([], [Finding(path, UnknownDifficulty, UnknownDifficultyMessage)], true)
      case Some(d) =>
        var structure := StructureReport(path, content, d);
        var checks := ContentReport(path, content, d);
        FileResult(structure.errors + checks.errors, structure.warnings + checks.warnings, true)
  }

  /** A challenge file counts exactly when it could be read. */
  lemma ChallengeRunCounts(files: seq<(string, ReadOutcome)>)
    ensures RunFiles(files, ChallengeFile).validated == CountRead(files)
  {
    RunFilesCountsRead(files, ChallengeFile);
  }

  // ---------------------------------------------------------------------
  // Properties.
  // ---------------------------------------------------------------------

  /**
   * The structure pass: at most one error, present exactly when a required
   * section is missing and then listing every missing one in table order; a
   * recommended-section warning listing the missing ones likewise; and the
   * step-by-step warning exactly for a beginner challenge without numbered
   * steps.
   */
  lemma StructureFindings(path: string, content: string, d: Difficulty)
    ensures var r := StructureReport(path, content, d);
      var requirements := ChallengeRequirements(d);
      && r.thrown.None?
      && |r.errors| <= 1
      && (r.errors == [] <==> forall k | 0 <= k < |requirements.required| :: Contains(content, requirements.required[k]))
      && (forall s :: s in MissingSections(content, requirements.required) <==> s in requirements.required && !Contains(content, s))
      && (r.errors != [] ==>
            r.errors == [Finding(path, DifficultyName(d) + StructureErrorSuffix,
                                 MissingRequiredPrefix + Join(MissingSections(content, requirements.required), ", "))])
      && |r.warnings| ==
           (if MissingSections(content, requirements.recommended) == [] then 0 else 1)
           + (if d == Beginner && !HasStepByStep(content) then 1 else 0)
      && (MissingSections(content, requirements.recommended) == [] <==>
            forall k | 0 <= k < |requirements.recommended| :: Contains(content, requirements.recommended[k]))
      && (MissingSections(content, requirements.recommended) != [] ==>
            r.warnings[0] == Finding(path, DifficultyName(d) + StructureWarningSuffix,
                                     MissingRecommendedPrefix + Join(MissingSections(content, requirements.recommended), ", ")))
      && (Finding(path, BeginnerWarning, StepByStepMessage) in r.warnings <==> d == Beginner && !HasStepByStep(content))
  {
    StructureErrors(path, content, d);
    StructureWarnings(path, content, d);
  }

  /** The required-section half of `StructureFindings`. */
  lemma StructureErrors(path: string, content: string, d: Difficulty)
    ensures var r := StructureReport(path, content, d);
      var required := ChallengeRequirements(d).required;
      && r.thrown.None?
      && |r.errors| <= 1
      && (r.errors == [] <==> forall k | 0 <= k < |required| :: Contains(content, required[k]))
      && (forall s :: s in MissingSections(content, required) <==> s in required && !Contains(content, s))
      && (r.errors != [] ==>
            r.errors == [Finding(path, DifficultyName(d) + StructureErrorSuffix, MissingRequiredPrefix + Join(MissingSections(content, required), ", "))])
  {
    MissingSectionsMeaning(content, ChallengeRequirements(d).required);
  }

  /** The warning half of `StructureFindings`. */
  lemma StructureWarnings(path: string, content: string, d: Difficulty)
    ensures var r := StructureReport(path, content, d);
      var recommended := ChallengeRequirements(d).recommended;
      var missing := MissingSections(content, recommended);
      && |r.warnings| == (if missing == [] then 0 else 1) + (if d == Beginner && !HasStepByStep(content) then 1 else 0)
      && (missing == [] <==> forall k | 0 <= k < |recommended| :: Contains(content, recommended[k]))
      && (missing != [] ==>
            r.warnings[0] == Finding(path, DifficultyName(d) + StructureWarningSuffix, MissingRecommendedPrefix + Join(missing, ", ")))
      && (Finding(path, BeginnerWarning, StepByStepMessage) in r.warnings <==> d == Beginner && !HasStepByStep(content))
  {
    var recommended := ChallengeRequirements(d).recommended;
    var missing := MissingSections(content, recommended);
    MissingSectionsMeaning(content, recommended);
    var head := if missing == [] then [] else [Finding(path, DifficultyName(d) + StructureWarningSuffix, MissingRecommendedPrefix + Join(missing, ", "))];
    var step := if ChallengeRequirements(d).shouldHaveStepByStep && !HasStepByStep(content) then [Finding(path, BeginnerWarning, StepByStepMessage)] else [];
    assert StructureReport(path, content, d).warnings == head + step;
    // The recommended-section warning is never the step-by-step one: their categories differ in the first letter.
    assert (DifficultyName(d) + StructureWarningSuffix)[0] != BeginnerWarning[0];
    assert Finding(path, BeginnerWarning, StepByStepMessage) !in head;
  }

  /** `## Objective` holds the substring `# `, so the title is never reported missing beside it. */
  lemma TitleNeverMissingBesideObjective(content: string, d: Difficulty)
    requires Contains(content, ObjectiveHeading)
    ensures TitleHeading !in MissingSections(content, ChallengeRequirements(d).required)
  {
    var i :| 0 <= i <= |content| - |ObjectiveHeading| && OccursAt(content, ObjectiveHeading, i);
    var window := content[i..i + |ObjectiveHeading|];
    assert window == ObjectiveHeading;
    assert content[i + 1] == window[1] == '#' && content[i + 2] == window[2] == ' ';
    assert content[i + 1..i + 3] == TitleHeading;
    assert OccursAt(content, TitleHeading, i + 1);
    MissingSectionsMeaning(content, ChallengeRequirements(d).required);
  }

  /**
   * The success criteria: no bullet line gives exactly one error, one bullet
   * line exactly one warning, two or more nothing; no section, nothing.
   */
  lemma CriteriaFindings(path: string, content: string)
    ensures var r := CriteriaReport(path, content);
      match Section(content, SuccessHeading)
      case None => r == NoFindings
      case Some(body) =>
        var s := Trim(body);
        && r.thrown.None?
        && ((forall i | 0 <= i < |s| :: !BulletAt(s, i)) <==> r.errors == [Finding(path, ContentError, NoBullets)])
        && (|r.errors| + |r.warnings| <= 1)
        && (r.warnings != [] <==> BulletCount(s) == 1)
        && (BulletCount(s) == 1 ==> r == Warnings([Finding(path, ContentWarning, OneBullet)]))
        && (BulletCount(s) >= 2 ==> r == NoFindings)
  {
    match Section(content, SuccessHeading) {
      case None =>
      case Some(body) => BulletsBelowZero(Trim(body), |Trim(body)|);
    }
  }

  /** Too high a complexity is a single warning, never an error. */
  lemma ComplexityFindings(path: string, content: string, d: Difficulty)
    ensures var r := ContentReport(path, content, d);
      && r.errors == CriteriaReport(path, content).errors
      && (|ComplexityWarnings(path, content, d)| == 1 <==> Complexity(content) > ChallengeRequirements(d).maxComplexity)
      && |ComplexityWarnings(path, content, d)| <= 1
  {
  }

  /** The objective: a short trimmed text and a missing action verb are separate warnings. */
  lemma ObjectiveFindings(path: string, content: string)
    ensures var ws := ObjectiveWarnings(path, content);
      match Section(content, ObjectiveHeading)
      case None => ws == []
      case Some(body) =>
        var objective := Trim(body);
        |ws| == (if Utf16Length(objective) < 50 then 1 else 0) + (if ContainsAny(AsciiLower(objective), ActionVerbs) then 0 else 1)
  {
  }

  /**
   * Code examples: a missing fence is reported below advanced only, and a
   * fence without a YAML or JSON one is reported whatever the difficulty.
   */
  lemma CodeFindings(path: string, content: string, d: Difficulty)
    ensures var ws := CodeWarnings(path, content, d);
      && (d == Advanced && !Contains(content, "```") ==> ws == [])
      && (d != Advanced && !Contains(content, "```") ==> ws == [Finding(path, ContentWarning, NoCodeExamples)])
      && (Contains(content, "```") ==>
            (ws == [] <==> ContainsAny(AsciiLower(content), ConfigFences)) && |ws| <= 1)
  {
  }

  /** Every readable file counts; an unknown difficulty gives one warning and nothing else. */
  lemma ChallengeOutcome(path: string, read: ReadOutcome)
    ensures var f := ChallengeFile(path, read);
      && (f.validated <==> read.Read?)
      && (read.ReadFailed? ==> f.errors == [Finding(path, ReadErrorCategory, read.message)] && f.warnings == [])
      && (read.Read? && DetectDifficulty(path).None? ==>
            f.errors == [] && f.warnings == [Finding(path, UnknownDifficulty, UnknownDifficultyMessage)])
  {
  }

  // ---------------------------------------------------------------------
  // The per-difficulty tally of `printResults`.
  // ---------------------------------------------------------------------

  /** The tally bucket of a finding's file: the three difficulties, then unknown. */
  function Bucket(f: Finding): (b: nat)
    ensures b < 4
  {
    match DetectDifficulty(f.file)
    case Some(Beginner) => 0
    case Some(Intermediate) => 1
    case Some(Advanced) => 2
    case None => 3
  }

  /** How many of the findings fall in bucket `b`. */
  function InBucket(fs: seq<Finding>, b: nat): (n: nat)
    ensures n <= |fs|
  {
    if fs == [] then 0 else InBucket(fs[..|fs| - 1], b) + (if Bucket(fs[|fs| - 1]) == b then 1 else 0)
  }

  lemma InBucketSnoc(fs: seq<Finding>, i: nat)
    requires i < |fs|
    ensures forall b :: InBucket(fs[..i + 1], b) == InBucket(fs[..i], b) + (if Bucket(fs[i]) == b then 1 else 0)
  {
    assert fs[..i + 1][..i] == fs[..i];
  }

  /** Every finding falls in exactly one bucket, so the buckets add up to the whole. */
  lemma {:induction false} BucketsAddUp(fs: seq<Finding>)
    ensures InBucket(fs, 0) + InBucket(fs, 1) + InBucket(fs, 2) + InBucket(fs, 3) == |fs|
  {
    if fs != [] {
      BucketsAddUp(fs[..|fs| - 1]);
    }
  }

  datatype Tally = Tally(errors: nat, warnings: nat)

  // ---------------------------------------------------------------------
  // The validator object.
  // ---------------------------------------------------------------------

  class ChallengeValidator {
    var errors: seq<Finding>
    var warnings: seq<Finding>
    var validatedFiles: nat

    constructor ()
      ensures errors == [] && warnings == [] && validatedFiles == 0
    {
      errors := [];
      warnings := [];
      validatedFiles := 0;
    }

    /** `validateChallengeStructure` */
    method ValidateChallengeStructure(path: string, content: string, d: Difficulty)
      modifies this
      ensures errors == old(errors) + StructureReport(path, content, d).errors
      ensures warnings == old(warnings) + StructureReport(path, content, d).warnings
      ensures validatedFiles == old(validatedFiles)
    {
      var requirements := ChallengeRequirements(d);
      var missingRequired := MissingSections(content, requirements.required);
      if |missingRequired| > 0 {
        errors := errors + [Finding(path, DifficultyName(d) + StructureErrorSuffix, MissingRequiredPrefix + Join(missingRequired, ", "))];
      }
      var missingRecommended := MissingSections(content, requirements.recommended);
      if |missingRecommended| > 0 {
        warnings := warnings + [Finding(path, DifficultyName(d) + StructureWarningSuffix, MissingRecommendedPrefix + Join(missingRecommended, ", "))];
      }
      if requirements.shouldHaveStepByStep {
        var hasStepByStep := HasStepWord(content) || HasNumberedSteps(content);
        if !hasStepByStep {
          warnings := warnings + [Finding(path, BeginnerWarning, StepByStepMessage)];
        }
      }
    }

    /** The objective checks of `validateChallengeContent`. */
    method CheckObjective(path: string, content: string)
      modifies this
      ensures warnings == old(warnings) + ObjectiveWarnings(path, content)
      ensures errors == old(errors) && validatedFiles == old(validatedFiles)
    {
      var objectiveMatch := Section(content, ObjectiveHeading);
      if objectiveMatch.Some? {
        var objective := Trim(objectiveMatch.value);
        var units := Utf16Length(objective);
        var brief := if units < 50 then [Finding(path, ContentWarning, BriefObjective)] else [];
        var hasActionVerb := ContainsAny(AsciiLower(objective), ActionVerbs);
        var verb := if hasActionVerb then [] else [Finding(path, ContentWarning, NoActionVerb)];
        assert ObjectiveWarnings(path, content) == brief + verb by {
          assert ObjectiveWarnings(path, content) == ObjectiveTextWarnings(path, objective);
        }
        warnings := warnings + brief;
        if !hasActionVerb {
          ConcatAssoc(old(warnings), brief, verb);
          warnings := warnings + verb;
        }
      }
    }

    /** The success-criteria check of `validateChallengeContent`. */
    method CheckCriteria(path: string, content: string)
      modifies this
      ensures errors == old(errors) + CriteriaReport(path, content).errors
      ensures warnings == old(warnings) + CriteriaReport(path, content).warnings
      ensures validatedFiles == old(validatedFiles)
    {
      var successMatch := Section(content, SuccessHeading);
      if successMatch.Some? {
        var criteriaCount := BulletCount(Trim(successMatch.value));
        if criteriaCount == 0 {
          errors := errors + [Finding(path, ContentError, NoBullets)];
        } else if criteriaCount < 2 {
          warnings := warnings + [Finding(path, ContentWarning, OneBullet)];
        }
      }
    }

    /** `assessComplexity`: the indicators' matches, weighted and summed, then rounded. */
    method AssessComplexity(content: string) returns (complexity: nat)
      ensures complexity == Complexity(content)
    {
      var counts := Counts(content);
      var weights := DoubledWeights();
      var doubled := 0;
      var i := 0;
      while i < |Indicators|
        invariant 0 <= i <= |Indicators|
        invariant doubled == WeightedSum(counts[..i], weights[..i])
      {
        var matches := Occurrences(content, Indicators[i]);
        WeightedSumSnoc(counts, weights, i);
        doubled := doubled + matches * Indicators[i].doubledWeight;
        i := i + 1;
      }
      assert counts[..i] == counts && weights[..i] == weights;
      complexity := (doubled + 1) / 2;
    }

    /** The complexity check of `validateChallengeContent`. */
    method CheckComplexity(path: string, content: string, d: Difficulty)
      modifies this
      ensures warnings == old(warnings) + ComplexityWarnings(path, content, d)
      ensures errors == old(errors) && validatedFiles == old(validatedFiles)
    {
      var complexity := AssessComplexity(content);
      if complexity > ChallengeRequirements(d).maxComplexity {
        warnings := warnings + [Finding(path, ComplexityWarning, ComplexityMessage(complexity, d))];
      }
    }

    /** The terminology and code-example checks of `validateChallengeContent`. */
    method CheckTermsAndCode(path: string, content: string, d: Difficulty)
      modifies this
      ensures warnings == old(warnings) + (PortTermWarnings(path, content) + CodeWarnings(path, content, d))
      ensures errors == old(errors) && validatedFiles == old(validatedFiles)
    {
      var terms := if ContainsAny(AsciiLower(content), PortTerms) then [] else [Finding(path, ContentWarning, NoPortTerms)];
      warnings := warnings + terms;
      var hasCodeBlocks := Contains(content, "```");
      var hasYamlJson := ContainsAny(AsciiLower(content), ConfigFences);
      var noCode := if d != Advanced && !hasCodeBlocks then [Finding(path, ContentWarning, NoCodeExamples)] else [];
      var noConfig := if hasCodeBlocks && !hasYamlJson then [Finding(path, ContentWarning, NoYamlJson)] else [];
      ConcatAssoc(old(warnings), terms, noCode + noConfig);
      ConcatAssoc(old(warnings) + terms, noCode, noConfig);
      warnings := warnings + noCode;
      warnings := warnings + noConfig;
    }

    /** `validateChallengeContent` */
    method ValidateChallengeContent(path: string, content: string, d: Difficulty)
      modifies this
      ensures errors == old(errors) + ContentReport(path, content, d).errors
      ensures warnings == old(warnings) + ContentReport(path, content, d).warnings
      ensures validatedFiles == old(validatedFiles)
    {
      ghost var objective := ObjectiveWarnings(path, content);
      ghost var criteria := CriteriaReport(path, content);
      ghost var complexity := ComplexityWarnings(path, content, d);
      ghost var rest := PortTermWarnings(path, content) + CodeWarnings(path, content, d);
      assert ContentReport(path, content, d).warnings == objective + criteria.warnings + complexity + rest;
      CheckObjective(path, content);
      CheckCriteria(path, content);
      ConcatAssoc(old(warnings), objective, criteria.warnings);
      CheckComplexity(path, content, d);
      ConcatAssoc(old(warnings), objective + criteria.warnings, complexity);
      CheckTermsAndCode(path, content, d);
      ConcatAssoc(old(warnings), objective + criteria.warnings + complexity, rest);
    }

    /** `validateChallenge`, with the file read given as an outcome. */
    method ValidateChallenge(path: string, read: ReadOutcome)
      modifies this
      ensures errors == old(errors) + ChallengeFile(path, read).errors
      ensures warnings == old(warnings) + ChallengeFile(path, read).warnings
      ensures validatedFiles == old(validatedFiles) + (if ChallengeFile(path, read).validated then 1 else 0)
    {
      match read {
        case ReadFailed(message) =>
          errors := errors + [Finding(path, ReadErrorCategory, message)];
        case Read(content) =>
          var difficulty := DetectDifficulty(path);
          match difficulty {
            case Some(d) =>
              ValidateChallengeStructure(path, content, d);
              ValidateChallengeContent(path, content, d);
              ConcatAssoc(old(errors), StructureReport(path, content, d).errors, ContentReport(path, content, d).errors);
              ConcatAssoc(old(warnings), StructureReport(path, content, d).warnings, ContentReport(path, content, d).warnings);
            case None =>
              warnings := warnings + [Finding(path, UnknownDifficulty, UnknownDifficultyMessage)];
          }
          validatedFiles := validatedFiles + 1;
      }
    }

    /**
     * `validateAllChallenges`, over the discovered files: each file's
     * findings in file order, one count per readable file, and the run passes
     * exactly when no error was recorded.
     */
    method ValidateAllChallenges(files: seq<(string, ReadOutcome)>) returns (success: bool)
      modifies this
      ensures errors == old(errors) + RunFiles(files, ChallengeFile).errors
      ensures warnings == old(warnings) + RunFiles(files, ChallengeFile).warnings
      ensures validatedFiles == old(validatedFiles) + RunFiles(files, ChallengeFile).validated
      ensures validatedFiles == old(validatedFiles) + CountRead(files)
      ensures success <==> errors == []
    {
      var i := 0;
      while i < |files|
        invariant 0 <= i <= |files|
        invariant errors == old(errors) + RunFiles(files[..i], ChallengeFile).errors
        invariant warnings == old(warnings) + RunFiles(files[..i], ChallengeFile).warnings
        invariant validatedFiles == old(validatedFiles) + RunFiles(files[..i], ChallengeFile).validated
      {
        ghost var before := RunFiles(files[..i], ChallengeFile);
        ValidateChallenge(files[i].0, files[i].1);
        RunFilesExtend(files, ChallengeFile, i);
        ConcatAssoc(old(errors), before.errors, ChallengeFile(files[i].0, files[i].1).errors);
        ConcatAssoc(old(warnings), before.warnings, ChallengeFile(files[i].0, files[i].1).warnings);
        i := i + 1;
      }
      assert files[..i] == files;
      ChallengeRunCounts(files);
      success := |errors| == 0;
    }

    /**
     * The grouping loop of `printResults`: each issue of `errors`, then of
     * `warnings`, is counted under the difficulty of its file.  An issue
     * counts as an error when it is one of the `errors` entries; entries are
     * distinct objects, so that is exactly the first `|errors|` issues.
     */
    method TallyByDifficulty() returns (tally: seq<Tally>)
      ensures |tally| == 4
      ensures forall b | 0 <= b < 4 :: tally[b] == Tally(InBucket(errors, b), InBucket(warnings, b))
      ensures tally[0].errors + tally[1].errors + tally[2].errors + tally[3].errors == |errors|
      ensures tally[0].warnings + tally[1].warnings + tally[2].warnings + tally[3].warnings == |warnings|
    {
      tally := [Tally(0, 0), Tally(0, 0), Tally(0, 0), Tally(0, 0)];
      var issues := errors + warnings;
      var i := 0;
      while i < |issues|
        invariant 0 <= i <= |issues|
        invariant |tally| == 4
        invariant forall b | 0 <= b < 4 ::
          tally[b] == Tally(InBucket(errors[..Min(i, |errors|)], b), InBucket(warnings[..i - Min(i, |errors|)], b))
      {
        var b := Bucket(issues[i]);
        if i < |errors| {
          assert Min(i, |errors|) == i && Min(i + 1, |errors|) == i + 1;
          InBucketSnoc(errors, i);
          assert issues[i] == errors[i];
          tally := tally[b := Tally(tally[b].errors + 1, tally[b].warnings)];
        } else {
          ghost var j := i - |errors|;
          assert Min(i, |errors|) == Min(i + 1, |errors|) == |errors|;
          InBucketSnoc(warnings, j);
          assert issues[i] == warnings[j];
          tally := tally[b := Tally(tally[b].errors, tally[b].warnings + 1)];
        }
        i := i + 1;
      }
      assert errors[..|errors|] == errors && warnings[..|warnings|] == warnings;
      BucketsAddUp(errors);
      BucketsAddUp(warnings);
    }
  }

  function Min(a: nat, b: nat): nat {
    if a < b then a else b
  }
}
