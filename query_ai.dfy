/**
 * The rule-based helpers of scripts/query_ai.py that annotate a job found by
 * the semantic search: scam flags from fixed phrases, a win-rate estimate
 * from a points table, and the short lists of strengths and customisation
 * points offered for a proposal.
 */
module QueryAi {
  import opened Wrappers
  import opened Strings
  import opened Casing
  import opened PyValues

  /**
   * The freelancer profile, as its JSON file holds it: a missing key reads
   * as the default the source passes to `profile.get`.
   */
  datatype Profile = Profile(skills: seq<string>, experience: int, portfolio: seq<Dict>, rate: Value)

  /** `job.get('description', '').lower()` */
  function JobText(job: Dict): Result<string, PyError> {
    LowerText(Get(job, "description", PyStr("")))
  }

  // ---------------------------------------------------------------- detect_scam_flags

  /** The phrases looked for, each with the flag it raises, in the order they are tried. */
  const ScamPatterns: seq<(string, string)> := [
    ("release milestone after complete all", "Yêu cầu release milestone sau khi hoàn thành tất cả"),
    ("hourly giả fixed", "Budget fixed nhưng yêu cầu hourly"),
    ("upfront payment required", "Yêu cầu thanh toán trước"),
    ("send your password", "Yêu cầu gửi password"),
    ("click this link", "Yêu cầu click link lạ"),
    ("western union", "Thanh toán qua Western Union"),
    ("moneygram", "Thanh toán qua MoneyGram"),
    ("urgent need", "Cần gấp + budget thấp")
  ]

  const NoScam: string := "Không phát hiện dấu hiệu scam"

  const MaxFlags: nat := 3

  /** The flags raised by `patterns` against `text`, in pattern order. */
  function Flags(text: string, patterns: seq<(string, string)>): (r: seq<string>)
    ensures |r| <= |patterns|
    decreases |patterns|
  {
    if patterns == [] then []
    else
      var last := patterns[|patterns| - 1];
      Flags(text, patterns[..|patterns| - 1]) + (if Contains(text, last.0) then [last.1] else [])
  }

  /** The report: the fixed sentence when nothing was flagged, else the first flags joined by `"; "`. */
  function ScamReport(flags: seq<string>): string {
    if flags == [] then NoScam else Join("; ", Take(flags, MaxFlags))
  }

  function DetectScam(job: Dict): Result<string, PyError> {
    var text := JobText(job);
    if text.Err? then Err(text.error) else Ok(ScamReport(Flags(text.value, ScamPatterns)))
  }

  /** The indices of the patterns that occur in `text`, increasing. */
  function FlagIndices(text: string, patterns: seq<(string, string)>): seq<nat>
    decreases |patterns|
  {
    if patterns == [] then []
    else
      var n := |patterns| - 1;
      FlagIndices(text, patterns[..n]) + (if Contains(text, patterns[n].0) then [n] else [])
  }

  /** Each index names a pattern that occurs, and the flag in its place is that pattern's. */
  lemma {:induction false} FlagIndicesPoint(text: string, patterns: seq<(string, string)>)
    ensures |FlagIndices(text, patterns)| == |Flags(text, patterns)|
    ensures forall i :: 0 <= i < |FlagIndices(text, patterns)| ==>
              var k := FlagIndices(text, patterns)[i];
              k < |patterns| && Contains(text, patterns[k].0) && Flags(text, patterns)[i] == patterns[k].1
    decreases |patterns|
  {
    if patterns != [] {
      var n := |patterns| - 1;
      var init := patterns[..n];
      FlagIndicesPoint(text, init);
      var prev := FlagIndices(text, init);
      var before := Flags(text, init);
      forall i | 0 <= i < |prev| ensures prev[i] < n && init[prev[i]] == patterns[prev[i]] { }
    }
  }

  lemma {:induction false} FlagIndicesIncreasing(text: string, patterns: seq<(string, string)>)
    ensures forall i :: 0 <= i < |FlagIndices(text, patterns)| ==> FlagIndices(text, patterns)[i] < |patterns|
    ensures forall i, j :: 0 <= i < j < |FlagIndices(text, patterns)| ==>
              FlagIndices(text, patterns)[i] < FlagIndices(text, patterns)[j]
    decreases |patterns|
  {
    if patterns != [] {
      FlagIndicesIncreasing(text, patterns[..|patterns| - 1]);
    }
  }

  lemma {:induction false} FlagIndicesCover(text: string, patterns: seq<(string, string)>)
    ensures forall k :: 0 <= k < |patterns| && Contains(text, patterns[k].0) ==> k in FlagIndices(text, patterns)
    decreases |patterns|
  {
    if patterns != [] {
      var n := |patterns| - 1;
      var init := patterns[..n];
      FlagIndicesCover(text, init);
      forall k | 0 <= k < n ensures init[k] == patterns[k] { }
    }
  }

  /**
   * The flags are the flag texts of exactly the patterns that occur, in
   * pattern order: `idx` lists the indices of the occurring patterns,
   * increasing, and flag `i` is the text of pattern `idx[i]`.
   */
  lemma FlagsOrder(text: string, patterns: seq<(string, string)>) returns (idx: seq<nat>)
    ensures |idx| == |Flags(text, patterns)|
    ensures forall i :: 0 <= i < |idx| ==>
              idx[i] < |patterns| && Contains(text, patterns[idx[i]].0) && Flags(text, patterns)[i] == patterns[idx[i]].1
    ensures forall i, j :: 0 <= i < j < |idx| ==> idx[i] < idx[j]
    ensures forall k :: 0 <= k < |patterns| && Contains(text, patterns[k].0) ==> k in idx
  {
    idx := FlagIndices(text, patterns);
    FlagIndicesPoint(text, patterns);
    FlagIndicesIncreasing(text, patterns);
    FlagIndicesCover(text, patterns);
  }

  /**
   * The first `n` flags are the flag texts of the first (at most `n`)
   * patterns that occur, in pattern order; any other pattern that occurs
   * comes after the last one shown.
   */
  lemma FirstFlags(text: string, patterns: seq<(string, string)>, n: nat) returns (shown: seq<nat>)
    requires n > 0
    ensures |shown| <= n
    ensures forall i :: 0 <= i < |shown| ==> shown[i] < |patterns| && Contains(text, patterns[shown[i]].0)
    ensures forall i, j :: 0 <= i < j < |shown| ==> shown[i] < shown[j]
    ensures forall k :: 0 <= k < |patterns| && Contains(text, patterns[k].0) ==>
              k in shown || (|shown| == n && k > shown[n - 1])
    ensures Take(Flags(text, patterns), n) == seq(|shown|, i requires 0 <= i < |shown| => patterns[shown[i]].1)
  {
    var idx := FlagsOrder(text, patterns);
    shown := Take(idx, n);
    forall k | 0 <= k < |patterns| && Contains(text, patterns[k].0)
      ensures k in shown || (|shown| == n && k > shown[n - 1])
    {
      var j :| 0 <= j < |idx| && idx[j] == k;
      if j >= n {
        assert idx[n - 1] < idx[j];
      } else {
        assert shown[j] == k;
      }
    }
  }

  /**
   * `detect_scam_flags`: a description that is not a string raises; with no
   * phrase present the result is the fixed sentence; otherwise it joins, in
   * pattern order, the flags of the first (at most three) phrases present,
   * and any other phrase present comes after the third one shown.
   */
  lemma DetectScamSpec(job: Dict) returns (shown: seq<nat>)
    ensures !Get(job, "description", PyStr("")).PyStr? ==> DetectScam(job) == Err(AttributeError)
    ensures Get(job, "description", PyStr("")).PyStr? ==>
              var text := Lower(Get(job, "description", PyStr("")).s);
              && |shown| <= MaxFlags
              && (forall i :: 0 <= i < |shown| ==> shown[i] < |ScamPatterns| && Contains(text, ScamPatterns[shown[i]].0))
              && (forall i, j :: 0 <= i < j < |shown| ==> shown[i] < shown[j])
              && (forall k :: 0 <= k < |ScamPatterns| && Contains(text, ScamPatterns[k].0) ==>
                    k in shown || (|shown| == MaxFlags && k > shown[MaxFlags - 1]))
              && DetectScam(job) == Ok(if shown == [] then NoScam
                                      else Join("; ", seq(|shown|, i requires 0 <= i < |shown| => ScamPatterns[shown[i]].1)))
  {
    var v := Get(job, "description", PyStr(""));
    if v.PyStr? {
      var text := Lower(v.s);
      shown := FirstFlags(text, ScamPatterns, MaxFlags);
      var flags := Flags(text, ScamPatterns);
      assert flags == [] <==> Take(flags, MaxFlags) == [];
    } else {
      shown := [];
    }
  }

  /** The report names no more than three flags, and only flags that were raised. */
  lemma ReportBound(flags: seq<string>)
    requires flags != []
    ensures exists shown :: 1 <= |shown| <= MaxFlags && shown <= flags && ScamReport(flags) == Join("; ", shown)
  {
    var shown := Take(flags, MaxFlags);
    assert shown <= flags;
  }

  /** `detect_scam_flags`, looping over the phrases and appending each flag raised. */
  method DetectScamFlags(job: Dict) returns (r: Result<string, PyError>)
    ensures r == DetectScam(job)
  {
    var v := Get(job, "description", PyStr(""));
    if !v.PyStr? {
      return Err(AttributeError);
    }
    var description := Lower(v.s);
    var flags: seq<string> := [];
    for i := 0 to |ScamPatterns|
      invariant flags == Flags(description, ScamPatterns[..i])
    {
      var (pattern, flagText) := ScamPatterns[i];
      assert ScamPatterns[..i + 1][..i] == ScamPatterns[..i];
      if Contains(description, pattern) {
        flags := flags + [flagText];
      }
    }
    assert ScamPatterns[..|ScamPatterns|] == ScamPatterns;
    if |flags| == 0 {
      return Ok(NoScam);
    }
    return Ok(Join("; ", Take(flags, MaxFlags)));
  }

  // ---------------------------------------------------------------- estimate_win_rate

  /** `int(v)` truncating a float toward zero; a string must hold an optionally signed decimal integer. */
  function IntOf(v: Value): Result<int, PyError> {
    match v
    case PyInt(i) => Ok(i)
    case PyBool(b) => Ok(if b then 1 else 0)
    case PyFloat(r) => Ok(if r >= 0.0 then r.Floor else -((-r).Floor))
    case PyStr(s) => ParseInt(s)
    case _ => Err(TypeError)
  }

  /** `int(s)` for a string: surrounding whitespace, an optional sign, then ASCII digits. */
  function ParseInt(s: string): Result<int, PyError> {
    var t := Strip(s);
    if |t| > 0 && (t[0] == '-' || t[0] == '+') then
      if |t| > 1 && AllDigits(t[1..]) then
        var n: int := DecimalValue(t[1..]);
        Ok(if t[0] == '-' then -n else n)
      else Err(ValueError)
    else if |t| > 0 && AllDigits(t) then Ok(DecimalValue(t))
    else Err(ValueError)
  }

  /** `int(str(i)) == i` */
  lemma ParseIntDecimal(i: int)
    ensures ParseInt(IntToDecimal(i)) == Ok(i)
  {
    var t := IntToDecimal(i);
    var digits := NatToDecimal(if i < 0 then -i else i);
    assert !IsSpace(t[0]) && !IsSpace(t[|t| - 1]);
    StripKeeps(t);
    DecimalRoundTrip(if i < 0 then -i else i);
    if i < 0 {
      assert t[1..] == digits;
    } else {
      assert !(t[0] == '-' || t[0] == '+');
    }
  }

  /** `int(job.get('proposals', 0) or 0)` */
  function ProposalCount(job: Dict): Result<int, PyError> {
    IntOf(Or(Get(job, "proposals", PyInt(0)), PyInt(0)))
  }

  /** A missing, empty or zero proposal count reads as zero. */
  lemma ProposalCountDefault(job: Dict)
    requires !Truthy(Get(job, "proposals", PyInt(0)))
    ensures ProposalCount(job) == Ok(0)
  {
  }

  /** How many profile skills, lower-cased, occur in the text. */
  function SkillMatches(text: string, skills: seq<string>): (n: nat)
    ensures n <= |skills|
    decreases |skills|
  {
    if skills == [] then 0
    else SkillMatches(text, skills[..|skills| - 1]) + (if Contains(text, Lower(skills[|skills| - 1])) then 1 else 0)
  }

  const SkillPointsCap: nat := 5

  /** Points for competition: fewer proposals score higher. */
  function ProposalPoints(proposals: int): (p: nat)
    ensures p <= 3
  {
    if proposals < 5 then 3 else if proposals < 15 then 2 else if proposals < 25 then 1 else 0
  }

  /** The points table: skills up to 5, competition up to 3, a budget 1. */
  function WinPoints(matches: nat, proposals: int, hasBudget: bool): (p: nat)
    ensures p <= 9
  {
    (if 2 * matches < SkillPointsCap then 2 * matches else SkillPointsCap)
    + ProposalPoints(proposals) + (if hasBudget then 1 else 0)
  }

  datatype Rating = Low | Medium | High {
    function Text(): string {
      match this
      case High => "Cao (>50%)"
      case Medium => "Trung bình (30-50%)"
      case Low => "Thấp (<30%)"
    }
    function Rank(): nat {
      match this
      case Low => 0
      case Medium => 1
      case High => 2
    }
  }

  function RatingOf(points: int): Rating {
    if points >= 7 then High else if points >= 4 then Medium else Low
  }

  /** A higher score never gets a lower rating. */
  lemma RatingMonotone(p: int, q: int)
    requires p <= q
    ensures RatingOf(p).Rank() <= RatingOf(q).Rank()
  {
  }

  /** Fewer proposals, more matching skills or a budget never lower the rating. */
  lemma WinRateMonotone(m1: nat, m2: nat, p1: int, p2: int, b1: bool, b2: bool)
    requires m1 <= m2 && p2 <= p1 && (b1 ==> b2)
    ensures RatingOf(WinPoints(m1, p1, b1)).Rank() <= RatingOf(WinPoints(m2, p2, b2)).Rank()
  {
    RatingMonotone(WinPoints(m1, p1, b1), WinPoints(m2, p2, b2));
  }

  /** Two matching skills and fewer than five proposals already rate high. */
  lemma TwoSkillsFewProposalsHigh(matches: nat, proposals: int, hasBudget: bool)
    requires matches >= 2 && proposals < 5
    ensures RatingOf(WinPoints(matches, proposals, hasBudget)) == High
  {
  }

  /** With 25 or more proposals and no budget the rating is never high. */
  lemma CrowdedNeverHigh(matches: nat, proposals: int)
    requires proposals >= 25
    ensures RatingOf(WinPoints(matches, proposals, false)) != High
  {
  }

  function WinRate(job: Dict, profile: Profile): Result<string, PyError> {
    var proposals := ProposalCount(job);
    if proposals.Err? then Err(proposals.error)
    else
      var hasBudget := Truthy(Get(job, "budget", PyStr("")));
      var text := JobText(job);
      if text.Err? then Err(text.error)
      else Ok(RatingOf(WinPoints(SkillMatches(text.value, profile.skills), proposals.value, hasBudget)).Text())
  }

  /** The counting loop of `estimate_win_rate`. */
  method CountSkillMatches(text: string, skills: seq<string>) returns (count: nat)
    ensures count == SkillMatches(text, skills)
  {
    count := 0;
    for i := 0 to |skills|
      invariant count == SkillMatches(text, skills[..i])
    {
      assert skills[..i + 1][..i] == skills[..i];
      if Contains(text, Lower(skills[i])) {
        count := count + 1;
      }
    }
    assert skills[..|skills|] == skills;
  }

  /** `estimate_win_rate`: counts the matching skills, then adds up the points. */
  method EstimateWinRate(job: Dict, profile: Profile) returns (r: Result<string, PyError>)
    ensures r == WinRate(job, profile)
  {
    var count := ProposalCount(job);
    if count.Err? {
      return Err(count.error);
    }
    var proposals := count.value;
    var budget := Get(job, "budget", PyStr(""));
    var desc := JobText(job);
    if desc.Err? {
      return Err(desc.error);
    }
    var jobDesc := desc.value;
    var skillMatches := CountSkillMatches(jobDesc, profile.skills);
    var matchScore := AddUpPoints(skillMatches, proposals, Truthy(budget));
    if matchScore >= 7 {
      return Ok("Cao (>50%)");
    } else if matchScore >= 4 {
      return Ok("Trung bình (30-50%)");
    }
    return Ok("Thấp (<30%)");
  }

  /** The scoring steps of `estimate_win_rate`. */
  method AddUpPoints(skillMatches: nat, proposals: int, hasBudget: bool) returns (matchScore: int)
    ensures matchScore == WinPoints(skillMatches, proposals, hasBudget)
  {
    matchScore := 0;
    matchScore := matchScore + (if skillMatches * 2 < 5 then skillMatches * 2 else 5);
    if proposals < 5 {
      matchScore := matchScore + 3;
    } else if proposals < 15 {
      matchScore := matchScore + 2;
    } else if proposals < 25 {
      matchScore := matchScore + 1;
    }
    if hasBudget {
      matchScore := matchScore + 1;
    }
  }

  // ---------------------------------------------------------------- find_match_strengths

  const MaxPoints: nat := 3

  /** The profile skills, in profile order, whose lower-cased form occurs in the text. */
  function MatchedSkills(text: string, skills: seq<string>): (r: seq<string>)
    ensures |r| <= |skills|
    decreases |skills|
  {
    if skills == [] then []
    else
      var last := skills[|skills| - 1];
      MatchedSkills(text, skills[..|skills| - 1]) + (if Contains(text, Lower(last)) then [last] else [])
  }

  /** A skill is listed exactly when it is a profile skill whose lower-cased form occurs. */
  lemma {:induction false} MatchedSkillsIff(text: string, skills: seq<string>, s: string)
    ensures s in MatchedSkills(text, skills) <==> s in skills && Contains(text, Lower(s))
    decreases |skills|
  {
    if skills != [] {
      var init := skills[..|skills| - 1];
      MatchedSkillsIff(text, init, s);
      assert skills == init + [skills[|skills| - 1]];
    }
  }

  /** The win-rate count is the number of skills the strengths list would name. */
  lemma {:induction false} SkillMatchesCount(text: string, skills: seq<string>)
    ensures SkillMatches(text, skills) == |MatchedSkills(text, skills)|
    decreases |skills|
  {
    if skills != [] {
      SkillMatchesCount(text, skills[..|skills| - 1]);
    }
  }

  /** The skill line: at most the first three matching skills. */
  function SkillLine(matched: seq<string>): string {
    "Skills match: " + Join(", ", Take(matched, MaxPoints))
  }

  const ExperienceFits := " năm kinh nghiệm, phù hợp với job này"
  const SimilarPortfolio := "Có portfolio tương tự: "
  const FitsRate := " phù hợp với rate "

  function SkillStrength(matched: seq<string>): seq<string> {
    if matched != [] then [SkillLine(matched)] else []
  }

  function ExperienceStrength(profile: Profile): seq<string> {
    if profile.experience >= 8 then ["Có " + IntToDecimal(profile.experience) + ExperienceFits] else []
  }

  function PortfolioStrength(profile: Profile): seq<string> {
    if profile.portfolio != []
    then [SimilarPortfolio + ToStr(Get(profile.portfolio[0], "description", PyStr("")))] else []
  }

  function BudgetStrength(job: Dict, profile: Profile): seq<string> {
    var budget := Get(job, "budget", PyStr(""));
    if Truthy(budget) && Truthy(profile.rate)
    then ["Budget " + ToStr(budget) + FitsRate + ToStr(profile.rate)] else []
  }

  /** Every strength that applies, in the order `find_match_strengths` appends them. */
  function StrengthCandidates(text: string, job: Dict, profile: Profile): seq<string> {
    SkillStrength(MatchedSkills(text, profile.skills)) + ExperienceStrength(profile)
    + PortfolioStrength(profile) + BudgetStrength(job, profile)
  }

  function Strengths(job: Dict, profile: Profile): Result<seq<string>, PyError> {
    var text := JobText(job);
    if text.Err? then Err(text.error) else Ok(Take(StrengthCandidates(text.value, job, profile), MaxPoints))
  }

  /**
   * At most three strengths; the skill line comes first exactly when a skill
   * matches, and it names at most three skills, all of them matching.
   */
  lemma StrengthsSpec(job: Dict, profile: Profile)
    requires JobText(job).Ok?
    ensures var text := JobText(job).value;
            var r := Strengths(job, profile).value;
            var matched := MatchedSkills(text, profile.skills);
            && |r| <= MaxPoints
            && (matched != [] <==> |r| > 0 && r[0] == SkillLine(matched))
            && |Take(matched, MaxPoints)| <= MaxPoints
            && forall s :: s in Take(matched, MaxPoints) ==> s in profile.skills && Contains(text, Lower(s))
  {
    var text := JobText(job).value;
    var matched := MatchedSkills(text, profile.skills);
    var r := Strengths(job, profile).value;
    forall s | s in Take(matched, MaxPoints) ensures s in profile.skills && Contains(text, Lower(s)) {
      MatchedSkillsIff(text, profile.skills, s);
    }
    if matched == [] && |r| > 0 {
      assert r[0][0] == 'C' || r[0][0] == 'B';
      assert SkillLine(matched)[0] == 'S';
    }
  }

  /** When a skill matches, experience is long and a portfolio exists, the budget line is dropped. */
  lemma StrengthsBudgetDropped(job: Dict, profile: Profile)
    requires JobText(job).Ok?
    requires MatchedSkills(JobText(job).value, profile.skills) != [] && profile.experience >= 8 && profile.portfolio != []
    ensures var r := Strengths(job, profile).value;
            |r| == MaxPoints && forall i :: 0 <= i < |r| ==> !StartsWith(r[i], "Budget ")
  {
    var r := Strengths(job, profile).value;
    var text := JobText(job).value;
    var c := StrengthCandidates(text, job, profile);
    assert r == c[..3];
    assert r[0][0] == 'S' && r[1][0] == 'C' && r[2][0] == 'C';
    forall i | 0 <= i < |r| ensures !StartsWith(r[i], "Budget ") {
      StartsWithDiffers(r[i], "Budget ", 0);
    }
  }

  /** The collecting loop of `find_match_strengths`. */
  method CollectMatchedSkills(text: string, skills: seq<string>) returns (matched: seq<string>)
    ensures matched == MatchedSkills(text, skills)
  {
    matched := [];
    for i := 0 to |skills|
      invariant matched == MatchedSkills(text, skills[..i])
    {
      assert skills[..i + 1][..i] == skills[..i];
      if Contains(text, Lower(skills[i])) {
        matched := matched + [skills[i]];
      }
    }
    assert skills[..|skills|] == skills;
  }

  /** `find_match_strengths`: collects the matching skills, then appends each strength that applies. */
  method FindMatchStrengths(job: Dict, profile: Profile) returns (r: Result<seq<string>, PyError>)
    ensures r == Strengths(job, profile)
  {
    var desc := JobText(job);
    if desc.Err? {
      return Err(desc.error);
    }
    var jobDesc := desc.value;
    var matchedSkills := CollectMatchedSkills(jobDesc, profile.skills);
    var strengths: seq<string> := [];
    if matchedSkills != [] {
      strengths := strengths + ["Skills match: " + Join(", ", Take(matchedSkills, 3))];
    }
    assert strengths == SkillStrength(matchedSkills);
    if profile.experience >= 8 {
      strengths := strengths + ["Có " + IntToDecimal(profile.experience) + ExperienceFits];
    }
    assert strengths == SkillStrength(matchedSkills) + ExperienceStrength(profile);
    if profile.portfolio != [] {
      strengths := strengths + [SimilarPortfolio + ToStr(Get(profile.portfolio[0], "description", PyStr("")))];
    }
    assert strengths == SkillStrength(matchedSkills) + ExperienceStrength(profile) + PortfolioStrength(profile);
    var budget := Get(job, "budget", PyStr(""));
    if Truthy(budget) && Truthy(profile.rate) {
      strengths := strengths + ["Budget " + ToStr(budget) + FitsRate + ToStr(profile.rate)];
    }
    assert strengths == StrengthCandidates(jobDesc, job, profile);
    return Ok(Take(strengths, 3));
  }

  // ---------------------------------------------------------------- find_customization_points

  /** The payment-gateway question (split in two so the verifier sees its first characters). */
  const PaymentPoint := "Hỏi thêm về Stripe hay PayPal, " + "mention dự án cũ tương tự"

  lemma PaymentPointHead()
    ensures |PaymentPoint| > 0 && PaymentPoint[0] == 'H'
  {
  }

  function PaymentAsk(text: string): seq<string> {
    if Contains(text, "payment") || Contains(text, "gateway") then [PaymentPoint] else []
  }

  function ExperienceMention(profile: Profile): seq<string> {
    if profile.experience >= 8
    then ["Mention " + IntToDecimal(profile.experience) + " năm kinh nghiệm với dự án tương tự"] else []
  }

  function PortfolioReference(profile: Profile): seq<string> {
    if profile.portfolio != []
    then ["Reference portfolio project: " + ToStr(Get(profile.portfolio[0], "link", PyStr("")))] else []
  }

  function BudgetConfirm(job: Dict): seq<string> {
    var budget := Get(job, "budget", PyStr(""));
    if Truthy(budget) then ["Confirm budget " + ToStr(budget) + " và timeline cụ thể"] else []
  }

  /** Every point that applies, in the order they are appended. */
  function CustomizationCandidates(text: string, job: Dict, profile: Profile): seq<string> {
    PaymentAsk(text) + ExperienceMention(profile) + PortfolioReference(profile) + BudgetConfirm(job)
  }

  function Customizations(job: Dict, profile: Profile): Result<seq<string>, PyError> {
    var text := JobText(job);
    if text.Err? then Err(text.error) else Ok(Take(CustomizationCandidates(text.value, job, profile), MaxPoints))
  }

  /**
   * At most three points; the payment-gateway question comes first exactly
   * when the description mentions a payment or a gateway, and a truthy
   * budget is confirmed whenever fewer than three other points apply.
   */
  lemma CustomizationsSpec(job: Dict, profile: Profile)
    requires JobText(job).Ok?
    ensures var text := JobText(job).value;
            var r := Customizations(job, profile).value;
            var asks := Contains(text, "payment") || Contains(text, "gateway");
            && |r| <= MaxPoints
            && (asks <==> |r| > 0 && r[0] == PaymentPoint)
            && (Truthy(Get(job, "budget", PyStr(""))) && !(asks && profile.experience >= 8 && profile.portfolio != []) ==>
                  r[|r| - 1] == "Confirm budget " + ToStr(Get(job, "budget", PyStr(""))) + " và timeline cụ thể")
  {
    var text := JobText(job).value;
    var r := Customizations(job, profile).value;
    var asks := Contains(text, "payment") || Contains(text, "gateway");
    if !asks && |r| > 0 {
      assert r[0][0] == 'M' || r[0][0] == 'R' || r[0][0] == 'C';
      PaymentPointHead();
    }
  }

  /** `find_customization_points`: appends each point that applies, then keeps the first three. */
  method FindCustomizationPoints(job: Dict, profile: Profile) returns (r: Result<seq<string>, PyError>)
    ensures r == Customizations(job, profile)
  {
    var points: seq<string> := [];
    var desc := JobText(job);
    if desc.Err? {
      return Err(desc.error);
    }
    var jobDesc := desc.value;
    if Contains(jobDesc, "payment") || Contains(jobDesc, "gateway") {
      points := points + [PaymentPoint];
    }
    assert points == PaymentAsk(jobDesc);
    if profile.experience >= 8 {
      points := points + ["Mention " + IntToDecimal(profile.experience) + " năm kinh nghiệm với dự án tương tự"];
    }
    assert points == PaymentAsk(jobDesc) + ExperienceMention(profile);
    if profile.portfolio != [] {
      points := points + ["Reference portfolio project: " + ToStr(Get(profile.portfolio[0], "link", PyStr("")))];
    }
    assert points == PaymentAsk(jobDesc) + ExperienceMention(profile) + PortfolioReference(profile);
    var budget := Get(job, "budget", PyStr(""));
    if Truthy(budget) {
      points := points + ["Confirm budget " + ToStr(budget) + " và timeline cụ thể"];
    }
    assert points == CustomizationCandidates(jobDesc, job, profile);
    return Ok(Take(points, 3));
  }
}
