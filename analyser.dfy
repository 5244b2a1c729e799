/**
 * The rule-based parts of ai/analyser.py: the category a job falls into,
 * the trending technology keywords it mentions, and the 0-100 score built
 * from a job and the analysis the language model returned for it.
 */
module Analyser {
  import opened Wrappers
  import opened Strings
  import opened Casing
  import opened PyValues

  // ---------------------------------------------------------------- detect_category

  /** `(job.get(field, '') or '').lower()` */
  function LowerField(job: Dict, field: string): Result<string, PyError> {
    LowerText(Or(Get(job, field, PyStr("")), PyStr("")))
  }

  /** The lower-cased `"title description"` that both category and trends look in. */
  function CategoryText(job: Dict): Result<string, PyError> {
    var title := LowerField(job, "title");
    if title.Err? then Err(title.error)
    else
      var desc := LowerField(job, "description");
      if desc.Err? then Err(desc.error) else Ok(title.value + " " + desc.value)
  }

  const DefaultCategory: string := "General"

  /** The first keyword whose lower-cased form occurs in the text, else the default category. */
  function FirstKeyword(text: string, keywords: seq<string>): string
    decreases |keywords|
  {
    if keywords == [] then DefaultCategory
    else if Contains(text, Lower(keywords[0])) then keywords[0]
    else FirstKeyword(text, keywords[1..])
  }

  function Category(job: Dict, keywords: seq<string>): Result<string, PyError> {
    var text := CategoryText(job);
    if text.Err? then Err(text.error) else Ok(FirstKeyword(text.value, keywords))
  }

  /**
   * The category is keyword `i` for the first `i` whose lower-cased form
   * occurs; when none occurs (`i == |keywords|`) it is "General".
   */
  lemma {:induction false} FirstKeywordIndex(text: string, keywords: seq<string>) returns (i: nat)
    ensures i <= |keywords|
    ensures forall j :: 0 <= j < i ==> !Contains(text, Lower(keywords[j]))
    ensures i < |keywords| ==> Contains(text, Lower(keywords[i])) && FirstKeyword(text, keywords) == keywords[i]
    ensures i == |keywords| ==> FirstKeyword(text, keywords) == DefaultCategory
    decreases |keywords|
  {
    if keywords == [] {
      i := 0;
    } else if Contains(text, Lower(keywords[0])) {
      i := 0;
    } else {
      var rest := FirstKeywordIndex(text, keywords[1..]);
      i := rest + 1;
      forall j | 0 <= j < i ensures !Contains(text, Lower(keywords[j])) {
        if j > 0 {
          assert keywords[j] == keywords[1..][j - 1];
        }
      }
    }
  }

  /** `detect_category`: tries the keywords in order and returns the first that occurs. */
  method DetectCategory(job: Dict, keywords: seq<string>) returns (r: Result<string, PyError>)
    ensures r == Category(job, keywords)
  {
    var title := LowerField(job, "title");
    if title.Err? {
      return Err(title.error);
    }
    var desc := LowerField(job, "description");
    if desc.Err? {
      return Err(desc.error);
    }
    var text := title.value + " " + desc.value;
    for i := 0 to |keywords|
      invariant FirstKeyword(text, keywords[i..]) == FirstKeyword(text, keywords)
    {
      assert keywords[i..][0] == keywords[i] && keywords[i..][1..] == keywords[i + 1..];
      if Contains(text, Lower(keywords[i])) {
        return Ok(keywords[i]);
      }
    }
    return Ok(DefaultCategory);
  }

  // ---------------------------------------------------------------- extract_trends

  /** The technology keywords looked for, in the order they are reported. */
  const TechKeywords: seq<string> := [
    "python", "javascript", "react", "node.js", "laravel", "wordpress",
    "api", "automation", "scraping", "ai", "ml", "data processing",
    "e-commerce", "shopify", "full stack", "frontend", "backend"
  ]

  const MaxTrends: nat := 5

  /** The keywords, in list order, that occur in the text. */
  function Found(text: string, keywords: seq<string>): (r: seq<string>)
    ensures |r| <= |keywords|
    decreases |keywords|
  {
    if keywords == [] then []
    else
      var last := keywords[|keywords| - 1];
      Found(text, keywords[..|keywords| - 1]) + (if Contains(text, last) then [last] else [])
  }

  /** The lower-cased f-string `"{title} {description}"`; absent fields render as empty. */
  function TrendText(job: Dict): string {
    Lower(ToStr(Get(job, "title", PyStr(""))) + " " + ToStr(Get(job, "description", PyStr(""))))
  }

  function Trends(job: Dict): seq<string> {
    Take(Found(TrendText(job), TechKeywords), MaxTrends)
  }

  /**
   * The found keywords are exactly the keywords that occur, in list order:
   * keyword `i` of the result is keyword `idx[i]` of the list, the indices
   * increase, and every occurring keyword has its index listed.
   */
  lemma {:induction false} FoundOrder(text: string, keywords: seq<string>) returns (idx: seq<nat>)
    ensures var r := Found(text, keywords);
            && |idx| == |r|
            && (forall i :: 0 <= i < |idx| ==> idx[i] < |keywords| && r[i] == keywords[idx[i]] && Contains(text, r[i]))
            && (forall i, j :: 0 <= i < j < |idx| ==> idx[i] < idx[j])
            && (forall k :: 0 <= k < |keywords| && Contains(text, keywords[k]) ==> k in idx)
    decreases |keywords|
  {
    if keywords == [] {
      idx := [];
    } else {
      var n := |keywords| - 1;
      var init := keywords[..n];
      var prev := FoundOrder(text, init);
      assert forall k :: 0 <= k < n ==> init[k] == keywords[k];
      if Contains(text, keywords[n]) {
        idx := prev + [n];
      } else {
        idx := prev;
      }
    }
  }

  lemma TechKeywordsDistinct()
    ensures Distinct(TechKeywords)
  {
  }

  /**
   * The trends are at most five keywords, each occurring in the text, in
   * list order and without repetition; when fewer than five are reported,
   * every listed keyword that occurs is among them.
   */
  lemma TrendsSpec(job: Dict)
    ensures var r := Trends(job);
            var text := TrendText(job);
            && |r| <= MaxTrends
            && (forall i :: 0 <= i < |r| ==> r[i] in TechKeywords && Contains(text, r[i]))
            && Distinct(r)
            && (|r| < MaxTrends ==> forall k :: k in TechKeywords && Contains(text, k) ==> k in r)
  {
    var text := TrendText(job);
    var found := Found(text, TechKeywords);
    var r := Trends(job);
    var idx := FoundOrder(text, TechKeywords);
    TechKeywordsDistinct();
    assert r == found[..|r|];
    forall i, j | 0 <= i < j < |r| ensures r[i] != r[j] {
      assert idx[i] < idx[j];
    }
    if |r| < MaxTrends {
      assert r == found;
      forall k | k in TechKeywords && Contains(text, k) ensures k in r {
        var n :| 0 <= n < |TechKeywords| && TechKeywords[n] == k;
        var i :| 0 <= i < |idx| && idx[i] == n;
        assert r[i] == k;
      }
    }
  }

  /** The collecting loop of `extract_trends`. */
  method FindKeywords(text: string, keywords: seq<string>) returns (found: seq<string>)
    ensures found == Found(text, keywords)
  {
    found := [];
    for i := 0 to |keywords|
      invariant found == Found(text, keywords[..i])
    {
      assert keywords[..i + 1][..i] == keywords[..i];
      if Contains(text, keywords[i]) {
        found := found + [keywords[i]];
      }
    }
    assert keywords[..|keywords|] == keywords;
  }

  /** `extract_trends`: the first five technology keywords the job mentions. */
  method ExtractTrends(job: Dict) returns (trends: seq<string>)
    ensures trends == Trends(job)
  {
    var text := ToStr(Get(job, "title", PyStr(""))) + " " + ToStr(Get(job, "description", PyStr("")));
    var textLower := Lower(text);
    var found := FindKeywords(textLower, TechKeywords);
    trends := Take(found, MaxTrends);
  }

  // ---------------------------------------------------------------- score_job

  const Accept: string := "NÊN LẤY"
  const Reject: string := "KHÔNG NÊN"

  /**
   * The verdict points as the source tests them: accept first. Every
   * verdict containing "KHÔNG NÊN LẤY" also contains "NÊN LẤY", so the
   * reject branch never fires for the sentence the model is asked for.
   */
  function VerdictPointsAsWritten(verdict: string): int {
    if Contains(verdict, Accept) then 30
    else if Contains(verdict, Reject) then -30
    else 0
  }

  /** The as-written branches are exclusive: the penalty needs "KHÔNG NÊN" without "NÊN LẤY". */
  lemma VerdictAsWrittenBranches(verdict: string)
    ensures VerdictPointsAsWritten(verdict) == 30 <==> Contains(verdict, Accept)
    ensures VerdictPointsAsWritten(verdict) == -30 <==> Contains(verdict, Reject) && !Contains(verdict, Accept)
  {
  }

  /** As written, the reject verdict the prompt asks for earns the accept bonus. */
  lemma RejectVerdictRewarded()
    ensures VerdictPointsAsWritten(Reject + " LẤY") == 30
  {
    ContainsAffixes("KHÔNG ", Accept);
    assert Reject + " LẤY" == "KHÔNG " + Accept;
  }

  /** The verdict points as intended: a reject verdict is checked before an accept one. */
  function VerdictPoints(verdict: string): int {
    if Contains(verdict, Reject) then -30
    else if Contains(verdict, Accept) then 30
    else 0
  }

  /** A verdict containing "KHÔNG NÊN" loses 30 points; one containing only "NÊN LẤY" gains 30. */
  lemma VerdictPointsIntended(verdict: string)
    ensures VerdictPoints(verdict) == -30 <==> Contains(verdict, Reject)
    ensures VerdictPoints(verdict) == 30 <==> Contains(verdict, Accept) && !Contains(verdict, Reject)
    ensures VerdictPoints(Reject + " LẤY") == -30
  {
    ContainsAffixes(Reject, " LẤY");
  }

  /** `s.replace(c, '')` for one character. */
  function Remove(s: string, c: char): (r: string)
    ensures forall i :: 0 <= i < |r| ==> r[i] != c
    ensures |r| <= |s|
    decreases |s|
  {
    if s == [] then []
    else (if s[0] == c then [] else [s[0]]) + Remove(s[1..], c)
  }

  /** Text without the character is kept as it is. */
  lemma {:induction false} RemoveAbsent(s: string, c: char)
    requires forall i :: 0 <= i < |s| ==> s[i] != c
    ensures Remove(s, c) == s
    decreases |s|
  {
    if s != [] {
      RemoveAbsent(s[1..], c);
      assert [s[0]] + s[1..] == s;
    }
  }

  /**
   * The budget as `float(str(budget).replace('$', '').replace(',', ''))`
   * reads it; `parseFloat` stands for `float()` and gives None where it
   * raises ValueError. A falsy budget is not parsed at all.
   */
  function BudgetNumber(budget: Value, parseFloat: string -> Option<real>): Option<real> {
    if Truthy(budget) then parseFloat(Remove(Remove(ToStr(budget), '$'), ',')) else None
  }

  function BudgetPoints(amount: Option<real>): int {
    if amount.None? then 0
    else if amount.value > 1000.0 then 10
    else if amount.value < 100.0 then -10
    else 0
  }

  function ScopePoints(scope: string): int {
    if Contains(scope, "scope creep") || Contains(scope, "phình scope") then -20 else 0
  }

  function RoiPoints(roi: string): int {
    if Contains(roi, "lời") || Contains(roi, "tốt") then 10 else 0
  }

  /** `max(0, min(100, score))` */
  function Clamp(score: int): (r: int)
    ensures 0 <= r <= 100
    ensures 0 <= score <= 100 ==> r == score
    ensures score < 0 ==> r == 0
    ensures score > 100 ==> r == 100
  {
    if score < 0 then 0 else if score > 100 then 100 else score
  }

  /** The score from the upper-cased verdict, the budget and the lower-cased scope and ROI texts. */
  function Points(verdict: string, amount: Option<real>, scope: string, roi: string): int {
    50 + VerdictPoints(verdict) + BudgetPoints(amount) + ScopePoints(scope) + RoiPoints(roi)
  }

  /**
   * `score_job`, with the reject verdict checked first (see VerdictPoints).
   * A verdict, scope or ROI entry that is not a string raises AttributeError,
   * in that order.
   */
  function Score(job: Dict, analysis: Dict, parseFloat: string -> Option<real>): Result<int, PyError> {
    var verdict := UpperText(Get(analysis, "verdict", PyStr("")));
    if verdict.Err? then Err(verdict.error)
    else
      var amount := BudgetNumber(Get(job, "budget", PyNone), parseFloat);
      var scope := LowerText(Get(analysis, "scope_creep_detection", PyStr("")));
      if scope.Err? then Err(scope.error)
      else
        var roi := LowerText(Get(analysis, "roi_check_real", PyStr("")));
        if roi.Err? then Err(roi.error)
        else Ok(Clamp(Points(verdict.value, amount, scope.value, roi.value)))
  }

  /** Every score lies in [0, 100]. */
  lemma ScoreBounds(job: Dict, analysis: Dict, parseFloat: string -> Option<real>)
    requires Score(job, analysis, parseFloat).Ok?
    ensures 0 <= Score(job, analysis, parseFloat).value <= 100
  {
  }

  /**
   * The unclamped points lie in [-10, 100]: the upper clamp never changes
   * a score, and the lower one only for a rejected, cheap, scope-creeping
   * job whose ROI text is not positive.
   */
  lemma PointsRange(verdict: string, amount: Option<real>, scope: string, roi: string)
    ensures -10 <= Points(verdict, amount, scope, roi) <= 100
    ensures Points(verdict, amount, scope, roi) < 0 <==>
              && VerdictPoints(verdict) == -30 && BudgetPoints(amount) == -10
              && ScopePoints(scope) == -20 && RoiPoints(roi) == 0
  {
  }

  /** A budget that does not parse, or lies between 100 and 1000, changes nothing. */
  lemma NeutralBudget(verdict: string, amount: Option<real>, scope: string, roi: string)
    requires amount.None? || 100.0 <= amount.value <= 1000.0
    ensures Points(verdict, amount, scope, roi) == Points(verdict, None, scope, roi)
  {
  }

  /** A larger budget never lowers the score. */
  lemma BudgetMonotone(verdict: string, a: real, b: real, scope: string, roi: string)
    requires a <= b
    ensures Clamp(Points(verdict, Some(a), scope, roi)) <= Clamp(Points(verdict, Some(b), scope, roi))
  {
  }

  /** An accepted job without further findings scores 80; a rejected one 20. */
  lemma VerdictScores(amount: Option<real>)
    requires amount.None? || 100.0 <= amount.value <= 1000.0
    ensures Clamp(Points(Accept, amount, "", "")) == 80
    ensures Clamp(Points(Reject + " LẤY", amount, "", "")) == 20
  {
    VerdictPointsIntended(Reject + " LẤY");
    VerdictPointsIntended(Accept);
    assert !Contains(Accept, Reject) by {
      if Contains(Accept, Reject) {
        ContainsIff(Accept, Reject);
      }
    }
    assert Contains(Accept, Accept) && !Contains("", "scope creep") && !Contains("", "phình scope");
    assert !Contains("", "lời") && !Contains("", "tốt");
  }

  /** `score_job`: starts at 50 and adjusts the score step by step. */
  method ScoreJob(job: Dict, analysis: Dict, parseFloat: string -> Option<real>) returns (r: Result<int, PyError>)
    ensures r == Score(job, analysis, parseFloat)
    ensures r.Ok? ==> 0 <= r.value <= 100
  {
    var score := 50;
    var upper := UpperText(Get(analysis, "verdict", PyStr("")));
    if upper.Err? {
      return Err(upper.error);
    }
    var verdict := upper.value;
    if Contains(verdict, Reject) {
      score := score - 30;
    } else if Contains(verdict, Accept) {
      score := score + 30;
    }
    assert score == 50 + VerdictPoints(verdict);
    var budget := Get(job, "budget", PyNone);
    if Truthy(budget) {
      var budgetNum := parseFloat(Remove(Remove(ToStr(budget), '$'), ','));
      if budgetNum.Some? {
        if budgetNum.value > 1000.0 {
          score := score + 10;
        } else if budgetNum.value < 100.0 {
          score := score - 10;
        }
      }
    }
    ghost var amount := BudgetNumber(budget, parseFloat);
    assert score == 50 + VerdictPoints(verdict) + BudgetPoints(amount);
    var scope := LowerText(Get(analysis, "scope_creep_detection", PyStr("")));
    if scope.Err? {
      return Err(scope.error);
    }
    if Contains(scope.value, "scope creep") || Contains(scope.value, "phình scope") {
      score := score - 20;
    }
    assert score == 50 + VerdictPoints(verdict) + BudgetPoints(amount) + ScopePoints(scope.value);
    var roi := LowerText(Get(analysis, "roi_check_real", PyStr("")));
    if roi.Err? {
      return Err(roi.error);
    }
    if Contains(roi.value, "lời") || Contains(roi.value, "tốt") {
      score := score + 10;
    }
    assert score == Points(verdict, amount, scope.value, roi.value);
    return Ok(if score < 0 then 0 else if score > 100 then 100 else score);
  }
}
