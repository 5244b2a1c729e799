/**
 * The keyword statistics of ai/summarizer.py: how often each technology
 * keyword occurs across a period's jobs, and the most common ones, as
 * `Counter.most_common(top_n)` orders them.
 */
module Summarizer {
  import opened Strings
  import opened Casing
  import opened PyValues

  /** The technology keywords counted, in the order they enter the counter. */
  const TechKeywords: seq<string> := [
    "python", "javascript", "react", "node.js", "laravel", "wordpress",
    "api", "automation", "scraping", "ai", "machine learning", "ml",
    "data processing", "e-commerce", "shopify", "full stack",
    "frontend", "backend", "typescript", "vue", "angular",
    "docker", "kubernetes", "aws", "cloud", "devops"
  ]

  const DefaultTopN: int := 10

  /** The f-string `"{title} {description}"` of one job; absent fields render as empty. */
  function JobText(job: Dict): string {
    ToStr(Get(job, "title", PyStr(""))) + " " + ToStr(Get(job, "description", PyStr("")))
  }

  /** The jobs' texts joined by single spaces, lower-cased. */
  function AllText(jobs: seq<Dict>): string {
    Lower(Join(" ", seq(|jobs|, i requires 0 <= i < |jobs| => JobText(jobs[i]))))
  }

  /** A keyword with its count. */
  type Entry = (string, nat)

  /** The counter's entries: each keyword that occurs, with its count, in keyword order. */
  function Counted(text: string, keywords: seq<string>): (r: seq<Entry>)
    ensures |r| <= |keywords|
    decreases |keywords|
  {
    if keywords == [] then []
    else
      var k := keywords[|keywords| - 1];
      var n := Count(text, k);
      Counted(text, keywords[..|keywords| - 1]) + (if n > 0 then [(k, n)] else [])
  }

  function Keys(entries: seq<Entry>): seq<string> {
    seq(|entries|, i requires 0 <= i < |entries| => entries[i].0)
  }

  /**
   * Every entry is a keyword of the list with its positive `str.count`;
   * every keyword that occurs has an entry; and the entries' keywords are
   * distinct when the list's are.
   */
  lemma {:induction false} CountedSpec(text: string, keywords: seq<string>)
    ensures var r := Counted(text, keywords);
            && (forall i :: 0 <= i < |r| ==> r[i].0 in keywords && r[i].1 == Count(text, r[i].0) && r[i].1 > 0)
            && (forall k :: k in keywords && Count(text, k) > 0 ==> (k, Count(text, k)) in r)
            && (Distinct(keywords) ==> Distinct(Keys(r)))
    decreases |keywords|
  {
    if keywords != [] {
      var init := keywords[..|keywords| - 1];
      var k := keywords[|keywords| - 1];
      CountedSpec(text, init);
      assert keywords == init + [k];
      var prev := Counted(text, init);
      var r := Counted(text, keywords);
      if Distinct(keywords) {
        assert Distinct(init) by {
          forall i, j | 0 <= i < j < |init| ensures init[i] != init[j] {
            assert init[i] == keywords[i] && init[j] == keywords[j];
          }
        }
        assert k !in init by {
          forall i | 0 <= i < |init| ensures init[i] != k {
            assert init[i] == keywords[i];
          }
        }
        forall i, j | 0 <= i < j < |r| ensures r[i].0 != r[j].0 {
          if j >= |prev| {
            assert r[i] == prev[i];
          } else {
            assert r[i] == prev[i] && r[j] == prev[j];
            assert Keys(prev)[i] == prev[i].0 && Keys(prev)[j] == prev[j].0;
          }
        }
      }
    }
  }

  /** The entries' counts never increase along the sequence. */
  ghost predicate NonIncreasing(entries: seq<Entry>) {
    forall i, j :: 0 <= i < j < |entries| ==> entries[i].1 >= entries[j].1
  }

  /** Places an entry after every entry whose count is at least its own. */
  function InsertByCount(x: Entry, sorted: seq<Entry>): (r: seq<Entry>)
    ensures |r| == |sorted| + 1
    decreases |sorted|
  {
    if sorted == [] then [x]
    else if sorted[0].1 >= x.1 then [sorted[0]] + InsertByCount(x, sorted[1..])
    else [x] + sorted
  }

  /**
   * The entries by decreasing count; entries with equal counts keep their
   * order, as `most_common` (a stable sort) keeps insertion order.
   */
  function SortByCount(entries: seq<Entry>): (r: seq<Entry>)
    ensures |r| == |entries|
    decreases |entries|
  {
    if entries == [] then []
    else InsertByCount(entries[|entries| - 1], SortByCount(entries[..|entries| - 1]))
  }

  /** Inserting adds the entry and keeps every other. */
  lemma {:induction false} InsertByCountPerm(x: Entry, sorted: seq<Entry>)
    ensures multiset(InsertByCount(x, sorted)) == multiset(sorted) + multiset{x}
    decreases |sorted|
  {
    if sorted != [] && sorted[0].1 >= x.1 {
      InsertByCountPerm(x, sorted[1..]);
      assert sorted == [sorted[0]] + sorted[1..];
    }
  }

  /** Inserting into entries ordered by count keeps them ordered. */
  lemma {:induction false} InsertByCountSorted(x: Entry, sorted: seq<Entry>)
    requires NonIncreasing(sorted)
    ensures NonIncreasing(InsertByCount(x, sorted))
    decreases |sorted|
  {
    if sorted != [] && sorted[0].1 >= x.1 {
      var rest := sorted[1..];
      assert NonIncreasing(rest) by {
        forall i, j | 0 <= i < j < |rest| ensures rest[i].1 >= rest[j].1 {
          assert rest[i] == sorted[i + 1] && rest[j] == sorted[j + 1];
        }
      }
      InsertByCountSorted(x, rest);
      InsertByCountPerm(x, rest);
      var ins := InsertByCount(x, rest);
      forall j | 0 <= j < |ins| ensures sorted[0].1 >= ins[j].1 {
        assert ins[j] in multiset(rest) + multiset{x};
        if ins[j] != x {
          var m :| 0 <= m < |rest| && rest[m] == ins[j];
          assert rest[m] == sorted[m + 1];
        }
      }
      HeadOrdered(sorted[0], ins);
    }
  }

  /** An entry counting at least as much as every entry of an ordered sequence can lead it. */
  lemma HeadOrdered(x: Entry, s: seq<Entry>)
    requires NonIncreasing(s) && forall j :: 0 <= j < |s| ==> x.1 >= s[j].1
    ensures NonIncreasing([x] + s)
  {
    var r := [x] + s;
    forall i, j | 0 <= i < j < |r| ensures r[i].1 >= r[j].1 {
      assert r[j] == s[j - 1];
      if i > 0 {
        assert r[i] == s[i - 1];
      }
    }
  }

  /** Sorting orders the entries by count and keeps every entry. */
  lemma {:induction false} SortByCountSpec(entries: seq<Entry>)
    ensures NonIncreasing(SortByCount(entries))
    ensures multiset(SortByCount(entries)) == multiset(entries)
    decreases |entries|
  {
    if entries != [] {
      var init := entries[..|entries| - 1];
      SortByCountSpec(init);
      InsertByCountSorted(entries[|entries| - 1], SortByCount(init));
      InsertByCountPerm(entries[|entries| - 1], SortByCount(init));
      assert entries == init + [entries[|entries| - 1]];
    }
  }

  /** `Counter.most_common(n)`: the first `n` entries by count; none for `n <= 0`. */
  function MostCommon(entries: seq<Entry>, n: int): seq<Entry> {
    Take(SortByCount(entries), if n > 0 then n else 0)
  }

  /** The `n` most common of the keywords in the text. */
  function TopIn(text: string, keywords: seq<string>, n: int): seq<Entry> {
    MostCommon(Counted(text, keywords), n)
  }

  function TopKeywords(jobs: seq<Dict>, topN: int): seq<Entry> {
    TopIn(AllText(jobs), TechKeywords, topN)
  }

  /**
   * The position of a technology keyword in the list, told apart by its
   * length and first two letters alone.
   */
  function KeywordPosition(s: string): int {
    if |s| < 2 then -1
    else
      var a := s[0];
      var b := s[1];
      match |s|
      case 2 => if a == 'a' then 9 else 11
      case 3 => if a == 'v' then 19 else if b == 'p' then 6 else 23
      case 5 => if a == 'r' then 2 else 24
      case 6 => if a == 'p' then 0 else if b == 'o' then 21 else 25
      case 7 => if a == 'n' then 3 else if a == 'l' then 4 else if a == 's' then 14 else if a == 'b' then 17 else 20
      case 8 => if a == 's' then 8 else 16
      case 9 => 5
      case 10 => if a == 'j' then 1 else if a == 'a' then 7 else if a == 'e' then 13
                 else if a == 'f' then 15 else if a == 't' then 18 else 22
      case 15 => 12
      case 16 => 10
      case _ => -1
  }

  /** No keyword is listed twice: each one's position can be read back from it. */
  lemma TechKeywordsDistinct()
    ensures Distinct(TechKeywords)
  {
    assert forall i :: 0 <= i < |TechKeywords| ==> KeywordPosition(TechKeywords[i]) == i;
    forall i, j | 0 <= i < j < |TechKeywords| ensures TechKeywords[i] != TechKeywords[j] {
      assert KeywordPosition(TechKeywords[i]) != KeywordPosition(TechKeywords[j]);
    }
  }

  /**
   * The most common entries of a counter: at most `n`, by non-increasing
   * count, each a counter entry and none twice, and every entry left out
   * counts no more than the last one kept.
   */
  lemma MostCommonSpec(entries: seq<Entry>, n: int)
    requires Distinct(Keys(entries))
    ensures var r := MostCommon(entries, n);
            && |r| <= (if n > 0 then n else 0)
            && NonIncreasing(r)
            && (forall i :: 0 <= i < |r| ==> r[i] in entries)
            && Distinct(Keys(r))
            && (forall e :: e in entries && e !in r ==> |r| == (if n > 0 then n else 0) && (|r| > 0 ==> e.1 <= r[|r| - 1].1))
  {
    var sorted := SortByCount(entries);
    SortByCountSpec(entries);
    var r := MostCommon(entries, n);
    assert r == sorted[..|r|];
    PrefixOfSorted(entries, sorted, |r|);
    forall e | e in entries && e !in r
      ensures |r| == (if n > 0 then n else 0) && (|r| > 0 ==> e.1 <= r[|r| - 1].1)
    {
      assert e in multiset(sorted);
      LeftOut(sorted, |r|, e);
    }
  }

  /** A prefix of a rearrangement of distinct entries: ordered, drawn from them, distinct. */
  lemma PrefixOfSorted(entries: seq<Entry>, sorted: seq<Entry>, m: nat)
    requires Distinct(Keys(entries)) && multiset(sorted) == multiset(entries) && NonIncreasing(sorted)
    requires m <= |sorted|
    ensures NonIncreasing(sorted[..m])
    ensures forall i :: 0 <= i < m ==> sorted[..m][i] in entries
    ensures Distinct(Keys(sorted[..m]))
  {
    var r := sorted[..m];
    forall i | 0 <= i < m ensures r[i] in entries {
      assert r[i] == sorted[i];
      assert sorted[i] in multiset(entries);
    }
    DistinctKeysOfPermutation(entries, sorted);
    forall i, j | 0 <= i < j < m ensures Keys(r)[i] != Keys(r)[j] {
      assert r[i] == sorted[i] && r[j] == sorted[j];
      assert Keys(sorted)[i] == sorted[i].0 && Keys(sorted)[j] == sorted[j].0;
    }
  }

  /** An entry of an ordered sequence missing from its first `m` counts no more than entry `m - 1`. */
  lemma LeftOut(sorted: seq<Entry>, m: nat, e: Entry)
    requires NonIncreasing(sorted) && m <= |sorted| && e in sorted && e !in sorted[..m]
    ensures m < |sorted|
    ensures m > 0 ==> e.1 <= sorted[m - 1].1
  {
    var k :| 0 <= k < |sorted| && sorted[k] == e;
  }

  /** Rearranging entries with distinct keywords keeps the keywords distinct. */
  lemma DistinctKeysOfPermutation(a: seq<Entry>, b: seq<Entry>)
    requires Distinct(Keys(a)) && multiset(a) == multiset(b)
    ensures Distinct(Keys(b))
  {
    forall i, j | 0 <= i < j < |b| ensures Keys(b)[i] != Keys(b)[j] {
      assert b[i] in multiset(a) && b[j] in multiset(a);
      var p :| 0 <= p < |a| && a[p] == b[i];
      var q :| 0 <= q < |a| && a[q] == b[j];
      if b[i].0 == b[j].0 {
        assert Keys(a)[p] == Keys(a)[q];
        assert p == q;
        assert b[i] == b[j];
        assert multiset(b)[b[i]] >= 2 by {
          var rest := b[..i] + b[i + 1..];
          assert b == b[..i] + [b[i]] + b[i + 1..];
          assert b[j] in rest by {
            assert rest[j - 1] == b[j];
          }
          assert multiset(b) == multiset(b[..i]) + multiset{b[i]} + multiset(b[i + 1..]);
          assert multiset(rest) == multiset(b[..i]) + multiset(b[i + 1..]);
        }
        DistinctCountOne(a, p);
      }
    }
  }

  /** An entry of a sequence with distinct keywords occurs in it once. */
  lemma DistinctCountOne(a: seq<Entry>, p: nat)
    requires Distinct(Keys(a)) && p < |a|
    ensures multiset(a)[a[p]] == 1
  {
    var before := a[..p];
    var after := a[p + 1..];
    assert a == before + [a[p]] + after;
    assert a[p] !in before by {
      forall i | 0 <= i < |before| ensures before[i] != a[p] {
        assert Keys(a)[i] != Keys(a)[p];
      }
    }
    assert a[p] !in after by {
      forall i | 0 <= i < |after| ensures after[i] != a[p] {
        assert Keys(a)[p + 1 + i] != Keys(a)[p];
      }
    }
    assert multiset(a) == multiset(before) + multiset{a[p]} + multiset(after);
  }

  /**
   * The most common keywords of a text: at most `n`, each with its positive
   * `str.count` in the text, none twice, by non-increasing count, and every
   * occurring keyword left out counts no more than the last one kept.
   */
  lemma TopInSpec(text: string, keywords: seq<string>, n: int)
    requires Distinct(keywords)
    ensures var r := TopIn(text, keywords, n);
            && |r| <= (if n > 0 then n else 0)
            && NonIncreasing(r)
            && (forall i :: 0 <= i < |r| ==> r[i].0 in keywords && r[i].1 == Count(text, r[i].0) && r[i].1 > 0)
            && Distinct(Keys(r))
            && (forall k :: k in keywords && Count(text, k) > 0 && k !in Keys(r) ==>
                  |r| == (if n > 0 then n else 0) && (|r| > 0 ==> Count(text, k) <= r[|r| - 1].1))
  {
    var counted := Counted(text, keywords);
    var r := TopIn(text, keywords, n);
    CountedSpec(text, keywords);
    MostCommonSpec(counted, n);
    forall k | k in keywords && Count(text, k) > 0 && k !in Keys(r)
      ensures |r| == (if n > 0 then n else 0) && (|r| > 0 ==> Count(text, k) <= r[|r| - 1].1)
    {
      var e := (k, Count(text, k));
      assert e in counted;
      KeysOfMembers(r);
    }
  }

  /** The keyword of every entry is among the keys. */
  lemma KeysOfMembers(r: seq<Entry>)
    ensures forall e :: e in r ==> e.0 in Keys(r)
  {
    forall e | e in r ensures e.0 in Keys(r) {
      var i :| 0 <= i < |r| && r[i] == e;
      assert Keys(r)[i] == e.0;
    }
  }

  /** `extract_top_keywords` reports the most common technology keywords, as TopInSpec states. */
  lemma TopKeywordsSpec(jobs: seq<Dict>, topN: int)
    ensures var r := TopKeywords(jobs, topN);
            && |r| <= (if topN > 0 then topN else 0)
            && NonIncreasing(r)
            && Distinct(Keys(r))
            && forall i :: 0 <= i < |r| ==> r[i].0 in TechKeywords && r[i].1 == Count(AllText(jobs), r[i].0) > 0
  {
    TechKeywordsDistinct();
    TopInSpec(AllText(jobs), TechKeywords, topN);
  }

  /** Without jobs there is no keyword to report. */
  lemma NoJobsNoKeywords(topN: int)
    ensures TopKeywords([], topN) == []
  {
    var text := AllText([]);
    assert text == "";
    forall k | k in TechKeywords ensures Count(text, k) == 0 {
      CountPositiveIff(text, k);
    }
    CountedNone(text, TechKeywords);
  }

  /** Keywords that never occur leave the counter empty. */
  lemma {:induction false} CountedNone(text: string, keywords: seq<string>)
    requires forall k :: k in keywords ==> Count(text, k) == 0
    ensures Counted(text, keywords) == []
    decreases |keywords|
  {
    if keywords != [] {
      CountedNone(text, keywords[..|keywords| - 1]);
    }
  }

  /** The counting loop of `extract_top_keywords`. */
  method CountKeywords(text: string, keywords: seq<string>) returns (counts: seq<Entry>)
    ensures counts == Counted(text, keywords)
  {
    counts := [];
    for i := 0 to |keywords|
      invariant counts == Counted(text, keywords[..i])
    {
      assert keywords[..i + 1][..i] == keywords[..i];
      var count := Count(text, keywords[i]);
      if count > 0 {
        counts := counts + [(keywords[i], count)];
      }
    }
    assert keywords[..|keywords|] == keywords;
  }

  /** `extract_top_keywords`: builds the text, counts each keyword, keeps the most common. */
  method ExtractTopKeywords(jobs: seq<Dict>, topN: int) returns (top: seq<Entry>)
    ensures top == TopKeywords(jobs, topN)
  {
    var allText := Lower(Join(" ", seq(|jobs|, i requires 0 <= i < |jobs| => JobText(jobs[i]))));
    var keywordCounts := CountKeywords(allText, TechKeywords);
    top := MostCommon(keywordCounts, topN);
  }
}
