/**
 * The record checks of utils/validation.py: `validate_job` collects one
 * error per failed field check, and `sanitize_job` returns a trimmed,
 * defaulted and length-limited copy of a record.
 */
module Validation {
  import opened Strings
  import opened PyValues

  // ---------------------------------------------------------------- validate_job

  /** The errors `validate_job` can report, one constructor per message. */
  datatype Problem =
    | Missing(field: string)
    | NotString(field: string)
    | Blank(field: string)
    | TitleTooLong(length: nat)
    | InvalidUrl
    | BadBudget
    | BadProposals

  /** The message the source appends for a problem. */
  function Message(p: Problem): string {
    match p
    case Missing(field) => "Missing required field: " + field
    case NotString(field) => field + " must be a string"
    case Blank(field) => field + " cannot be empty"
    case TitleTooLong(n) => "title too long (" + NatToDecimal(n) + " chars, max 500)"
    case InvalidUrl => "link must be a valid URL"
    case BadBudget => "budget must be string, int, or float"
    case BadProposals => "proposals must be string or int"
  }

  function Messages(ps: seq<Problem>): (r: seq<string>)
    ensures |r| == |ps| && forall i :: 0 <= i < |ps| ==> r[i] == Message(ps[i])
  {
    seq(|ps|, i requires 0 <= i < |ps| => Message(ps[i]))
  }

  const RequiredFields: seq<string> := ["job_id", "title", "link"]

  /** The required-field loop over `fields`, in order: a missing or falsy value is reported. */
  function MissingFields(d: Dict, fields: seq<string>): (r: seq<Problem>)
    decreases |fields|
  {
    if fields == [] then []
    else
      var last := fields[|fields| - 1];
      MissingFields(d, fields[..|fields| - 1]) + (if !Truthy(Get(d, last, PyNone)) then [Missing(last)] else [])
  }

  /** A missing-field error is reported exactly for the listed fields whose value is missing or falsy. */
  lemma {:induction false} MissingFieldsIff(d: Dict, fields: seq<string>, f: string)
    ensures Missing(f) in MissingFields(d, fields) <==> f in fields && !Truthy(Get(d, f, PyNone))
    ensures forall p :: p in MissingFields(d, fields) ==> p.Missing?
    decreases |fields|
  {
    if fields != [] {
      var init := fields[..|fields| - 1];
      MissingFieldsIff(d, init, f);
      assert fields == init + [fields[|fields| - 1]];
    }
  }

  /** The check of `job_id` and `source`: a truthy value must be a string that is not only whitespace. */
  function TextCheck(d: Dict, field: string): (r: seq<Problem>)
    ensures r == [] || r == [NotString(field)] || r == [Blank(field)]
  {
    var v := Get(d, field, PyStr(""));
    if !Truthy(v) then []
    else if !v.PyStr? then [NotString(field)]
    else if |Strip(v.s)| == 0 then [Blank(field)]
    else []
  }

  /** The check of `title`: as `TextCheck`, and at most 500 characters. */
  function TitleCheck(d: Dict): (r: seq<Problem>)
    ensures r == [] || r == [NotString("title")] || r == [Blank("title")] || (|r| == 1 && r[0].TitleTooLong?)
  {
    var v := Get(d, "title", PyStr(""));
    if !Truthy(v) then []
    else if !v.PyStr? then [NotString("title")]
    else if |Strip(v.s)| == 0 then [Blank("title")]
    else if |v.s| > 500 then [TitleTooLong(|v.s|)]
    else []
  }

  /** The check of `description`: a truthy value must be a string; its length is not checked. */
  function DescriptionCheck(d: Dict): (r: seq<Problem>)
    ensures r == [] || r == [NotString("description")]
  {
    var v := Get(d, "description", PyStr(""));
    if Truthy(v) && !v.PyStr? then [NotString("description")] else []
  }

  /** The check of `link`: a truthy value must be a string starting with `http://` or `https://`. */
  function LinkCheck(d: Dict): (r: seq<Problem>)
    ensures r == [] || r == [NotString("link")] || r == [InvalidUrl]
  {
    var v := Get(d, "link", PyStr(""));
    if !Truthy(v) then []
    else if !v.PyStr? then [NotString("link")]
    else if !(StartsWith(v.s, "http://") || StartsWith(v.s, "https://")) then [InvalidUrl]
    else []
  }

  /** Budget: anything but None must be a `str`, `int` or `float` (a `bool` is an `int`). */
  function BudgetCheck(d: Dict): (r: seq<Problem>)
    ensures r == [] || r == [BadBudget]
  {
    var v := Get(d, "budget", PyNone);
    if v != PyNone && !(v.PyStr? || IsNumber(v)) then [BadBudget] else []
  }

  /** Proposals: anything but None must be a `str` or `int`. */
  function ProposalsCheck(d: Dict): (r: seq<Problem>)
    ensures r == [] || r == [BadProposals]
  {
    var v := Get(d, "proposals", PyNone);
    if v != PyNone && !(v.PyStr? || IsInt(v)) then [BadProposals] else []
  }

  /** Every problem of a record, in the order `validate_job` appends them. */
  function Problems(d: Dict): seq<Problem> {
    MissingFields(d, RequiredFields) + FieldProblems(d)
  }

  /** The checks after the required-field loop, in order. */
  function FieldProblems(d: Dict): seq<Problem> {
    TextCheck(d, "job_id") + TitleCheck(d) + DescriptionCheck(d)
    + LinkCheck(d) + TextCheck(d, "source") + BudgetCheck(d) + ProposalsCheck(d)
  }

  /** A string field holding text other than whitespace. */
  predicate HasText(d: Dict, field: string) {
    field in d && d[field].PyStr? && |Strip(d[field].s)| > 0
  }

  /** A truthy value of `field` holds text. */
  predicate TextOk(d: Dict, field: string) {
    !Truthy(Get(d, field, PyNone)) || HasText(d, field)
  }

  predicate TitleOk(d: Dict) {
    !Truthy(Get(d, "title", PyNone)) || (HasText(d, "title") && |d["title"].s| <= 500)
  }

  predicate DescriptionOk(d: Dict) {
    !Truthy(Get(d, "description", PyNone)) || d["description"].PyStr?
  }

  predicate IsUrl(s: string) {
    StartsWith(s, "http://") || StartsWith(s, "https://")
  }

  predicate LinkOk(d: Dict) {
    !Truthy(Get(d, "link", PyNone)) || (d["link"].PyStr? && IsUrl(d["link"].s))
  }

  predicate BudgetOk(d: Dict) {
    Get(d, "budget", PyNone) == PyNone || d["budget"].PyStr? || IsNumber(d["budget"])
  }

  predicate ProposalsOk(d: Dict) {
    Get(d, "proposals", PyNone) == PyNone || d["proposals"].PyStr? || IsInt(d["proposals"])
  }

  /**
   * A record `validate_job` accepts, stated field by field: `job_id`, `title`
   * and `link` are present and truthy, a truthy `job_id` or `source` holds
   * text, a truthy title holds text of at most 500 characters, a truthy link
   * is an http(s) URL, a truthy description is a string, and budget and
   * proposals have the allowed types or are None.
   */
  predicate WellFormed(d: Dict) {
    && Truthy(Get(d, "job_id", PyNone)) && Truthy(Get(d, "title", PyNone)) && Truthy(Get(d, "link", PyNone))
    && TextOk(d, "job_id") && TitleOk(d) && DescriptionOk(d) && LinkOk(d) && TextOk(d, "source")
    && BudgetOk(d) && ProposalsOk(d)
  }

  lemma TextCheckIff(d: Dict, field: string)
    ensures TextCheck(d, field) == [] <==> TextOk(d, field)
  {
  }

  lemma TitleCheckIff(d: Dict)
    ensures TitleCheck(d) == [] <==> TitleOk(d)
  {
    var v := Get(d, "title", PyStr(""));
    assert Truthy(Get(d, "title", PyNone)) <==> Truthy(v);
    if Truthy(v) {
      assert v == d["title"];
    }
  }

  lemma LinkCheckIff(d: Dict)
    ensures LinkCheck(d) == [] <==> LinkOk(d)
  {
  }

  lemma RequiredIff(d: Dict)
    ensures MissingFields(d, RequiredFields) == [] <==>
            Truthy(Get(d, "job_id", PyNone)) && Truthy(Get(d, "title", PyNone)) && Truthy(Get(d, "link", PyNone))
  {
    var fs := RequiredFields;
    assert fs[..2] == ["job_id", "title"] && fs[..2][..1] == ["job_id"] && fs[..2][..1][..0] == [];
    assert |MissingFields(d, fs)| == |MissingFields(d, fs[..2])| + |MissingFields(d, [fs[2]][..1][..0])| + (if Truthy(Get(d, "link", PyNone)) then 0 else 1);
  }

  /** A record is valid exactly when it is well formed. */
  lemma ValidIff(d: Dict)
    ensures Problems(d) == [] <==> WellFormed(d)
  {
    RequiredIff(d);
    TextCheckIff(d, "job_id");
    TextCheckIff(d, "source");
    TitleCheckIff(d);
    LinkCheckIff(d);
    assert |Problems(d)| == |MissingFields(d, RequiredFields)| + |FieldProblems(d)|;
    assert |FieldProblems(d)| == |TextCheck(d, "job_id")| + |TitleCheck(d)| + |DescriptionCheck(d)| + |LinkCheck(d)|
      + |TextCheck(d, "source")| + |BudgetCheck(d)| + |ProposalsCheck(d)|;
  }

  /** A problem other than a missing field comes from the per-field checks. */
  lemma ProblemsIn(d: Dict, p: Problem)
    ensures p in Problems(d) <==> p in MissingFields(d, RequiredFields) || p in FieldProblems(d)
    ensures !p.Missing? ==> (p in Problems(d) <==> p in FieldProblems(d))
  {
    MissingFieldsIff(d, RequiredFields, "");
  }

  lemma FieldProblemsIn(d: Dict, p: Problem)
    ensures p in FieldProblems(d) <==>
            p in TextCheck(d, "job_id") || p in TitleCheck(d) || p in DescriptionCheck(d) || p in LinkCheck(d)
            || p in TextCheck(d, "source") || p in BudgetCheck(d) || p in ProposalsCheck(d)
  {
  }

  /** None of the checks after the required-field loop reports a missing field. */
  lemma FieldProblemsNoMissing(d: Dict)
    ensures forall p :: p in FieldProblems(d) ==> !p.Missing?
  {
    forall p | p in FieldProblems(d) ensures !p.Missing? {
      FieldProblemsIn(d, p);
    }
  }

  /** A missing or falsy `job_id`, `title` or `link` is reported; a missing `source` never is. */
  lemma MissingReported(d: Dict, f: string)
    ensures f in RequiredFields ==> (Missing(f) in Problems(d) <==> !Truthy(Get(d, f, PyNone)))
    ensures Missing("source") !in Problems(d)
  {
    MissingFieldsIff(d, RequiredFields, f);
    MissingFieldsIff(d, RequiredFields, "source");
    FieldProblemsNoMissing(d);
    ProblemsIn(d, Missing(f));
    ProblemsIn(d, Missing("source"));
  }

  /** A link that is a non-empty string is reported as invalid exactly when it is not an http(s) URL. */
  lemma LinkReported(d: Dict)
    requires "link" in d && d["link"].PyStr? && d["link"].s != ""
    ensures InvalidUrl in Problems(d) <==> !IsUrl(d["link"].s)
  {
    InvalidUrlIn(d);
    assert LinkCheck(d) == if IsUrl(d["link"].s) then [] else [InvalidUrl];
  }

  /** Only the link check reports an invalid URL. */
  lemma InvalidUrlIn(d: Dict)
    ensures InvalidUrl in Problems(d) <==> InvalidUrl in LinkCheck(d)
  {
    ProblemsIn(d, InvalidUrl);
    FieldProblemsIn(d, InvalidUrl);
  }

  /** `"not-a-url"` fails the URL check and `"https://example.com/job/1"` passes it. */
  lemma LinkExamples()
    ensures LinkCheck(map["link" := PyStr("not-a-url")]) == [InvalidUrl]
    ensures LinkCheck(map["link" := PyStr("https://example.com/job/1")]) == []
  {
    assert !StartsWith("not-a-url", "http://") by {
      assert "not-a-url"[..7] != "http://" by { assert "not-a-url"[0] == 'n'; }
    }
    assert !StartsWith("not-a-url", "https://") by {
      assert "not-a-url"[..8] != "https://" by { assert "not-a-url"[0] == 'n'; }
    }
    assert StartsWith("https://example.com/job/1", "https://") by {
      assert "https://example.com/job/1"[..8] == "https://";
    }
  }

  /** A whitespace-only `job_id` or `title` is reported as empty. */
  lemma BlankReported(d: Dict, f: string)
    requires f == "job_id" || f == "title"
    requires f in d && d[f].PyStr? && d[f].s != "" && |Strip(d[f].s)| == 0
    ensures Blank(f) in Problems(d)
  {
    if f == "job_id" {
      assert TextCheck(d, "job_id") == [Blank("job_id")];
    } else {
      assert TitleCheck(d) == [Blank("title")];
    }
    FieldProblemsIn(d, Blank(f));
    ProblemsIn(d, Blank(f));
  }

  /** A title with text and more than 500 characters is reported as too long, with its length. */
  lemma LongTitleReported(d: Dict)
    requires "title" in d && d["title"].PyStr? && |Strip(d["title"].s)| > 0 && |d["title"].s| > 500
    ensures TitleTooLong(|d["title"].s|) in Problems(d)
  {
    var p := TitleTooLong(|d["title"].s|);
    assert Get(d, "title", PyStr("")) == d["title"];
    assert TitleCheck(d) == [p];
    assert p in FieldProblems(d) by {
      FieldProblemsIn(d, p);
    }
    ProblemsIn(d, p);
  }

  /** Budget may be None, a string or a number; proposals None, a string or an integer. */
  lemma TypesReported(d: Dict)
    ensures BadBudget in Problems(d) <==>
            "budget" in d && d["budget"] != PyNone && !(d["budget"].PyStr? || IsNumber(d["budget"]))
    ensures BadProposals in Problems(d) <==>
            "proposals" in d && d["proposals"] != PyNone && !(d["proposals"].PyStr? || IsInt(d["proposals"]))
  {
    BadBudgetIn(d);
    BadProposalsIn(d);
  }

  /** Only the budget check reports a bad budget. */
  lemma BadBudgetIn(d: Dict)
    ensures BadBudget in Problems(d) <==> BadBudget in BudgetCheck(d)
  {
    ProblemsIn(d, BadBudget);
    FieldProblemsIn(d, BadBudget);
  }

  /** Only the proposals check reports bad proposals. */
  lemma BadProposalsIn(d: Dict)
    ensures BadProposals in Problems(d) <==> BadProposals in ProposalsCheck(d)
  {
    ProblemsIn(d, BadProposals);
    FieldProblemsIn(d, BadProposals);
  }

  // ---------------------------------------------------------------- sanitize_job

  const StringFields: seq<string> := ["job_id", "title", "description", "link", "source", "category", "client_country"]

  const MaxDescription: nat := 10000
  const MaxTitle: nat := 500

  /** A missing or falsy source becomes `'Unknown'`. */
  function WithSource(d: Dict): (r: Dict)
    ensures r.Keys == d.Keys + {"source"}
  {
    if !Truthy(Get(d, "source", PyNone)) then d["source" := PyStr("Unknown")] else d
  }

  /** A string is stripped; any other value is left alone. */
  function Trim(v: Value): (r: Value)
    ensures r.PyStr? <==> v.PyStr?
  {
    if v.PyStr? then PyStr(Strip(v.s)) else v
  }

  lemma UnknownStripped()
    ensures Strip("Unknown") == "Unknown"
  {
    var u := "Unknown";
    assert u[0] == 'U' && u[|u| - 1] == 'n';
    StripKeeps(u);
  }

  /** One step of the trimming loop. */
  function TrimField(m: Dict, f: string): (r: Dict)
    ensures r.Keys == m.Keys
  {
    if f in m && m[f].PyStr? then m[f := Trim(m[f])] else m
  }

  /** The trimming loop over `fields`, in order. */
  function TrimFields(m: Dict, fields: seq<string>): Dict
    decreases |fields|
  {
    if fields == [] then m else TrimFields(TrimField(m, fields[0]), fields[1..])
  }

  /**
   * The trimming loop keeps every key, strips the string value of every
   * listed field and leaves every other value alone.
   */
  lemma {:induction false} TrimFieldsEffect(m: Dict, fields: seq<string>)
    ensures var r := TrimFields(m, fields);
            && r.Keys == m.Keys
            && forall k :: k in m ==> r[k] == if k in fields then Trim(m[k]) else m[k]
    decreases |fields|
  {
    if fields != [] {
      var f := fields[0];
      var m1 := TrimField(m, f);
      var rest := fields[1..];
      var r := TrimFields(m, fields);
      assert r == TrimFields(m1, rest);
      TrimFieldsEffect(m1, rest);
      assert r.Keys == m.Keys;
      assert fields == [f] + rest;
      forall k | k in m
        ensures r[k] == if k in fields then Trim(m[k]) else m[k]
      {
        assert r[k] == if k in rest then Trim(m1[k]) else m1[k];
        if k == f {
          if m[k].PyStr? {
            assert m1[k] == Trim(m[k]);
            StripIdempotent(m[k].s);
          } else {
            assert m1[k] == m[k];
          }
        } else {
          assert m1[k] == m[k];
          assert k in fields <==> k in rest;
        }
      }
    }
  }

  /** An over-long description string is cut to its first 10,000 characters followed by `...`. */
  function CapDescription(m: Dict): (r: Dict)
    ensures r.Keys == m.Keys
  {
    if "description" in m then
      var desc := Get(m, "description", PyStr(""));
      if desc.PyStr? && |desc.s| > MaxDescription then m["description" := PyStr(desc.s[..MaxDescription] + "...")] else m
    else m
  }

  /** An over-long title string is cut to its first 500 characters. */
  function CapTitle(m: Dict): (r: Dict)
    ensures r.Keys == m.Keys
  {
    if "title" in m then
      var title := Get(m, "title", PyStr(""));
      if title.PyStr? && |title.s| > MaxTitle then m["title" := PyStr(title.s[..MaxTitle])] else m
    else m
  }

  /** The record after the source default and the trimming loop, before the two length caps. */
  function Trimmed(d: Dict): Dict {
    TrimFields(WithSource(d), StringFields)
  }

  function Sanitize(d: Dict): Dict {
    CapTitle(CapDescription(Trimmed(d)))
  }

  lemma WithSourceAt(d: Dict, k: string)
    requires k in d && k != "source"
    ensures WithSource(d)[k] == d[k]
  {
  }

  lemma CapsAt(m: Dict, k: string)
    requires k in m && k != "description" && k != "title"
    ensures CapTitle(CapDescription(m))[k] == m[k]
  {
  }

  /** After the trimming loop, a field other than `source` is trimmed exactly when it is listed. */
  lemma TrimmedAt(d: Dict, k: string)
    requires k in d && k != "source"
    ensures Trimmed(d)[k] == if k in StringFields then Trim(d[k]) else d[k]
  {
    TrimFieldsEffect(WithSource(d), StringFields);
    WithSourceAt(d, k);
  }

  /** After the trimming loop, the source is the trimmed input source, or `'Unknown'`. */
  lemma TrimmedSource(d: Dict)
    ensures Trimmed(d)["source"] == if Truthy(Get(d, "source", PyNone)) then Trim(d["source"]) else PyStr("Unknown")
  {
    var w := WithSource(d);
    TrimFieldsEffect(w, StringFields);
    assert "source" in StringFields && "source" in w;
    assert Trimmed(d)["source"] == Trim(w["source"]);
    if !Truthy(Get(d, "source", PyNone)) {
      assert w["source"] == PyStr("Unknown");
      UnknownStripped();
    }
  }

  /**
   * Which keys `sanitize_job` returns and what it does outside the
   * description and the title: the keys are those of the input plus
   * `source`; every other listed string field is stripped, and every other
   * value is unchanged.
   */
  lemma SanitizeKeeps(d: Dict)
    ensures var r := Sanitize(d);
            && r.Keys == d.Keys + {"source"}
            && forall k :: k in d && k != "description" && k != "title" && k != "source" ==>
                 r[k] == if k in StringFields then Trim(d[k]) else d[k]
  {
    var t := Trimmed(d);
    TrimFieldsEffect(WithSource(d), StringFields);
    forall k | k in d && k != "description" && k != "title" && k != "source"
      ensures Sanitize(d)[k] == if k in StringFields then Trim(d[k]) else d[k]
    {
      TrimmedAt(d, k);
      CapsAt(t, k);
    }
  }

  /** A missing or falsy source becomes `'Unknown'`; a truthy string source is stripped. */
  lemma SanitizeSource(d: Dict)
    ensures Sanitize(d)["source"] == if Truthy(Get(d, "source", PyNone)) then Trim(d["source"]) else PyStr("Unknown")
  {
    var t := Trimmed(d);
    TrimFieldsEffect(WithSource(d), StringFields);
    TrimmedSource(d);
    CapsAt(t, "source");
  }

  lemma CapsDescription(m: Dict)
    requires "description" in m && m["description"].PyStr?
    ensures var s := m["description"].s;
            CapTitle(CapDescription(m))["description"] == PyStr(if |s| > MaxDescription then s[..MaxDescription] + "..." else s)
  {
  }

  lemma CapsTitle(m: Dict)
    requires "title" in m && m["title"].PyStr?
    ensures var s := m["title"].s;
            CapTitle(CapDescription(m))["title"] == PyStr(if |s| > MaxTitle then s[..MaxTitle] else s)
  {
  }

  /** A string description is stripped and then cut to 10,000 characters followed by `...`. */
  lemma SanitizeDescription(d: Dict)
    requires "description" in d && d["description"].PyStr?
    ensures var s := Strip(d["description"].s);
            Sanitize(d)["description"] == PyStr(if |s| > MaxDescription then s[..MaxDescription] + "..." else s)
  {
    assert "description" in StringFields;
    TrimmedAt(d, "description");
    CapsDescription(Trimmed(d));
  }

  /** A string title is stripped and then cut to 500 characters. */
  lemma SanitizeTitle(d: Dict)
    requires "title" in d && d["title"].PyStr?
    ensures var s := Strip(d["title"].s);
            Sanitize(d)["title"] == PyStr(if |s| > MaxTitle then s[..MaxTitle] else s)
  {
    assert "title" in StringFields;
    TrimmedAt(d, "title");
    CapsTitle(Trimmed(d));
  }

  /** After sanitising, the description has at most 10,003 characters and the title at most 500. */
  lemma SanitizeBounds(d: Dict)
    ensures var r := Sanitize(d);
            && ("description" in r && r["description"].PyStr? ==> |r["description"].s| <= MaxDescription + 3)
            && ("title" in r && r["title"].PyStr? ==> |r["title"].s| <= MaxTitle)
  {
  }

  /** A title of at most 500 characters is never reported as too long. */
  lemma ShortTitleFits(d: Dict)
    requires "title" in d && d["title"].PyStr? ==> |d["title"].s| <= MaxTitle
    ensures forall p :: p in Problems(d) ==> !p.TitleTooLong?
  {
    forall p | p in Problems(d) ensures !p.TitleTooLong? {
      ProblemsIn(d, p);
      FieldProblemsIn(d, p);
    }
  }

  /** A sanitised record is never reported as having a title that is too long. */
  lemma SanitizedTitleFits(d: Dict)
    ensures forall p :: p in Problems(Sanitize(d)) ==> !p.TitleTooLong?
  {
    SanitizeBounds(d);
    ShortTitleFits(Sanitize(d));
  }

  lemma FieldProblemsOf(d: Dict, jobId: seq<Problem>, title: seq<Problem>, description: seq<Problem>,
                        link: seq<Problem>, source: seq<Problem>, types: seq<Problem>)
    requires jobId == TextCheck(d, "job_id") && title == TitleCheck(d) && description == DescriptionCheck(d)
    requires link == LinkCheck(d) && source == TextCheck(d, "source")
    requires types == BudgetCheck(d) + ProposalsCheck(d)
    ensures jobId + title + description + link + source + types == FieldProblems(d)
  {
  }

  // ---------------------------------------------------------------- the loops

  /** The block of `validate_job` that checks `job_id` or `source`. */
  method CheckText(d: Dict, field: string) returns (errors: seq<Problem>)
    ensures errors == TextCheck(d, field)
  {
    errors := [];
    var v := Get(d, field, PyStr(""));
    if Truthy(v) {
      if !v.PyStr? {
        errors := [NotString(field)];
      } else if |Strip(v.s)| == 0 {
        errors := [Blank(field)];
      }
    }
  }

  /** The block of `validate_job` that checks `title`. */
  method CheckTitle(d: Dict) returns (errors: seq<Problem>)
    ensures errors == TitleCheck(d)
  {
    errors := [];
    var title := Get(d, "title", PyStr(""));
    if Truthy(title) {
      if !title.PyStr? {
        errors := [NotString("title")];
      } else if |Strip(title.s)| == 0 {
        errors := [Blank("title")];
      } else if |title.s| > 500 {
        errors := [TitleTooLong(|title.s|)];
      }
    }
  }

  /** The block of `validate_job` that checks `link`. */
  method CheckLink(d: Dict) returns (errors: seq<Problem>)
    ensures errors == LinkCheck(d)
  {
    errors := [];
    var link := Get(d, "link", PyStr(""));
    if Truthy(link) {
      if !link.PyStr? {
        errors := [NotString("link")];
      } else if !(StartsWith(link.s, "http://") || StartsWith(link.s, "https://")) {
        errors := [InvalidUrl];
      }
    }
  }

  /** The blocks of `validate_job` that check the types of `budget` and `proposals`. */
  method CheckTypes(d: Dict) returns (errors: seq<Problem>)
    ensures errors == BudgetCheck(d) + ProposalsCheck(d)
  {
    errors := [];
    var budget := Get(d, "budget", PyNone);
    if budget != PyNone && !(budget.PyStr? || IsNumber(budget)) {
      errors := errors + [BadBudget];
    }
    var proposals := Get(d, "proposals", PyNone);
    if proposals != PyNone && !(proposals.PyStr? || IsInt(proposals)) {
      errors := errors + [BadProposals];
    }
  }

  /** `validate_job`: the errors in order, and validity exactly when there are none. */
  method ValidateJob(d: Dict) returns (isValid: bool, errors: seq<string>)
    ensures errors == Messages(Problems(d))
    ensures isValid <==> errors == []
  {
    var problems: seq<Problem> := [];
    for i := 0 to |RequiredFields|
      invariant problems == MissingFields(d, RequiredFields[..i])
    {
      var field := RequiredFields[i];
      assert RequiredFields[..i + 1][..i] == RequiredFields[..i];
      if !Truthy(Get(d, field, PyNone)) {
        problems := problems + [Missing(field)];
      }
    }
    assert RequiredFields[..|RequiredFields|] == RequiredFields;
    var jobIdErrors := CheckText(d, "job_id");
    var titleErrors := CheckTitle(d);
    var descriptionErrors: seq<Problem> := [];
    var description := Get(d, "description", PyStr(""));
    if Truthy(description) && !description.PyStr? {
      descriptionErrors := [NotString("description")];
    }
    assert descriptionErrors == DescriptionCheck(d);
    var linkErrors := CheckLink(d);
    var sourceErrors := CheckText(d, "source");
    var typeErrors := CheckTypes(d);
    var fieldErrors := jobIdErrors + titleErrors + descriptionErrors + linkErrors + sourceErrors + typeErrors;
    FieldProblemsOf(d, jobIdErrors, titleErrors, descriptionErrors, linkErrors, sourceErrors, typeErrors);
    problems := problems + fieldErrors;
    errors := Messages(problems);
    isValid := |errors| == 0;
  }

  /** The trimming loop of `sanitize_job`, over the listed string fields in order. */
  method TrimStringFields(m: Dict) returns (trimmed: Dict)
    ensures trimmed == TrimFields(m, StringFields)
  {
    trimmed := m;
    for i := 0 to |StringFields|
      invariant TrimFields(trimmed, StringFields[i..]) == TrimFields(m, StringFields)
    {
      var field := StringFields[i];
      ghost var before := trimmed;
      if field in trimmed && trimmed[field].PyStr? {
        trimmed := trimmed[field := PyStr(Strip(trimmed[field].s))];
      }
      assert trimmed == TrimField(before, field);
      assert StringFields[i..][1..] == StringFields[i + 1..];
    }
    assert StringFields[|StringFields|..] == [];
  }

  /** The two length caps of `sanitize_job`: the description first, then the title. */
  method CapLengths(m: Dict) returns (capped: Dict)
    ensures capped == CapTitle(CapDescription(m))
  {
    capped := m;
    if "description" in capped {
      var desc := Get(capped, "description", PyStr(""));
      if desc.PyStr? && |desc.s| > MaxDescription {
        capped := capped["description" := PyStr(desc.s[..MaxDescription] + "...")];
      }
    }
    assert capped == CapDescription(m);
    ghost var described := capped;
    if "title" in capped {
      var title := Get(capped, "title", PyStr(""));
      if title.PyStr? && |title.s| > MaxTitle {
        capped := capped["title" := PyStr(title.s[..MaxTitle])];
      }
    }
    assert capped == CapTitle(described);
  }

  /** `sanitize_job`: works on a copy, field by field. */
  method SanitizeJob(d: Dict) returns (sanitized: Dict)
    ensures sanitized == Sanitize(d)
  {
    sanitized := d;
    if !Truthy(Get(sanitized, "source", PyNone)) {
      sanitized := sanitized["source" := PyStr("Unknown")];
    }
    assert sanitized == WithSource(d);
    sanitized := TrimStringFields(sanitized);
    sanitized := CapLengths(sanitized);
  }
}
