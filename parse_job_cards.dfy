/**
 * The normaliser of upwork_sniper/parse_job_cards.py: it turns the JSON
 * payload of an Upwork search endpoint into flat job dictionaries.
 */
module JobCards {
  import opened Wrappers
  import opened PyValues

  // ---------------------------------------------------------------- _safe_list

  /** The dictionaries of a list, in order. */
  function DictsOf(items: seq<Value>): (r: seq<Dict>)
    ensures |r| <= |items|
    ensures forall d :: d in r ==> PyDict(d) in items
    decreases |items|
  {
    if items == [] then []
    else if items[0].PyDict? then [items[0].fields] + DictsOf(items[1..])
    else DictsOf(items[1..])
  }

  /** A skill dictionary's label: `item.get("name") or item.get("skill", "")`. */
  function SkillName(d: Dict): Value {
    Or(Get(d, "name", PyNone), Get(d, "skill", PyStr("")))
  }

  /** The labels of the dictionaries of a list, skipping everything else. */
  function SkillNames(items: seq<Value>): (r: seq<Value>)
    ensures |r| == |DictsOf(items)|
    ensures forall i :: 0 <= i < |r| ==> r[i] == SkillName(DictsOf(items)[i])
    decreases |items|
  {
    if items == [] then []
    else if items[0].PyDict? then [SkillName(items[0].fields)] + SkillNames(items[1..])
    else SkillNames(items[1..])
  }

  /** `_safe_list`: a skills field as a list. */
  function SafeList(value: Value): (r: seq<Value>)
    ensures !Truthy(value) ==> r == []
    ensures Truthy(value) && !value.PyList? ==> r == [PyStr(ToStr(value))]
    ensures Truthy(value) && value.PyList? && !value.items[0].PyDict? ==>
            |r| == |value.items| && forall i :: 0 <= i < |r| ==> r[i] == PyStr(ToStr(value.items[i]))
    ensures Truthy(value) && value.PyList? && value.items[0].PyDict? ==>
            |r| == |DictsOf(value.items)| <= |value.items|
            && forall i :: 0 <= i < |r| ==> r[i] == SkillName(DictsOf(value.items)[i])
  {
    if !Truthy(value) then []
    else if value.PyList? then
      var items := value.items;
      if items[0].PyDict? then SkillNames(items)
      else seq(|items|, i requires 0 <= i < |items| => PyStr(ToStr(items[i])))
    else [PyStr(ToStr(value))]
  }

  // ---------------------------------------------------------------- _parse_budget

  /** `job.get("budget") or job.get("amount", {})` */
  function BudgetField(job: Dict): Value {
    Or(Get(job, "budget", PyNone), Get(job, "amount", PyDict(map[])))
  }

  /** `_parse_budget`: the budget of a job as a small dictionary. */
  function ParseBudget(job: Dict): Dict {
    var budget := BudgetField(job);
    if budget.PyDict? then
      var b := budget.fields;
      map[
        "type" := Or(Get(b, "type", PyNone), Get(job, "type", PyNone)),
        "budget" := Or(Get(b, "budget", PyNone), Get(b, "amount", PyNone)),
        "currency" := Or(Get(b, "currency", PyNone), Get(b, "currency_code", PyNone))]
    else if Truthy(budget) then
      map["type" := Get(job, "type", PyNone), "budget" := budget, "currency" := Get(job, "currency", PyNone)]
    else
      var hourly := Or(Get(job, "hourly", PyNone), PyDict(map[]));
      if hourly.PyDict? then
        var h := hourly.fields;
        map[
          "type" := PyStr("hourly"),
          "hourly_min" := Or(Get(h, "min_rate", PyNone), Get(h, "min", PyNone)),
          "hourly_max" := Or(Get(h, "max_rate", PyNone), Get(h, "max", PyNone)),
          "currency" := Get(h, "currency", PyNone)]
      else
        var hourlyRate := map[
          "type" := PyStr("hourly"),
          "hourly_min" := Get(job, "hourly_rate_min", PyNone),
          "hourly_max" := Get(job, "hourly_rate_max", PyNone),
          "currency" := Or(Get(job, "currency", PyNone), Get(job, "hourly_currency", PyNone))];
        if Truthy(hourlyRate["hourly_min"]) || Truthy(hourlyRate["hourly_max"]) then
          hourlyRate
        else map[]
  }

  /**
   * A budget dictionary gives the three keys, each from its first truthy
   * source; any other truthy budget is carried as it is; otherwise the
   * hourly block or the hourly rates give an hourly record, and the result
   * is empty exactly when neither gives anything.
   */
  lemma ParseBudgetSpec(job: Dict)
    ensures var budget := BudgetField(job);
            budget.PyDict? ==>
              && ParseBudget(job).Keys == {"type", "budget", "currency"}
              && ParseBudget(job)["budget"] == FirstTruthy(budget.fields, ["budget"], Get(budget.fields, "amount", PyNone))
              && ParseBudget(job)["type"] == FirstTruthy(budget.fields, ["type"], Get(job, "type", PyNone))
    ensures var budget := BudgetField(job);
            !budget.PyDict? && Truthy(budget) ==>
              ParseBudget(job) == map["type" := Get(job, "type", PyNone), "budget" := budget, "currency" := Get(job, "currency", PyNone)]
    ensures !Truthy(Get(job, "budget", PyNone)) && "amount" !in job ==>
              ParseBudget(job)["budget"] == PyNone && ParseBudget(job).Keys == {"type", "budget", "currency"}
    ensures !Truthy(BudgetField(job)) && !BudgetField(job).PyDict? ==>
              ParseBudget(job) == map[] || ("type" in ParseBudget(job) && ParseBudget(job)["type"] == PyStr("hourly"))
    ensures ParseBudget(job) == map[] <==>
              && !Truthy(BudgetField(job)) && !BudgetField(job).PyDict?
              && Truthy(Get(job, "hourly", PyNone)) && !Get(job, "hourly", PyNone).PyDict?
              && !Truthy(Get(job, "hourly_rate_min", PyNone)) && !Truthy(Get(job, "hourly_rate_max", PyNone))
  {
    var budget := BudgetField(job);
    var r := ParseBudget(job);
    if budget.PyDict? {
      var b := budget.fields;
      assert r == map[
        "type" := Or(Get(b, "type", PyNone), Get(job, "type", PyNone)),
        "budget" := Or(Get(b, "budget", PyNone), Get(b, "amount", PyNone)),
        "currency" := Or(Get(b, "currency", PyNone), Get(b, "currency_code", PyNone))];
    } else if !Truthy(budget) {
      var h := Get(job, "hourly", PyNone);
      var hourly := Or(h, PyDict(map[]));
      assert hourly.PyDict? <==> !Truthy(h) || h.PyDict?;
      if hourly.PyDict? {
        assert "type" in r && r["type"] == PyStr("hourly");
        assert r != map[];
      } else {
        var low := Get(job, "hourly_rate_min", PyNone);
        var high := Get(job, "hourly_rate_max", PyNone);
        if Truthy(low) || Truthy(high) {
          assert "type" in r && r["type"] == PyStr("hourly");
          assert r != map[];
        } else {
          assert r == map[];
        }
      }
    } else {
      assert "type" in r;
    }
  }

  // ---------------------------------------------------------------- _parse_posted_time

  const PostedTimeKeys: seq<string> := ["publish_time", "published_time", "created_on", "date_created"]

  /** The timestamp field: the first truthy of the five keys, else whatever `posted_on` holds. */
  function PostedTimestamp(job: Dict): Value {
    FirstTruthy(job, PostedTimeKeys, Get(job, "posted_on", PyNone))
  }

  /** Unix timestamps above 10^12 are milliseconds. */
  const MillisecondThreshold: real := 1000000000000.0

  /**
   * `_parse_posted_time`. `fromTimestamp` renders a count of seconds as an
   * ISO-8601 UTC string, or gives None where `datetime.fromtimestamp`
   * raises (a value out of its range).
   */
  function ParsePostedTime(job: Dict, fromTimestamp: real -> Option<string>): (r: Result<string, PyError>)
    ensures var t := PostedTimestamp(job);
            IsNumber(t) ==>
              exists seconds: real ::
                && (if NumberValue(t) > MillisecondThreshold then seconds * 1000.0 == NumberValue(t)
                    else seconds == NumberValue(t))
                && r == (if fromTimestamp(seconds).Some? then Ok(fromTimestamp(seconds).value) else Err(ValueError))
    ensures PostedTimestamp(job).PyStr? ==> r == Ok(PostedTimestamp(job).s)
    ensures !IsNumber(PostedTimestamp(job)) && !PostedTimestamp(job).PyStr? ==> r == Ok("")
  {
    var t := PostedTimestamp(job);
    if IsNumber(t) then
      var n := NumberValue(t);
      var seconds := if n > MillisecondThreshold then n / 1000.0 else n;
      match fromTimestamp(seconds)
      case Some(iso) => Ok(iso)
      case None => Err(ValueError)
    else if t.PyStr? then Ok(t.s)
    else Ok("")
  }

  /**
   * The same instant given in milliseconds or in seconds renders the same:
   * the millisecond stamp is scaled down before it is rendered.
   */
  lemma MillisecondsAsSeconds(ms: int, fromTimestamp: real -> Option<string>)
    requires ms > 1000000000000 && ms <= 1000000000000000
    requires ms % 1000 == 0
    ensures ParsePostedTime(map["publish_time" := PyInt(ms)], fromTimestamp)
            == ParsePostedTime(map["publish_time" := PyInt(ms / 1000)], fromTimestamp)
  {
    var a: Dict := map["publish_time" := PyInt(ms)];
    var b: Dict := map["publish_time" := PyInt(ms / 1000)];
    assert PostedTimeKeys[0] == "publish_time";
    assert PostedTimestamp(a) == PyInt(ms);
    assert PostedTimestamp(b) == PyInt(ms / 1000);
    assert (ms as real) / 1000.0 == (ms / 1000) as real;
  }

  // ---------------------------------------------------------------- extract_jobs_from_payload

  const JobIdKeys: seq<string> := ["ciphertext", "job_id", "id"]

  /** `entry.get("ciphertext") or entry.get("job_id") or entry.get("id") or entry.get("oid")` */
  function EntryJobId(entry: Dict): Value {
    FirstTruthy(entry, JobIdKeys, Get(entry, "oid", PyNone))
  }

  /**
   * The list that the entry loop iterates over, chosen from the payload:
   * `results` if it is a list, else `jobs` if it is a list, else
   * `searchResults.jobs.results` if `searchResults` is a dictionary. A
   * `searchResults.jobs` that is not a dictionary has no `.get` and raises.
   */
  function Bucket(payload: Value): (r: Result<Value, PyError>)
    ensures r.Err? ==> r.error == AttributeError
    ensures payload.PyDict? && "results" in payload.fields && payload.fields["results"].PyList? ==>
            r == Ok(payload.fields["results"])
    ensures payload.PyDict? && !("results" in payload.fields && payload.fields["results"].PyList?)
            && "jobs" in payload.fields && payload.fields["jobs"].PyList? ==>
            r == Ok(payload.fields["jobs"])
    ensures !payload.PyDict? ==> r == Ok(PyList([]))
  {
    if !payload.PyDict? then Ok(PyList([]))
    else
      var p := payload.fields;
      if "results" in p && p["results"].PyList? then Ok(p["results"])
      else if "jobs" in p && p["jobs"].PyList? then Ok(p["jobs"])
      else if "searchResults" in p && p["searchResults"].PyDict? then
        var jobsBlock := Get(p["searchResults"].fields, "jobs", PyDict(map[]));
        if jobsBlock.PyDict? then Ok(Get(jobsBlock.fields, "results", PyList([])))
        else Err(AttributeError)
      else Ok(PyList([]))
  }

  /**
   * The entries a `for` loop sees. A non-empty dictionary or string yields
   * strings, and the first of them has no `.get`; other non-iterables raise
   * a TypeError.
   */
  function BucketEntries(bucket: Value): (r: Result<seq<Value>, PyError>)
    ensures bucket.PyList? ==> r == Ok(bucket.items)
    ensures r.Ok? ==> bucket.PyList? || !Truthy(bucket)
  {
    match bucket
    case PyList(items) => Ok(items)
    case PyDict(m) => if m == map[] then Ok([]) else Err(AttributeError)
    case PyStr(s) => if s == "" then Ok([]) else Err(AttributeError)
    case _ => Err(TypeError)
  }

  /** The `client` block of a normalised job. */
  datatype Client = Client(paymentVerified: Value, pastHires: Value, country: Value)

  /** A normalised job, the dictionary `extract_jobs_from_payload` appends. */
  datatype JobCard = JobCard(
    jobId: string, keyword: string, title: Value, description: Value, skills: seq<Value>,
    postedTime: string, category: Value, budget: Dict, client: Client,
    proposals: Value, connectsNeeded: Value, url: Value)

  /** The `client` block, from `entry.get("client") or {}`; a truthy non-dict has no `.get`. */
  function ClientBlock(entry: Dict): (r: Result<Client, PyError>)
    ensures r.Ok? <==> !Truthy(Get(entry, "client", PyNone)) || Get(entry, "client", PyNone).PyDict?
    ensures r.Err? ==> r.error == AttributeError
  {
    var client := Or(Get(entry, "client", PyNone), PyDict(map[]));
    if !client.PyDict? then Err(AttributeError)
    else
      var c := client.fields;
      Ok(Client(
        Or(Get(c, "payment_verification_status", PyNone), Get(c, "payment_verified", PyNone)),
        Or(Get(c, "past_hires", PyNone), Get(c, "total_posted_jobs", PyNone)),
        Or(Get(c, "location", PyNone), Get(c, "country", PyNone))))
  }

  /** The record built from a dictionary entry once its timestamp and client block are known. */
  function CardOf(e: Dict, keyword: string, posted: string, client: Client): JobCard {
    JobCard(
      ToStr(EntryJobId(e)), keyword,
      Get(e, "title", PyStr("")),
      Or(Get(e, "snippet", PyNone), Get(e, "description", PyStr(""))),
      SafeList(Get(e, "skills", PyNone)),
      posted,
      FirstTruthy(e, ["category2", "subcategory2"], Get(e, "category", PyNone)),
      ParseBudget(e),
      client,
      Or(Get(e, "proposals", PyNone), Get(e, "num_proposals", PyNone)),
      Or(Get(e, "connects", PyNone), Get(e, "connects_required", PyNone)),
      Or(Get(e, "url", PyNone), Get(e, "link", PyNone)))
  }

  /**
   * One entry of the loop: a non-dictionary raises; an entry without an id
   * is skipped; the timestamp is rendered before the client block is read,
   * and either may raise; otherwise the normalised record, whose id is the
   * string form of the first truthy id field and is never empty.
   */
  function NormalizeEntry(entry: Value, keyword: string, fromTimestamp: real -> Option<string>)
    : Result<Option<JobCard>, PyError>
  {
    if !entry.PyDict? then Err(AttributeError)
    else
      var e := entry.fields;
      if !Truthy(EntryJobId(e)) then Ok(None)
      else
        match ParsePostedTime(e, fromTimestamp)
        case Err(err) => Err(err)
        case Ok(posted) =>
          match ClientBlock(e)
          case Err(err) => Err(err)
          case Ok(client) => Ok(Some(CardOf(e, keyword, posted, client)))
  }

  /**
   * A dictionary entry is skipped exactly when no id field is truthy; a
   * record that comes out has the string form of the first truthy id field,
   * which is never empty, and the keyword it was searched under.
   */
  lemma NormalizeEntryId(entry: Value, keyword: string, fromTimestamp: real -> Option<string>)
    ensures entry.PyDict? ==>
            (NormalizeEntry(entry, keyword, fromTimestamp) == Ok(None) <==> !Truthy(EntryJobId(entry.fields)))
    ensures var r := NormalizeEntry(entry, keyword, fromTimestamp);
            r.Ok? && r.value.Some? ==>
            && r.value.value.jobId == ToStr(EntryJobId(entry.fields))
            && r.value.value.jobId != "" && r.value.value.keyword == keyword
  {
    var r := NormalizeEntry(entry, keyword, fromTimestamp);
    if r.Ok? && r.value.Some? {
      var e := entry.fields;
      assert Truthy(EntryJobId(e));
      assert EntryJobId(e) != PyStr("");
    }
  }

  /** `[x]` for `Some(x)`, `[]` for None. */
  function AsSeq<T>(o: Option<T>): (r: seq<T>)
    ensures |r| <= 1
  {
    if o.Some? then [o.value] else []
  }

  /**
   * A loop that collects the values of its steps in order, skips the steps
   * that give nothing, and ends with the first error.
   */
  function Collect<T>(steps: seq<Result<Option<T>, PyError>>): (r: Result<seq<T>, PyError>)
    ensures r.Ok? ==> |r.value| <= |steps| && forall x :: x in r.value ==> Ok(Some(x)) in steps
    ensures r.Ok? <==> forall i :: 0 <= i < |steps| ==> steps[i].Ok?
    decreases |steps|
  {
    if steps == [] then Ok([])
    else
      match steps[0]
      case Err(e) => Err(e)
      case Ok(first) =>
        var rest := Collect(steps[1..]);
        assert forall i :: 1 <= i < |steps| ==> steps[i] == steps[1..][i - 1];
        match rest
        case Err(e) => Err(e)
        case Ok(xs) =>
          assert forall x :: x in xs ==> Ok(Some(x)) in steps[1..];
          Ok(AsSeq(first) + xs)
  }

  /**
   * Collecting over a concatenation is collecting over each part: the
   * values keep the order of their steps, and the first error wins.
   */
  lemma {:induction false} CollectAppend<T>(a: seq<Result<Option<T>, PyError>>, b: seq<Result<Option<T>, PyError>>)
    ensures Collect(a + b) ==
            match Collect(a)
            case Err(e) => Err(e)
            case Ok(xa) =>
              match Collect(b)
              case Err(e) => Err(e)
              case Ok(xb) => Ok(xa + xb)
    decreases |a|
  {
    if a == [] {
      assert a + b == b;
      if Collect(b).Ok? {
        assert [] + Collect(b).value == Collect(b).value;
      }
    } else {
      assert (a + b)[0] == a[0];
      assert (a + b)[1..] == a[1..] + b;
      CollectAppend(a[1..], b);
      if a[0].Ok? && Collect(a[1..]).Ok? && Collect(b).Ok? {
        var head := AsSeq(a[0].value);
        var xa := Collect(a[1..]).value;
        var xb := Collect(b).value;
        assert Collect(a + b) == Ok(head + (xa + xb));
        assert head + (xa + xb) == (head + xa) + xb;
      }
    }
  }

  /** Cutting a sequence after its element `i`. */
  lemma SliceSnoc<T>(s: seq<T>, i: nat)
    requires i < |s|
    ensures s[..i + 1] == s[..i] + [s[i]]
    ensures s == s[..i + 1] + s[i + 1..]
  {
  }

  /** Collecting one step. */
  lemma CollectOne<T>(step: Result<Option<T>, PyError>)
    ensures Collect([step]) == if step.Err? then Err(step.error) else Ok(AsSeq(step.value))
  {
    assert [step][1..] == [];
    if step.Ok? {
      assert AsSeq(step.value) + [] == AsSeq(step.value);
    }
  }

  /** The step of the entry loop for each entry. */
  function EntrySteps(entries: seq<Value>, keyword: string, fromTimestamp: real -> Option<string>)
    : (r: seq<Result<Option<JobCard>, PyError>>)
    ensures |r| == |entries|
    ensures forall i :: 0 <= i < |entries| ==> r[i] == NormalizeEntry(entries[i], keyword, fromTimestamp)
  {
    seq(|entries|, i requires 0 <= i < |entries| => NormalizeEntry(entries[i], keyword, fromTimestamp))
  }

  /**
   * The entry loop: the records in order, or the first error raised. It
   * succeeds exactly when every entry is a dictionary whose normalisation
   * does not raise, and every record it returns carries the keyword.
   */
  function NormalizeEntries(entries: seq<Value>, keyword: string, fromTimestamp: real -> Option<string>)
    : Result<seq<JobCard>, PyError>
  {
    Collect(EntrySteps(entries, keyword, fromTimestamp))
  }

  /**
   * The entry loop gives at most one record per entry, each carrying the
   * keyword and a non-empty id, and it succeeds only when every entry is a
   * dictionary.
   */
  lemma NormalizeEntriesSpec(entries: seq<Value>, keyword: string, fromTimestamp: real -> Option<string>)
    ensures var r := NormalizeEntries(entries, keyword, fromTimestamp);
            r.Ok? ==> |r.value| <= |entries|
    ensures var r := NormalizeEntries(entries, keyword, fromTimestamp);
            r.Ok? ==> forall card :: card in r.value ==> card.keyword == keyword && card.jobId != ""
    ensures var r := NormalizeEntries(entries, keyword, fromTimestamp);
            r.Ok? ==> forall i :: 0 <= i < |entries| ==> entries[i].PyDict?
  {
    var steps := EntrySteps(entries, keyword, fromTimestamp);
    var r := Collect(steps);
    if r.Ok? {
      forall card | card in r.value ensures card.keyword == keyword && card.jobId != "" {
        assert Ok(Some(card)) in steps;
        var i :| 0 <= i < |steps| && steps[i] == Ok(Some(card));
        NormalizeEntryId(entries[i], keyword, fromTimestamp);
      }
      forall i | 0 <= i < |entries| ensures entries[i].PyDict? {
        assert steps[i].Ok?;
      }
    }
  }

  /**
   * Normalising a concatenation is normalising each part: the records keep
   * the order of their entries, and the first entry that raises decides.
   */
  lemma NormalizeEntriesAppend(a: seq<Value>, b: seq<Value>, keyword: string, fromTimestamp: real -> Option<string>)
    ensures NormalizeEntries(a + b, keyword, fromTimestamp) ==
            match NormalizeEntries(a, keyword, fromTimestamp)
            case Err(e) => Err(e)
            case Ok(ra) =>
              match NormalizeEntries(b, keyword, fromTimestamp)
              case Err(e) => Err(e)
              case Ok(rb) => Ok(ra + rb)
  {
    var sa := EntrySteps(a, keyword, fromTimestamp);
    var sb := EntrySteps(b, keyword, fromTimestamp);
    var sab := EntrySteps(a + b, keyword, fromTimestamp);
    assert sab == sa + sb by {
      forall i | 0 <= i < |sab| ensures sab[i] == (sa + sb)[i] {
        if i < |a| {
          assert (a + b)[i] == a[i];
        } else {
          assert (a + b)[i] == b[i - |a|];
        }
      }
    }
    CollectAppend(sa, sb);
  }

  /** `extract_jobs_from_payload`, as a value: a falsy payload gives no jobs. */
  function ExtractJobs(payload: Value, keyword: string, fromTimestamp: real -> Option<string>)
    : (r: Result<seq<JobCard>, PyError>)
    ensures !Truthy(payload) ==> r == Ok([])
  {
    if !Truthy(payload) then Ok([])
    else
      match Bucket(payload)
      case Err(e) => Err(e)
      case Ok(bucket) =>
        match BucketEntries(bucket)
        case Err(e) => Err(e)
        case Ok(entries) => NormalizeEntries(entries, keyword, fromTimestamp)
  }

  /**
   * `extract_jobs_from_payload`: a falsy payload gives no jobs; otherwise
   * the bucket is chosen and its entries are normalised in order.
   */
  method ExtractJobsFromPayload(payload: Value, keyword: string, fromTimestamp: real -> Option<string>)
    returns (r: Result<seq<JobCard>, PyError>)
    ensures r == ExtractJobs(payload, keyword, fromTimestamp)
  {
    if !Truthy(payload) {
      return Ok([]);
    }
    var bucket := Bucket(payload);
    if bucket.Err? {
      return Err(bucket.error);
    }
    var listed := BucketEntries(bucket.value);
    if listed.Err? {
      return Err(listed.error);
    }
    r := NormalizeAll(listed.value, keyword, fromTimestamp);
  }

  /**
   * The entry loop of `extract_jobs_from_payload`: each normalised record is
   * appended to `jobs`, entries without an id are skipped, and the first
   * entry that raises ends the call with that error.
   */
  method NormalizeAll(entries: seq<Value>, keyword: string, fromTimestamp: real -> Option<string>)
    returns (r: Result<seq<JobCard>, PyError>)
    ensures r == NormalizeEntries(entries, keyword, fromTimestamp)
  {
    ghost var steps := EntrySteps(entries, keyword, fromTimestamp);
    var jobs: seq<JobCard> := [];
    var i := 0;
    while i < |entries|
      invariant 0 <= i <= |entries|
      invariant Collect(steps[..i]) == Ok(jobs)
    {
      var normalized := NormalizeEntry(entries[i], keyword, fromTimestamp);
      assert normalized == steps[i];
      SliceSnoc(steps, i);
      CollectAppend(steps[..i], [normalized]);
      CollectOne(normalized);
      if normalized.Err? {
        CollectAppend(steps[..i + 1], steps[i + 1..]);
        SliceSnoc(steps, i);
        return Err(normalized.error);
      }
      jobs := jobs + AsSeq(normalized.value);
      i := i + 1;
    }
    assert steps[..i] == steps;
    r := Ok(jobs);
  }

  /** The bucket priority: `results` wins over `jobs`, which wins over `searchResults`. */
  lemma BucketPriority(results: seq<Value>, jobs: seq<Value>, search: Value)
    ensures Bucket(PyDict(map["results" := PyList(results), "jobs" := PyList(jobs), "searchResults" := search]))
            == Ok(PyList(results))
    ensures Bucket(PyDict(map["results" := PyNone, "jobs" := PyList(jobs), "searchResults" := search]))
            == Ok(PyList(jobs))
    ensures Bucket(PyDict(map["searchResults" := PyDict(map["jobs" := PyDict(map["results" := PyList(jobs)])])]))
            == Ok(PyList(jobs))
  {
  }
}
