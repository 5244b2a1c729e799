/**
 * The feed and JSON-API crawler: content-derived job ids, loose budget and
 * proposal-count parsing, the field-name fallbacks of the normaliser, and the
 * per-source loops that filter against, and insert into, the set of job ids
 * already stored.
 */
module MultiSource {
  import opened Wrappers
  import opened Strings
  import opened Casing
  import opened PyValues

  /** An md5 hex digest. */
  type Digest = s: string | |s| == 32 witness "00000000000000000000000000000000"

  // ---------------------------------------------------------------- job ids

  /** The text that is hashed for an id: `f"{source}_{title}_{link}"`. */
  function IdKey(title: Value, link: Value, source: string): string {
    source + "_" + ToStr(title) + "_" + ToStr(link)
  }

  /** `generate_job_id`: the first twelve characters of the md5 hex digest of the id key. */
  function GenerateJobId(md5: string -> Digest, title: Value, link: Value, source: string): (id: string)
    ensures |id| == 12
    ensures StartsWith(md5(IdKey(title, link, source)), id)
  {
    md5(IdKey(title, link, source))[..12]
  }

  /**
   * The separator `_` is not escaped in the id key, so two different
   * (source, title, link) triples can share a key, and then an id, whatever
   * the hash function is.
   */
  lemma SeparatorCollision(md5: string -> Digest)
    ensures IdKey(PyStr("c"), PyStr("l"), "a_b") == IdKey(PyStr("b_c"), PyStr("l"), "a")
    ensures GenerateJobId(md5, PyStr("c"), PyStr("l"), "a_b") == GenerateJobId(md5, PyStr("b_c"), PyStr("l"), "a")
  {
    assert IdKey(PyStr("c"), PyStr("l"), "a_b") == "a_b_c_l";
    assert IdKey(PyStr("b_c"), PyStr("l"), "a") == "a_b_c_l";
  }

  // ---------------------------------------------------------------- parse_budget

  /** Length of the run of ASCII digits at the start of `s` (`\d+` taken greedily). */
  function DigitRun(s: string): (n: nat)
    ensures n <= |s| && AllDigits(s[..n])
    ensures n == |s| || !IsDigit(s[n])
  {
    if |s| > 0 && IsDigit(s[0]) then
      var n := 1 + DigitRun(s[1..]);
      assert s[..n] == [s[0]] + s[1..][..n - 1];
      n
    else 0
  }

  /** A thousands group `,ddd`. */
  predicate IsGroup(s: string) {
    |s| >= 4 && s[0] == ',' && IsDigit(s[1]) && IsDigit(s[2]) && IsDigit(s[3])
  }

  /** A text made of thousands groups only. */
  ghost predicate IsGroups(g: string)
    decreases |g|
  {
    g == "" || (|g| >= 4 && IsGroup(g[..4]) && IsGroups(g[4..]))
  }

  /** Empty, or cents `.dd`. */
  predicate IsCents(c: string) {
    c == "" || (|c| == 3 && c[0] == '.' && IsDigit(c[1]) && IsDigit(c[2]))
  }

  /** Length matched by `(?:,\d{3})*` at the start of `s`, taken greedily. */
  function GroupsRun(s: string): (n: nat)
    ensures n <= |s| && IsGroups(s[..n])
  {
    if IsGroup(s) then
      var n := 4 + GroupsRun(s[4..]);
      assert s[..n][..4] == s[..4] && s[..n][4..] == s[4..][..n - 4];
      n
    else 0
  }

  /** Length matched by `(?:\.\d{2})?` at the start of `s`. */
  function CentsRun(s: string): (n: nat)
    ensures n <= |s| && IsCents(s[..n])
  {
    if |s| >= 3 && s[0] == '.' && IsDigit(s[1]) && IsDigit(s[2]) then 3 else 0
  }

  /** An amount: digits, then thousands groups, then optional cents. */
  ghost predicate IsAmount(a: string) {
    exists d, g | 1 <= d <= g <= |a| :: AllDigits(a[..d]) && IsGroups(a[d..g]) && IsCents(a[g..])
  }

  /** The amount `\d+(?:,\d{3})*(?:\.\d{2})?` matched at the start of `s`. */
  function AmountAt(s: string): (a: string)
    requires |s| > 0 && IsDigit(s[0])
    ensures IsAmount(a) && StartsWith(s, a)
  {
    var d := DigitRun(s);
    var g := d + GroupsRun(s[d..]);
    var c := g + CentsRun(s[g..]);
    var a := s[..c];
    assert a[..d] == s[..d] && a[d..g] == s[d..][..g - d] && a[g..] == s[g..][..c - g];
    a
  }

  /** The first index from `i` on whose flag is set: where the leftmost scan of `re.search` stops. */
  function FirstTrue(flags: seq<bool>, i: nat): (r: Option<nat>)
    requires i <= |flags|
    ensures r.Some? ==> i <= r.value < |flags| && flags[r.value]
    ensures r.Some? ==> forall j :: i <= j < r.value ==> !flags[j]
    ensures r.None? ==> forall j :: i <= j < |flags| ==> !flags[j]
    decreases |flags| - i
  {
    if i == |flags| then None
    else if flags[i] then Some(i)
    else FirstTrue(flags, i + 1)
  }

  /** A `$` at index `i` followed by a digit: where `\$(\d...)` can match. */
  predicate BudgetAt(text: string, i: int) {
    0 <= i && i + 1 < |text| && text[i] == '$' && IsDigit(text[i + 1])
  }

  /** Where the budget pattern can match, index by index. */
  function BudgetFlags(text: string): (r: seq<bool>)
    ensures |r| == |text| && forall j :: 0 <= j < |text| ==> r[j] == BudgetAt(text, j)
  {
    seq(|text|, j requires 0 <= j < |text| => BudgetAt(text, j))
  }

  /**
   * `parse_budget`: the amount after the leftmost `$` that is followed by a
   * digit, without the `$`; None when no `$` is followed by a digit.
   */
  function ParseBudget(text: string): Option<string> {
    match FirstTrue(BudgetFlags(text), 0)
    case None => None
    case Some(i) => Some(AmountAt(text[i + 1..]))
  }

  /** The budget is None exactly when no `$` is followed by a digit, else the amount after the leftmost `$` at index `i`. */
  lemma ParseBudgetSpec(text: string) returns (i: int)
    ensures ParseBudget(text).None? <==> forall k :: 0 <= k < |text| ==> !BudgetAt(text, k)
    ensures ParseBudget(text).Some? ==>
            && IsAmount(ParseBudget(text).value)
            && BudgetAt(text, i) && (forall j :: 0 <= j < i ==> !BudgetAt(text, j))
            && StartsWith(text[i + 1..], ParseBudget(text).value) && ParseBudget(text).value == AmountAt(text[i + 1..])
  {
    var found := FirstTrue(BudgetFlags(text), 0);
    i := if found.Some? then found.value else 0;
  }

  const BudgetExampleText := "Pay $1,250.00 now"

  lemma BudgetExampleAmount()
    ensures AmountAt("1,250.00 now") == "1,250.00"
  {
    var s := "1,250.00 now";
    assert DigitRun(s) == 1;
    assert s[1..] == ",250.00 now";
    assert GroupsRun(",250.00 now") == 4 by {
      assert GroupsRun(".00 now") == 0;
    }
    assert s[5..] == ".00 now";
    assert CentsRun(".00 now") == 3;
    assert s[..8] == "1,250.00";
  }

  /** The worked example: thousands separator and cents are kept, the `$` is dropped. */
  lemma ParseBudgetExample()
    ensures ParseBudget(BudgetExampleText) == Some("1,250.00")
  {
    var t := BudgetExampleText;
    var flags := BudgetFlags(t);
    assert !flags[0] && !flags[1] && !flags[2] && !flags[3] && flags[4];
    assert FirstTrue(flags, 0) == Some(4);
    BudgetExampleAmount();
    assert t[5..] == "1,250.00 now";
  }

  // ---------------------------------------------------------------- parse_proposals

  /** `s` starts with the lower-case ASCII word `word`, ignoring case. */
  predicate StartsWithIgnoreCase(s: string, word: string) {
    |word| <= |s| && Lower(s[..|word|]) == word
  }

  /** `(?:proposal|bid|applicant)` under IGNORECASE, at the start of `s`. */
  predicate CountWordAt(s: string) {
    StartsWithIgnoreCase(s, "proposal") || StartsWithIgnoreCase(s, "bid") || StartsWithIgnoreCase(s, "applicant")
  }

  /**
   * The digits captured by `(\d+)\s*(?:proposal|bid|applicant)` when it
   * matches at the start of `s`. Backtracking cannot help: fewer digits or
   * fewer spaces would leave a digit or a space where the word must start.
   */
  function ProposalsMatch(s: string): Option<string> {
    var d := DigitRun(s);
    if d == 0 then None
    else if CountWordAt(s[d + SpaceRun(s[d..])..]) then Some(s[..d])
    else None
  }

  /** A match is a non-empty run of digits that `s` starts with, followed by optional whitespace and the word. */
  lemma ProposalsMatchSpec(s: string)
    ensures var r := ProposalsMatch(s);
            r.Some? ==> |r.value| > 0 && AllDigits(r.value) && StartsWith(s, r.value)
    ensures var r := ProposalsMatch(s);
            r.Some? ==> CountWordAt(s[|r.value| + SpaceRun(s[|r.value|..])..])
  {
    var d := DigitRun(s);
    if ProposalsMatch(s).Some? {
      assert ProposalsMatch(s).value == s[..d] && |s[..d]| == d;
    }
  }

  predicate ProposalsAt(text: string, i: int) {
    0 <= i < |text| && ProposalsMatch(text[i..]).Some?
  }

  /** Where the proposals pattern can match, index by index. */
  function ProposalsFlags(text: string): (r: seq<bool>)
    ensures |r| == |text| && forall j :: 0 <= j < |text| ==> r[j] == ProposalsAt(text, j)
  {
    seq(|text|, j requires 0 <= j < |text| => ProposalsAt(text, j))
  }

  /**
   * `parse_proposals`: the number written right before (with optional
   * whitespace) the leftmost "proposal", "bid" or "applicant", in any case.
   */
  function ParseProposals(text: string): Option<nat> {
    match FirstTrue(ProposalsFlags(text), 0)
    case None => None
    case Some(i) => Some(DecimalValue(ProposalsMatch(text[i..]).value))
  }

  /** None exactly when the pattern matches nowhere, else the number matched at the leftmost index `i`. */
  lemma ParseProposalsSpec(text: string) returns (i: int)
    ensures ParseProposals(text).None? <==> forall k :: 0 <= k < |text| ==> !ProposalsAt(text, k)
    ensures ParseProposals(text).Some? ==>
            && ProposalsAt(text, i) && (forall j :: 0 <= j < i ==> !ProposalsAt(text, j))
            && ParseProposals(text).value == DecimalValue(ProposalsMatch(text[i..]).value)
  {
    var found := FirstTrue(ProposalsFlags(text), 0);
    i := if found.Some? then found.value else 0;
  }

  /** The number before the word, whatever the word's case. */
  lemma ParseProposalsExample()
    ensures ParseProposals("3 Bids") == Some(3)
  {
    var t := "3 Bids";
    assert DigitRun(t) == 1;
    assert SpaceRun(t[1..]) == 1;
    assert t[2..] == "Bids" && "Bids"[..3] == "Bid";
    assert Lower("Bid") == "bid";
    assert CountWordAt(t[2..]);
    assert t[..1] == "3";
    assert ProposalsMatch(t) == Some("3");
    assert t[0..] == t;
    assert DecimalValue("3") == 3;
  }

  // ---------------------------------------------------------------- normalize_job

  /** A normalised job record, the line written to the record store. */
  datatype JobRecord = JobRecord(
    jobId: string,
    title: Value,
    description: string,
    link: Value,
    budget: Option<string>,
    proposals: Option<nat>,
    clientCountry: Value,
    category: string,
    source: string,
    sourceType: string,
    createdAt: Value,
    crawledAt: string)

  /**
   * What normalize_job reads besides its arguments: the configured
   * `search_keywords`, the md5 digest, the free-text location extractor
   * (the regex of the source, left abstract) and the current UTC time.
   */
  datatype Env = Env(
    keywords: seq<string>,
    md5: string -> Digest,
    extractLocation: string -> Option<string>,
    now: string)

  /** `entry.get('title', '')` */
  function EntryTitle(entry: Dict): Value {
    Get(entry, "title", PyStr(""))
  }

  /** `entry.get('link', entry.get('url', ''))` */
  function EntryLink(entry: Dict): Value {
    Get(entry, "link", Get(entry, "url", PyStr("")))
  }

  /** `entry.get('summary', entry.get('description', entry.get('content', '')))` */
  function EntryDescription(entry: Dict): Value {
    Get(entry, "summary", Get(entry, "description", Get(entry, "content", PyStr(""))))
  }

  /** The string `re.search` is applied to; anything else makes it raise TypeError. */
  function SearchText(v: Value): (r: Result<string, PyError>)
    ensures r.Ok? <==> v.PyStr?
    ensures r.Ok? ==> r.value == v.s
  {
    if v.PyStr? then Ok(v.s) else Err(TypeError)
  }

  /** The category test of one keyword, against the lower-cased description and title. */
  predicate CategoryMatch(keyword: string, descLower: string, titleLower: string) {
    Contains(descLower, Lower(keyword)) || Contains(titleLower, Lower(keyword))
  }

  /**
   * The category loop of normalize_job. The title is lower-cased only when
   * the description test of a keyword fails, and lower-casing a title that
   * is not a string raises AttributeError.
   */
  function FirstCategory(keywords: seq<string>, descLower: string, title: Value): (r: Result<string, PyError>)
    ensures title.PyStr? ==> r.Ok?
    ensures !title.PyStr? ==> (r.Err? <==> |keywords| > 0 && !Contains(descLower, Lower(keywords[0])))
  {
    if keywords == [] then Ok("General")
    else if Contains(descLower, Lower(keywords[0])) then Ok(keywords[0])
    else if !title.PyStr? then Err(AttributeError)
    else if Contains(Lower(title.s), Lower(keywords[0])) then Ok(keywords[0])
    else FirstCategory(keywords[1..], descLower, title)
  }

  /**
   * For a string title, the category is the first keyword, in list order,
   * found in the description or the title, and "General" when there is none:
   * `i` is the index of that keyword, or the length of the list.
   */
  lemma {:induction false} FirstCategoryIndex(keywords: seq<string>, descLower: string, title: Value) returns (i: nat)
    requires title.PyStr?
    ensures i <= |keywords|
    ensures forall j :: 0 <= j < i ==> !CategoryMatch(keywords[j], descLower, Lower(title.s))
    ensures i < |keywords| ==> CategoryMatch(keywords[i], descLower, Lower(title.s))
                               && FirstCategory(keywords, descLower, title) == Ok(keywords[i])
    ensures i == |keywords| ==> FirstCategory(keywords, descLower, title) == Ok("General")
    decreases |keywords|
  {
    if keywords == [] || CategoryMatch(keywords[0], descLower, Lower(title.s)) {
      i := 0;
    } else {
      var k := FirstCategoryIndex(keywords[1..], descLower, title);
      i := k + 1;
      forall j | 0 <= j < i ensures !CategoryMatch(keywords[j], descLower, Lower(title.s)) {
        if j > 0 {
          assert keywords[j] == keywords[1..][j - 1];
        }
      }
      if i < |keywords| {
        assert keywords[i] == keywords[1..][k];
      }
    }
  }

  /** `normalize_job`: one feed entry or API item as a job record, unless its id is already known. */
  function NormalizeJob(entry: Dict, sourceName: string, sourceType: string, existing: set<string>, env: Env)
    : Result<Option<JobRecord>, PyError>
  {
    var title := EntryTitle(entry);
    var link := EntryLink(entry);
    var description := EntryDescription(entry);
    var jobId := GenerateJobId(env.md5, title, link, sourceName);
    if jobId in existing then Ok(None)
    else
      match SearchText(Or(description, title))
      case Err(e) => Err(e)
      case Ok(text) =>
        var descText := if Truthy(description) then text else "";
        var location := Get(entry, "location", Get(entry, "where", PyStr("")));
        var located :=
          if Truthy(location) then location
          else match env.extractLocation(descText)
               case Some(found) => PyStr(found)
               case None => location;
        match FirstCategory(env.keywords, Lower(descText), title)
        case Err(e) => Err(e)
        case Ok(category) =>
          Ok(Some(JobRecord(
            jobId, title, descText, link, ParseBudget(text), ParseProposals(text),
            Or(located, PyStr("Unknown")), category, sourceName, sourceType,
            Get(entry, "published", Get(entry, "created_at", PyStr(env.now))), env.now)))
  }

  /**
   * `normalize_job`: None exactly when the computed id is already known;
   * otherwise the record carrying that id, the source name and type and the
   * fallback fields, or the TypeError/AttributeError an ill-typed field raises.
   */
  lemma NormalizeJobSpec(entry: Dict, sourceName: string, sourceType: string, existing: set<string>, env: Env)
    ensures var r := NormalizeJob(entry, sourceName, sourceType, existing, env);
            var id := GenerateJobId(env.md5, EntryTitle(entry), EntryLink(entry), sourceName);
            (r == Ok(None) <==> id in existing)
            && (r.Ok? && r.value.Some? ==> r.value.value.jobId == id && id !in existing)
    ensures var r := NormalizeJob(entry, sourceName, sourceType, existing, env);
            r.Err? <==>
            && GenerateJobId(env.md5, EntryTitle(entry), EntryLink(entry), sourceName) !in existing
            && (|| !Or(EntryDescription(entry), EntryTitle(entry)).PyStr?
                || (!EntryTitle(entry).PyStr? && |env.keywords| > 0
                    && !Contains(Lower(EntryDescription(entry).s), Lower(env.keywords[0]))))
    ensures var r := NormalizeJob(entry, sourceName, sourceType, existing, env);
            r.Ok? && r.value.Some? ==>
            var job := r.value.value;
            var description := EntryDescription(entry);
            var text := if Truthy(description) then description.s else EntryTitle(entry).s;
            && job.source == sourceName && job.sourceType == sourceType
            && job.title == EntryTitle(entry) && job.link == EntryLink(entry)
            && job.description == (if Truthy(description) then description.s else "")
            && job.budget == ParseBudget(text) && job.proposals == ParseProposals(text)
            && job.crawledAt == env.now
  {
  }

  /**
   * The location rule: an explicit `location` (else `where`) field wins, then
   * what the extractor finds in the description, then "Unknown".
   */
  lemma ClientCountryRule(entry: Dict, sourceName: string, sourceType: string, existing: set<string>, env: Env)
    requires NormalizeJob(entry, sourceName, sourceType, existing, env).Ok?
    requires NormalizeJob(entry, sourceName, sourceType, existing, env).value.Some?
    ensures var job := NormalizeJob(entry, sourceName, sourceType, existing, env).value.value;
            var location := Get(entry, "location", Get(entry, "where", PyStr("")));
            && (Truthy(location) ==> job.clientCountry == location)
            && (!Truthy(location) && env.extractLocation(job.description).None? ==> job.clientCountry == PyStr("Unknown"))
            && (!Truthy(location) && env.extractLocation(job.description).Some? && env.extractLocation(job.description).value != ""
                ==> job.clientCountry == PyStr(env.extractLocation(job.description).value))
  {
  }

  /**
   * The id depends on the title and the link only: two entries of one source
   * that agree on those get the same id, whatever else differs.
   */
  lemma IdIgnoresOtherFields(e1: Dict, e2: Dict, sourceName: string, sourceType: string, existing: set<string>, env: Env)
    requires EntryTitle(e1) == EntryTitle(e2) && EntryLink(e1) == EntryLink(e2)
    requires NormalizeJob(e1, sourceName, sourceType, existing, env).Ok?
    requires NormalizeJob(e1, sourceName, sourceType, existing, env).value.Some?
    ensures NormalizeJob(e2, sourceName, sourceType, existing, env).Ok?
            && NormalizeJob(e2, sourceName, sourceType, existing, env).value.Some?
            ==> NormalizeJob(e1, sourceName, sourceType, existing, env).value.value.jobId
                == NormalizeJob(e2, sourceName, sourceType, existing, env).value.value.jobId
    ensures NormalizeJob(e2, sourceName, sourceType, existing, env) != Ok(None)
  {
  }

  // ---------------------------------------------------------------- the crawl loops

  /** A configured source: its `enabled` flag (as truthiness), `name`, `url` and query `params`. */
  datatype SourceConfig = SourceConfig(enabled: bool, name: string, url: string, params: Dict)

  /** What `feedparser.parse(url)` gave: it raised, or a feed with an optional HTTP status and entries. */
  datatype FeedFetch = FeedRaised | Feed(status: Option<int>, entries: seq<Dict>)

  /** What `requests.get` gave: it raised, or a response whose body may not be JSON. */
  datatype ApiFetch = RequestRaised | Response(status: int, body: Option<Value>)

  /** `response.raise_for_status()` raises for 4xx and 5xx statuses. */
  predicate RaisesForStatus(status: int) {
    400 <= status < 600
  }

  /** `data if isinstance(data, list) else [data]` */
  function AsItems(data: Value): (items: seq<Value>)
    ensures data.PyList? ==> items == data.items
    ensures !data.PyList? ==> items == [data]
  {
    if data.PyList? then data.items else [data]
  }

  /** The entry that crawl_api_source builds from one API item; `item.get` on a non-dict raises. */
  function ApiEntry(item: Value): (r: Result<Dict, PyError>)
    ensures r.Ok? <==> item.PyDict?
    ensures r.Ok? ==> r.value.Keys == {"title", "link", "description", "location", "published"}
  {
    if !item.PyDict? then Err(AttributeError)
    else
      var m := item.fields;
      Ok(map[
        "title" := Get(m, "title", Get(m, "name", PyStr(""))),
        "link" := Get(m, "url", Get(m, "link", PyStr(""))),
        "description" := Get(m, "description", Get(m, "summary", PyStr(""))),
        "location" := Get(m, "location", PyStr("")),
        "published" := Get(m, "created_at", Get(m, "date", PyStr("")))])
  }

  /** The ids of a list of records. */
  function Ids(jobs: seq<JobRecord>): set<string> {
    set j | j in jobs :: j.jobId
  }

  predicate DistinctIds(jobs: seq<JobRecord>) {
    forall i, j :: 0 <= i < j < |jobs| ==> jobs[i].jobId != jobs[j].jobId
  }

  /**
   * The outcome of an entry loop: the jobs collected, the id set afterwards,
   * and whether an entry raised (the source's handler then returns []).
   */
  datatype Ingested = Ingested(jobs: seq<JobRecord>, ledger: set<string>, failed: bool)

  /**
   * The entry loop shared by crawl_rss_feed and crawl_api_source: each entry
   * is normalised against the current id set; an accepted job is collected
   * and its id inserted at once; the first entry that raises ends the loop.
   */
  function Ingest(entries: seq<Result<Dict, PyError>>, name: string, sourceType: string, ledger: set<string>, env: Env)
    : Ingested
    decreases |entries|
  {
    if entries == [] then Ingested([], ledger, false)
    else
      match entries[0]
      case Err(_) => Ingested([], ledger, true)
      case Ok(entry) =>
        match NormalizeJob(entry, name, sourceType, ledger, env)
        case Err(_) => Ingested([], ledger, true)
        case Ok(None) => Ingest(entries[1..], name, sourceType, ledger, env)
        case Ok(Some(job)) =>
          var rest := Ingest(entries[1..], name, sourceType, ledger + {job.jobId}, env);
          Ingested([job] + rest.jobs, rest.ledger, rest.failed)
  }

  /**
   * The dedup invariant of the entry loops: the id set only grows, it grows
   * by exactly the ids of the collected jobs, none of which was known
   * before, and no two collected jobs share an id.
   */
  lemma {:induction false} IngestLedger(entries: seq<Result<Dict, PyError>>, name: string, sourceType: string, ledger: set<string>, env: Env)
    ensures var r := Ingest(entries, name, sourceType, ledger, env);
            && ledger <= r.ledger
            && r.ledger == ledger + Ids(r.jobs)
            && (forall j :: j in r.jobs ==> j.jobId !in ledger)
            && DistinctIds(r.jobs)
            && (forall j :: j in r.jobs ==> j.source == name && j.sourceType == sourceType)
    decreases |entries|
  {
    if entries != [] && entries[0].Ok? {
      NormalizeJobSpec(entries[0].value, name, sourceType, ledger, env);
      match NormalizeJob(entries[0].value, name, sourceType, ledger, env)
      case Err(_) =>
      case Ok(None) =>
        IngestLedger(entries[1..], name, sourceType, ledger, env);
      case Ok(Some(job)) =>
        var grown := ledger + {job.jobId};
        IngestLedger(entries[1..], name, sourceType, grown, env);
        var rest := Ingest(entries[1..], name, sourceType, grown, env);
        ConsIds(job, rest.jobs, ledger);
    }
  }

  /** Putting a job whose id is new in front of a list keeps ids distinct and adds that id. */
  lemma ConsIds(job: JobRecord, jobs: seq<JobRecord>, ledger: set<string>)
    requires DistinctIds(jobs)
    requires forall j :: j in jobs ==> j.jobId !in ledger + {job.jobId}
    ensures DistinctIds([job] + jobs)
    ensures Ids([job] + jobs) == {job.jobId} + Ids(jobs)
  {
    var all := [job] + jobs;
    forall i, k | 0 <= i < k < |all| ensures all[i].jobId != all[k].jobId {
      if i == 0 {
        assert all[k] in jobs;
      } else {
        assert all[i] == jobs[i - 1] && all[k] == jobs[k - 1];
      }
    }
  }

  /** Re-running the loop over the same entries once their ids are known collects nothing new. */
  lemma {:induction false} IngestIdempotent(entries: seq<Result<Dict, PyError>>, name: string, sourceType: string, ledger: set<string>, env: Env)
    ensures var first := Ingest(entries, name, sourceType, ledger, env);
            Ingest(entries, name, sourceType, first.ledger, env).jobs == []
    decreases |entries|
  {
    var first := Ingest(entries, name, sourceType, ledger, env);
    IngestKnown(entries, name, sourceType, ledger, first.ledger, env);
  }

  /**
   * Against the id set a first pass ended with, a second pass accepts
   * nothing: every entry that was accepted or skipped is known, and the
   * entry the first pass stopped at raises again.
   */
  lemma {:induction false} IngestKnown(entries: seq<Result<Dict, PyError>>, name: string, sourceType: string,
                                       ledger: set<string>, known: set<string>, env: Env)
    requires known == Ingest(entries, name, sourceType, ledger, env).ledger
    ensures Ingest(entries, name, sourceType, known, env).jobs == []
    decreases |entries|
  {
    if entries != [] && entries[0].Ok? {
      var entry := entries[0].value;
      var id := GenerateJobId(env.md5, EntryTitle(entry), EntryLink(entry), name);
      NormalizeJobSpec(entry, name, sourceType, ledger, env);
      NormalizeJobSpec(entry, name, sourceType, known, env);
      match NormalizeJob(entry, name, sourceType, ledger, env)
      case Err(_) =>
        assert known == ledger;
        assert NormalizeJob(entry, name, sourceType, known, env).Err?;
      case Ok(None) =>
        IngestLedger(entries[1..], name, sourceType, ledger, env);
        assert id in known;
        IngestKnown(entries[1..], name, sourceType, ledger, known, env);
      case Ok(Some(job)) =>
        var grown := ledger + {job.jobId};
        IngestLedger(entries[1..], name, sourceType, grown, env);
        assert id in known;
        IngestKnown(entries[1..], name, sourceType, grown, known, env);
    }
  }

  /** The feed entries, all of which are dictionaries. */
  function FeedEntries(entries: seq<Dict>): (r: seq<Result<Dict, PyError>>)
    ensures |r| == |entries| && forall i :: 0 <= i < |entries| ==> r[i] == Ok(entries[i])
  {
    if entries == [] then [] else [Ok(entries[0])] + FeedEntries(entries[1..])
  }

  /** The API items, each mapped to its entry. */
  function ApiEntries(items: seq<Value>): (r: seq<Result<Dict, PyError>>)
    ensures |r| == |items| && forall i :: 0 <= i < |items| ==> r[i] == ApiEntry(items[i])
  {
    if items == [] then [] else [ApiEntry(items[0])] + ApiEntries(items[1..])
  }

  /** A feed that reaches the entry loop: status 200 and at least one entry. */
  predicate FeedHasEntries(feed: FeedFetch) {
    feed.Feed? && feed.status == Some(200) && feed.entries != []
  }

  /** A response that reaches the entry loop: no raise for status and a JSON body. */
  predicate ResponseHasBody(response: ApiFetch) {
    response.Response? && !RaisesForStatus(response.status) && response.body.Some?
  }

  /**
   * The entry loop shared by crawl_rss_feed and crawl_api_source, step by
   * step: each entry is normalised against the ids known so far, an accepted
   * job is collected and its id inserted, and the first entry that raises
   * ends the loop.
   */
  method IngestEntries(entries: seq<Result<Dict, PyError>>, name: string, sourceType: string, known: set<string>, env: Env)
    returns (jobs: seq<JobRecord>, ledger: set<string>, raised: bool)
    ensures Ingested(jobs, ledger, raised) == Ingest(entries, name, sourceType, known, env)
  {
    jobs, ledger, raised := [], known, false;
    var i := 0;
    while i < |entries| && !raised
      invariant 0 <= i <= |entries|
      invariant var total := Ingest(entries, name, sourceType, known, env);
                var rest := Ingest(entries[i..], name, sourceType, ledger, env);
                if raised then total == Ingested(jobs, ledger, true)
                else total == Ingested(jobs + rest.jobs, rest.ledger, rest.failed)
    {
      ghost var before := ledger;
      assert entries[i..][0] == entries[i] && entries[i..][1..] == entries[i + 1..];
      if entries[i].Err? {
        raised := true;
      } else {
        var normalized := NormalizeJob(entries[i].value, name, sourceType, ledger, env);
        if normalized.Err? {
          raised := true;
        } else if normalized.value.Some? {
          var job := normalized.value.value;
          ghost var rest := Ingest(entries[i + 1..], name, sourceType, before + {job.jobId}, env);
          assert jobs + ([job] + rest.jobs) == (jobs + [job]) + rest.jobs;
          jobs := jobs + [job];
          ledger := ledger + {job.jobId};
        }
      }
      i := i + 1;
    }
    if !raised {
      assert entries[i..] == [];
    }
  }

  /**
   * The crawler of scripts/crawl_multi_source.py: the module-level set of
   * known job ids (loaded from the record store when the module starts) and
   * the URLs it has fetched.
   */
  class MultiSourceCrawler {
    var existingJobIds: set<string>
    var fetched: seq<string>
    const env: Env

    constructor (loaded: set<string>, env: Env)
      ensures existingJobIds == loaded && fetched == [] && this.env == env
    {
      existingJobIds := loaded;
      fetched := [];
      this.env := env;
    }

    /**
     * The loop over entries against the set of known ids, stopping at the
     * first entry that raises; the ids inserted before a raise stay inserted.
     */
    method IngestAll(entries: seq<Result<Dict, PyError>>, name: string, sourceType: string) returns (jobs: seq<JobRecord>, raised: bool)
      modifies this`existingJobIds
      ensures var r := Ingest(entries, name, sourceType, old(existingJobIds), env);
              jobs == r.jobs && raised == r.failed && existingJobIds == r.ledger
    {
      var ledger;
      jobs, ledger, raised := IngestEntries(entries, name, sourceType, existingJobIds, env);
      existingJobIds := ledger;
    }

    /**
     * `crawl_rss_feed`: a disabled source returns [] without fetching; a feed
     * that raised, whose status is not 200 or that has no entries gives [];
     * otherwise the entry loop runs, and an entry that raises makes the whole
     * feed give [] while the ids inserted before it stay in the set.
     */
    method CrawlRssFeed(config: SourceConfig, feed: FeedFetch) returns (jobs: seq<JobRecord>)
      modifies this
      ensures !config.enabled ==> jobs == [] && existingJobIds == old(existingJobIds) && fetched == old(fetched)
      ensures config.enabled ==> fetched == old(fetched) + [config.url]
      ensures !(config.enabled && FeedHasEntries(feed)) ==> jobs == [] && existingJobIds == old(existingJobIds)
      ensures config.enabled && FeedHasEntries(feed) ==>
              var r := Ingest(FeedEntries(feed.entries), config.name, "rss", old(existingJobIds), env);
              existingJobIds == r.ledger && jobs == (if r.failed then [] else r.jobs)
      ensures old(existingJobIds) <= existingJobIds
      ensures DistinctIds(jobs) && forall j :: j in jobs ==> j.jobId !in old(existingJobIds) && j.jobId in existingJobIds
    {
      jobs := [];
      if !config.enabled {
        return;
      }
      fetched := fetched + [config.url];
      if !FeedHasEntries(feed) {
        return;
      }
      IngestLedger(FeedEntries(feed.entries), config.name, "rss", existingJobIds, env);
      var collected, raised := IngestAll(FeedEntries(feed.entries), config.name, "rss");
      if !raised {
        jobs := collected;
      }
    }

    /**
     * `crawl_api_source`: a disabled source returns [] without fetching; a
     * request that raised, a 4xx/5xx status or a non-JSON body gives []; a
     * body that is not a list is treated as a one-item list; an item that is
     * not a dictionary raises and makes the whole source give [].
     */
    method CrawlApiSource(config: SourceConfig, response: ApiFetch) returns (jobs: seq<JobRecord>)
      modifies this
      ensures !config.enabled ==> jobs == [] && existingJobIds == old(existingJobIds) && fetched == old(fetched)
      ensures config.enabled ==> fetched == old(fetched) + [config.url]
      ensures !(config.enabled && ResponseHasBody(response)) ==> jobs == [] && existingJobIds == old(existingJobIds)
      ensures config.enabled && ResponseHasBody(response) ==>
              var r := Ingest(ApiEntries(AsItems(response.body.value)), config.name, "api", old(existingJobIds), env);
              existingJobIds == r.ledger && jobs == (if r.failed then [] else r.jobs)
      ensures old(existingJobIds) <= existingJobIds
      ensures DistinctIds(jobs) && forall j :: j in jobs ==> j.jobId !in old(existingJobIds) && j.jobId in existingJobIds
    {
      jobs := [];
      if !config.enabled {
        return;
      }
      fetched := fetched + [config.url];
      if !ResponseHasBody(response) {
        return;
      }
      var entries := ApiEntries(AsItems(response.body.value));
      IngestLedger(entries, config.name, "api", existingJobIds, env);
      var collected, raised := IngestAll(entries, config.name, "api");
      if !raised {
        jobs := collected;
      }
    }
  }

}
