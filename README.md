# Upwork job sniper: a Dafny model of its crawling, validation and heuristics

The system collects freelance job postings from RSS feeds, JSON APIs and the
Upwork search endpoint, normalises them into one record shape, validates and
sanitises them, and annotates each with rule-based heuristics: scam flags, a
win-rate estimate, proposal strengths and customisation points, a category,
trend keywords, a 0–100 score, a client name, a job id read from a link, a
short summary and the most common technology keywords of a batch.

This project models that core in Dafny 4.11 and proves what it promises.

- **Python values.** `PyValues` models a decoded JSON value or feed entry: None, bool, int, float, str, list, dict. It defines the truthiness, `dict.get`, `or` and `str()` that the code relies on. `Strings`, `Casing` and `UrlEncode` model the string methods, the case mapping and the `urllib.parse` functions the core calls.
- **Multi-source crawler** (`MultiSource`, scripts/crawl_multi_source.py):
  - pure functions for the job id, `parse_budget`, `parse_proposals` and `normalize_job`;
  - a class `MultiSourceCrawler` whose `existingJobIds` set field is updated by the RSS and API entry loops.
- **Job-card normaliser** (`JobCards`, upwork_sniper/parse_job_cards.py):
  - functions for `_safe_list`, `_parse_budget` and `_parse_posted_time`;
  - a method with a loop for `extract_jobs_from_payload`, proved against the function `ExtractJobs`.
- **Upwork crawler** (`UpworkSniper`, upwork_sniper/upwork_crawler.py):
  - a class `UpworkCrawler` with the `seenIds` set, the trace of requests and delays, and the output store as fields;
  - its page, attempt and keyword loops are methods, proved against the trace-passing functions `PageAttempts`, `KeywordPages` and `KeywordsRun`;
  - HTTP replies come from an oracle indexed by the number of requests sent.
- **Validation** (`Validation`, utils/validation.py): `validate_job` and `sanitize_job` as methods, proved against the functions `Problems` and `Sanitize`.
- **Heuristics**, each loop a method proved against a function:
  - `QueryAi` (scripts/query_ai.py);
  - `Analyser` (ai/analyser.py);
  - `WriteProposal` (scripts/write_proposal.py, pure);
  - `Summarizer` (ai/summarizer.py).

Errors the source raises on ill-typed input are modelled with a `Result` type:

- `AttributeError` from `.lower()` or `.get` on a value without that method;
- `TypeError` from `re.search` on a non-string;
- `ValueError` from `int()` or `json()`.

## Model

| member | source | states |
|---|---|---|
| Validation.Messages | utils/validation.py:18-85 | one message per problem, in order, each the text `validate_job` appends for it |
| Validation.MissingFieldsIff | utils/validation.py:21-24 | the required-field loop reports `Missing(f)` exactly for the listed fields whose value is absent or falsy, and reports nothing else |
| Validation.TextCheck | utils/validation.py:32-37 | the `job_id`/`source` block reports nothing, "must be a string" or "cannot be empty", never more than one |
| Validation.TitleCheck | utils/validation.py:40-47 | the title block reports nothing, one type error, one blank error or one too-long error |
| Validation.DescriptionCheck | utils/validation.py:50-54 | the description block only ever reports a non-string, never its length |
| Validation.LinkCheck | utils/validation.py:57-62 | the link block reports nothing, a non-string or an invalid URL |
| Validation.BudgetCheck | utils/validation.py:73-76 | the budget block reports at most the one type error |
| Validation.ProposalsCheck | utils/validation.py:79-82 | the proposals block reports at most the one type error |
| Validation.TextCheckIff | utils/validation.py:32-37 | the `job_id`/`source` block is silent exactly when a truthy value is a string with non-whitespace text |
| Validation.TitleCheckIff | utils/validation.py:40-47 | the title block is silent exactly when a truthy title is a string with text and at most 500 characters |
| Validation.LinkCheckIff | utils/validation.py:57-62 | the link block is silent exactly when a truthy link is a string starting with `http://` or `https://` |
| Validation.RequiredIff | utils/validation.py:21-24 | no missing-field error exactly when `job_id`, `title` and `link` are all truthy |
| Validation.ValidIff | utils/validation.py:84-85 | a record is valid exactly when every field condition holds (`WellFormed`, stated field by field) |
| Validation.ProblemsIn | utils/validation.py:18-85 | a problem other than a missing field is reported exactly when one of the per-field checks reports it |
| Validation.FieldProblemsIn | utils/validation.py:31-82 | a per-field problem is reported exactly when one of the seven blocks reports it |
| Validation.FieldProblemsNoMissing | utils/validation.py:26-82 | no block after the required-field loop reports a missing field |
| Validation.MissingReported | utils/validation.py:21-29 | a required field is reported missing exactly when it is absent or falsy; a missing `source` is never reported |
| Validation.LinkReported | utils/validation.py:57-62 | a non-empty string link is reported invalid exactly when it is not an http(s) URL |
| Validation.InvalidUrlIn | utils/validation.py:61-62 | only the link block reports an invalid URL |
| Validation.LinkExamples | utils/validation.py:61-62 | `"not-a-url"` is reported invalid and `"https://example.com/job/1"` is accepted |
| Validation.BlankReported | utils/validation.py:33-45 | a whitespace-only `job_id` or `title` is reported as empty |
| Validation.LongTitleReported | utils/validation.py:46-47 | a title with text and more than 500 characters is reported too long, with its length |
| Validation.TypesReported | utils/validation.py:73-82 | a bad budget (not None, str, int or float) and bad proposals (not None, str or int) are reported exactly when present |
| Validation.BadBudgetIn | utils/validation.py:73-76 | only the budget block reports a bad budget |
| Validation.BadProposalsIn | utils/validation.py:79-82 | only the proposals block reports bad proposals |
| Validation.WithSource | utils/validation.py:99-101 | the source default adds at most the key `source` |
| Validation.Trim | utils/validation.py:106-107 | stripping keeps a string a string and leaves other values alone |
| Validation.UnknownStripped | utils/validation.py:101-107 | the default `'Unknown'` is unchanged by stripping |
| Validation.TrimField | utils/validation.py:106-107 | one trimming step keeps the keys |
| Validation.TrimFieldsEffect | utils/validation.py:104-107 | the trimming loop keeps every key, strips the string value of each listed field and leaves every other value alone |
| Validation.CapDescription | utils/validation.py:110-113 | the description cap keeps the keys |
| Validation.CapTitle | utils/validation.py:116-119 | the title cap keeps the keys |
| Validation.WithSourceAt | utils/validation.py:99-101 | the source default changes no other field |
| Validation.CapsAt | utils/validation.py:109-119 | the two caps change no field but the description and the title |
| Validation.TrimmedAt | utils/validation.py:104-107 | after trimming, a field other than `source` is stripped exactly when it is a listed string field |
| Validation.TrimmedSource | utils/validation.py:99-107 | after trimming, the source is the stripped input source, or `'Unknown'` when it was missing or falsy |
| Validation.SanitizeKeeps | utils/validation.py:97-121 | the sanitised keys are the input's plus `source`; every other listed string field is stripped and every other value kept |
| Validation.SanitizeSource | utils/validation.py:99-107 | a missing or falsy source becomes `'Unknown'`; a truthy source is stripped |
| Validation.CapsDescription | utils/validation.py:110-113 | a string description longer than 10000 characters becomes its first 10000 followed by `...` |
| Validation.CapsTitle | utils/validation.py:116-119 | a string title longer than 500 characters becomes its first 500 |
| Validation.SanitizeDescription | utils/validation.py:104-113 | a string description is stripped, then cut to 10000 characters plus `...` |
| Validation.SanitizeTitle | utils/validation.py:104-119 | a string title is stripped, then cut to 500 characters |
| Validation.SanitizeBounds | utils/validation.py:109-119 | after sanitising, a string description has at most 10003 characters and a string title at most 500 |
| Validation.ShortTitleFits | utils/validation.py:46-47 | a title of at most 500 characters is never reported too long |
| Validation.SanitizedTitleFits | utils/validation.py:46-47 | the output of `sanitize_job` never fails the title-length check of `validate_job` |
| Validation.FieldProblemsOf | utils/validation.py:31-82 | the blocks' errors, concatenated in source order, are the per-field problems |
| Validation.CheckText | utils/validation.py:32-37 | the `job_id`/`source` block appends exactly the problems `TextCheck` specifies |
| Validation.CheckTitle | utils/validation.py:40-47 | the title block appends exactly the problems `TitleCheck` specifies |
| Validation.CheckLink | utils/validation.py:57-62 | the link block appends exactly the problems `LinkCheck` specifies |
| Validation.CheckTypes | utils/validation.py:73-82 | the budget and proposals blocks append exactly their two checks' problems, in order |
| Validation.ValidateJob | utils/validation.py:8-85 | the errors are the messages of all problems in source order, and the record is valid exactly when there are none |
| Validation.TrimStringFields | utils/validation.py:104-107 | the trimming loop computes the trimming specification |
| Validation.CapLengths | utils/validation.py:109-119 | the two caps are applied description first, then title |
| Validation.SanitizeJob | utils/validation.py:87-121 | the sanitised copy is `Sanitize(d)`, whose keys, source, stripped fields and length bounds the lemmas above state |
| MultiSource.GenerateJobId | scripts/crawl_multi_source.py:39-43 | an id is the first twelve characters of the md5 hex digest of `"{source}_{title}_{link}"` |
| MultiSource.SeparatorCollision | scripts/crawl_multi_source.py:42-43 | the unescaped `_` lets two different (source, title, link) triples share an id, whatever the hash |
| MultiSource.DigitRun | scripts/crawl_multi_source.py:48-55 | the greedy `\d+` takes the whole leading run of ASCII digits |
| MultiSource.GroupsRun | scripts/crawl_multi_source.py:48 | the greedy `(?:,\d{3})*` takes a prefix made of thousands groups |
| MultiSource.CentsRun | scripts/crawl_multi_source.py:48 | `(?:\.\d{2})?` takes nothing or a cents suffix |
| MultiSource.AmountAt | scripts/crawl_multi_source.py:48 | the amount matched at a digit is digits, thousands groups and optional cents, and starts the text |
| MultiSource.FirstTrue | scripts/crawl_multi_source.py:48-55 | the leftmost scan stops at the first index where the pattern can match, and finds none exactly when it matches nowhere |
| MultiSource.BudgetFlags | scripts/crawl_multi_source.py:48 | the budget pattern can start at an index exactly when a `$` there is followed by a digit |
| MultiSource.ParseBudgetSpec | scripts/crawl_multi_source.py:45-51 | `parse_budget` is None exactly when no `$` is followed by a digit, else the amount after the leftmost such `$`, without it |
| MultiSource.BudgetExampleAmount | scripts/crawl_multi_source.py:48 | the amount of `"1,250.00 now"` is `"1,250.00"` |
| MultiSource.ParseBudgetExample | scripts/crawl_multi_source.py:45-51 | a budget written `$1,250.00` is read as `"1,250.00"`, separator and cents kept |
| MultiSource.ProposalsMatchSpec | scripts/crawl_multi_source.py:55 | a match at a position is a non-empty digit run followed by optional whitespace and "proposal", "bid" or "applicant" in any case |
| MultiSource.ProposalsFlags | scripts/crawl_multi_source.py:55 | the proposals pattern can start at an index exactly when it matches there |
| MultiSource.ParseProposalsSpec | scripts/crawl_multi_source.py:53-58 | `parse_proposals` is None exactly when the pattern matches nowhere, else the number at the leftmost match |
| MultiSource.ParseProposalsExample | scripts/crawl_multi_source.py:53-58 | `"3 Bids"` reads as 3 |
| MultiSource.SearchText | scripts/crawl_multi_source.py:72-73 | `re.search` accepts exactly a string and searches that string |
| MultiSource.FirstCategory | scripts/crawl_multi_source.py:84-89 | a string title never makes the category loop raise; a non-string one raises exactly when the first keyword is missing from the description |
| MultiSource.FirstCategoryIndex | scripts/crawl_multi_source.py:84-89 | for a string title, the category is the first keyword found in the description or the title, and "General" when there is none |
| MultiSource.NormalizeJobSpec | scripts/crawl_multi_source.py:60-106 | `normalize_job` is None exactly when the id is known; otherwise the record with that id, the source name and type, the fallback title, link and description, budget and proposals parsed from `description or title`; or the error an ill-typed field raises, exactly in the stated cases |
| MultiSource.ClientCountryRule | scripts/crawl_multi_source.py:76-99 | an explicit `location` (else `where`) wins, then what the extractor finds in the description, then "Unknown" |
| MultiSource.IdIgnoresOtherFields | scripts/crawl_multi_source.py:62-69 | the id depends on the title and the link only, so an entry agreeing with an accepted one on both is never skipped as an already known id unless that id is known |
| MultiSource.AsItems | scripts/crawl_multi_source.py:156-157 | a body that is not a list is treated as a one-item list |
| MultiSource.ApiEntry | scripts/crawl_multi_source.py:164-170 | an API item becomes an entry with the five keys exactly when it is a dictionary; `item.get` raises otherwise |
| MultiSource.IngestLedger | scripts/crawl_multi_source.py:130-175 | the id set only grows, by exactly the collected jobs' ids, none of them known before, no two collected jobs share an id, and each carries the source's name and type |
| MultiSource.ConsIds | scripts/crawl_multi_source.py:132-134 | adding a job with a new id keeps the ids distinct and adds that id |
| MultiSource.IngestIdempotent | scripts/crawl_multi_source.py:130-175 | running the loop again over the same entries after the first run collects nothing |
| MultiSource.IngestKnown | scripts/crawl_multi_source.py:130-175 | against the id set a first run ended with, a second run collects nothing, even when the first stopped at a raising entry |
| MultiSource.FeedEntries | scripts/crawl_multi_source.py:130 | every feed entry reaches the loop as it is |
| MultiSource.ApiEntries | scripts/crawl_multi_source.py:162-170 | each API item reaches the loop as its entry, in order |
| MultiSource.IngestEntries | scripts/crawl_multi_source.py:129-177 | the entry loop computes `Ingest`, whose invariant `IngestLedger` states |
| MultiSource.MultiSourceCrawler.constructor | scripts/crawl_multi_source.py:26-37 | the crawler starts with the ids loaded from earlier runs and no request made |
| MultiSource.MultiSourceCrawler.IngestAll | scripts/crawl_multi_source.py:129-177 | the loop over entries updates the crawler's id set to `Ingest`'s, keeping the ids inserted before a raise |
| MultiSource.MultiSourceCrawler.CrawlRssFeed | scripts/crawl_multi_source.py:108-140 | a disabled source gives [] without a fetch; a raised fetch, a status other than 200 or no entries give [] and change no id; otherwise the loop runs and a raising entry makes the feed give [] while earlier ids stay inserted; the returned jobs are new and distinct |
| MultiSource.MultiSourceCrawler.CrawlApiSource | scripts/crawl_multi_source.py:142-181 | a disabled source gives [] without a request; a raised request, a 4xx/5xx status or a non-JSON body give []; a non-list body is one item; a non-dictionary item makes the source give [] while earlier ids stay inserted; the returned jobs are new and distinct |
| JobCards.DictsOf | upwork_sniper/parse_job_cards.py:14 | the `isinstance(item, dict)` filter keeps only dictionaries of the list, no more than it has |
| JobCards.SkillNames | upwork_sniper/parse_job_cards.py:14 | one label per dictionary, `name` or else `skill`, in list order |
| JobCards.SafeList | upwork_sniper/parse_job_cards.py:9-16 | a falsy value gives []; a scalar gives its `str`; a list whose first item is a dictionary gives the labels of its dictionaries; any other list gives the `str` of each item |
| JobCards.ParseBudgetSpec | upwork_sniper/parse_job_cards.py:19-49 | a budget dictionary gives the keys type, budget and currency from their first truthy sources; another truthy budget is carried as it is; otherwise an hourly record or {}; without budget and amount the budget is None; {} exactly when no budget, a truthy non-dictionary `hourly` and no hourly rate |
| JobCards.ParsePostedTime | upwork_sniper/parse_job_cards.py:52-64 | a numeric timestamp is rendered, after dividing by 1000 above 10^12, or raises where `fromtimestamp` does; a string is returned as it is; anything else gives "" |
| JobCards.MillisecondsAsSeconds | upwork_sniper/parse_job_cards.py:60-61 | a millisecond stamp renders as the same instant in seconds |
| JobCards.Bucket | upwork_sniper/parse_job_cards.py:75-83 | `results` wins when it is a list, then `jobs`, then `searchResults.jobs.results`; a non-dictionary payload gives no entries; the only error is the AttributeError of a non-dictionary `jobs` block |
| JobCards.BucketEntries | upwork_sniper/parse_job_cards.py:85 | a list is iterated as it is; anything else that the loop gets through is falsy |
| JobCards.ClientBlock | upwork_sniper/parse_job_cards.py:90-105 | the client block is read exactly when `client` is falsy or a dictionary, and raises AttributeError otherwise |
| JobCards.NormalizeEntryId | upwork_sniper/parse_job_cards.py:86-94 | a dictionary entry is skipped exactly when none of `ciphertext`, `job_id`, `id`, `oid` is truthy; a record that comes out has the string form of the first truthy one, never empty, and the search keyword |
| JobCards.AsSeq | upwork_sniper/parse_job_cards.py:87-111 | a step adds at most one record |
| JobCards.Collect | upwork_sniper/parse_job_cards.py:85-113 | the loop succeeds exactly when no step raises, and then returns only records of its steps, at most one per step |
| JobCards.CollectAppend | upwork_sniper/parse_job_cards.py:85-113 | looping over a concatenation keeps the records in entry order, and the first error wins |
| JobCards.CollectOne | upwork_sniper/parse_job_cards.py:85-111 | one step gives its error, nothing, or its record |
| JobCards.EntrySteps | upwork_sniper/parse_job_cards.py:85-111 | the step of each entry is that entry's normalisation |
| JobCards.NormalizeEntriesSpec | upwork_sniper/parse_job_cards.py:85-113 | at most one record per entry, each with the keyword and a non-empty id, and success only when every entry is a dictionary |
| JobCards.NormalizeEntriesAppend | upwork_sniper/parse_job_cards.py:85-113 | normalising a concatenation is normalising each part, records in entry order, first error wins |
| JobCards.ExtractJobs | upwork_sniper/parse_job_cards.py:72-73 | a falsy payload gives no jobs |
| JobCards.ExtractJobsFromPayload | upwork_sniper/parse_job_cards.py:67-113 | the method computes `ExtractJobs`: the bucket is chosen, then its entries are normalised in order |
| JobCards.NormalizeAll | upwork_sniper/parse_job_cards.py:85-113 | the loop appends each record, skips entries without an id and stops at the first error, computing `NormalizeEntries` |
| JobCards.BucketPriority | upwork_sniper/parse_job_cards.py:77-83 | `results` wins over `jobs`, which wins over `searchResults` |
| UpworkSniper.Resolve | upwork_sniper/upwork_crawler.py:39-63 | an unset setting takes the source's default: interval 45 s, 3 attempts, backoff 20 s, 50 per page, sort "recency", the search API URL, 1 page, `data/upwork_jobs.jsonl`; the keywords are kept |
| UpworkSniper.BuildQueryUrlAsWritten | upwork_sniper/upwork_crawler.py:50-59 | the URL as written is the API URL, `?`, and the url-encoded parameters |
| UpworkSniper.BuildQueryUrl | upwork_sniper/upwork_crawler.py:50-59 | the corrected URL is the API URL, `?`, and the url-encoded parameters |
| UpworkSniper.DecimalIsAscii | upwork_sniper/upwork_crawler.py:51 | a rendered integer is ASCII |
| UpworkSniper.BuildQueryUrlReadsBack | upwork_sniper/upwork_crawler.py:50-59 | the query of the corrected URL decodes, in order, to the sort order, `offset;per_page` with offset `page * per_page`, the page size and the keyword |
| UpworkSniper.PagingDoubleEncoded | upwork_sniper/upwork_crawler.py:51-59 | the query as written decodes to a paging value holding the literal characters `%3B`, not `offset;per_page` |
| UpworkSniper.PagingEscapedTwice | upwork_sniper/upwork_crawler.py:51-59 | `urlencode` escapes the `%` of `0%3B50`, giving `0%253B50` |
| UpworkSniper.PagingEscapedOnce | upwork_sniper/upwork_crawler.py:51-59 | `urlencode` turns `0;50` into `0%3B50` |
| UpworkSniper.Settle | upwork_sniper/upwork_crawler.py:86-90 | a reply below 400 ends the page: a non-JSON body raises, otherwise the page has exactly the extracted jobs, or the extraction's error |
| UpworkSniper.PageAttemptsCount | upwork_sniper/upwork_crawler.py:67-92 | each page sends between 1 and `retry_attempts` requests, all for that page; one delay follows every request except the last, or every request when the attempts ran out, which happens only after all of them |
| UpworkSniper.PageAttemptsSleeps | upwork_sniper/upwork_crawler.py:76-84 | every delay follows a reply of status 400 or more, and is `backoff * attempt` after a 429 and `backoff` otherwise |
| UpworkSniper.PageAttemptsGot | upwork_sniper/upwork_crawler.py:86-90 | a page's jobs are those extracted from the body of its last reply, whose status was below 400 |
| UpworkSniper.Found | upwork_sniper/upwork_crawler.py:89-92 | a successful page contributes its jobs, an exhausted one none |
| UpworkSniper.PageOrderCons | upwork_sniper/upwork_crawler.py:65-67 | a block of at most `retry_attempts` requests of one page ahead of later pages keeps the page order |
| UpworkSniper.KeywordPagesGrows | upwork_sniper/upwork_crawler.py:61-94 | a keyword's requests and delays only add to what was there |
| UpworkSniper.KeywordPagesOrder | upwork_sniper/upwork_crawler.py:61-94 | every request of a keyword names it and a page below `max_pages`, pages never go back, and no page is requested more than `retry_attempts` times |
| UpworkSniper.KeywordPagesCover | upwork_sniper/upwork_crawler.py:63-67 | a keyword whose page loop ran to the end, with at least one attempt per page, asked for every page from the first up to `max_pages - 1` |
| UpworkSniper.KeywordPagesBound | upwork_sniper/upwork_crawler.py:65-67 | a keyword sends at most `max_pages * retry_attempts` requests |
| UpworkSniper.KeywordPagesKeeps | upwork_sniper/upwork_crawler.py:62-89 | a keyword's jobs extend those collected before it |
| UpworkSniper.Collected | upwork_sniper/upwork_crawler.py:122-126 | a keyword that timed out contributes no job |
| UpworkSniper.TimeoutIsolation | upwork_sniper/upwork_crawler.py:121-126 | a keyword that times out contributes nothing, and the keywords after it still run |
| UpworkSniper.MulSucc | upwork_sniper/upwork_crawler.py:65-67 | one more page adds at most `retry_attempts` requests to the bound |
| UpworkSniper.KeywordsRunGrows | upwork_sniper/upwork_crawler.py:120-126 | a run's requests and delays only grow, and jobs already collected stay at the front |
| UpworkSniper.KeywordsRunKeywords | upwork_sniper/upwork_crawler.py:121-123 | every request of a run names one of the configured keywords |
| UpworkSniper.KeywordsRunBound | upwork_sniper/upwork_crawler.py:121-123 | a run sends at most `max_pages * retry_attempts` requests per keyword |
| UpworkSniper.DistinctCons | upwork_sniper/upwork_crawler.py:135-138 | keeping a job whose id none of the later kept jobs has keeps ids distinct |
| UpworkSniper.DedupeLedger | upwork_sniper/upwork_crawler.py:131-139 | the kept jobs come from the input, have non-empty, previously unseen and distinct ids, and the seen set grows by exactly their ids |
| UpworkSniper.DedupeKnown | upwork_sniper/upwork_crawler.py:131-139 | against a seen set holding every id the first pass ended with, a second pass keeps nothing |
| UpworkSniper.DedupeAgain | upwork_sniper/upwork_crawler.py:131-139 | because the seen set lives on the crawler, de-duplicating the same jobs again keeps nothing |
| UpworkSniper.DedupeAppend | upwork_sniper/upwork_crawler.py:131-139 | de-duplication keeps input order: over a concatenation it is the first part's, then the rest's against the grown seen set |
| UpworkSniper.UpworkCrawler.constructor | upwork_sniper/upwork_crawler.py:23-42 | the crawler starts from the resolved settings with an empty seen set and nothing requested, slept or stored, parsing bodies with `extract_jobs_from_payload` |
| UpworkSniper.UpworkCrawler.FetchPage | upwork_sniper/upwork_crawler.py:67-92 | the attempt loop of one page records exactly the requests and delays `PageAttempts` specifies, whose counting rules the lemmas above state |
| UpworkSniper.UpworkCrawler.SettlePage | upwork_sniper/upwork_crawler.py:86-90 | a reply that ends the attempts is settled as `Settle` specifies |
| UpworkSniper.UpworkCrawler.FetchKeyword | upwork_sniper/upwork_crawler.py:61-94 | the page loop records exactly the requests, delays and jobs `KeywordPages` specifies |
| UpworkSniper.UpworkCrawler.DedupeJobs | upwork_sniper/upwork_crawler.py:131-139 | the loop keeps exactly the jobs `Dedupe` keeps and updates the seen set to its ids |
| UpworkSniper.UpworkCrawler.RunOnce | upwork_sniper/upwork_crawler.py:96-129 | a missing cookies file raises before any request; no keywords gives [] and changes nothing; otherwise every keyword is crawled in turn and the jobs de-duplicated against the seen set, and an exception other than a timeout escapes with the seen set unchanged |
| UpworkSniper.UpworkCrawler.Persist | upwork_sniper/upwork_crawler.py:141-154 | no jobs writes nothing and gives no path; otherwise every job is appended, in order, to the output file, whose path is returned |
| QueryAi.Flags | scripts/query_ai.py:101-103 | at most one flag per phrase |
| QueryAi.FlagIndicesPoint | scripts/query_ai.py:101-103 | flag `i` is the text of the phrase at index `i` of the occurring-phrase indices, and that phrase occurs |
| QueryAi.FlagIndicesIncreasing | scripts/query_ai.py:101-103 | the occurring-phrase indices are valid and strictly increasing |
| QueryAi.FlagIndicesCover | scripts/query_ai.py:101-103 | every phrase that occurs has its index listed |
| QueryAi.FlagsOrder | scripts/query_ai.py:101-103 | the flags are the flag texts of exactly the phrases that occur, in phrase order |
| QueryAi.FirstFlags | scripts/query_ai.py:101-108 | the first `n` flags are those of the first (at most `n`) occurring phrases, in order; any other occurring phrase comes after the last one shown |
| QueryAi.DetectScamSpec | scripts/query_ai.py:85-108 | `detect_scam_flags` raises for a non-string description, gives the fixed sentence when no phrase occurs, and otherwise joins by `"; "` the flags of the first (at most three) occurring phrases in phrase order |
| QueryAi.ReportBound | scripts/query_ai.py:105-108 | a report of raised flags joins one to three of them, a prefix of the flags |
| QueryAi.DetectScamFlags | scripts/query_ai.py:85-108 | the loop computes `DetectScam`, whose meaning `DetectScamSpec` states |
| QueryAi.ParseIntDecimal | scripts/query_ai.py:112 | `int()` reads back every decimal integer rendering (`int(str(i)) == i`) |
| QueryAi.ProposalCountDefault | scripts/query_ai.py:112 | a missing, empty, zero or otherwise falsy proposal count reads as 0 |
| QueryAi.SkillMatches | scripts/query_ai.py:117-118 | at most one match per profile skill |
| QueryAi.ProposalPoints | scripts/query_ai.py:127-132 | competition gives at most 3 points |
| QueryAi.WinPoints | scripts/query_ai.py:121-136 | the points table gives at most 9 points (5 for skills, 3 for competition, 1 for a budget) |
| QueryAi.RatingMonotone | scripts/query_ai.py:139-144 | more points never give a lower rating |
| QueryAi.WinRateMonotone | scripts/query_ai.py:110-144 | more matching skills, fewer proposals or a budget never lower the rating |
| QueryAi.TwoSkillsFewProposalsHigh | scripts/query_ai.py:123-140 | two matching skills with fewer than five proposals already rate "Cao (>50%)" |
| QueryAi.CrowdedNeverHigh | scripts/query_ai.py:123-140 | with 25 or more proposals and no budget the rating is never high |
| QueryAi.CountSkillMatches | scripts/query_ai.py:117-118 | the counting loop counts exactly the lower-cased profile skills that occur |
| QueryAi.AddUpPoints | scripts/query_ai.py:121-136 | the scoring steps add up to the points table |
| QueryAi.EstimateWinRate | scripts/query_ai.py:110-144 | `estimate_win_rate` returns the rating of the points table, or the error `int()` or `.lower()` raises, in source order |
| QueryAi.MatchedSkills | scripts/query_ai.py:155 | no more matched skills than profile skills |
| QueryAi.MatchedSkillsIff | scripts/query_ai.py:155 | a skill is matched exactly when it is a profile skill whose lower-cased form occurs in the description |
| QueryAi.SkillMatchesCount | scripts/query_ai.py:117-155 | the win-rate skill count equals the number of skills the strengths list matches |
| QueryAi.StrengthsSpec | scripts/query_ai.py:146-174 | at most three strengths; the skill line comes first exactly when a skill matches, and it names at most three skills, all matching |
| QueryAi.StrengthsBudgetDropped | scripts/query_ai.py:156-174 | with a matching skill, eight or more years and a portfolio, the budget line is cut off |
| QueryAi.CollectMatchedSkills | scripts/query_ai.py:155 | the comprehension's loop computes `MatchedSkills` |
| QueryAi.FindMatchStrengths | scripts/query_ai.py:146-174 | the method computes `Strengths`, whose properties `StrengthsSpec` states |
| QueryAi.CustomizationsSpec | scripts/query_ai.py:176-199 | at most three points; the payment question comes first exactly when "payment" or "gateway" occurs, and a truthy budget is confirmed last unless three other points apply |
| QueryAi.FindCustomizationPoints | scripts/query_ai.py:176-199 | the method computes `Customizations`, whose properties `CustomizationsSpec` states |
| Analyser.FirstKeywordIndex | ai/analyser.py:150-154 | the category is keyword `i` for the first `i` whose lower-cased form occurs in the text, and "General" exactly when none occurs |
| Analyser.DetectCategory | ai/analyser.py:143-154 | the loop returns the category `FirstKeywordIndex` characterises, or the AttributeError `.lower()` raises on a non-string title or description |
| Analyser.Found | ai/analyser.py:168-171 | the collected keywords are no more than the listed ones |
| Analyser.FoundOrder | ai/analyser.py:168-171 | the collected keywords are exactly the listed keywords that occur in the text, in list order (strictly increasing list indices) |
| Analyser.TechKeywordsDistinct | ai/analyser.py:162-166 | no technology keyword is listed twice |
| Analyser.TrendsSpec | ai/analyser.py:156-173 | at most five trends, each a listed keyword occurring in the lower-cased text, none twice; with fewer than five, every occurring keyword is reported |
| Analyser.FindKeywords | ai/analyser.py:168-171 | the collecting loop computes `Found` |
| Analyser.ExtractTrends | ai/analyser.py:156-173 | the method computes `Trends`, whose properties `TrendsSpec` states |
| Analyser.VerdictAsWrittenBranches | ai/analyser.py:180-184 | as written, the bonus is given exactly when "NÊN LẤY" occurs, and the penalty only when "KHÔNG NÊN" occurs without it |
| Analyser.RejectVerdictRewarded | ai/analyser.py:180-184 | as written, the verdict "KHÔNG NÊN LẤY" earns the +30 accept bonus |
| Analyser.VerdictPointsIntended | ai/analyser.py:180-184 | with the reject test first, a verdict loses 30 exactly when it says "KHÔNG NÊN" and gains 30 exactly when it says only "NÊN LẤY" |
| Analyser.Remove | ai/analyser.py:190 | `replace(c, '')` leaves no `c` and never lengthens the text |
| Analyser.RemoveAbsent | ai/analyser.py:190 | text without the character is unchanged |
| Analyser.Clamp | ai/analyser.py:208 | `max(0, min(100, score))` lies in [0, 100], keeps a score already there and sends lower scores to 0 and higher ones to 100 |
| Analyser.ScoreBounds | ai/analyser.py:175-208 | every score lies in [0, 100] |
| Analyser.PointsRange | ai/analyser.py:177-206 | the unclamped points lie in [-10, 100], and are negative exactly for a rejected, cheap, scope-creeping job without positive ROI text |
| Analyser.NeutralBudget | ai/analyser.py:187-196 | a budget that does not parse, or lies in [100, 1000], leaves the score unchanged |
| Analyser.BudgetMonotone | ai/analyser.py:187-196 | a larger budget never lowers the score |
| Analyser.VerdictScores | ai/analyser.py:177-208 | an accepted job with no other findings scores 80 and a rejected one 20 |
| Analyser.ScoreJob | ai/analyser.py:175-208 | the method computes `Score`, with the reject verdict checked first, and its result lies in [0, 100] |
| WriteProposal.HexRun | scripts/write_proposal.py:107 | the greedy `[a-f0-9]+` takes the longest leading run of lower-case hex digits |
| WriteProposal.JobIdSearchFinds | scripts/write_proposal.py:107-110 | the search stops at the leftmost index where `/jobs/~` is followed by a hex digit and returns the whole hex run there, or None when there is no such index |
| WriteProposal.ExtractJobIdSpec | scripts/write_proposal.py:105-110 | `extract_job_id_from_link` returns None exactly when the pattern matches nowhere; otherwise a non-empty hex run that directly follows the leftmost match of the marker and is not followed by another hex digit |
| WriteProposal.JobIdSearchSkips | scripts/write_proposal.py:107 | positions where the pattern does not match do not change the search's result |
| WriteProposal.JobIdOfLink | scripts/write_proposal.py:105-110 | the id of a job link (a prefix without `~`, the marker, a hex id) is read back from it |
| WriteProposal.HexRunAll | scripts/write_proposal.py:107 | a string of hex digits is its own run |
| WriteProposal.LetterRun | scripts/write_proposal.py:115 | the letter run stops at the end or at a non-letter |
| WriteProposal.LetterRunLetters | scripts/write_proposal.py:115 | the letter run consists of letters |
| WriteProposal.NameAfterSpec | scripts/write_proposal.py:115 | a name found after a greeting is two or more letters, after the greeting (ignoring case) and at least one whitespace character, followed by no further letter |
| WriteProposal.NameFollows | scripts/write_proposal.py:115 | the whitespace run and the letter run measured after a greeting sit at the stated positions of the text |
| WriteProposal.NameAtPhrase | scripts/write_proposal.py:115 | the alternation's group is that of one of its phrases |
| WriteProposal.NameSearchFinds | scripts/write_proposal.py:115-118 | the search returns the group of the leftmost index at which a greeting is followed by a name, or None when there is none |
| WriteProposal.ClientNameSpec | scripts/write_proposal.py:112-118 | `extract_client_name` returns "Client" when no greeting is followed by a name, else the name after the leftmost such greeting; the result is "Client" or a word of two or more letters |
| WriteProposal.GreetingGivesName | scripts/write_proposal.py:112-118 | a description starting "Hi " and a word of two or more letters gives that word |
| WriteProposal.LetterRunOf | scripts/write_proposal.py:115 | the letter run of a word followed by a non-letter is the word |
| WriteProposal.SkipTerminators | scripts/write_proposal.py:123 | skipping a run of `[.!?]` leaves a suffix that does not start with a terminator |
| WriteProposal.SplitSentences | scripts/write_proposal.py:123 | `re.split` always returns at least one piece |
| WriteProposal.Summary | scripts/write_proposal.py:120-127 | a summary has at most 203 characters |
| WriteProposal.SplitPlain | scripts/write_proposal.py:123 | text without a terminator is one piece |
| WriteProposal.SplitPrefix | scripts/write_proposal.py:123 | a prefix without terminators extends the first piece |
| WriteProposal.SplitAfterStop | scripts/write_proposal.py:123 | a single full stop before text starts an empty first piece |
| WriteProposal.SplitAfterPiece | scripts/write_proposal.py:123 | a plain piece, one full stop and further text split into the piece and the text's pieces |
| WriteProposal.JoinStartsWith | scripts/write_proposal.py:124 | a join starts with the first character of its first part |
| WriteProposal.SplitJoined | scripts/write_proposal.py:123 | splitting non-empty sentences without terminators, joined by single full stops, gives the sentences back |
| WriteProposal.SummaryOfSentences | scripts/write_proposal.py:120-127 | the summary of such text is its first three sentences joined by ". " and stripped, cut to 200 characters plus "..." |
| WriteProposal.SummaryPlain | scripts/write_proposal.py:120-127 | text without `.!?` whose stripped form has at most 200 characters summarises to itself, stripped |
| WriteProposal.SummaryEmpty | scripts/write_proposal.py:120-127 | the empty description summarises to "" |
| Summarizer.Counted | ai/summarizer.py:65-69 | the counter has at most one entry per listed keyword |
| Summarizer.CountedSpec | ai/summarizer.py:65-69 | every entry is a listed keyword with its positive `str.count` in the text, every occurring keyword has an entry, and the entries' keywords are distinct when the list's are |
| Summarizer.InsertByCount | ai/summarizer.py:71 | insertion into the ordered entries adds exactly one entry |
| Summarizer.SortByCount | ai/summarizer.py:71 | the stable sort by count keeps the number of entries |
| Summarizer.InsertByCountPerm | ai/summarizer.py:71 | insertion keeps every entry and adds the new one (multisets) |
| Summarizer.InsertByCountSorted | ai/summarizer.py:71 | insertion into entries ordered by non-increasing count keeps them ordered |
| Summarizer.SortByCountSpec | ai/summarizer.py:71 | the sort orders the entries by non-increasing count and is a permutation of them |
| Summarizer.TechKeywordsDistinct | ai/summarizer.py:57-63 | no technology keyword is listed twice |
| Summarizer.MostCommonSpec | ai/summarizer.py:71 | `most_common(n)` returns at most `n` entries, by non-increasing count, each a counter entry and none twice; an entry left out means `n` were kept and it counts no more than the last one kept |
| Summarizer.TopInSpec | ai/summarizer.py:65-71 | the top keywords of a text: at most `n`, each with its positive `str.count`, distinct, non-increasing; an occurring keyword left out counts no more than the last one kept |
| Summarizer.TopKeywordsSpec | ai/summarizer.py:49-71 | `extract_top_keywords` returns at most `top_n` distinct technology keywords with non-increasing counts, each count the positive `str.count` in the lower-cased, space-joined `"title description"` text of the jobs |
| Summarizer.NoJobsNoKeywords | ai/summarizer.py:51-71 | an empty job list yields no keywords |
| Summarizer.CountedNone | ai/summarizer.py:66-69 | keywords that never occur leave the counter empty |
| Summarizer.CountKeywords | ai/summarizer.py:65-69 | the counting loop builds exactly the counter `Counted` specifies |
| Summarizer.ExtractTopKeywords | ai/summarizer.py:49-71 | the method computes `TopKeywords`, whose properties `TopKeywordsSpec` states |
| Strings.SpaceRun | scripts/write_proposal.py:115 | `\s*` stops at the end or at a non-whitespace character |
| Strings.SpaceRunSpaces | scripts/crawl_multi_source.py:55 | the whitespace run consists of whitespace |
| Strings.ContainsIff | scripts/query_ai.py:102 | `sub in s` holds exactly when `sub` occurs at some index of `s` |
| Strings.ContainsAt | ai/analyser.py:170 | a contained substring occurs at a returned index |
| Strings.OccursContains | ai/analyser.py:170 | an occurrence at any index makes `sub in s` true |
| Strings.ContainsTrans | ai/analyser.py:181-184 | a text containing `mid` contains everything `mid` contains |
| Strings.ContainsAffixes | ai/analyser.py:181-184 | a text contains its prefixes and suffixes |
| Strings.StripLeft | utils/validation.py:34 | `lstrip` leaves a suffix that does not start with whitespace |
| Strings.StripRight | utils/validation.py:34 | `rstrip` leaves a prefix that does not end with whitespace |
| Strings.Strip | utils/validation.py:34 | `strip` never lengthens and leaves no whitespace at either end |
| Strings.StripLeftSpaces | utils/validation.py:34 | `lstrip` removes whitespace only |
| Strings.StripRightSpaces | utils/validation.py:34 | `rstrip` removes whitespace only |
| Strings.StripEmptyIff | utils/validation.py:34-37 | the strip is empty exactly when the text is whitespace only |
| Strings.StripKeeps | utils/validation.py:100-107 | text that neither starts nor ends with whitespace is its own strip |
| Strings.StripIdempotent | utils/validation.py:106-107 | stripping twice is stripping once |
| Strings.Take | scripts/query_ai.py:108 | `xs[:n]` is the prefix of length `min(n, len(xs))` |
| Strings.NatToDecimal | utils/validation.py:47 | `str(n)` is a non-empty run of digits |
| Strings.DecimalRoundTrip | scripts/query_ai.py:112 | reading back the decimal rendering of a number gives the number |
| Strings.CountPositiveIff | ai/summarizer.py:67-68 | `str.count` is positive exactly when the substring occurs |
| PyValues.ToStr | scripts/crawl_multi_source.py:42 | `str(v)` is empty only for the empty string |
| PyValues.EscapeTextPlain | upwork_sniper/parse_job_cards.py:15 | the text of a string inside its `repr` is the string itself exactly when it holds no backslash, no quote of the chosen kind and no unprintable character |
| PyValues.ReprApostrophe | upwork_sniper/parse_job_cards.py:15 | a string holding `'` and no `"` is quoted with `"` by `repr`, as in `["it's"]` |
| PyValues.FirstTruthyIndex | upwork_sniper/parse_job_cards.py:86 | a chain of `or` gives the value of the first key whose value is truthy, or the fallback when there is none |
| Casing.LowerChar | ai/analyser.py:145 | lower-casing maps `A`-`Z` to `a`-`z` and keeps lower-case letters and digits |
| Casing.UpperChar | ai/analyser.py:180 | upper-casing maps `a`-`z` to `A`-`Z` and keeps upper-case letters and digits |
| Casing.Lower | ai/analyser.py:145 | `lower()` maps each character, keeping the length |
| Casing.Upper | ai/analyser.py:180 | `upper()` maps each character, keeping the length |
| Casing.UpperOfLower | ai/analyser.py:180 | upper-casing a lower-cased letter of the table, `Ÿ` included, gives the letter back |
| Casing.LowerText | ai/analyser.py:145 | `.lower()` succeeds exactly on a string and raises AttributeError otherwise |
| Casing.UpperText | ai/analyser.py:180 | `.upper()` succeeds exactly on a string |
| UrlEncode.QuotePlus | upwork_sniper/upwork_crawler.py:59 | `quote_plus` produces only unreserved characters, `+` and `%XX` escapes, and keeps a text of unreserved characters |
| UrlEncode.UnquoteQuote | upwork_sniper/upwork_crawler.py:59 | for ASCII text, decoding undoes `quote_plus` |
| UrlEncode.SplitJoin | upwork_sniper/upwork_crawler.py:59 | splitting a join of separator-free parts gives the parts back |
| UrlEncode.ParseEncodedPair | upwork_sniper/upwork_crawler.py:59 | an encoded ASCII pair reads back as the pair |
| UrlEncode.ParseUrlEncode | upwork_sniper/upwork_crawler.py:59 | `urlencode` is read back losslessly, parameters in order |

## Left out

- Network, browser and feed I/O are inputs to the model, not operations in it:
  - `feedparser.parse` is a `FeedFetch` value;
  - `requests.get` with `raise_for_status` and `json()` is an `ApiFetch` value;
  - Playwright's `context.request.get` is the oracle `server`, whose reply may be a timeout or another exception;
  - the browser launch, `page.goto`, reading the storage state and closing the browser are left out.
- Concurrency: the asyncio event loop is not modelled, and `asyncio.sleep` only records its delay in the trace.
- File and configuration I/O:
  - loading `existing_job_ids` from `data/raw_jobs.jsonl` at import time: the crawler's constructor takes the loaded set;
  - the YAML configuration: sources and keywords arrive as typed `SourceConfig` values and keyword lists;
  - the crawler's nested config dictionaries: a `Settings` value whose unset entries resolve to the source's defaults;
  - `persist`'s JSON-lines append: an append to the `store` sequence;
  - the existence check of the cookies file: a boolean input to `RunOnce`; the cookie path resolution is left out.
- Logging and `print` calls are left out; they do not affect results.
- Hashing, clocks and number parsing are function parameters:
  - md5 (`env.md5`), returning a 32-character digest;
  - `datetime.utcnow().isoformat()` (`env.now`);
  - `datetime.fromtimestamp(...).isoformat()` (`fromTimestamp`, None where it raises);
  - `float()` in `score_job` (`parseFloat`, None where it raises).
- The location regex of `normalize_job` is an uninterpreted extractor (`env.extractLocation`). Only the rule is modelled, in order: the explicit field, then the extractor's result, then "Unknown".
- Regular-expression case folding (`re.IGNORECASE` in `parse_proposals` and `extract_client_name`) is modelled for ASCII letters only. `\d` is modelled for ASCII digits only.
- `str.lower()` and `str.upper()` follow a table of the one-to-one mappings of ASCII, Latin-1, Latin Extended-A, the Vietnamese horned letters (Ơ, Ư) and Latin Extended Additional.
  - The irregular letters of these blocks are included: `Ÿ`↔`ÿ`, `ı`→`I`, `ſ`→`S`, `µ`→`Μ`, `ẞ`→`ß` and `ẛ`→`Ṡ`.
  - Other scripts, including the rest of Latin Extended-B and Greek, map to themselves.
  - Multi-character mappings map a character to itself where Python gives two or three: `ß`, `ŉ` and `ẖ`–`ẚ` under `upper()`, `İ` under `lower()`.
- `str()` is exact for None, booleans, integers, strings and integral floats below 10^16 in magnitude, and for lists of these.
  - A string inside a list renders as `repr` renders it. It gets double quotes when it holds `'` and no `"`, and single quotes otherwise. Backslashes, the chosen quote, tab, newline and carriage return are escaped, and so are the other unprintable characters up to U+00FF (as `\xhh`).
  - Unprintable characters above U+00FF, such as format and separator characters, are kept as they are, where Python escapes them.
  - Other floats render as the placeholder `<float>`, and non-empty dictionaries as `{...}`. A text that embeds such a value differs from Python's:
    - the id key of `MultiSource.GenerateJobId` (and with it the md5 input and the job id) for a float or dictionary title or link;
    - the `str(job_id)` of `JobCards.NormalizeEntryId` and the labels of `JobCards.SafeList`;
    - the title-and-description texts `Analyser.TrendText` (the trends) and `Summarizer.JobText` (the top keywords);
    - the budget score of `Analyser.ScoreJob`, where `float(str(budget))` of a non-integral float budget reads as unparsable and adds nothing;
    - the portfolio, budget and rate lines of `QueryAi.StrengthsSpec` and `QueryAi.CustomizationsSpec`.
- `int()` of a string accepts whitespace, a sign and ASCII digits. Underscores and non-ASCII digits are rejected, where Python accepts them.
- `UrlEncode.UnquotePlus`, and with it `UpworkSniper.BuildQueryUrlReadsBack`, decodes ASCII only. The read-back is stated for ASCII keywords and sort orders.
- The freelancer profile of `QueryAi` is typed: skills are strings, experience is an integer, portfolio entries are dictionaries. The `.lower()` or `.get` errors of an ill-typed profile are not modelled.
- The inputs of `WriteProposal` are strings. The `TypeError` of `re.search` on a non-string description or link is not modelled.
- LLM calls and what only feeds them are left out, since they are text-in/text-out calls to an external model:
  - `query_ollama`, `build_prompt`, `generate_proposal`, `analyse_job`;
  - the summary generation and `load_jobs_from_period` of ai/summarizer.py;
  - `load_ai_rules`;
  - the ChromaDB search and loading functions.
- `main` of each script is left out: it only sequences the modelled operations with I/O.
- Summarizer.MostCommonSpec: does not state the order among keywords with equal counts. `most_common` keeps them in insertion order. `SortByCount` is written as a stable insertion sort, but no lemma proves the stability.
- Analyser.ScoreJob: follows the corrected verdict test (see Findings). The as-written verdict points are modelled and exhibited separately, by `VerdictPointsAsWritten`.
- UpworkSniper.UpworkCrawler.FetchKeyword: the URL of each request is not stored in the trace; a request records its keyword and page. The program sends `BuildQueryUrlAsWritten` of those, whose paging the endpoint reads as `0%3B50` (`PagingDoubleEncoded`, see Findings). The replies are an oracle over the request count, so the trace stands equally for the corrected request `BuildQueryUrl`, whose read-back `BuildQueryUrlReadsBack` proves. What the endpoint answers to the double-encoded paging is not modelled.

## Findings

| source | as written | input that shows it | evidently intended | confidence | as-written member | corrected member |
|---|---|---|---|---|---|---|
| upwork_sniper/upwork_crawler.py:51-59 | `paging` already holds the escaped separator `%3B`, and `urlencode` escapes it again | page 0 with 50 per page: the query carries `paging=0%253B50`, which decodes to `0%3B50` | the endpoint reads `paging` as `offset;per_page` (`0;50`) | high, not executed | UpworkSniper.BuildQueryUrlAsWritten, UpworkSniper.PagingDoubleEncoded | UpworkSniper.BuildQueryUrl, UpworkSniper.BuildQueryUrlReadsBack |
| ai/analyser.py:180-184 | `'NÊN LẤY' in verdict` is checked before `'KHÔNG NÊN' in verdict`, and "KHÔNG NÊN LẤY" contains "NÊN LẤY" | the verdict "KHÔNG NÊN LẤY" gets +30 | a reject verdict loses 30 points | high, not executed | Analyser.VerdictPointsAsWritten, Analyser.RejectVerdictRewarded | Analyser.VerdictPoints, Analyser.VerdictPointsIntended |
