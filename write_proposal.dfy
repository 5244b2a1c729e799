/**
 * The text extractors of scripts/write_proposal.py that prepare a proposal
 * prompt: the job id inside an Upwork link, the client's name from a
 * greeting in the description, and a short summary of the description.
 * Each is a regular-expression search or split, written out here as the
 * scan the regular-expression engine performs.
 */
module WriteProposal {
  import opened Wrappers
  import opened Strings

  // ---------------------------------------------------------------- extract_job_id_from_link

  /** The class `[a-f0-9]`. */
  predicate IsLowerHex(c: char) {
    ('0' <= c <= '9') || ('a' <= c <= 'f')
  }

  predicate AllLowerHex(s: string) {
    forall i :: 0 <= i < |s| ==> IsLowerHex(s[i])
  }

  const JobsMarker: string := "/jobs/~"

  /** The longest prefix of `s` in `[a-f0-9]`, as the greedy `[a-f0-9]+` takes it. */
  function HexRun(s: string): (r: string)
    ensures |r| <= |s| && r == s[..|r|] && AllLowerHex(r)
    ensures |r| == |s| || !IsLowerHex(s[|r|])
    decreases |s|
  {
    if s != [] && IsLowerHex(s[0]) then
      var rest := HexRun(s[1..]);
      assert s[..|rest| + 1] == [s[0]] + s[1..][..|rest|];
      assert |rest| + 1 < |s| ==> s[|rest| + 1] == s[1..][|rest|];
      [s[0]] + rest
    else []
  }

  /** `/jobs/~([a-f0-9]+)` matches at index `i`. */
  predicate JobIdMatchesAt(link: string, i: nat) {
    i + |JobsMarker| < |link| && StartsWith(link[i..], JobsMarker) && IsLowerHex(link[i + |JobsMarker|])
  }

  /** `re.search` from index `i`: the group of the leftmost match at or after `i`. */
  function JobIdSearch(link: string, i: nat): Option<string>
    decreases |link| - i
  {
    if i >= |link| then None
    else if JobIdMatchesAt(link, i) then Some(HexRun(link[i + |JobsMarker|..]))
    else JobIdSearch(link, i + 1)
  }

  function ExtractJobId(link: string): Option<string> {
    JobIdSearch(link, 0)
  }

  /**
   * The search finds the leftmost index `i` at which the pattern matches and
   * returns the whole hex run after the marker there; it returns None exactly
   * when the pattern matches nowhere from `from` on.
   */
  lemma {:induction false} JobIdSearchFinds(link: string, from: nat) returns (i: nat)
    ensures from <= i
    ensures forall j :: from <= j < i ==> !JobIdMatchesAt(link, j)
    ensures i < |link| ==> JobIdMatchesAt(link, i) && JobIdSearch(link, from) == Some(HexRun(link[i + |JobsMarker|..]))
    ensures i >= |link| ==> JobIdSearch(link, from) == None
    decreases |link| - from
  {
    if from >= |link| || JobIdMatchesAt(link, from) {
      i := from;
    } else {
      i := JobIdSearchFinds(link, from + 1);
    }
  }

  /**
   * `extract_job_id_from_link`: None when the pattern matches nowhere;
   * otherwise a non-empty run of `[a-f0-9]` that directly follows the
   * leftmost marker followed by a hex digit, and is not followed by another one.
   */
  lemma ExtractJobIdSpec(link: string)
    ensures ExtractJobId(link).None? <==> forall j: nat :: j < |link| ==> !JobIdMatchesAt(link, j)
    ensures ExtractJobId(link).Some? ==>
              var id := ExtractJobId(link).value;
              && |id| > 0 && AllLowerHex(id)
              && exists i: nat :: && JobIdMatchesAt(link, i)
                                  && (forall j :: 0 <= j < i ==> !JobIdMatchesAt(link, j))
                                  && i + |JobsMarker| + |id| <= |link|
                                  && link[i + |JobsMarker|..][..|id|] == id
                                  && (i + |JobsMarker| + |id| == |link| || !IsLowerHex(link[i + |JobsMarker| + |id|]))
  {
    var i := JobIdSearchFinds(link, 0);
    if i < |link| {
      var rest := link[i + |JobsMarker|..];
      var id := HexRun(rest);
      assert rest[0] == link[i + |JobsMarker|];
      assert |id| > 0;
      if |id| < |rest| {
        assert rest[|id|] == link[i + |JobsMarker| + |id|];
      }
      assert ExtractJobId(link).value == id;
      assert && JobIdMatchesAt(link, i)
             && (forall j :: 0 <= j < i ==> !JobIdMatchesAt(link, j))
             && i + |JobsMarker| + |id| <= |link|
             && link[i + |JobsMarker|..][..|id|] == id
             && (i + |JobsMarker| + |id| == |link| || !IsLowerHex(link[i + |JobsMarker| + |id|]));
    }
  }

  /** Positions with no match are skipped. */
  lemma {:induction false} JobIdSearchSkips(link: string, from: nat, to: nat)
    requires from <= to
    requires forall j :: from <= j < to ==> !JobIdMatchesAt(link, j)
    ensures JobIdSearch(link, from) == JobIdSearch(link, to)
    decreases |link| - from
  {
    if from < to && from < |link| {
      JobIdSearchSkips(link, from + 1, to);
    }
  }

  /**
   * The id of a job link is read back: after a prefix holding no `~`, the
   * marker and a lowercase hex id, with nothing after it, the id is found.
   */
  lemma JobIdOfLink(prefix: string, id: string)
    requires forall k :: 0 <= k < |prefix| ==> prefix[k] != '~'
    requires |id| > 0 && AllLowerHex(id)
    ensures ExtractJobId(prefix + JobsMarker + id) == Some(id)
  {
    var link := prefix + JobsMarker + id;
    var p := |prefix|;
    assert link[p + 6] == '~';
    forall j | 0 <= j < p ensures !JobIdMatchesAt(link, j) {
      if j + 6 < p {
        assert link[j + 6] == prefix[j + 6];
      } else {
        assert link[j + 6] == JobsMarker[j + 6 - p];
      }
      StartsWithDiffers(link[j..], JobsMarker, 6);
    }
    JobIdSearchSkips(link, 0, p);
    assert link[p..][..|JobsMarker|] == JobsMarker;
    assert link[p + |JobsMarker|] == id[0];
    assert JobIdMatchesAt(link, p);
    var rest := link[p + |JobsMarker|..];
    assert rest == id;
    HexRunAll(id);
  }

  /** A string of hex digits is its own run. */
  lemma {:induction false} HexRunAll(s: string)
    requires AllLowerHex(s)
    ensures HexRun(s) == s
    decreases |s|
  {
    if s != [] {
      HexRunAll(s[1..]);
      assert [s[0]] + s[1..] == s;
    }
  }

  // ---------------------------------------------------------------- extract_client_name

  /** The greeting phrases, in the order the alternation tries them. */
  const Greetings: seq<string> := ["hi", "hello", "my name is", "i'm", "i am"]

  const DefaultClient: string := "Client"

  /** ASCII case folding, as `re.IGNORECASE` applies it to the upper-case letters. */
  function FoldChar(c: char): char {
    if 'A' <= c <= 'Z' then (c as int + 32) as char else c
  }

  /** `s` starts with the lower-case `phrase`, ignoring case. */
  predicate StartsWithFolded(s: string, phrase: string) {
    |phrase| <= |s| && forall k :: 0 <= k < |phrase| ==> FoldChar(s[k]) == phrase[k]
  }

  /** The length of the run of letters `s` starts with (`[A-Z][a-z]+` ignoring case, after its first letter). */
  function LetterRun(s: string): (n: nat)
    ensures n <= |s|
    ensures n == |s| || !IsAsciiLetter(s[n])
    decreases |s|
  {
    if s != [] && IsAsciiLetter(s[0]) then 1 + LetterRun(s[1..]) else 0
  }

  /** The run is all letters. */
  lemma {:induction false} LetterRunLetters(s: string)
    ensures forall k :: 0 <= k < LetterRun(s) ==> IsAsciiLetter(s[k])
    decreases |s|
  {
    if s != [] && IsAsciiLetter(s[0]) {
      LetterRunLetters(s[1..]);
      forall k | 1 <= k < LetterRun(s) ensures IsAsciiLetter(s[k]) {
        assert s[k] == s[1..][k - 1];
      }
    }
  }

  /** `phrase\s+([A-Z][a-z]+)` ignoring case, matched at the start of `s`: the group. */
  function NameAfter(s: string, phrase: string): Option<string> {
    if !StartsWithFolded(s, phrase) then None
    else
      var t := s[|phrase|..];
      var w := SpaceRun(t);
      var n := LetterRun(t[w..]);
      if w > 0 && n >= 2 then Some(t[w..][..n]) else None
  }

  /** The alternation: the first greeting phrase after which a name follows. */
  function NameAt(s: string, phrases: seq<string>): Option<string>
    decreases |phrases|
  {
    if phrases == [] then None
    else
      var here := NameAfter(s, phrases[0]);
      if here.Some? then here else NameAt(s, phrases[1..])
  }

  /** `re.search`: the group of the leftmost match at or after index `i`. */
  function NameSearch(text: string, i: nat, phrases: seq<string>): Option<string>
    decreases |text| - i
  {
    if i >= |text| then None
    else
      var here := NameAt(text[i..], phrases);
      if here.Some? then here else NameSearch(text, i + 1, phrases)
  }

  /** The name after the leftmost greeting from `phrases`, else "Client". */
  function ClientName(text: string, phrases: seq<string>): string {
    var found := NameSearch(text, 0, phrases);
    if found.Some? then found.value else DefaultClient
  }

  function ExtractClientName(text: string): string {
    ClientName(text, Greetings)
  }

  /**
   * A name found after greeting `p` is two or more letters of the text,
   * following `p` and `w` whitespace characters, and followed by no
   * further letter.
   */
  lemma NameAfterSpec(s: string, p: string) returns (w: nat)
    ensures NameAfter(s, p).Some? ==>
              var name := NameAfter(s, p).value;
              && |name| >= 2 && (forall k :: 0 <= k < |name| ==> IsAsciiLetter(name[k]))
              && StartsWithFolded(s, p) && 0 < w && |p| + w + |name| <= |s|
              && (forall k :: |p| <= k < |p| + w ==> IsSpace(s[k]))
              && s[|p| + w..|p| + w + |name|] == name
              && (|p| + w + |name| == |s| || !IsAsciiLetter(s[|p| + w + |name|]))
  {
    w := 0;
    if StartsWithFolded(s, p) {
      var t := s[|p|..];
      w := SpaceRun(t);
      var n := LetterRun(t[w..]);
      if w > 0 && n >= 2 {
        var name := NameFollows(s, |p|, w, n);
        assert NameAfter(s, p) == Some(name);
      }
    }
  }

  /** The runs that `NameAfter` measures, read back as positions of the whole text. */
  lemma NameFollows(s: string, at: nat, w: nat, n: nat) returns (name: string)
    requires at <= |s| && w == SpaceRun(s[at..]) && n == LetterRun(s[at..][w..])
    ensures name == s[at..][w..][..n]
    ensures at + w + n <= |s| && s[at + w..at + w + n] == name
    ensures forall k :: 0 <= k < |name| ==> IsAsciiLetter(name[k])
    ensures forall k :: at <= k < at + w ==> IsSpace(s[k])
    ensures at + w + n == |s| || !IsAsciiLetter(s[at + w + n])
  {
    var t := s[at..];
    var u := t[w..];
    name := u[..n];
    LetterRunLetters(u);
    forall k | 0 <= k < |name| ensures IsAsciiLetter(name[k]) {
      assert name[k] == u[k];
    }
    SpaceRunSpaces(t);
    forall k | at <= k < at + w ensures IsSpace(s[k]) {
      assert s[k] == t[k - at];
    }
    assert s[at + w..at + w + n] == name;
    if at + w + n < |s| {
      assert s[at + w + n] == u[n];
    }
  }

  /** The alternation's result is that of its first phrase after which a name follows. */
  lemma {:induction false} NameAtPhrase(s: string, phrases: seq<string>) returns (p: string)
    ensures NameAt(s, phrases).Some? ==> p in phrases && NameAfter(s, p) == NameAt(s, phrases)
    decreases |phrases|
  {
    p := "";
    if phrases != [] {
      if NameAfter(s, phrases[0]).Some? {
        p := phrases[0];
      } else {
        p := NameAtPhrase(s, phrases[1..]);
      }
    }
  }

  /** The search finds the leftmost index from `from` on at which a greeting is followed by a name. */
  lemma {:induction false} NameSearchFinds(text: string, from: nat, phrases: seq<string>) returns (i: nat)
    ensures from <= i
    ensures forall j :: from <= j < i && j < |text| ==> NameAt(text[j..], phrases).None?
    ensures i < |text| ==> NameSearch(text, from, phrases) == NameAt(text[i..], phrases) && NameSearch(text, from, phrases).Some?
    ensures i >= |text| ==> NameSearch(text, from, phrases) == None
    decreases |text| - from
  {
    if from >= |text| || NameAt(text[from..], phrases).Some? {
      i := from;
    } else {
      i := NameSearchFinds(text, from + 1, phrases);
    }
  }

  /**
   * `extract_client_name`: "Client" when no greeting is followed by
   * whitespace and a word of two or more letters; otherwise that word for
   * the leftmost such greeting.
   */
  lemma ClientNameSpec(text: string, phrases: seq<string>)
    ensures (forall i: nat :: i < |text| ==> NameAt(text[i..], phrases).None?) ==> ClientName(text, phrases) == DefaultClient
    ensures (exists i: nat :: i < |text| && NameAt(text[i..], phrases).Some?) ==>
              exists i: nat :: && i < |text| && NameAt(text[i..], phrases).Some?
                              && ClientName(text, phrases) == NameAt(text[i..], phrases).value
                              && forall j :: 0 <= j < i ==> NameAt(text[j..], phrases).None?
    ensures var name := ClientName(text, phrases);
            name == DefaultClient || (|name| >= 2 && forall k :: 0 <= k < |name| ==> IsAsciiLetter(name[k]))
  {
    var i := NameSearchFinds(text, 0, phrases);
    if i < |text| {
      var p := NameAtPhrase(text[i..], phrases);
      var w := NameAfterSpec(text[i..], p);
    }
  }

  /** The greeting at the start of the description gives the name that follows it. */
  lemma GreetingGivesName(name: string, rest: string)
    requires |name| >= 2 && forall k :: 0 <= k < |name| ==> IsAsciiLetter(name[k])
    requires rest == [] || !IsAsciiLetter(rest[0])
    ensures ExtractClientName("Hi " + name + rest) == name
  {
    var s := "Hi " + name + rest;
    var t := s[2..];
    assert t == " " + name + rest;
    assert t[1..] == name + rest;
    assert SpaceRun(t[1..]) == 0;
    assert SpaceRun(t) == 1;
    LetterRunOf(name, rest);
    assert t[1..][..|name|] == name;
    assert StartsWithFolded(s, "hi");
    assert NameAfter(s, "hi") == Some(name);
    assert s[0..] == s;
  }

  /** The letter run of a word followed by a non-letter is the word. */
  lemma {:induction false} LetterRunOf(word: string, rest: string)
    requires forall k :: 0 <= k < |word| ==> IsAsciiLetter(word[k])
    requires rest == [] || !IsAsciiLetter(rest[0])
    ensures LetterRun(word + rest) == |word|
    decreases |word|
  {
    if word != [] {
      LetterRunOf(word[1..], rest);
      assert (word + rest)[1..] == word[1..] + rest;
    }
  }

  // ---------------------------------------------------------------- summarize_job

  /** The class `[.!?]`. */
  predicate IsTerminator(c: char) {
    c == '.' || c == '!' || c == '?'
  }

  predicate NoTerminator(s: string) {
    forall i :: 0 <= i < |s| ==> !IsTerminator(s[i])
  }

  /** `s` without its leading run of terminators. */
  function SkipTerminators(s: string): (r: string)
    ensures |r| <= |s| && r == s[|s| - |r|..]
    ensures r == [] || !IsTerminator(r[0])
    decreases |s|
  {
    if s != [] && IsTerminator(s[0]) then SkipTerminators(s[1..]) else s
  }

  /** `re.split(r'[.!?]+', s)`: the pieces between the runs of terminators. */
  function SplitSentences(s: string): (parts: seq<string>)
    ensures |parts| >= 1
    decreases |s|
  {
    if s == [] then [""]
    else if IsTerminator(s[0]) then [""] + SplitSentences(SkipTerminators(s))
    else
      var rest := SplitSentences(s[1..]);
      [[s[0]] + rest[0]] + rest[1..]
  }

  const SummarySentences: nat := 3
  const SummaryLength: nat := 200

  /** `summarize_job` */
  function Summary(description: string): (r: string)
    ensures |r| <= SummaryLength + 3
  {
    var summary := Strip(Join(". ", Take(SplitSentences(description), SummarySentences)));
    if |summary| > SummaryLength then summary[..SummaryLength] + "..." else summary
  }

  /** Text without a terminator is one piece. */
  lemma {:induction false} SplitPlain(s: string)
    requires NoTerminator(s)
    ensures SplitSentences(s) == [s]
    decreases |s|
  {
    if s != [] {
      SplitPlain(s[1..]);
      assert [s[0]] + s[1..] == s;
    }
  }

  /** A plain prefix extends the first piece. */
  lemma {:induction false} SplitPrefix(p: string, t: string)
    requires NoTerminator(p)
    ensures SplitSentences(p + t) == [p + SplitSentences(t)[0]] + SplitSentences(t)[1..]
    decreases |p|
  {
    if p == [] {
      assert p + t == t;
      assert p + SplitSentences(t)[0] == SplitSentences(t)[0];
      assert [SplitSentences(t)[0]] + SplitSentences(t)[1..] == SplitSentences(t);
    } else {
      var s := p + t;
      var pieces := SplitSentences(t);
      assert s[1..] == p[1..] + t;
      assert s[0] == p[0] && !IsTerminator(s[0]);
      SplitPrefix(p[1..], t);
      var rest := SplitSentences(s[1..]);
      assert rest == [p[1..] + pieces[0]] + pieces[1..];
      assert SplitSentences(s) == [[s[0]] + rest[0]] + rest[1..];
      assert rest[0] == p[1..] + pieces[0] && rest[1..] == pieces[1..];
      assert [p[0]] + (p[1..] + pieces[0]) == p + pieces[0];
    }
  }

  /** A single full stop before a piece starts a new piece. */
  lemma SplitAfterStop(t: string)
    requires t != [] && !IsTerminator(t[0])
    ensures SplitSentences("." + t) == [""] + SplitSentences(t)
  {
    assert ("." + t)[1..] == t;
    assert SkipTerminators("." + t) == SkipTerminators(t);
  }

  /** A join starts with its first part. */
  lemma JoinStartsWith(parts: seq<string>)
    requires |parts| >= 1 && |parts[0]| > 0
    ensures |Join(".", parts)| > 0 && Join(".", parts)[0] == parts[0][0]
  {
  }

  /** A plain piece, a full stop and text starting a new piece split into that piece and the text's pieces. */
  lemma SplitAfterPiece(piece: string, rest: string)
    requires NoTerminator(piece) && rest != [] && !IsTerminator(rest[0])
    ensures SplitSentences(piece + ("." + rest)) == [piece] + SplitSentences(rest)
  {
    SplitPrefix(piece, "." + rest);
    SplitAfterStop(rest);
    var pieces := SplitSentences("." + rest);
    assert pieces[0] == "" && pieces[1..] == SplitSentences(rest);
    assert piece + pieces[0] == piece;
  }

  /**
   * Splitting sentences joined by single full stops gives the sentences back,
   * when each is non-empty and holds no terminator.
   */
  lemma {:induction false} SplitJoined(parts: seq<string>)
    requires |parts| >= 1
    requires forall i :: 0 <= i < |parts| ==> |parts[i]| > 0 && NoTerminator(parts[i])
    ensures SplitSentences(Join(".", parts)) == parts
    decreases |parts|
  {
    if |parts| == 1 {
      SplitPlain(parts[0]);
    } else {
      var more := parts[1..];
      var tail := Join(".", more);
      assert forall i :: 0 <= i < |more| ==> more[i] == parts[i + 1];
      SplitJoined(more);
      JoinStartsWith(more);
      assert Join(".", parts) == parts[0] + ("." + tail);
      SplitAfterPiece(parts[0], tail);
      assert parts == [parts[0]] + more;
    }
  }

  /**
   * The summary of full-stop separated sentences is their first three,
   * joined by ". " and stripped, cut to 200 characters plus "...".
   */
  lemma SummaryOfSentences(parts: seq<string>)
    requires |parts| >= 1
    requires forall i :: 0 <= i < |parts| ==> |parts[i]| > 0 && NoTerminator(parts[i])
    ensures var summary := Strip(Join(". ", Take(parts, SummarySentences)));
            Summary(Join(".", parts)) == if |summary| > SummaryLength then summary[..SummaryLength] + "..." else summary
  {
    SplitJoined(parts);
  }

  /** Short text without a terminator summarises to itself, stripped. */
  lemma SummaryPlain(s: string)
    requires NoTerminator(s) && |Strip(s)| <= SummaryLength
    ensures Summary(s) == Strip(s)
  {
    SplitPlain(s);
    assert Take([s], SummarySentences) == [s];
    assert Join(". ", [s]) == s;
  }

  /** Empty text summarises to the empty string. */
  lemma SummaryEmpty()
    ensures Summary("") == ""
  {
    assert SplitSentences("") == [""];
    assert Join(". ", [""]) == "";
  }
}
