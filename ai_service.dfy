/**
 * `services/ai_service.py`: the text helpers around natural-language task
 * parsing (ordinal stripping, title cleaning, academic category detection),
 * `prioritize_tasks`, `generate_summary`, and `parse_natural_language_task`
 * with the language model, the translator and `dateutil` as inputs.
 */
module AIService {
  import opened Wrappers
  import opened Text
  import opened StableSort
  import opened Clock
  import Translation

  // ---------- _strip_ordinals ----------

  /** Python's `\w` on ASCII and Latin-1 (letters, digits, `_`, ª ² ³ µ ¹ º ¼-¾); every later character counts as a letter. */
  predicate IsWordChar(c: char) {
    var n := c as int;
    ('a' <= c <= 'z') || ('A' <= c <= 'Z') || IsDigit(c) || c == '_'
    || n == 0xAA || n == 0xB2 || n == 0xB3 || n == 0xB5 || n == 0xB9 || n == 0xBA || 0xBC <= n <= 0xBE
    || (0xC0 <= n <= 0xFF && n != 0xD7 && n != 0xF7) || n > 0xFF
  }

  /** The letters an ordinal suffix is made of, in either case. */
  predicate IsOrdinalLetter(c: char) {
    c in "stndrhSTNDRH"
  }

  /** `(st|nd|rd|th)\b`, case-insensitively, at position `n` of `s`. */
  predicate OrdinalSuffixAt(s: string, n: nat) {
    && n + 2 <= |s|
    && [LowerChar(s[n]), LowerChar(s[n + 1])] in {"st", "nd", "rd", "th"}
    && (n + 2 == |s| || !IsWordChar(s[n + 2]))
  }

  lemma SuffixLetters(s: string, n: nat)
    requires OrdinalSuffixAt(s, n)
    ensures IsOrdinalLetter(s[n]) && IsOrdinalLetter(s[n + 1])
  {
    var a, b := LowerChar(s[n]), LowerChar(s[n + 1]);
    assert a in "stnr" by { assert [a, b][0] == a; }
    assert b in "tddh" by { assert [a, b][1] == b; }
  }

  /**
   * `re.sub(r"(\d+)(st|nd|rd|th)\b", r"\1", s, flags=re.I)`: a maximal run
   * of digits keeps its digits and loses an ordinal suffix that ends a word.
   */
  function StripOrdinals(s: string): (r: string)
    ensures |r| <= |s|
    decreases |s|
  {
    if s == [] then []
    else if !IsDigit(s[0]) then [s[0]] + StripOrdinals(s[1..])
    else
      var n := LeadCount(s, IsDigit);
      if OrdinalSuffixAt(s, n) then s[..n] + StripOrdinals(s[n + 2..])
      else s[..n] + StripOrdinals(s[n..])
  }

  /** The characters of `s` for which `keep` holds, in order. */
  function Filter(s: string, keep: char -> bool): (r: string)
    ensures |r| <= |s|
    ensures forall k :: 0 <= k < |r| ==> keep(r[k])
  {
    if s == [] then [] else (if keep(s[0]) then [s[0]] else []) + Filter(s[1..], keep)
  }

  lemma {:induction false} FilterAppend(a: string, b: string, keep: char -> bool)
    ensures Filter(a + b, keep) == Filter(a, keep) + Filter(b, keep)
  {
    if a == [] {
      assert a + b == b;
    } else {
      assert (a + b)[0] == a[0] && (a + b)[1..] == a[1..] + b;
      FilterAppend(a[1..], b, keep);
    }
  }

  predicate NotOrdinalLetter(c: char) {
    !IsOrdinalLetter(c)
  }

  /** Only suffix letters are removed: every other character, digits included, survives in order. */
  lemma {:induction false} StripOrdinalsKeepsOtherChars(s: string)
    ensures Filter(StripOrdinals(s), NotOrdinalLetter) == Filter(s, NotOrdinalLetter)
    decreases |s|
  {
    if s != [] {
      if !IsDigit(s[0]) {
        assert s == [s[0]] + s[1..];
        FilterAppend([s[0]], s[1..], NotOrdinalLetter);
        FilterAppend([s[0]], StripOrdinals(s[1..]), NotOrdinalLetter);
        StripOrdinalsKeepsOtherChars(s[1..]);
      } else {
        var n := LeadCount(s, IsDigit);
        if OrdinalSuffixAt(s, n) {
          assert StripOrdinals(s) == s[..n] + StripOrdinals(s[n + 2..]);
          SuffixFiltersAway(s, n);
          FilterAppend(s[..n], StripOrdinals(s[n + 2..]), NotOrdinalLetter);
          StripOrdinalsKeepsOtherChars(s[n + 2..]);
        } else {
          assert s == s[..n] + s[n..];
          FilterAppend(s[..n], s[n..], NotOrdinalLetter);
          FilterAppend(s[..n], StripOrdinals(s[n..]), NotOrdinalLetter);
          StripOrdinalsKeepsOtherChars(s[n..]);
        }
      }
    }
  }

  /** Around a suffix at `n`, only the suffix letters are lost. */
  lemma SuffixFiltersAway(s: string, n: nat)
    requires OrdinalSuffixAt(s, n)
    ensures Filter(s, NotOrdinalLetter) == Filter(s[..n], NotOrdinalLetter) + Filter(s[n + 2..], NotOrdinalLetter)
  {
    assert s == s[..n] + (s[n..n + 2] + s[n + 2..]);
    SuffixLetters(s, n);
    assert s[n..n + 2] == [s[n], s[n + 1]];
    SuffixLettersFiltered(s[n], s[n + 1]);
    FilterAppend(s[n..n + 2], s[n + 2..], NotOrdinalLetter);
    FilterAppend(s[..n], s[n..n + 2] + s[n + 2..], NotOrdinalLetter);
  }

  lemma SuffixLettersFiltered(a: char, b: char)
    requires IsOrdinalLetter(a) && IsOrdinalLetter(b)
    ensures Filter([a, b], NotOrdinalLetter) == []
  {
    assert [a, b][1..] == [b];
  }

  /** Digits followed by an ordinal suffix that ends a word: the suffix goes, the digits stay. */
  lemma OrdinalRemoved(d: string, suffix: string, rest: string)
    requires |d| > 0 && AllDigits(d)
    requires |suffix| == 2 && [LowerChar(suffix[0]), LowerChar(suffix[1])] in {"st", "nd", "rd", "th"}
    requires rest == [] || !IsWordChar(rest[0])
    ensures StripOrdinals(d + suffix + rest) == d + StripOrdinals(rest)
  {
    var s := d + suffix + rest;
    assert s == d + (suffix + rest);
    assert !IsDigit(suffix[0]) by { assert LowerChar(suffix[0]) in "snrt"; }
    LeadCountConcat(d, suffix + rest, IsDigit);
    var n := |d|;
    assert s[n] == suffix[0] && s[n + 1] == suffix[1];
    assert n + 2 < |s| ==> s[n + 2] == rest[0];
    assert OrdinalSuffixAt(s, n);
    assert s[..n] == d && s[n + 2..] == rest;
  }

  /** Digits followed by the same letters but then a letter, digit or `_`: nothing is removed there. */
  lemma OrdinalInsideWordKept(d: string, suffix: string, rest: string)
    requires |d| > 0 && AllDigits(d)
    requires |suffix| == 2 && !IsDigit(suffix[0])
    requires rest != [] && IsWordChar(rest[0])
    ensures StripOrdinals(d + suffix + rest) == d + StripOrdinals(suffix + rest)
  {
    var s := d + suffix + rest;
    assert s == d + (suffix + rest);
    LeadCountConcat(d, suffix + rest, IsDigit);
    var n := |d|;
    assert s[n + 2] == rest[0];
    assert !OrdinalSuffixAt(s, n);
    assert s[..n] == d && s[n..] == suffix + rest;
  }

  /** Text without digits is left as it is. */
  lemma {:induction false} NoDigitsUnchanged(s: string)
    requires forall k :: 0 <= k < |s| ==> !IsDigit(s[k])
    ensures StripOrdinals(s) == s
  {
    if s != [] {
      NoDigitsUnchanged(s[1..]);
      assert s == [s[0]] + s[1..];
    }
  }

  // ---------- _clean_title_phrase ----------

  /** The introductory phrases `_clean_title_phrase` removes, in its order. */
  const CleanupRules: seq<string> := ["add a reminder to", "remind me to", "set a reminder to",
                                       "please", "i need to", "i should", "have to"]

  /** `re.sub(r"^(phrase\s*)", "", t)`: drop a leading phrase and the whitespace after it. */
  function ApplyRule(t: string, phrase: string): (r: string)
    ensures exists k :: 0 <= k <= |t| && r == t[k..]
  {
    if StartsWith(t, phrase) then
      var u := t[|phrase|..];
      var k := LeadCount(u, IsSpace);
      assert u[k..] == t[|phrase| + k..];
      u[k..]
    else
      assert t == t[0..];
      t
  }

  /** The rules applied one after another, each at most once. */
  function ApplyRules(t: string, rules: seq<string>): string {
    if rules == [] then t else ApplyRules(ApplyRule(t, rules[0]), rules[1..])
  }

  lemma SuffixOfSuffix(t: string, k: nat, m: nat)
    requires k <= |t| && m <= |t| - k
    ensures t[k..][m..] == t[k + m..]
  {
  }

  /** What is left after the rules is a suffix of the input. */
  lemma {:induction false} ApplyRulesSuffix(t: string, rules: seq<string>)
    ensures exists k :: 0 <= k <= |t| && ApplyRules(t, rules) == t[k..]
  {
    if rules == [] {
      assert t == t[0..];
    } else {
      var u := ApplyRule(t, rules[0]);
      var k :| 0 <= k <= |t| && u == t[k..];
      ApplyRulesSuffix(u, rules[1..]);
      var m :| 0 <= m <= |u| && ApplyRules(u, rules[1..]) == u[m..];
      SuffixOfSuffix(t, k, m);
      assert 0 <= k + m <= |t| && ApplyRules(t, rules) == t[k + m..];
    }
  }

  const TitlePunctuation: set<char> := {' ', '.', ',', '-'}

  /** `_clean_title_phrase`, stated on values. */
  function CleanTitle(title: string): string {
    Strip(StripChars(ApplyRules(Lower(title), CleanupRules), TitlePunctuation))
  }

  /** `_clean_title_phrase`: lower-case, drop the introductory phrases in order, trim. */
  method CleanTitlePhrase(title0: string) returns (title: string)
    ensures title == CleanTitle(title0)
  {
    var t0 := Lower(title0);
    title := t0;
    var i := 0;
    while i < |CleanupRules|
      invariant 0 <= i <= |CleanupRules|
      invariant ApplyRules(title, CleanupRules[i..]) == ApplyRules(t0, CleanupRules)
    {
      assert CleanupRules[i..][1..] == CleanupRules[i + 1..];
      title := ApplyRule(title, CleanupRules[i]);
      i := i + 1;
    }
    assert CleanupRules[i..] == [];
    title := Strip(StripChars(title, TitlePunctuation));
  }

  lemma SuffixKeepsLower(t: string, k: nat)
    requires IsLower(t) && k <= |t|
    ensures IsLower(t[k..])
  {
    forall m | 0 <= m < |t| - k
      ensures !IsUpper(t[k..][m])
    {
      assert t[k..][m] == t[k + m];
    }
  }

  /** A lower-case string stays lower-case under the rules. */
  lemma {:induction false} ApplyRulesKeepsLower(t: string, rules: seq<string>)
    requires IsLower(t)
    ensures IsLower(ApplyRules(t, rules))
  {
    if rules != [] {
      var k :| 0 <= k <= |t| && ApplyRule(t, rules[0]) == t[k..];
      SuffixKeepsLower(t, k);
      ApplyRulesKeepsLower(ApplyRule(t, rules[0]), rules[1..]);
    }
  }

  /** The cleaned title is lower-case with no whitespace at either end. */
  lemma CleanTitleShape(title: string)
    ensures IsLower(CleanTitle(title))
    ensures Trimmed(CleanTitle(title), IsSpace)
  {
    var low := Lower(title);
    LowerIsLower(title);
    ApplyRulesKeepsLower(low, CleanupRules);
    var u := ApplyRules(low, CleanupRules);
    StripKeepsLower(u, c => c in TitlePunctuation);
    StripKeepsLower(StripChars(u, TitlePunctuation), IsSpace);
  }

  /** A rule drops its phrase and the whitespace after it, and nothing more. */
  lemma RuleDropsPhrase(phrase: string, spaces: string, rest: string)
    requires forall k :: 0 <= k < |spaces| ==> IsSpace(spaces[k])
    requires rest == [] || !IsSpace(rest[0])
    ensures ApplyRule(phrase + spaces + rest, phrase) == rest
  {
    var t := phrase + spaces + rest;
    assert t[..|phrase|] == phrase;
    var u := t[|phrase|..];
    assert u == spaces + rest;
    var n := LeadCount(u, IsSpace);
    if rest != [] {
      assert u[|spaces|] == rest[0];
    }
    assert n == |spaces|;
    assert u[n..] == rest;
  }

  /** Text that does not start with a rule's phrase passes that rule unchanged. */
  lemma RuleKeepsOther(t: string, phrase: string)
    requires !StartsWith(t, phrase)
    ensures ApplyRule(t, phrase) == t
  {
  }

  // ---------- _post_clean_title_english ----------

  const StopWords: seq<string> := ["by ", "before ", "due ", "deadline", "priority", "urgent",
                                    "high priority", "low priority", "medium priority"]

  /** The cut `title = title[:low.index(w)]` leaves after the words in `words`, starting from `bound`. */
  function Cut(low: string, words: seq<string>, bound: nat): (r: nat)
    ensures r <= bound
    ensures forall k :: 0 <= k < |words| && IndexOf(low, words[k]).Some? ==> r <= IndexOf(low, words[k]).value
  {
    if words == [] then bound
    else
      var b := match IndexOf(low, words[0]) case Some(i) => if i < bound then i else bound case None => bound;
      var r := Cut(low, words[1..], b);
      assert forall k :: 1 <= k < |words| ==> words[k] == words[1..][k - 1];
      r
  }

  /** `_post_clean_title_english`, stated on values. */
  function PostClean(title: string): string {
    StripChars(title[..Cut(Lower(title), StopWords, |title|)], {' ', ',', '.', '-'})
  }

  /** `_post_clean_title_english`: cut at every stop word found in the lowered title, then trim. */
  method PostCleanTitleEnglish(title0: string) returns (title: string)
    ensures title == PostClean(title0)
  {
    var low := Lower(title0);
    title := title0;
    var i := 0;
    while i < |StopWords|
      invariant 0 <= i <= |StopWords|
      invariant |title| <= |title0| && title == title0[..|title|]
      invariant Cut(low, StopWords[i..], |title|) == Cut(low, StopWords, |title0|)
    {
      assert StopWords[i..][1..] == StopWords[i + 1..];
      var w := StopWords[i];
      var found := IndexOf(low, w);
      if found.Some? {
        // Python's slice clamps an index past the end.
        var k := if found.value < |title| then found.value else |title|;
        title := title[..k];
      }
      i := i + 1;
    }
    assert StopWords[i..] == [];
    title := StripChars(title, {' ', ',', '.', '-'});
  }

  lemma StopWordsNonEmpty()
    ensures forall k :: 0 <= k < |StopWords| ==> |StopWords[k]| > 0
  {
  }

  /** The post-cleaned title contains no stop word, in any case. */
  lemma PostCleanHasNoStopWord(title: string, k: nat)
    requires k < |StopWords|
    ensures !Contains(Lower(PostClean(title)), StopWords[k])
  {
    var low := Lower(title);
    var cut := Cut(low, StopWords, |title|);
    var t := title[..cut];
    var w := StopWords[k];
    StopWordsNonEmpty();
    if Contains(Lower(PostClean(title)), w) {
      var p := IndexOf(Lower(PostClean(title)), w).value;
      OccursInStrippedLower(t, {' ', ',', '.', '-'}, w, p);
      var q :| OccursAt(Lower(t), w, q);
      LowerSlice(title, 0, cut);
      assert title[0..cut] == t;
      OccursInSlice(low, w, 0, cut, q);
      assert false;
    }
  }

  /** A title with no stop word is cut nowhere. */
  lemma {:induction false} CutNowhere(low: string, words: seq<string>, bound: nat)
    requires forall k :: 0 <= k < |words| ==> !Contains(low, words[k])
    ensures Cut(low, words, bound) == bound
  {
    if words != [] {
      CutNowhere(low, words[1..], bound);
    }
  }

  /** Post-cleaning twice is post-cleaning once. */
  lemma PostCleanIdempotent(title: string)
    ensures PostClean(PostClean(title)) == PostClean(title)
  {
    var r := PostClean(title);
    forall k | 0 <= k < |StopWords| ensures !Contains(Lower(r), StopWords[k]) {
      PostCleanHasNoStopWord(title, k);
    }
    CutNowhere(Lower(r), StopWords, |r|);
    assert r[..|r|] == r;
    StripIdempotent(title[..Cut(Lower(title), StopWords, |title|)], c => c in {' ', ',', '.', '-'});
  }

  // ---------- _detect_academic_category ----------

  const AcademicKeywords: seq<string> := ["assignment", "homework", "project", "lab report", "exam",
                                           "college", "university"]

  /** `_detect_academic_category`: "education" iff some keyword occurs in the lowered text. */
  function DetectAcademicCategory(text: string): (r: Option<string>)
    ensures r.Some? ==> r.value == "education"
    ensures r.Some? <==> exists k, j :: 0 <= k < |AcademicKeywords| && OccursAt(Lower(text), AcademicKeywords[k], j)
  {
    var low := Lower(text);
    forall k | 0 <= k < |AcademicKeywords| ensures Contains(low, AcademicKeywords[k]) <==> exists j :: OccursAt(low, AcademicKeywords[k], j) {
      ContainsIff(low, AcademicKeywords[k]);
    }
    if Translation.AnyContained(low, AcademicKeywords) then Some("education") else None
  }

  // ---------- prioritize_tasks ----------

  /** The fields `prioritize_tasks` and `generate_summary` read; `None` is a missing key. */
  datatype TaskInfo = TaskInfo(id: int, priority: Option<string>, status: Option<string>)

  const PriorityOrder: seq<string> := ["low", "medium", "high", "urgent"]

  /** `["low", "medium", "high", "urgent"].index(p)`, or `None` where `index` raises. */
  function PriorityRank(p: string): (r: Option<nat>)
    ensures r.Some? <==> p in PriorityOrder
    ensures r.Some? ==> r.value < |PriorityOrder| && PriorityOrder[r.value] == p
  {
    if p == "low" then Some(0) else if p == "medium" then Some(1)
    else if p == "high" then Some(2) else if p == "urgent" then Some(3) else None
  }

  /** `t.get("priority", "medium")` ranked; an unknown priority ranks past the end. */
  function Rank(t: TaskInfo): nat {
    match PriorityRank(t.priority.GetOr("medium")) case Some(r) => r case None => 4
  }

  function RankKey(t: TaskInfo): Key {
    [Rank(t)]
  }

  lemma LexLe1(a: int, b: int)
    ensures LexLe([a], [b]) <==> a <= b
  {
    assert [a][1..] == [] && [b][1..] == [];
  }

  /**
   * `prioritize_tasks`: a stable sort from low to urgent, a missing
   * priority counting as medium; an unknown priority raises `ValueError`.
   */
  function PrioritizeTasks(tasks: seq<TaskInfo>): (r: Result<seq<TaskInfo>, string>)
    ensures r.Err? <==> exists i :: 0 <= i < |tasks| && tasks[i].priority.GetOr("medium") !in PriorityOrder
    ensures r.Ok? ==> multiset(r.value) == multiset(tasks) && |r.value| == |tasks|
    ensures r.Ok? ==> forall i, j :: 0 <= i < j < |r.value| ==> Rank(r.value[i]) <= Rank(r.value[j])
    ensures r.Ok? ==> forall k :: Select(r.value, RankKey, k) == Select(tasks, RankKey, k)
  {
    if exists i :: 0 <= i < |tasks| && tasks[i].priority.GetOr("medium") !in PriorityOrder then Err("ValueError")
    else
      var s := Sort(tasks, RankKey);
      SortProperties(tasks, RankKey);
      forall k ensures Select(s, RankKey, k) == Select(tasks, RankKey, k) {
        SortStable(tasks, RankKey, k);
      }
      forall i, j | 0 <= i < j < |s| ensures Rank(s[i]) <= Rank(s[j]) {
        LexLe1(Rank(s[i]), Rank(s[j]));
      }
      Ok(s)
  }

  /** Two tasks of the same priority keep their relative order. */
  lemma PrioritizeKeepsTiesInOrder(tasks: seq<TaskInfo>, p: string)
    requires PrioritizeTasks(tasks).Ok?
    requires p in PriorityOrder
    ensures var key := [PriorityRank(p).value];
      Select(PrioritizeTasks(tasks).value, RankKey, key) == Select(tasks, RankKey, key)
  {
  }

  // ---------- generate_summary ----------

  function CountStatus(tasks: seq<TaskInfo>, wanted: set<string>): (n: nat)
    ensures n <= |tasks|
  {
    if tasks == [] then 0
    else (if tasks[0].status.Some? && tasks[0].status.value in wanted then 1 else 0) + CountStatus(tasks[1..], wanted)
  }

  /** Statuses in disjoint sets are counted apart: together they never exceed the list. */
  lemma {:induction false} DisjointCountsBounded(tasks: seq<TaskInfo>, a: set<string>, b: set<string>)
    requires a !! b
    ensures CountStatus(tasks, a) + CountStatus(tasks, b) <= |tasks|
  {
    if tasks != [] {
      DisjointCountsBounded(tasks[1..], a, b);
    }
  }

  /** The sentence `generate_summary` formats. */
  function SummaryText(completed: nat, pending: nat): string {
    "Completed " + (NatToDec(completed) + (" tasks. " + (NatToDec(pending) + " still pending.")))
  }

  /** `generate_summary`: the completed count and the pending-or-in-progress count. */
  function GenerateSummary(tasks: seq<TaskInfo>): (r: string)
    ensures exists c: nat, p: nat :: c + p <= |tasks| && r == SummaryText(c, p)
  {
    DisjointCountsBounded(tasks, {"completed"}, {"pending", "in_progress"});
    SummaryText(CountStatus(tasks, {"completed"}), CountStatus(tasks, {"pending", "in_progress"}))
  }

  /** The character at position `i` of a concatenation. */
  lemma ConcatAt(x: string, u: string, i: int)
    ensures 0 <= i < |x| ==> (x + u)[i] == x[i]
    ensures |x| <= i < |x| + |u| ==> (x + u)[i] == u[i - |x|]
  {
  }

  /** Equal concatenations with a common prefix have equal rests. */
  lemma PrefixCancel(pre: string, a: string, b: string)
    requires pre + a == pre + b
    ensures a == b
  {
    assert a == (pre + a)[|pre|..];
    assert b == (pre + b)[|pre|..];
  }

  /** A run of digits followed by a non-digit: the run ends at the same place in equal strings. */
  lemma DigitRunsAlign(x: string, y: string, u: string, v: string)
    requires AllDigits(x) && AllDigits(y) && |u| > 0 && |v| > 0 && !IsDigit(u[0]) && !IsDigit(v[0])
    requires x + u == y + v
    ensures x == y && u == v
  {
    if |x| < |y| {
      ConcatAt(x, u, |x|);
      ConcatAt(y, v, |x|);
      assert false;
    } else if |y| < |x| {
      ConcatAt(x, u, |y|);
      ConcatAt(y, v, |y|);
      assert false;
    }
    assert x == (x + u)[..|x|] && y == (y + v)[..|y|];
    assert u == (x + u)[|x|..] && v == (y + v)[|y|..];
  }

  /** The summary sentence can be read back: different counts give different sentences. */
  lemma SummaryDeterminesCounts(c1: nat, p1: nat, c2: nat, p2: nat)
    requires SummaryText(c1, p1) == SummaryText(c2, p2)
    ensures c1 == c2 && p1 == p2
  {
    var e := " still pending.";
    var t1 := " tasks. " + (NatToDec(p1) + e);
    var t2 := " tasks. " + (NatToDec(p2) + e);
    PrefixCancel("Completed ", NatToDec(c1) + t1, NatToDec(c2) + t2);
    DigitRunsAlign(NatToDec(c1), NatToDec(c2), t1, t2);
    NatToDecInjective(c1, c2);
    PrefixCancel(" tasks. ", NatToDec(p1) + e, NatToDec(p2) + e);
    DigitRunsAlign(NatToDec(p1), NatToDec(p2), e, e);
    NatToDecInjective(p1, p2);
  }

  /** The summary reports exactly the two counts. */
  lemma SummaryReportsCounts(tasks: seq<TaskInfo>, c: nat, p: nat)
    requires GenerateSummary(tasks) == SummaryText(c, p)
    ensures c == CountStatus(tasks, {"completed"})
    ensures p == CountStatus(tasks, {"pending", "in_progress"})
  {
    SummaryDeterminesCounts(c, p, CountStatus(tasks, {"completed"}), CountStatus(tasks, {"pending", "in_progress"}));
  }

  // ---------- parse_natural_language_task ----------

  /**
   * `dateutil.parser.parse(text, dayfirst=…, fuzzy=True)`: the datetime it
   * reads, at minute resolution and without an offset, or `None` where it
   * raises.
   */
  type DateParser = (string, bool) -> Option<Instant>

  /** `\d{1,2}:\d{2}` matches at `i`: a digit, a colon and two digits (one leading digit suffices). */
  predicate ClockAt(s: string, i: nat) {
    i + 4 <= |s| && IsDigit(s[i]) && s[i + 1] == ':' && IsDigit(s[i + 2]) && IsDigit(s[i + 3])
  }

  /** `\b(am|pm)\b` matches at `i`, in either case. */
  predicate MeridiemAt(s: string, i: nat) {
    && i + 2 <= |s|
    && s[i] in {'a', 'A', 'p', 'P'} && s[i + 1] in {'m', 'M'}
    && (i == 0 || !IsWordChar(s[i - 1]))
    && (i + 2 == |s| || !IsWordChar(s[i + 2]))
  }

  /** `re.search(r"\d{1,2}:\d{2}|\b(am|pm)\b", s[i:], re.I)` succeeds from position `i` on. */
  predicate MentionsTimeFrom(s: string, i: nat)
    decreases |s| - i
  {
    i < |s| && (ClockAt(s, i) || MeridiemAt(s, i) || MentionsTimeFrom(s, i + 1))
  }

  /** The text names a clock time or a meridiem somewhere. */
  predicate MentionsTime(s: string) {
    MentionsTimeFrom(s, 0)
  }

  /** The first reading of the two passes: day first, then month first. */
  function Reading(s: string, parse: DateParser): (r: Option<Instant>)
    ensures parse(s, true).Some? ==> r == parse(s, true)
    ensures parse(s, true).None? ==> r == parse(s, false)
  {
    if parse(s, true).Some? then parse(s, true) else parse(s, false)
  }

  /** Whether the 23:59 rule applies: a midnight reading of text that names no time. */
  predicate Untimed(dt: Instant, s: string) {
    dt.hour == 0 && dt.minute == 0 && !MentionsTime(s)
  }

  /**
   * `_guess_deadline_from_text`: on the ordinal-free text, a day-first
   * parse, else a month-first one; a midnight reading of text that names no
   * time moves to 23:59 of that day; the result is its `isoformat()`.
   */
  function GuessDeadline(text: string, parse: DateParser): (r: Option<string>)
    ensures r.None? <==> text == "" || Reading(StripOrdinals(text), parse).None?
    ensures r.Some? ==> |r.value| == 19
  {
    if text == "" then None
    else
      var s := StripOrdinals(text);
      match Reading(s, parse)
      case None => None
      case Some(dt) =>
        var at: Instant := if Untimed(dt, s) then dt.(hour := 23, minute := 59) else dt;
        Some(IsoFormat(at))
  }

  /** A timed reading, or one whose text names a time, reaches the result unchanged. */
  lemma GuessKeepsTimedReading(text: string, parse: DateParser, dt: Instant)
    requires text != "" && Reading(StripOrdinals(text), parse) == Some(dt)
    requires !Untimed(dt, StripOrdinals(text))
    ensures GuessDeadline(text, parse).Some? && ParseIso(GuessDeadline(text, parse).value) == Some(dt)
  {
    IsoRoundTrip(dt);
  }

  /** A midnight reading of text that names no time becomes 23:59 of the same day. */
  lemma GuessMovesUntimedToEndOfDay(text: string, parse: DateParser, dt: Instant)
    requires text != "" && Reading(StripOrdinals(text), parse) == Some(dt)
    requires Untimed(dt, StripOrdinals(text))
    ensures GuessDeadline(text, parse).Some?
    ensures ParseIso(GuessDeadline(text, parse).value) == Some(DateTime(dt.year, dt.month, dt.day, 23, 59))
  {
    var at: Instant := dt.(hour := 23, minute := 59);
    IsoRoundTrip(at);
  }

  /**
   * "submit report on 5th March" loses its ordinal suffix and names no time,
   * so a midnight reading of "submit report on 5 March" becomes 23:59.
   */
  lemma UntimedExample(parse: DateParser, dt: Instant)
    requires parse("submit report on 5 March", true) == Some(dt) && dt.hour == 0 && dt.minute == 0
    ensures GuessDeadline("submit report on 5th March", parse)
            == Some(IsoFormat(DateTime(dt.year, dt.month, dt.day, 23, 59)))
  {
    ExampleLosesOrdinal();
    ExampleNamesNoTime();
  }

  /** Text without digits in front of `rest` passes through unchanged. */
  lemma {:induction false} NoDigitPrefix(p: string, rest: string)
    requires forall k :: 0 <= k < |p| ==> !IsDigit(p[k])
    ensures StripOrdinals(p + rest) == p + StripOrdinals(rest)
  {
    if p != [] {
      assert (p + rest)[0] == p[0] && (p + rest)[1..] == p[1..] + rest;
      NoDigitPrefix(p[1..], rest);
      assert p == [p[0]] + p[1..];
    } else {
      assert p + rest == rest;
    }
  }

  lemma ExampleLosesOrdinal()
    ensures StripOrdinals("submit report on 5th March") == "submit report on 5 March"
  {
    var p, rest := "submit report on ", " March";
    DigitFree(p);
    DigitFree(rest);
    NoDigitsUnchanged(rest);
    OrdinalFive(rest);
    NoDigitPrefix(p, "5th" + rest);
    ExampleJoins(p, rest);
  }

  lemma DigitFree(s: string)
    requires s == "submit report on " || s == " March"
    ensures forall k :: 0 <= k < |s| ==> !IsDigit(s[k])
  {
  }

  lemma OrdinalFive(rest: string)
    requires rest == " March"
    ensures StripOrdinals("5th" + rest) == "5" + StripOrdinals(rest)
  {
    assert AllDigits("5");
    assert [LowerChar('t'), LowerChar('h')] == "th";
    assert !IsWordChar(rest[0]);
    assert "5" + "th" + rest == "5th" + rest;
    OrdinalRemoved("5", "th", rest);
  }

  lemma ExampleJoins(p: string, rest: string)
    requires p == "submit report on " && rest == " March"
    ensures p + ("5th" + rest) == "submit report on 5th March"
    ensures p + ("5" + rest) == "submit report on 5 March"
  {
  }

  lemma ExampleNamesNoTime()
    ensures !MentionsTime("submit report on 5 March")
  {
    assert !MentionsTimeFrom("submit report on 5 March", 20);
    assert !MentionsTimeFrom("submit report on 5 March", 16);
    assert !MentionsTimeFrom("submit report on 5 March", 11);
    assert !MentionsTimeFrom("submit report on 5 March", 6);
  }

  /** `normalize_deadline`: one day-first parse of the stripped, ordinal-free text, as `isoformat()`. */
  function NormalizeDeadline(deadline: Option<string>, parse: DateParser): (r: Option<string>)
    ensures r.None? <==> !Truthy(deadline) || parse(StripOrdinals(Strip(deadline.value)), true).None?
    ensures r.Some? ==> ParseIso(r.value) == parse(StripOrdinals(Strip(deadline.value)), true)
  {
    if !Truthy(deadline) then None
    else
      match parse(StripOrdinals(Strip(deadline.value)), true)
      case None => None
      case Some(dt) =>
        IsoRoundTrip(dt);
        Some(IsoFormat(dt))
  }

  /**
   * The two deadline readers differ: for the same day-first midnight
   * reading of untimed text, `normalize_deadline` keeps midnight while the
   * guess moves to 23:59.
   */
  lemma NormalizeKeepsMidnight(text: string, parse: DateParser, dt: Instant)
    requires Strip(text) == text && text != ""
    requires parse(StripOrdinals(text), true) == Some(dt) && Untimed(dt, StripOrdinals(text))
    ensures NormalizeDeadline(Some(text), parse) != GuessDeadline(text, parse)
  {
    IsoRoundTrip(dt);
    GuessMovesUntimedToEndOfDay(text, parse, dt);
  }

  /**
   * The parsed JSON reply of the language model. `None` is a missing key;
   * an empty string is `Some("")`. `title` falls back to the English text
   * only when its key is missing, so an empty title stays empty. The other
   * fields are read through `or` or a truthiness test, where an empty value,
   * a JSON null and a missing key all agree.
   */
  datatype Reply = Reply(title: Option<string>, deadline: Option<string>, priority: Option<string>,
                         category: Option<string>, subtasks: seq<string>)

  /** What the language model did: no client, a reply, or an exception anywhere in the call. */
  datatype ModelOutcome = NoClient | Replied(reply: Reply) | Raised

  /** The dictionary `parse_natural_language_task` returns. */
  datatype ParsedTask = ParsedTask(title: string, description: string, deadline: Option<string>,
                                   priority: string, category: string, subtasks: seq<string>,
                                   aiGenerated: bool)

  /** `Some(x)` if truthy, else the alternative: Python's `a or b` on optional strings. */
  function FirstTruthy(a: Option<string>, b: Option<string>): (r: Option<string>)
    ensures Truthy(a) ==> r == a
    ensures !Truthy(a) ==> r == b
  {
    if Truthy(a) then a else b
  }

  /** Python's `s[:n]`. */
  function Head(s: string, n: nat): string {
    if |s| <= n then s else s[..n]
  }

  /**
   * What `parse_natural_language_task` returns, stated on values, given the
   * translation record and the multilingual features of the input.
   */
  function ParsedTaskOf(tr: Translation.Translated, features: Translation.Features,
                        parse: DateParser, model: ModelOutcome): ParsedTask
  {
    var original := tr.originalText;
    var english := tr.translatedText;
    var academic := DetectAcademicCategory(english);
    match model
    case NoClient =>
      ParsedTask(PostClean(CleanTitle(Head(english, 60))), original,
                 FirstTruthy(GuessDeadline(english, parse), GuessDeadline(original, parse)),
                 features.priority, OrElse(Some(academic.GetOr(features.category)), "general"), [], false)
    case Replied(reply) =>
      ParsedTask(PostClean(CleanTitle(reply.title.GetOr(Head(english, 50)))), original,
                 FirstTruthy(NormalizeDeadline(reply.deadline, parse),
                   FirstTruthy(GuessDeadline(english, parse), GuessDeadline(original, parse))),
                 OrElse(reply.priority, OrElse(Some(features.priority), "medium")),
                 academic.GetOr(OrElse(reply.category, OrElse(Some(features.category), "general"))),
                 reply.subtasks, true)
    case Raised =>
      ParsedTask(PostClean(CleanTitle(Head(english, 60))), original, GuessDeadline(english, parse),
                 features.priority, academic.GetOr(OrElse(Some(features.category), "general")), [], false)
  }

  /** What `parse_natural_language_task(userInput)` returns, translation and features included. */
  function ParseResult(userInput: string, detected: string, translator: Option<string>,
                       parse: DateParser, model: ModelOutcome): (t: ParsedTask)
    ensures t.description == userInput
  {
    var tr := Translation.TranslateToEnglish(userInput, None, detected, translator).0;
    var features := Translation.FeaturesOf(userInput, tr.sourceLanguage);
    DescriptionIsOriginal(tr, features, parse, model);
    ParsedTaskOf(tr, features, parse, model)
  }

  /** Every branch keeps the user's own text as the description. */
  lemma DescriptionIsOriginal(tr: Translation.Translated, features: Translation.Features,
                              parse: DateParser, model: ModelOutcome)
    ensures ParsedTaskOf(tr, features, parse, model).description == tr.originalText
  {
  }

  /**
   * `parse_natural_language_task`.  The translator, the language detector,
   * `dateutil` and the language model are inputs: `detected`, `translator`,
   * `parse` and `model`.
   */
  method ParseNaturalLanguageTask(userInput: string, detected: string, translator: Option<string>,
                                  parse: DateParser, model: ModelOutcome)
    returns (t: ParsedTask)
    ensures t == ParseResult(userInput, detected, translator, parse, model)
    ensures t.description == userInput
  {
    var (tr, _) := Translation.TranslateToEnglish(userInput, None, detected, translator);
    var original := tr.originalText;
    var english := tr.translatedText;
    var features := Translation.ExtractMultilingualFeatures(original, tr.sourceLanguage);
    var academic := DetectAcademicCategory(english);
    match model {
      case NoClient =>
        var deadline := FirstTruthy(GuessDeadline(english, parse), GuessDeadline(original, parse));
        var category := academic.GetOr(features.category);
        var title := CleanTitlePhrase(Head(english, 60));
        title := PostCleanTitleEnglish(title);
        t := ParsedTask(title, original, deadline, features.priority, OrElse(Some(category), "general"), [], false);
      case Replied(reply) =>
        var title := CleanTitlePhrase(reply.title.GetOr(Head(english, 50)));
        title := PostCleanTitleEnglish(title);
        var category := academic.GetOr(OrElse(reply.category, OrElse(Some(features.category), "general")));
        var deadline := FirstTruthy(NormalizeDeadline(reply.deadline, parse),
                          FirstTruthy(GuessDeadline(english, parse), GuessDeadline(original, parse)));
        var priority := OrElse(reply.priority, OrElse(Some(features.priority), "medium"));
        t := ParsedTask(title, original, deadline, priority, category, reply.subtasks, true);
      case Raised =>
        var title := CleanTitlePhrase(Head(english, 60));
        title := PostCleanTitleEnglish(title);
        var category := academic.GetOr(OrElse(Some(features.category), "general"));
        t := ParsedTask(title, original, GuessDeadline(english, parse), features.priority, category, [], false);
    }
  }

  /** Post-cleaning keeps a lower-case title lower-case. */
  lemma PostCleanKeepsLower(title: string)
    requires IsLower(title)
    ensures IsLower(PostClean(title))
  {
    var t := title[..Cut(Lower(title), StopWords, |title|)];
    assert IsLower(t) by {
      forall m | 0 <= m < |t|
        ensures !IsUpper(t[m])
      {
        assert t[m] == title[m];
      }
    }
    StripCharsKeepsLower(t, {' ', ',', '.', '-'});
  }

  /**
   * Whatever the model did: the description is the user's own text, the
   * title is lower-case and free of stop words, an academic keyword makes
   * the category "education", and only a model reply marks the task
   * generated or brings subtasks.
   */
  lemma ParsedTaskShape(tr: Translation.Translated, features: Translation.Features,
                        parse: DateParser, model: ModelOutcome, k: nat)
    requires k < |StopWords|
    ensures var t := ParsedTaskOf(tr, features, parse, model);
      && t.description == tr.originalText
      && IsLower(t.title)
      && !Contains(Lower(t.title), StopWords[k])
      && (DetectAcademicCategory(tr.translatedText).Some? ==> t.category == "education")
      && (t.aiGenerated <==> model.Replied?)
      && (!model.Replied? ==> t.subtasks == [])
  {
    var english := tr.translatedText;
    var t := ParsedTaskOf(tr, features, parse, model);
    var raw := if model.Replied? then model.reply.title.GetOr(Head(english, 50)) else Head(english, 60);
    assert t.title == PostClean(CleanTitle(raw));
    TitleFacts(raw, k);
    var academic := DetectAcademicCategory(english);
    if academic.Some? {
      assert academic.value == "education";
      assert t.category == "education" by {
        if model.NoClient? {
          assert t.category == OrElse(Some("education"), "general");
        }
      }
    }
  }

  /** The title pipeline yields lower-case text with no stop word. */
  lemma TitleFacts(raw: string, k: nat)
    requires k < |StopWords|
    ensures IsLower(PostClean(CleanTitle(raw)))
    ensures !Contains(Lower(PostClean(CleanTitle(raw))), StopWords[k])
  {
    CleanTitleShape(raw);
    PostCleanKeepsLower(CleanTitle(raw));
    PostCleanHasNoStopWord(CleanTitle(raw), k);
  }

  /**
   * Without a client the category falls back from the academic keywords to
   * the multilingual category, which is never empty, so "general" appears
   * only as the multilingual default.
   */
  lemma OfflineCategoryPrecedence(userInput: string, tr: Translation.Translated, parse: DateParser)
    ensures var features := Translation.FeaturesOf(userInput, tr.sourceLanguage);
      var m := Translation.FirstMatch(Lower(userInput), tr.sourceLanguage, Translation.CategoryTable);
      var t := ParsedTaskOf(tr, features, parse, NoClient);
      && (DetectAcademicCategory(tr.translatedText).None? && m.Some? ==> t.category == m.value)
      && (DetectAcademicCategory(tr.translatedText).None? && m.None? ==> t.category == "general")
  {
    Translation.CategoryNamesNonEmpty(Lower(userInput), tr.sourceLanguage);
  }
}
