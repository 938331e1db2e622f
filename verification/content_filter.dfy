/**
 * The rule-based danmaku content filter (`DanmakuContentFilter`).
 *
 * A text is checked against the in-memory rule list in descending priority.
 * Each enabled rule of kind Length, RateLimit, Keyword or Regex either
 * matches or not; a matching rule is recorded, may raise the risk level and
 * then acts: Block and Review stop the scan, Replace rewrites the filtered
 * text, Warning adds a warning.  After the scan the sensitive-word list is
 * checked against the original text.  An exception inside the scan gives the
 * conservative fail-safe verdict instead.
 *
 * The rule table is an in-memory sequence of rows in insertion order;
 * `INSERT OR REPLACE` deletes the row with the same id and appends the new
 * one.  Regular expressions are an oracle (`RegexEngine`).
 */
module ContentFilter {
  import opened Wrappers
  import opened Text
  import opened Ranking

  // ---------------------------------------------------------------------
  // Enumerations and their stored values

  datatype FilterAction = Allow | Block | Warning | Replace | Review | Quarantine

  datatype FilterType = Keyword | Regex | Length | RateLimit | ContentType | UserLevel | Sentiment

  datatype RiskLevel = Low | Medium | High | Critical

  function ActionValue(a: FilterAction): string {
    match a
    case Allow => "allow"
    case Block => "block"
    case Warning => "warning"
    case Replace => "replace"
    case Review => "review"
    case Quarantine => "quarantine"
  }

  function TypeValue(t: FilterType): string {
    match t
    case Keyword => "keyword"
    case Regex => "regex"
    case Length => "length"
    case RateLimit => "rate_limit"
    case ContentType => "content_type"
    case UserLevel => "user_level"
    case Sentiment => "sentiment"
  }

  function RiskValue(r: RiskLevel): string {
    match r
    case Low => "low"
    case Medium => "medium"
    case High => "high"
    case Critical => "critical"
  }

  /** `FilterAction(value)`: the member with that value, or ValueError. */
  function ParseAction(s: string): (r: Option<FilterAction>)
    ensures r.Some? ==> ActionValue(r.value) == s
    ensures forall a :: ActionValue(a) == s ==> r == Some(a)
  {
    if s == "allow" then Some(Allow)
    else if s == "block" then Some(Block)
    else if s == "warning" then Some(Warning)
    else if s == "replace" then Some(Replace)
    else if s == "review" then Some(Review)
    else if s == "quarantine" then Some(Quarantine)
    else None
  }

  /** `FilterType(value)`. */
  function ParseType(s: string): (r: Option<FilterType>)
    ensures r.Some? ==> TypeValue(r.value) == s
    ensures forall t :: TypeValue(t) == s ==> r == Some(t)
  {
    if s == "keyword" then Some(Keyword)
    else if s == "regex" then Some(Regex)
    else if s == "length" then Some(Length)
    else if s == "rate_limit" then Some(RateLimit)
    else if s == "content_type" then Some(ContentType)
    else if s == "user_level" then Some(UserLevel)
    else if s == "sentiment" then Some(Sentiment)
    else None
  }

  /** `RiskLevel(value)`. */
  function ParseRisk(s: string): (r: Option<RiskLevel>)
    ensures r.Some? ==> RiskValue(r.value) == s
    ensures forall l :: RiskValue(l) == s ==> r == Some(l)
  {
    if s == "low" then Some(Low)
    else if s == "medium" then Some(Medium)
    else if s == "high" then Some(High)
    else if s == "critical" then Some(Critical)
    else None
  }

  function RiskOrder(r: RiskLevel): nat {
    match r
    case Low => 0
    case Medium => 1
    case High => 2
    case Critical => 3
  }

  // ---------------------------------------------------------------------
  // Rules, results and the regular-expression oracle

  /** One row of the rule table; timestamps are integer seconds. */
  datatype FilterRule = FilterRule(
    id: string,
    name: string,
    filterType: FilterType,
    pattern: string,
    action: FilterAction,
    riskLevel: RiskLevel,
    replacement: string,
    enabled: bool,
    priority: int,
    description: string,
    createdBy: int,
    createdAt: int,
    updatedAt: int)

  datatype FilterResult = FilterResult(
    isBlocked: bool,
    action: FilterAction,
    riskLevel: RiskLevel,
    matchedRules: seq<string>,
    originalText: string,
    filteredText: string,
    warnings: seq<string>)

  /** One row of the audit table. */
  datatype AuditRecord = AuditRecord(
    userId: int,
    originalText: string,
    filteredText: string,
    action: FilterAction,
    riskLevel: RiskLevel,
    matchedRules: seq<string>,
    warnings: seq<string>,
    createdAt: int)

  /**
   * Python's `re`, used through three questions:
   *  - `search(pattern, text)`: does the case-insensitive compiled pattern
   *    find a match (None when the pattern does not compile);
   *  - `sub(pattern, replacement, text)`: the case-insensitive substitution
   *    (None when the pattern or the replacement template is invalid);
   *  - `literalSub(keyword, replacement, text)`: substitution of the escaped
   *    keyword with a replacement that contains a backslash and is therefore
   *    read as a template (None when the template is invalid).
   */
  datatype RegexEngine = RegexEngine(
    search: (string, string) -> Option<bool>,
    sub: (string, string, string) -> Option<string>,
    literalSub: (string, string, string) -> Option<string>)

  /** The inputs of one filtering call. */
  datatype Ctx = Ctx(text: string, user: int, now: int, regex: RegexEngine)

  // ---------------------------------------------------------------------
  // The individual checks

  /** A Length rule: the pattern is the maximum length. */
  predicate LengthMatches(text: string, pattern: string) {
    match ParseInt(pattern)
    case Some(max) => |text| > max
    case None => false
  }

  /** A Length rule whose pattern is the decimal text of `n` matches exactly
      the texts longer than `n`. */
  lemma LengthOfDecimalPattern(text: string, n: int)
    ensures LengthMatches(text, IntToString(n)) <==> |text| > n
  {
    ParseIntOfIntToString(n);
  }

  /** The default length rule blocks texts longer than 200 characters. */
  lemma DefaultLengthLimit(text: string)
    ensures LengthMatches(text, "200") <==> |text| > 200
  {
    assert IntToString(200) == "200";
    LengthOfDecimalPattern(text, 200);
  }

  /** `max_count, window_seconds = map(int, pattern.split(','))`: exactly two
      integer fields, else ValueError (here None). */
  function ParseRatePattern(pattern: string): Option<(int, int)> {
    var parts := Split(pattern, ',');
    if |parts| != 2 then None
    else match (ParseInt(parts[0]), ParseInt(parts[1]))
      case (Some(count), Some(window)) => Some((count, window))
      case _ => None
  }

  /** The timestamps younger than `window` seconds at time `now`, in order. */
  function Recent(ts: seq<int>, now: int, window: int): (r: seq<int>)
    ensures |r| <= |ts|
    ensures forall k :: 0 <= k < |r| ==> now - r[k] < window
    ensures forall k :: 0 <= k < |ts| && now - ts[k] < window ==> ts[k] in r
    ensures forall t :: t in r ==> t in ts
  {
    if ts == [] then []
    else (if now - ts[0] < window then [ts[0]] else []) + Recent(ts[1..], now, window)
  }

  /** A RateLimit rule: whether the user is over the limit, and the new
      per-user log.  The log is pruned first; the current time is recorded
      only when the call is not over the limit; a malformed pattern never
      matches and leaves the log as it was. */
  function RateCheck(log: map<int, seq<int>>, user: int, pattern: string, now: int): (r: (bool, map<int, seq<int>>))
    ensures ParseRatePattern(pattern).None? ==> r == (false, log)
    ensures forall u :: u != user ==> (u in r.1 <==> u in log)
    ensures forall u :: u != user && u in log ==> r.1[u] == log[u]
  {
    match ParseRatePattern(pattern)
    case None => (false, log)
    case Some((count, window)) =>
      var kept := if user in log then Recent(log[user], now, window) else [];
      if |kept| >= count then (true, log[user := kept])
      else (false, log[user := kept + [now]])
  }

  /** A well-formed check leaves the user's log holding only timestamps
      inside the window, and records the call exactly when it does not
      match. */
  lemma RateCheckWindow(log: map<int, seq<int>>, user: int, pattern: string, now: int, count: int, window: int)
    requires ParseRatePattern(pattern) == Some((count, window))
    requires window > 0
    ensures var (m, log') := RateCheck(log, user, pattern, now);
      user in log'
      && (forall k :: 0 <= k < |log'[user]| ==> now - log'[user][k] < window)
      && (!m <==> |log'[user]| > 0 && log'[user][|log'[user]| - 1] == now && (user in log ==> |log'[user]| == |Recent(log[user], now, window)| + 1))
  {
  }

  /** The sliding window never holds more than `count` timestamps for a user
      once it holds at most `count`. */
  lemma RateLogStaysBounded(log: map<int, seq<int>>, user: int, pattern: string, now: int, count: int, window: int)
    requires ParseRatePattern(pattern) == Some((count, window))
    requires count >= 0
    requires user in log ==> |log[user]| <= count
    ensures user in RateCheck(log, user, pattern, now).1
    ensures |RateCheck(log, user, pattern, now).1[user]| <= count
  {
  }

  /** One term of a Keyword rule occurs in the text: `_check_keyword`
      strips and lowercases the term and looks for it in the lowercased
      text. */
  predicate TermIn(text: string, term: string) {
    ContainsCI(text, Strip(term))
  }

  predicate AnyTermIn(terms: seq<string>, text: string) {
    terms != [] && (TermIn(text, terms[0]) || AnyTermIn(terms[1..], text))
  }

  /** `_check_keyword`: the terms are the comma-separated pieces of the
      pattern. */
  predicate KeywordMatches(text: string, pattern: string) {
    AnyTermIn(Split(pattern, ','), text)
  }

  /** A Keyword rule matches iff one of its terms occurs in the text,
      ignoring case and the white space around the term. */
  lemma {:induction false} AnyTermInIff(terms: seq<string>, text: string)
    ensures AnyTermIn(terms, text) <==> exists k :: 0 <= k < |terms| && TermIn(text, terms[k])
    decreases |terms|
  {
    if terms != [] {
      AnyTermInIff(terms[1..], text);
      if AnyTermIn(terms[1..], text) {
        var k :| 0 <= k < |terms[1..]| && TermIn(text, terms[1..][k]);
        assert TermIn(text, terms[k + 1]);
      }
      if exists k :: 0 <= k < |terms| && TermIn(text, terms[k]) {
        var k :| 0 <= k < |terms| && TermIn(text, terms[k]);
        if k > 0 {
          assert terms[1..][k - 1] == terms[k];
        }
      }
    }
  }

  /** A pattern with an empty term (`"a,,b"`, or an empty pattern) matches
      every text. */
  lemma KeywordEmptyTermMatchesAll(text: string, pattern: string, k: nat)
    requires k < |Split(pattern, ',')| && Strip(Split(pattern, ',')[k]) == ""
    ensures KeywordMatches(text, pattern)
  {
    EmptyContained(Lower(text));
    assert TermIn(text, Split(pattern, ',')[k]);
    AnyTermInIff(Split(pattern, ','), text);
  }

  /** A Regex rule: the oracle's answer, with a pattern that does not
      compile counting as no match. */
  predicate RegexMatches(regex: RegexEngine, text: string, pattern: string) {
    match regex.search(pattern, text)
    case Some(found) => found
    case None => false
  }

  /** `_check_sensitive_words`: the words of the list that occur in the
      text, ignoring case, in list order. */
  function SensitiveHits(words: seq<string>, text: string): (r: seq<string>)
    ensures forall w :: w in r <==> w in words && ContainsCI(text, w)
    ensures |r| <= |words|
  {
    if words == [] then []
    else (if ContainsCI(text, words[0]) then [words[0]] else []) + SensitiveHits(words[1..], text)
  }

  function SensitiveWarnings(hits: seq<string>): (r: seq<string>)
    ensures |r| == |hits|
  {
    seq(|hits|, k requires 0 <= k < |hits| => "包含敏感词: " + hits[k])
  }

  function WarningText(ruleName: string): string {
    "触发规则: " + ruleName
  }

  // ---------------------------------------------------------------------
  // Replacement

  /** `re.sub(re.escape(keyword), replacement, text, flags=re.IGNORECASE)`:
      a replacement without a backslash is inserted literally; one with a
      backslash is a template the oracle expands, and may be invalid. */
  function SubLiteral(text: string, keyword: string, replacement: string, regex: RegexEngine): Option<string> {
    if '\\' in replacement then regex.literalSub(keyword, replacement, text)
    else Some(ReplaceAllCI(text, keyword, replacement))
  }

  /** The keyword branch of `_apply_replacement`: each stripped term in turn
      is replaced in the text produced by the previous ones. */
  function KeywordReplace(text: string, terms: seq<string>, replacement: string, regex: RegexEngine): Option<string>
    decreases |terms|
  {
    if terms == [] then Some(text)
    else match SubLiteral(text, Strip(terms[0]), replacement, regex)
      case None => None
      case Some(t) => KeywordReplace(t, terms[1..], replacement, regex)
  }

  /** `_apply_replacement`: None when the keyword substitution raises; the
      regex branch swallows `re.error` and keeps the text; other kinds of
      rule leave the text as it is. */
  function Replacement(text: string, rule: FilterRule, regex: RegexEngine): Option<string> {
    if rule.filterType == Keyword then KeywordReplace(text, Split(rule.pattern, ','), rule.replacement, regex)
    else if rule.filterType == Regex then
      match regex.sub(rule.pattern, rule.replacement, text)
      case Some(t) => Some(t)
      case None => Some(text)
    else Some(text)
  }

  /** A replacement without a backslash never raises. */
  lemma {:induction false} KeywordReplaceLiteralSucceeds(text: string, terms: seq<string>, replacement: string, regex: RegexEngine)
    requires '\\' !in replacement
    ensures KeywordReplace(text, terms, replacement, regex).Some?
    decreases |terms|
  {
    if terms != [] {
      KeywordReplaceLiteralSucceeds(ReplaceAllCI(text, Strip(terms[0]), replacement), terms[1..], replacement, regex);
    }
  }

  /** When no term of a Keyword rule occurs in the text, replacing its terms
      leaves the text unchanged: the check and the replacement agree. */
  lemma {:induction false} KeywordReplaceWithoutMatch(text: string, terms: seq<string>, replacement: string, regex: RegexEngine)
    requires '\\' !in replacement
    requires !AnyTermIn(terms, text)
    ensures KeywordReplace(text, terms, replacement, regex) == Some(text)
    decreases |terms|
  {
    if terms != [] {
      var kw := Strip(terms[0]);
      if kw == [] {
        EmptyContained(Lower(text));
        assert false;
      }
      ReplaceAllAbsent(text, kw, replacement);
      KeywordReplaceWithoutMatch(text, terms[1..], replacement, regex);
    }
  }

  // ---------------------------------------------------------------------
  // Risk escalation

  /**
   * The nested conditional that updates `highest_risk` when a rule matches.
   * As written it changes the level only while the level is Low, so the
   * level reached is the first non-Low level among the matched rules, not
   * the highest one: Escalate(Medium, Critical) is Medium.
   */
  function Escalate(highest: RiskLevel, level: RiskLevel): RiskLevel {
    if level == Critical || highest != Critical then
      if level == High || (highest != Critical && highest != High) then
        if level == Medium || highest == Low then level else highest
      else highest
    else highest
  }

  /** The escalation moves only from Low, and never lowers the level. */
  lemma EscalateOnlyFromLow(highest: RiskLevel, level: RiskLevel)
    ensures Escalate(highest, level) == (if highest == Low then level else highest)
    ensures RiskOrder(Escalate(highest, level)) >= RiskOrder(highest)
  {
    match highest
    case Low =>
    case Medium =>
    case High =>
    case Critical =>
  }

  function FirstNonLow(levels: seq<RiskLevel>): RiskLevel {
    if levels == [] then Low
    else if levels[0] != Low then levels[0]
    else FirstNonLow(levels[1..])
  }

  /** Folding `Escalate` over the matched levels yields the first of them
      that is not Low. */
  lemma {:induction false} FirstNonLowSnoc(levels: seq<RiskLevel>, l: RiskLevel)
    ensures FirstNonLow(levels + [l]) == Escalate(FirstNonLow(levels), l)
    decreases |levels|
  {
    EscalateOnlyFromLow(FirstNonLow(levels), l);
    if levels != [] {
      assert (levels + [l])[1..] == levels[1..] + [l];
      FirstNonLowSnoc(levels[1..], l);
      EscalateOnlyFromLow(FirstNonLow(levels[1..]), l);
    }
  }

  // ---------------------------------------------------------------------
  // The rule loop of `filter_content`

  datatype ScanStatus = Running | Stopped | Failed

  /** The state of the rule loop: the result being built, `highest_risk`,
      `matched_rules`, the risk levels of the matched rules, the rate-limit
      log, and whether the loop broke off or raised. */
  datatype Scan = Scan(
    result: FilterResult,
    highest: RiskLevel,
    matched: seq<string>,
    levels: seq<RiskLevel>,
    log: map<int, seq<int>>,
    status: ScanStatus)

  function Start(text: string, log: map<int, seq<int>>): Scan {
    Scan(FilterResult(false, Allow, Low, [], text, text, []), Low, [], [], log, Running)
  }

  /** Whether a rule matches, and the rate-limit log afterwards. */
  function RuleMatches(rule: FilterRule, c: Ctx, log: map<int, seq<int>>): (bool, map<int, seq<int>>) {
    match rule.filterType
    case Length => (LengthMatches(c.text, rule.pattern), log)
    case RateLimit => RateCheck(log, c.user, rule.pattern, c.now)
    case Keyword => (KeywordMatches(c.text, rule.pattern), log)
    case Regex => (RegexMatches(c.regex, c.text, rule.pattern), log)
    case _ => (false, log)
  }

  /** One iteration of the rule loop. */
  function Step(s: Scan, rule: FilterRule, c: Ctx): Scan {
    if s.status != Running || !rule.enabled then s
    else
      var check := RuleMatches(rule, c, s.log);
      if !check.0 then s.(log := check.1)
      else Act(Record(s, rule, check.1), rule, c)
  }

  /** A matched rule is recorded and the risk level escalated. */
  function Record(s: Scan, rule: FilterRule, log: map<int, seq<int>>): Scan {
    s.(log := log, matched := s.matched + [rule.id], levels := s.levels + [rule.riskLevel],
       highest := Escalate(s.highest, rule.riskLevel))
  }

  /** The action of a matched rule. */
  function Act(s: Scan, rule: FilterRule, c: Ctx): Scan {
    if rule.action == Block then
      s.(result := s.result.(isBlocked := true, action := Block), status := Stopped)
    else if rule.action == Replace then
      var t := Replacement(s.result.filteredText, rule, c.regex);
      if t.None? then s.(status := Failed)
      else s.(result := s.result.(filteredText := t.value, action := Replace))
    else if rule.action == Warning then
      s.(result := s.result.(warnings := s.result.warnings + [WarningText(rule.name)], action := Warning))
    else if rule.action == Review then
      s.(result := s.result.(action := Review), status := Stopped)
    else s
  }

  /** The rule loop over `rules` in order, from state `s0`. */
  function Run(rules: seq<FilterRule>, c: Ctx, s0: Scan): Scan {
    if rules == [] then s0
    else Step(Run(rules[..|rules| - 1], c, s0), rules[|rules| - 1], c)
  }

  /** Once the loop has broken off (Block, Review) or raised, the remaining
      rules are not looked at: not checked, not recorded in the rate-limit
      log. */
  lemma {:induction false} RunStuck(done: seq<FilterRule>, rest: seq<FilterRule>, c: Ctx, s0: Scan)
    requires Run(done, c, s0).status != Running
    ensures Run(done + rest, c, s0) == Run(done, c, s0)
    decreases |rest|
  {
    if rest == [] {
      assert done + rest == done;
    } else {
      var all := done + rest;
      assert all[..|all| - 1] == done + rest[..|rest| - 1];
      RunStuck(done, rest[..|rest| - 1], c, s0);
      assert Run(all, c, s0) == Step(Run(done + rest[..|rest| - 1], c, s0), all[|all| - 1], c);
    }
  }

  /** The facts the loop keeps about its state. */
  predicate Coherent(s: Scan, text: string) {
    && s.result.originalText == text
    && s.result.matchedRules == []
    && s.result.riskLevel == Low
    && |s.matched| == |s.levels|
    && s.highest == FirstNonLow(s.levels)
    && (s.result.isBlocked <==> s.status == Stopped && s.result.action == Block)
    && (s.status == Stopped ==> s.result.action == Block || s.result.action == Review)
    && (s.status != Stopped ==> s.result.action != Block && s.result.action != Review)
  }

  /** Every recorded match is an enabled rule of the list, with its risk
      level. */
  predicate MatchesFromRules(s: Scan, rules: seq<FilterRule>) {
    |s.matched| == |s.levels| &&
    forall k :: 0 <= k < |s.matched| ==>
      exists j :: 0 <= j < |rules| && rules[j].enabled && rules[j].id == s.matched[k] && rules[j].riskLevel == s.levels[k]
  }

  /** One step keeps the loop's facts. */
  lemma StepCoherent(s: Scan, rule: FilterRule, c: Ctx)
    requires Coherent(s, c.text)
    ensures Coherent(Step(s, rule, c), c.text)
  {
    if s.status == Running && rule.enabled {
      var check := RuleMatches(rule, c, s.log);
      if check.0 {
        var s1 := Record(s, rule, check.1);
        FirstNonLowSnoc(s.levels, rule.riskLevel);
        assert Coherent(s1, c.text);
        ActCoherent(s1, rule, c);
      }
    }
  }

  lemma ActCoherent(s: Scan, rule: FilterRule, c: Ctx)
    requires Coherent(s, c.text) && s.status == Running
    ensures Coherent(Act(s, rule, c), c.text)
  {
  }

  /** One step records a match only for an enabled rule, with its level. */
  lemma StepRecords(s: Scan, rule: FilterRule, c: Ctx)
    requires |s.matched| == |s.levels|
    ensures var s' := Step(s, rule, c);
      && |s'.matched| == |s'.levels|
      && ((s'.matched == s.matched && s'.levels == s.levels)
          || (rule.enabled && s'.matched == s.matched + [rule.id] && s'.levels == s.levels + [rule.riskLevel]))
  {
  }

  lemma {:induction false} RunCoherent(rules: seq<FilterRule>, c: Ctx, log: map<int, seq<int>>)
    ensures Coherent(Run(rules, c, Start(c.text, log)), c.text)
    ensures MatchesFromRules(Run(rules, c, Start(c.text, log)), rules)
    decreases |rules|
  {
    if rules != [] {
      var init, last := rules[..|rules| - 1], rules[|rules| - 1];
      RunCoherent(init, c, log);
      var s := Run(init, c, Start(c.text, log));
      var s' := Step(s, last, c);
      assert Run(rules, c, Start(c.text, log)) == s';
      StepCoherent(s, last, c);
      StepRecords(s, last, c);
      forall k | 0 <= k < |s'.matched|
        ensures exists j :: 0 <= j < |rules| && rules[j].enabled && rules[j].id == s'.matched[k] && rules[j].riskLevel == s'.levels[k]
      {
        if k < |s.matched| {
          var j :| 0 <= j < |init| && init[j].enabled && init[j].id == s.matched[k] && init[j].riskLevel == s.levels[k];
          assert rules[j] == init[j];
        } else {
          assert rules[|rules| - 1] == last;
        }
      }
    }
  }

  /** The recorded matches come from the rules at the positions `js`,
      which increase strictly (the loop visits the rules in order and
      records each at most once); a loop that broke off stopped at the
      last recorded rule, and that rule blocks or sends to review. */
  predicate OrderedMatches(js: seq<nat>, s: Scan, rules: seq<FilterRule>) {
    && |js| == |s.matched| == |s.levels|
    && (forall k :: 0 <= k < |js| ==>
          js[k] < |rules| && rules[js[k]].enabled && rules[js[k]].id == s.matched[k] && rules[js[k]].riskLevel == s.levels[k])
    && (forall k, l :: 0 <= k < l < |js| ==> js[k] < js[l])
    && (s.status == Stopped ==>
          |js| > 0 && (rules[js[|js| - 1]].action == Block || rules[js[|js| - 1]].action == Review))
  }

  /** The rule at position `j` fires: the loop reaches it still running,
      it is enabled, and its check matches under the rate-limit log of that
      moment. */
  predicate Fires(rules: seq<FilterRule>, j: int, c: Ctx, s0: Scan) {
    && 0 <= j < |rules|
    && var s := Run(rules[..j], c, s0);
       s.status == Running && rules[j].enabled && RuleMatches(rules[j], c, s.log).0
  }

  /** The positions `js` are exactly those of the rules that fire. */
  predicate FiredExactly(js: seq<nat>, rules: seq<FilterRule>, c: Ctx, s0: Scan) {
    forall j :: 0 <= j < |rules| ==> (j in js <==> Fires(rules, j, c, s0))
  }

  /** One more rule keeps the order: it is recorded, after all earlier
      matches, exactly when the loop is still running, the rule is enabled
      and its check matches. */
  lemma StepOrdered(js: seq<nat>, s: Scan, rules: seq<FilterRule>, c: Ctx)
    requires rules != [] && OrderedMatches(js, s, rules[..|rules| - 1])
    ensures var last := rules[|rules| - 1];
      var fires := s.status == Running && last.enabled && RuleMatches(last, c, s.log).0;
      OrderedMatches(if fires then js + [|rules| - 1] else js, Step(s, last, c), rules)
  {
    var init, last := rules[..|rules| - 1], rules[|rules| - 1];
    assert forall j :: 0 <= j < |init| ==> rules[j] == init[j];
    var s' := Step(s, last, c);
    if s.status == Running && last.enabled && RuleMatches(last, c, s.log).0 {
      var js' := js + [|rules| - 1];
      assert s'.matched == s.matched + [last.id] && s'.levels == s.levels + [last.riskLevel];
      assert s'.status == Stopped ==> last.action == Block || last.action == Review;
      assert OrderedMatches(js', s', rules);
    } else {
      assert OrderedMatches(js, s', rules);
    }
  }

  /** Appending a rule does not change whether an earlier rule fires. */
  lemma FiresPrefix(rules: seq<FilterRule>, j: int, c: Ctx, s0: Scan)
    requires rules != [] && 0 <= j < |rules| - 1
    ensures Fires(rules, j, c, s0) == Fires(rules[..|rules| - 1], j, c, s0)
  {
    assert rules[..|rules| - 1][..j] == rules[..j];
  }

  /** One more rule extends the positions that fire by its own position
      exactly when it fires. */
  lemma FiredStep(js: seq<nat>, rules: seq<FilterRule>, c: Ctx, s0: Scan)
    requires rules != [] && FiredExactly(js, rules[..|rules| - 1], c, s0)
    requires forall k :: 0 <= k < |js| ==> js[k] < |rules| - 1
    ensures var n := |rules| - 1;
      var s := Run(rules[..n], c, s0);
      var fires := s.status == Running && rules[n].enabled && RuleMatches(rules[n], c, s.log).0;
      FiredExactly(if fires then js + [n] else js, rules, c, s0)
  {
    var n := |rules| - 1;
    var s := Run(rules[..n], c, s0);
    var fires := s.status == Running && rules[n].enabled && RuleMatches(rules[n], c, s.log).0;
    var js' := if fires then js + [n] else js;
    forall j | 0 <= j < |rules|
      ensures j in js' <==> Fires(rules, j, c, s0)
    {
      if j < n {
        FiresPrefix(rules, j, c, s0);
      }
    }
  }

  /** `filter_content` checks the rules in the given order: the recorded
      matches are exactly the rules that fire, in rule order, and a scan
      that broke off ends with the Block or Review rule that stopped it. */
  lemma {:induction false} RunInOrder(rules: seq<FilterRule>, c: Ctx, log: map<int, seq<int>>)
    ensures exists js :: OrderedMatches(js, Run(rules, c, Start(c.text, log)), rules)
                         && FiredExactly(js, rules, c, Start(c.text, log))
    decreases |rules|
  {
    var s0 := Start(c.text, log);
    if rules == [] {
      var none: seq<nat> := [];
      assert Run(rules, c, s0) == s0;
      assert OrderedMatches(none, s0, rules) && FiredExactly(none, rules, c, s0);
    } else {
      var init, n := rules[..|rules| - 1], |rules| - 1;
      RunInOrder(init, c, log);
      var s := Run(init, c, s0);
      var js: seq<nat> :| OrderedMatches(js, s, init) && FiredExactly(js, init, c, s0);
      var fires := s.status == Running && rules[n].enabled && RuleMatches(rules[n], c, s.log).0;
      StepOrdered(js, s, rules, c);
      FiredStep(js, rules, c, s0);
      var js' := if fires then js + [n] else js;
      assert Run(rules, c, s0) == Step(s, rules[n], c);
      assert OrderedMatches(js', Run(rules, c, s0), rules) && FiredExactly(js', rules, c, s0);
    }
  }

  /** Without Replace rules the loop never changes the text and never
      raises. */
  lemma {:induction false} RunWithoutReplace(rules: seq<FilterRule>, c: Ctx, log: map<int, seq<int>>)
    requires forall k :: 0 <= k < |rules| ==> rules[k].action != Replace
    ensures Run(rules, c, Start(c.text, log)).result.filteredText == c.text
    ensures Run(rules, c, Start(c.text, log)).status != Failed
    decreases |rules|
  {
    if rules != [] {
      RunWithoutReplace(rules[..|rules| - 1], c, log);
    }
  }

  /** Replacements without a backslash never raise, so the loop never
      fails. */
  lemma {:induction false} RunWithLiteralReplacements(rules: seq<FilterRule>, c: Ctx, log: map<int, seq<int>>)
    requires forall k :: 0 <= k < |rules| ==> '\\' !in rules[k].replacement
    ensures Run(rules, c, Start(c.text, log)).status != Failed
    decreases |rules|
  {
    if rules != [] {
      var init, last := rules[..|rules| - 1], rules[|rules| - 1];
      RunWithLiteralReplacements(init, c, log);
      var s := Run(init, c, Start(c.text, log));
      if last.filterType == Keyword {
        KeywordReplaceLiteralSucceeds(s.result.filteredText, Split(last.pattern, ','), last.replacement, c.regex);
      }
    }
  }

  // ---------------------------------------------------------------------
  // The whole of `filter_content`

  /** The verdict, the rate-limit log afterwards, and whether an audit
      record is written (only on the normal path). */
  datatype Evaluation = Evaluation(result: FilterResult, log: map<int, seq<int>>, audited: bool)

  /** The conservative verdict of the exception handler. */
  function FailSafe(text: string): FilterResult {
    FilterResult(true, Review, High, [], text, text, ["过滤系统错误，需要人工审核"])
  }

  function PriorityRank(rule: FilterRule): Rank {
    Rank(rule.priority, 0)
  }

  /** `filter_content`: the stable priority sort, the rule loop, then the
      sensitive-word scan of the original text. */
  function Evaluate(rules: seq<FilterRule>, c: Ctx, log: map<int, seq<int>>, words: seq<string>): Evaluation {
    var s := Run(SortByRank(rules, PriorityRank), c, Start(c.text, log));
    if s.status == Failed then Evaluation(FailSafe(c.text), s.log, false)
    else
      var hits := SensitiveHits(words, c.text);
      Evaluation(
        s.result.(warnings := s.result.warnings + SensitiveWarnings(hits),
                  riskLevel := if |hits| > 0 && s.highest == Low then Medium else s.highest,
                  matchedRules := s.matched),
        s.log, true)
  }

  function AuditOf(user: int, r: FilterResult, now: int): AuditRecord {
    AuditRecord(user, r.originalText, r.filteredText, r.action, r.riskLevel, r.matchedRules, r.warnings, now)
  }

  /** The verdict is consistent: Block always blocks, a blocked text is
      either a Block or the fail-safe Review, a Review from a rule does not
      block, and the fail-safe is the only unaudited outcome. */
  lemma EvaluateVerdict(rules: seq<FilterRule>, c: Ctx, log: map<int, seq<int>>, words: seq<string>)
    ensures var e := Evaluate(rules, c, log, words);
      && e.result.originalText == c.text
      && (e.result.action == Block ==> e.result.isBlocked)
      && (e.result.isBlocked ==> e.result.action == Block || e.result.action == Review)
      && (e.audited && e.result.action == Review ==> !e.result.isBlocked)
      && (!e.audited ==> e.result == FailSafe(c.text))
  {
    RunCoherent(SortByRank(rules, PriorityRank), c, log);
  }

  /** The reported risk is the first non-Low level among the matched rules
      (in evaluation order), raised from Low to Medium by a sensitive word;
      the matched ids are those of enabled rules, each with its level. */
  lemma EvaluateRisk(rules: seq<FilterRule>, c: Ctx, log: map<int, seq<int>>, words: seq<string>)
    ensures var sorted := SortByRank(rules, PriorityRank);
      var s := Run(sorted, c, Start(c.text, log));
      var e := Evaluate(rules, c, log, words);
      && MatchesFromRules(s, sorted)
      && (e.audited ==> e.result.matchedRules == s.matched)
      && (e.audited ==>
            e.result.riskLevel == if |SensitiveHits(words, c.text)| > 0 && FirstNonLow(s.levels) == Low then Medium else FirstNonLow(s.levels))
  {
    RunCoherent(SortByRank(rules, PriorityRank), c, log);
  }

  /** The sensitive-word scan runs even after Block or Review: any sensitive
      word in the text appears among the warnings and lifts the risk above
      Low. */
  lemma EvaluateSensitive(rules: seq<FilterRule>, c: Ctx, log: map<int, seq<int>>, words: seq<string>, w: string)
    requires w in words && ContainsCI(c.text, w)
    requires forall k :: 0 <= k < |rules| ==> '\\' !in rules[k].replacement
    ensures var e := Evaluate(rules, c, log, words);
      e.audited && "包含敏感词: " + w in e.result.warnings && e.result.riskLevel != Low
  {
    var sorted := SortByRank(rules, PriorityRank);
    SortByRankCorrect(rules, PriorityRank);
    forall k | 0 <= k < |sorted|
      ensures '\\' !in sorted[k].replacement
    {
      assert sorted[k] in multiset(rules);
    }
    RunWithLiteralReplacements(sorted, c, log);
    var hits := SensitiveHits(words, c.text);
    var i :| 0 <= i < |hits| && hits[i] == w;
    var e := Evaluate(rules, c, log, words);
    var s := Run(sorted, c, Start(c.text, log));
    assert SensitiveWarnings(hits)[i] == "包含敏感词: " + w;
    assert e.result.warnings == s.result.warnings + SensitiveWarnings(hits);
    assert e.result.warnings[|s.result.warnings| + i] == "包含敏感词: " + w;
  }

  /** A rule list without Replace rules never changes the text. */
  lemma EvaluateWithoutReplace(rules: seq<FilterRule>, c: Ctx, log: map<int, seq<int>>, words: seq<string>)
    requires forall k :: 0 <= k < |rules| ==> rules[k].action != Replace
    ensures Evaluate(rules, c, log, words).audited
    ensures Evaluate(rules, c, log, words).result.filteredText == c.text
  {
    var sorted := SortByRank(rules, PriorityRank);
    SortByRankCorrect(rules, PriorityRank);
    forall k | 0 <= k < |sorted|
      ensures sorted[k].action != Replace
    {
      assert sorted[k] in multiset(rules);
    }
    RunWithoutReplace(sorted, c, log);
  }

  // ---------------------------------------------------------------------
  // The rule table

  predicate UniqueIds(rows: seq<FilterRule>) {
    forall i, j :: 0 <= i < j < |rows| ==> rows[i].id != rows[j].id
  }

  /** `DELETE FROM filter_rules WHERE id = ?`: the other rows, in order. */
  function RemoveId(rows: seq<FilterRule>, id: string): (r: seq<FilterRule>)
    ensures forall k :: 0 <= k < |r| ==> r[k].id != id
    ensures |r| <= |rows|
  {
    if rows == [] then []
    else (if rows[0].id == id then [] else [rows[0]]) + RemoveId(rows[1..], id)
  }

  /** `INSERT OR REPLACE`: the row with the same id goes, the new row is
      added at the end. */
  function Upsert(rows: seq<FilterRule>, rule: FilterRule): seq<FilterRule> {
    RemoveId(rows, rule.id) + [rule]
  }

  /** The rows `SELECT ... WHERE enabled = 1` returns, in row order. */
  function EnabledRows(rows: seq<FilterRule>): (r: seq<FilterRule>)
    ensures forall k :: 0 <= k < |r| ==> r[k].enabled
  {
    if rows == [] then []
    else (if rows[0].enabled then [rows[0]] else []) + EnabledRows(rows[1..])
  }

  /** `_load_rules`: enabled rows ordered by priority, highest first; rows of
      equal priority keep their row order. */
  function LoadRules(rows: seq<FilterRule>): seq<FilterRule> {
    SortByRank(EnabledRows(rows), PriorityRank)
  }

  /** The rows left by `RemoveId` are exactly the rows with another id. */
  lemma {:induction false} RemoveIdMembers(rows: seq<FilterRule>, id: string, x: FilterRule)
    ensures x in RemoveId(rows, id) <==> x in rows && x.id != id
    decreases |rows|
  {
    if rows != [] {
      RemoveIdMembers(rows[1..], id, x);
      assert rows == [rows[0]] + rows[1..];
    }
  }

  lemma {:induction false} EnabledRowsMembers(rows: seq<FilterRule>, x: FilterRule)
    ensures x in EnabledRows(rows) <==> x in rows && x.enabled
    decreases |rows|
  {
    if rows != [] {
      EnabledRowsMembers(rows[1..], x);
      assert rows == [rows[0]] + rows[1..];
    }
  }

  lemma {:induction false} RemoveIdKeepsUnique(rows: seq<FilterRule>, id: string)
    requires UniqueIds(rows)
    ensures UniqueIds(RemoveId(rows, id))
    decreases |rows|
  {
    if rows != [] {
      RemoveIdKeepsUnique(rows[1..], id);
      var rest := RemoveId(rows[1..], id);
      forall x | x in rest
        ensures x.id != rows[0].id
      {
        RemoveIdMembers(rows[1..], id, x);
        var j :| 0 <= j < |rows[1..]| && rows[1..][j] == x;
        assert rows[j + 1] == x;
      }
    }
  }

  /** Upserting keeps one row per id: the new row is the only one with its
      id, and every other row is kept. */
  lemma UpsertKeepsUnique(rows: seq<FilterRule>, rule: FilterRule)
    requires UniqueIds(rows)
    ensures UniqueIds(Upsert(rows, rule))
    ensures forall x :: x in Upsert(rows, rule) && x.id == rule.id ==> x == rule
    ensures forall x :: x in rows && x.id != rule.id ==> x in Upsert(rows, rule)
  {
    RemoveIdKeepsUnique(rows, rule.id);
    forall x | x in rows && x.id != rule.id
      ensures x in Upsert(rows, rule)
    {
      RemoveIdMembers(rows, rule.id, x);
    }
  }

  lemma {:induction false} RemoveIdOfRemoved(rows: seq<FilterRule>, id: string)
    ensures RemoveId(RemoveId(rows, id), id) == RemoveId(rows, id)
    decreases |rows|
  {
    if rows != [] {
      RemoveIdOfRemoved(rows[1..], id);
      var once := RemoveId(rows, id);
      if rows[0].id == id {
        assert once == RemoveId(rows[1..], id);
      } else {
        assert once == [rows[0]] + RemoveId(rows[1..], id);
        assert once[0] == rows[0] && once[1..] == RemoveId(rows[1..], id);
        assert RemoveId(once, id) == [once[0]] + RemoveId(once[1..], id);
      }
    }
  }

  lemma {:induction false} RemoveIdAppend(a: seq<FilterRule>, b: seq<FilterRule>, id: string)
    ensures RemoveId(a + b, id) == RemoveId(a, id) + RemoveId(b, id)
    decreases |a|
  {
    if a == [] {
      assert a + b == b;
    } else {
      assert (a + b)[1..] == a[1..] + b;
      RemoveIdAppend(a[1..], b, id);
    }
  }

  /** Adding the same rule twice is the same as adding it once. */
  lemma UpsertIdempotent(rows: seq<FilterRule>, rule: FilterRule)
    ensures Upsert(Upsert(rows, rule), rule) == Upsert(rows, rule)
  {
    RemoveIdAppend(RemoveId(rows, rule.id), [rule], rule.id);
    RemoveIdOfRemoved(rows, rule.id);
    assert RemoveId([rule], rule.id) == [];
  }

  /** The loaded rules are all enabled rows of the table and nothing else,
      ordered by priority with ties in row order, so the filter's own stable
      re-sort leaves them as they are. */
  lemma LoadRulesCorrect(rows: seq<FilterRule>)
    ensures multiset(LoadRules(rows)) == multiset(EnabledRows(rows))
    ensures forall k :: 0 <= k < |LoadRules(rows)| ==> LoadRules(rows)[k].enabled && LoadRules(rows)[k] in rows
    ensures SortedByRank(LoadRules(rows), PriorityRank)
    ensures forall r :: Only(LoadRules(rows), r, PriorityRank) == Only(EnabledRows(rows), r, PriorityRank)
    ensures SortByRank(LoadRules(rows), PriorityRank) == LoadRules(rows)
  {
    SortByRankCorrect(EnabledRows(rows), PriorityRank);
    SortSortedIsIdentity(LoadRules(rows), PriorityRank);
    forall k | 0 <= k < |LoadRules(rows)|
      ensures LoadRules(rows)[k].enabled && LoadRules(rows)[k] in rows
    {
      assert LoadRules(rows)[k] in multiset(EnabledRows(rows));
      EnabledRowsMembers(rows, LoadRules(rows)[k]);
    }
  }

  /** The four rules seeded into an empty filter. */
  function DefaultRules(now: int): seq<FilterRule> {
    [ FilterRule("length_limit", "长度限制", Length, "200", Block, Low, "", true, 1,
                 "限制弹幕最大长度为200字符", 0, now, now),
      SpamRule(now),
      FilterRule("ad_filter", "广告过滤", Regex, "(加群|QQ群|微信群|联系方式|电话|手机号)", Block, High, "", true, 1,
                 "过滤广告和联系方式", 0, now, now),
      FilterRule("profanity_filter", "脏话过滤", Keyword, "傻逼,智障,脑残,死人,滚蛋", Replace, Medium, "***", true, 1,
                 "过滤不当言论", 0, now, now) ]
  }

  /** The second default rule: at most five danmaku per minute. */
  function SpamRule(now: int): FilterRule {
    FilterRule("spam_prevention", "刷屏防护", RateLimit, "5,60", Warning, Medium, "", true, 1,
               "防止用户刷屏", 0, now, now)
  }

  /** Upserting each rule in turn, as the seeding loop does. */
  function UpsertAll(rows: seq<FilterRule>, rules: seq<FilterRule>): seq<FilterRule>
    decreases |rules|
  {
    if rules == [] then rows else UpsertAll(Upsert(rows, rules[0]), rules[1..])
  }

  lemma {:induction false} EnabledRowsAppend(a: seq<FilterRule>, b: seq<FilterRule>)
    ensures EnabledRows(a + b) == EnabledRows(a) + EnabledRows(b)
    decreases |a|
  {
    if a == [] {
      assert a + b == b;
    } else {
      assert (a + b)[1..] == a[1..] + b;
      EnabledRowsAppend(a[1..], b);
    }
  }

  lemma {:induction false} EnabledRowsRemoveId(rows: seq<FilterRule>, id: string)
    ensures EnabledRows(RemoveId(rows, id)) == RemoveId(EnabledRows(rows), id)
    decreases |rows|
  {
    if rows != [] {
      EnabledRowsRemoveId(rows[1..], id);
      var head := if rows[0].id == id then [] else [rows[0]];
      assert RemoveId(rows, id) == head + RemoveId(rows[1..], id);
      EnabledRowsAppend(head, RemoveId(rows[1..], id));
      var eh := if rows[0].enabled then [rows[0]] else [];
      assert EnabledRows(rows) == eh + EnabledRows(rows[1..]);
      RemoveIdAppend(eh, EnabledRows(rows[1..]), id);
    }
  }

  /** Upserting an enabled rule whose id no enabled row has adds it after
      the enabled rows. */
  lemma UpsertEnabled(rows: seq<FilterRule>, pre: seq<FilterRule>, rule: FilterRule)
    requires EnabledRows(rows) == pre
    requires rule.enabled
    requires forall i :: 0 <= i < |pre| ==> pre[i].id != rule.id
    ensures EnabledRows(Upsert(rows, rule)) == pre + [rule]
  {
    EnabledRowsAppend(RemoveId(rows, rule.id), [rule]);
    EnabledRowsRemoveId(rows, rule.id);
    RemoveIdAbsent(pre, rule.id);
    assert EnabledRows([rule]) == [rule];
  }

  /** Upserting enabled rules with distinct fresh ids into a table whose
      enabled rows are `pre` leaves them after `pre`, in order. */
  lemma {:induction false} UpsertAllSuffix(rows: seq<FilterRule>, pre: seq<FilterRule>, rules: seq<FilterRule>)
    requires EnabledRows(rows) == pre
    requires forall k :: 0 <= k < |rules| ==> rules[k].enabled
    requires forall i, j :: 0 <= i < |pre| && 0 <= j < |rules| ==> pre[i].id != rules[j].id
    requires forall i, j :: 0 <= i < j < |rules| ==> rules[i].id != rules[j].id
    ensures EnabledRows(UpsertAll(rows, rules)) == pre + rules
    decreases |rules|
  {
    if rules == [] {
      assert pre + rules == pre;
    } else {
      var r := rules[0];
      assert forall i :: 0 <= i < |pre| ==> pre[i].id != r.id;
      UpsertEnabled(rows, pre, r);
      var pre' := pre + [r];
      forall i, j | 0 <= i < |pre'| && 0 <= j < |rules[1..]|
        ensures pre'[i].id != rules[1..][j].id
      {
        assert rules[1..][j] == rules[j + 1];
        if i < |pre| {
          assert pre'[i] == pre[i];
        }
      }
      UpsertAllSuffix(Upsert(rows, r), pre', rules[1..]);
      assert pre' + rules[1..] == pre + rules;
    }
  }

  lemma {:induction false} RemoveIdAbsent(rows: seq<FilterRule>, id: string)
    requires forall k :: 0 <= k < |rows| ==> rows[k].id != id
    ensures RemoveId(rows, id) == rows
    decreases |rows|
  {
    if rows != [] {
      RemoveIdAbsent(rows[1..], id);
    }
  }

  /** The defaults are enabled, of equal priority and have distinct ids. */
  lemma DefaultRulesShape(now: int)
    ensures var d := DefaultRules(now);
      && |d| == 4
      && (forall k :: 0 <= k < |d| ==> d[k].enabled && d[k].priority == 1)
      && (forall i, j :: 0 <= i < j < |d| ==> d[i].id != d[j].id)
  {
    var d := DefaultRules(now);
    assert |d[0].id| == 12 && |d[1].id| == 15 && |d[2].id| == 9 && |d[3].id| == 16;
  }

  /** The default spam rule (`"5,60"`) matches exactly when the user
      already holds five or more timestamps younger than 60 seconds;
      otherwise the call is recorded, and the user's log stays within five
      entries. */
  lemma DefaultRateLimit(log: map<int, seq<int>>, user: int, text: string, now: int, t: int, regex: RegexEngine)
    ensures var rule := SpamRule(t);
      var check := RuleMatches(rule, Ctx(text, user, now, regex), log);
      && rule.filterType == RateLimit
      && (check.0 <==> user in log && |Recent(log[user], now, 60)| >= 5)
      && user in check.1
      && (!check.0 ==> |check.1[user]| <= 5
                       && check.1[user] == (if user in log then Recent(log[user], now, 60) else []) + [now])
  {
    SpamPattern();
    RateCheckCounts(log, user, "5,60", now, 5, 60);
  }

  lemma SpamPattern()
    ensures ParseRatePattern("5,60") == Some((5, 60))
  {
    assert "5,60" == "5" + [','] + "60";
    SplitAroundOne("5", "60", ',');
    assert IntToString(5) == "5";
    assert IntToString(60) == "60";
    ParseIntOfIntToString(5);
    ParseIntOfIntToString(60);
  }

  /** A well-formed rate rule matches exactly when the pruned log already
      holds `count` timestamps; otherwise it records the call. */
  lemma RateCheckCounts(log: map<int, seq<int>>, user: int, pattern: string, now: int, count: int, window: int)
    requires ParseRatePattern(pattern) == Some((count, window))
    ensures var r := RateCheck(log, user, pattern, now);
      && (r.0 <==> |if user in log then Recent(log[user], now, window) else []| >= count)
      && user in r.1
      && (!r.0 ==> |r.1[user]| <= count
                   && r.1[user] == (if user in log then Recent(log[user], now, window) else []) + [now])
  {
  }

  /** Seeding a table with no enabled rule makes the loaded rules exactly
      the four defaults, in their listed order. */
  lemma SeedGivesDefaults(rows: seq<FilterRule>, now: int)
    requires EnabledRows(rows) == []
    ensures LoadRules(UpsertAll(rows, DefaultRules(now))) == DefaultRules(now)
  {
    DefaultRulesShape(now);
    SeedLoadsSeeds(rows, DefaultRules(now));
  }

  /** Upserting enabled rules of one priority with distinct ids into a table
      with no enabled rule loads exactly those rules, in order. */
  lemma SeedLoadsSeeds(rows: seq<FilterRule>, seeds: seq<FilterRule>)
    requires EnabledRows(rows) == []
    requires forall k :: 0 <= k < |seeds| ==> seeds[k].enabled && seeds[k].priority == 1
    requires forall i, j :: 0 <= i < j < |seeds| ==> seeds[i].id != seeds[j].id
    ensures LoadRules(UpsertAll(rows, seeds)) == seeds
  {
    var after := UpsertAll(rows, seeds);
    UpsertAllSuffix(rows, [], seeds);
    assert [] + seeds == seeds;
    assert EnabledRows(after) == seeds;
    OnePrioritySorted(seeds);
    SortSortedIsIdentity(seeds, PriorityRank);
    assert LoadRules(after) == SortByRank(seeds, PriorityRank);
  }

  /** Rules of a single priority are already in priority order. */
  lemma OnePrioritySorted(rules: seq<FilterRule>)
    requires forall k :: 0 <= k < |rules| ==> rules[k].priority == 1
    ensures SortedByRank(rules, PriorityRank)
  {
    forall i, j | 0 <= i < j < |rules|
      ensures !Below(PriorityRank(rules[i]), PriorityRank(rules[j]))
    {
      assert rules[i].priority == rules[j].priority;
    }
  }

  lemma EmptyLoadMeansNoEnabledRows(rows: seq<FilterRule>)
    requires LoadRules(rows) == []
    ensures EnabledRows(rows) == []
  {
    SortByRankCorrect(EnabledRows(rows), PriorityRank);
  }

  // ---------------------------------------------------------------------
  // The filter object

  class ContentFilterEngine {
    /** The rule table, in row order. */
    var store: seq<FilterRule>
    /** `self.rules`, as last loaded from the table. */
    var rules: seq<FilterRule>
    /** `self._rate_limit_cache`: per user, the timestamps of recent calls. */
    var rateLog: map<int, seq<int>>
    /** The enabled sensitive words, in the order the set is iterated. */
    var sensitiveWords: seq<string>
    /** The audit table. */
    var audit: seq<AuditRecord>
    const regex: RegexEngine

    predicate Valid()
      reads this
    {
      UniqueIds(store) && rules == LoadRules(store)
    }

    /** Opens the filter over an existing rule table and seeds the default
        rules when the table has no enabled rule. */
    constructor(rows: seq<FilterRule>, words: seq<string>, regex: RegexEngine, now: int)
      requires UniqueIds(rows)
      ensures Valid()
      ensures LoadRules(rows) == [] ==> store == UpsertAll(rows, DefaultRules(now)) && rules == DefaultRules(now)
      ensures LoadRules(rows) != [] ==> store == rows
      ensures rateLog == map[] && sensitiveWords == words && audit == [] && this.regex == regex
    {
      store := rows;
      rules := LoadRules(rows);
      rateLog := map[];
      sensitiveWords := words;
      audit := [];
      this.regex := regex;
      new;
      InitDefaultRules(now);
      if LoadRules(rows) == [] {
        EmptyLoadMeansNoEnabledRows(rows);
        SeedGivesDefaults(rows, now);
      }
    }

    /** `_init_default_rules`: add the four defaults, one `add_rule` each,
        only when no rule is loaded. */
    method InitDefaultRules(now: int)
      requires Valid()
      modifies this
      ensures Valid()
      ensures old(rules) == [] ==> store == UpsertAll(old(store), DefaultRules(now))
      ensures old(rules) != [] ==> store == old(store)
      ensures rateLog == old(rateLog) && sensitiveWords == old(sensitiveWords) && audit == old(audit)
    {
      if rules == [] {
        var defaults := DefaultRules(now);
        var i := 0;
        while i < |defaults|
          invariant 0 <= i <= |defaults|
          invariant Valid()
          invariant UpsertAll(store, defaults[i..]) == UpsertAll(old(store), defaults)
          invariant rateLog == old(rateLog) && sensitiveWords == old(sensitiveWords) && audit == old(audit)
        {
          var _ := AddRule(defaults[i]);
          assert defaults[i..][1..] == defaults[i + 1..];
          i := i + 1;
        }
      }
    }

    /** `add_rule`: upsert by id, then reload. */
    method AddRule(rule: FilterRule) returns (ok: bool)
      requires Valid()
      modifies this
      ensures Valid()
      ensures ok
      ensures store == Upsert(old(store), rule)
      ensures rateLog == old(rateLog) && sensitiveWords == old(sensitiveWords) && audit == old(audit)
    {
      UpsertKeepsUnique(store, rule);
      store := Upsert(store, rule);
      rules := LoadRules(store);
      ok := true;
    }

    /** `remove_rule`: delete the row with the id, if any, then reload; the
        answer is true either way. */
    method RemoveRule(id: string) returns (ok: bool)
      requires Valid()
      modifies this
      ensures Valid()
      ensures ok
      ensures store == RemoveId(old(store), id)
      ensures rateLog == old(rateLog) && sensitiveWords == old(sensitiveWords) && audit == old(audit)
    {
      RemoveIdKeepsUnique(store, id);
      store := RemoveId(store, id);
      rules := LoadRules(store);
      ok := true;
    }

    /** `_check_rate_limit`. */
    method CheckRateLimit(user: int, pattern: string, now: int) returns (m: bool)
      modifies this
      ensures (m, rateLog) == RateCheck(old(rateLog), user, pattern, now)
      ensures store == old(store) && rules == old(rules) && sensitiveWords == old(sensitiveWords) && audit == old(audit)
    {
      var parsed := ParseRatePattern(pattern);
      if parsed.None? {
        return false;
      }
      var count, window := parsed.value.0, parsed.value.1;
      var kept := if user in rateLog then Recent(rateLog[user], now, window) else [];
      if |kept| >= count {
        rateLog := rateLog[user := kept];
        return true;
      }
      rateLog := rateLog[user := kept + [now]];
      return false;
    }

    /** `_check_keyword`. */
    method CheckKeyword(text: string, pattern: string) returns (m: bool)
      ensures m == KeywordMatches(text, pattern)
    {
      var keywords := Split(pattern, ',');
      var lowered := Lower(text);
      var i := 0;
      while i < |keywords|
        invariant 0 <= i <= |keywords|
        invariant AnyTermIn(keywords[i..], text) == AnyTermIn(keywords, text)
      {
        var keyword := Lower(Strip(keywords[i]));
        assert keywords[i..][0] == keywords[i] && keywords[i..][1..] == keywords[i + 1..];
        assert TermIn(text, keywords[i]) == Contains(lowered, keyword);
        if Contains(lowered, keyword) {
          return true;
        }
        i := i + 1;
      }
      return false;
    }

    /** `_check_sensitive_words`. */
    method CheckSensitiveWords(text: string) returns (found: seq<string>)
      ensures found == SensitiveHits(sensitiveWords, text)
    {
      found := [];
      var i := 0;
      while i < |sensitiveWords|
        invariant 0 <= i <= |sensitiveWords|
        invariant found + SensitiveHits(sensitiveWords[i..], text) == SensitiveHits(sensitiveWords, text)
      {
        assert sensitiveWords[i..][1..] == sensitiveWords[i + 1..];
        if ContainsCI(text, sensitiveWords[i]) {
          found := found + [sensitiveWords[i]];
        }
        i := i + 1;
      }
    }

    /** `_apply_replacement`; None when the keyword substitution raises. */
    method ApplyReplacement(text: string, rule: FilterRule) returns (r: Option<string>)
      ensures r == Replacement(text, rule, regex)
    {
      if rule.filterType == Keyword {
        var keywords := Split(rule.pattern, ',');
        var current := text;
        var i := 0;
        while i < |keywords|
          invariant 0 <= i <= |keywords|
          invariant KeywordReplace(current, keywords[i..], rule.replacement, regex)
                 == KeywordReplace(text, keywords, rule.replacement, regex)
        {
          assert keywords[i..][1..] == keywords[i + 1..];
          var next := SubLiteral(current, Strip(keywords[i]), rule.replacement, regex);
          if next.None? {
            return None;
          }
          current := next.value;
          i := i + 1;
        }
        return Some(current);
      } else if rule.filterType == Regex {
        var substituted := regex.sub(rule.pattern, rule.replacement, text);
        if substituted.Some? {
          return Some(substituted.value);
        }
        return Some(text);
      }
      return Some(text);
    }

    /** The dispatch on the rule's kind inside the rule loop. */
    method CheckRule(rule: FilterRule, text: string, user: int, now: int) returns (m: bool)
      modifies this
      ensures (m, rateLog) == RuleMatches(rule, Ctx(text, user, now, regex), old(rateLog))
      ensures store == old(store) && rules == old(rules) && sensitiveWords == old(sensitiveWords) && audit == old(audit)
    {
      m := false;
      match rule.filterType {
        case Length => m := LengthMatches(text, rule.pattern);
        case RateLimit => m := CheckRateLimit(user, rule.pattern, now);
        case Keyword => m := CheckKeyword(text, rule.pattern);
        case Regex => m := RegexMatches(regex, text, rule.pattern);
        case _ =>
      }
    }

    /** One pass of the rule loop in `filter_content`: a disabled rule is
        skipped; an enabled one is checked, and on a match the rule is
        recorded, the risk escalated and the rule's action applied.  `failed`
        is a replacement error, which leaves the loop for the exception
        handler. */
    method ScanRule(rule: FilterRule, text: string, user: int, now: int,
                    result: FilterResult, highest: RiskLevel, matched: seq<string>, ghost levels: seq<RiskLevel>)
      returns (nextResult: FilterResult, nextHighest: RiskLevel, nextMatched: seq<string>,
               ghost nextLevels: seq<RiskLevel>, stopped: bool, failed: bool)
      modifies this
      ensures var s := Step(Scan(result, highest, matched, levels, old(rateLog), Running), rule, Ctx(text, user, now, regex));
        if failed then s.status == Failed && s.log == rateLog
        else s == Scan(nextResult, nextHighest, nextMatched, nextLevels, rateLog, if stopped then Stopped else Running)
      ensures store == old(store) && rules == old(rules) && sensitiveWords == old(sensitiveWords) && audit == old(audit)
    {
      nextResult, nextHighest, nextMatched, nextLevels := result, highest, matched, levels;
      stopped, failed := false, false;
      if !rule.enabled {
        return;
      }
      ghost var c := Ctx(text, user, now, regex);
      ghost var pre := Scan(result, highest, matched, levels, rateLog, Running);
      var m := CheckRule(rule, text, user, now);
      if !m {
        return;
      }
      nextMatched := matched + [rule.id];
      nextLevels := levels + [rule.riskLevel];
      nextHighest := Escalate(highest, rule.riskLevel);
      ghost var recorded := Record(pre, rule, rateLog);
      assert recorded == Scan(result, nextHighest, nextMatched, nextLevels, rateLog, Running);
      if rule.action == Block {
        nextResult := result.(isBlocked := true, action := Block);
        stopped := true;
      } else if rule.action == Replace {
        var replaced := ApplyReplacement(result.filteredText, rule);
        if replaced.None? {
          failed := true;
          return;
        }
        nextResult := result.(filteredText := replaced.value, action := Replace);
      } else if rule.action == Warning {
        nextResult := result.(warnings := result.warnings + [WarningText(rule.name)], action := Warning);
      } else if rule.action == Review {
        nextResult := result.(action := Review);
        stopped := true;
      }
    }

    /** The rule loop of `filter_content` over the rules in priority order:
        the scan it leaves behind is the one `Run` describes. */
    method ScanRules(sorted: seq<FilterRule>, text: string, user: int, now: int)
      returns (result: FilterResult, highest: RiskLevel, matched: seq<string>, ghost levels: seq<RiskLevel>, failed: bool)
      modifies this
      ensures var s := Run(sorted, Ctx(text, user, now, regex), Start(text, old(rateLog)));
        s.log == rateLog && (failed <==> s.status == Failed)
        && (!failed ==> s.result == result && s.highest == highest && s.matched == matched)
      ensures store == old(store) && rules == old(rules) && sensitiveWords == old(sensitiveWords) && audit == old(audit)
    {
      ghost var c := Ctx(text, user, now, regex);
      ghost var start := Start(text, rateLog);
      result := FilterResult(false, Allow, Low, [], text, text, []);
      highest := Low;
      matched := [];
      levels := [];
      failed := false;
      var stopped := false;
      var i := 0;
      while i < |sorted| && !stopped
        invariant 0 <= i <= |sorted|
        invariant Run(sorted[..i], c, start)
               == Scan(result, highest, matched, levels, rateLog, if stopped then Stopped else Running)
        invariant store == old(store) && rules == old(rules) && sensitiveWords == old(sensitiveWords) && audit == old(audit)
      {
        ghost var post := Step(Scan(result, highest, matched, levels, rateLog, Running), sorted[i], c);
        assert sorted[..i + 1][..i] == sorted[..i] && sorted[..i + 1][i] == sorted[i];
        assert Run(sorted[..i + 1], c, start) == post;
        result, highest, matched, levels, stopped, failed := ScanRule(sorted[i], text, user, now, result, highest, matched, levels);
        if failed {
          assert post.status == Failed && post.log == rateLog;
          assert sorted == sorted[..i + 1] + sorted[i + 1..];
          RunStuck(sorted[..i + 1], sorted[i + 1..], c, start);
          return;
        }
        assert post == Scan(result, highest, matched, levels, rateLog, if stopped then Stopped else Running);
        i := i + 1;
      }
      if stopped {
        assert sorted == sorted[..i] + sorted[i..];
        RunStuck(sorted[..i], sorted[i..], c, start);
      } else {
        assert sorted[..i] == sorted;
      }
    }

    /** `filter_content`: the verdict for `text` from `user` at time `now`;
        an audit record is written on the normal path, and a replacement
        error yields the fail-safe verdict without one. */
    method FilterContent(text: string, user: int, now: int) returns (r: FilterResult)
      requires Valid()
      modifies this
      ensures Valid()
      ensures store == old(store) && rules == old(rules) && sensitiveWords == old(sensitiveWords)
      ensures var e := Evaluate(old(rules), Ctx(text, user, now, regex), old(rateLog), sensitiveWords);
        r == e.result && rateLog == e.log
        && audit == old(audit) + (if e.audited then [AuditOf(user, r, now)] else [])
    {
      var sorted := SortByRank(rules, PriorityRank);
      var result, highest, matched, levels, failed := ScanRules(sorted, text, user, now);
      if failed {
        // the exception handler's verdict; nothing is audited
        return FailSafe(text);
      }
      var found := CheckSensitiveWords(text);
      if |found| > 0 {
        result := result.(warnings := result.warnings + SensitiveWarnings(found));
        if highest == Low {
          highest := Medium;
        }
      } else {
        assert result.warnings + SensitiveWarnings(found) == result.warnings;
      }
      result := result.(riskLevel := highest, matchedRules := matched);
      audit := audit + [AuditOf(user, result, now)];
      r := result;
    }
  }
}
