/**
 * The three text inputs of the chat handler (handlers/commands.py) that feed
 * the filter and the queue: a one-line filter rule `name|type|pattern|action|risk`,
 * a block of lines to enqueue in bulk, and the gate in front of a direct send.
 */
module Commands {
  import opened Wrappers
  import opened Text
  import opened Ranking
  import opened Subseq
  import ContentFilter
  import QueueManager

  // ---------------------------------------------------------------------
  // A filter rule typed as one line

  /** Why a rule line is refused, in the order the handler checks. */
  datatype RuleLineError =
    | WrongPartCount(count: nat)
    | UnknownType(value: string)
    | UnknownAction(value: string)
    | UnknownRisk(value: string)

  /** `str(uuid.uuid4())[:8]`: the first eight characters of the id text. */
  function ShortId(uuid: string): (id: string)
    ensures |uuid| >= 8 ==> |id| == 8
    ensures IsPrefix(id, uuid)
  {
    if |uuid| <= 8 then uuid else uuid[..8]
  }

  /** The rule the handler builds: the given fields, the id, the sender as
      author, and the defaults of `FilterRule` for the rest. */
  function NewRule(id: string, name: string, t: ContentFilter.FilterType, pattern: string,
                   a: ContentFilter.FilterAction, risk: ContentFilter.RiskLevel,
                   user: int, now: int): ContentFilter.FilterRule
  {
    ContentFilter.FilterRule(id, name, t, pattern, a, risk, "", true, 1, "", user, now, now)
  }

  /** The five raw parts of a rule line: strip each, lowercase the type,
      action and risk and look them up, in that order. */
  function ParseRuleParts(nameText: string, typeText: string, patternText: string,
                          actionText: string, riskText: string, uuid: string, user: int, now: int)
    : (r: Result<ContentFilter.FilterRule, RuleLineError>)
    ensures r.Ok? ==>
      r.value.name == Strip(nameText) && r.value.pattern == Strip(patternText)
      && ContentFilter.TypeValue(r.value.filterType) == Lower(Strip(typeText))
      && ContentFilter.ActionValue(r.value.action) == Lower(Strip(actionText))
      && ContentFilter.RiskValue(r.value.riskLevel) == Lower(Strip(riskText))
      && r.value.id == ShortId(uuid) && r.value.createdBy == user
      && r.value.enabled && r.value.priority == 1
    ensures r.Err? ==> !r.error.WrongPartCount?
    ensures r.Err? && r.error.UnknownType? ==>
      forall t :: ContentFilter.TypeValue(t) != r.error.value
  {
    var name, pattern := Strip(nameText), Strip(patternText);
    var typeValue, actionValue := Lower(Strip(typeText)), Lower(Strip(actionText));
    var riskValue := Lower(Strip(riskText));
    match ContentFilter.ParseType(typeValue)
    case None => Err(UnknownType(typeValue))
    case Some(t) =>
      match ContentFilter.ParseAction(actionValue)
      case None => Err(UnknownAction(actionValue))
      case Some(a) =>
        match ContentFilter.ParseRisk(riskValue)
        case None => Err(UnknownRisk(riskValue))
        case Some(risk) => Ok(NewRule(ShortId(uuid), name, t, pattern, a, risk, user, now))
  }

  /** The `waiting_for_filter_rule` branch: split on `|` into exactly five
      parts, then read them as above. */
  function ParseRuleLine(line: string, uuid: string, user: int, now: int)
    : (r: Result<ContentFilter.FilterRule, RuleLineError>)
    ensures r.Ok? ==> |Split(line, '|')| == 5
    ensures r.Ok? ==>
      var parts := Split(line, '|');
      r.value.name == Strip(parts[0]) && r.value.pattern == Strip(parts[2])
      && ContentFilter.TypeValue(r.value.filterType) == Lower(Strip(parts[1]))
      && ContentFilter.ActionValue(r.value.action) == Lower(Strip(parts[3]))
      && ContentFilter.RiskValue(r.value.riskLevel) == Lower(Strip(parts[4]))
      && r.value.id == ShortId(uuid) && r.value.createdBy == user
      && r.value.enabled && r.value.priority == 1
    ensures r.Err? && !r.error.WrongPartCount? ==> |Split(line, '|')| == 5
    ensures r.Err? && r.error.WrongPartCount? ==> r.error.count == |Split(line, '|')| != 5
  {
    var parts := Split(line, '|');
    if |parts| != 5 then Err(WrongPartCount(|parts|))
    else ParseRuleParts(parts[0], parts[1], parts[2], parts[3], parts[4], uuid, user, now)
  }

  /** The line a user types for a rule. */
  function RuleLine(name: string, t: ContentFilter.FilterType, pattern: string,
                    a: ContentFilter.FilterAction, risk: ContentFilter.RiskLevel): string
  {
    Join([name, ContentFilter.TypeValue(t), pattern, ContentFilter.ActionValue(a),
          ContentFilter.RiskValue(risk)], ['|'])
  }

  /** Lower-case letters and underscores: the text of every enum value. */
  predicate Word(s: string) {
    forall i :: 0 <= i < |s| ==> ('a' <= s[i] <= 'z') || s[i] == '_'
  }

  /** An enum value reads back unchanged after stripping and lowercasing,
      and holds no `|`. */
  lemma WordIsPlain(s: string)
    requires Word(s)
    ensures Lower(Strip(s)) == s && '|' !in s
  {
    StripNoSpace(s);
    LowerNoUpper(s);
  }

  lemma TypeValueIsWord(t: ContentFilter.FilterType)
    ensures Word(ContentFilter.TypeValue(t))
  {
    match t
    case Keyword => assert Word("keyword");
    case Regex => assert Word("regex");
    case Length => assert Word("length");
    case RateLimit => assert Word("rate_limit");
    case ContentType => assert Word("content_type");
    case UserLevel => assert Word("user_level");
    case Sentiment => assert Word("sentiment");
  }

  lemma ActionValueIsWord(a: ContentFilter.FilterAction)
    ensures Word(ContentFilter.ActionValue(a))
  {
    match a
    case Allow => assert Word("allow");
    case Block => assert Word("block");
    case Warning => assert Word("warning");
    case Replace => assert Word("replace");
    case Review => assert Word("review");
    case Quarantine => assert Word("quarantine");
  }

  lemma RiskValueIsWord(risk: ContentFilter.RiskLevel)
    ensures Word(ContentFilter.RiskValue(risk))
  {
    match risk
    case Low => assert Word("low");
    case Medium => assert Word("medium");
    case High => assert Word("high");
    case Critical => assert Word("critical");
  }

  /** The values of a rule, already in the form the handler produces,
      read back as that rule. */
  lemma RulePartsRoundTrip(name: string, t: ContentFilter.FilterType, pattern: string,
                           a: ContentFilter.FilterAction, risk: ContentFilter.RiskLevel,
                           uuid: string, user: int, now: int)
    requires Trimmed(name) && Trimmed(pattern)
    ensures ParseRuleParts(name, ContentFilter.TypeValue(t), pattern, ContentFilter.ActionValue(a),
                           ContentFilter.RiskValue(risk), uuid, user, now)
         == Ok(NewRule(ShortId(uuid), name, t, pattern, a, risk, user, now))
  {
    TypeValueIsWord(t);
    ActionValueIsWord(a);
    RiskValueIsWord(risk);
    WordIsPlain(ContentFilter.TypeValue(t));
    WordIsPlain(ContentFilter.ActionValue(a));
    WordIsPlain(ContentFilter.RiskValue(risk));
    StripTrimmed(name);
    StripTrimmed(pattern);
  }

  /** Every rule whose name and pattern hold no `|` and carry no surrounding
      white space can be typed as a line that reads back as that rule. */
  lemma RuleLineRoundTrip(name: string, t: ContentFilter.FilterType, pattern: string,
                          a: ContentFilter.FilterAction, risk: ContentFilter.RiskLevel,
                          uuid: string, user: int, now: int)
    requires '|' !in name && '|' !in pattern && Trimmed(name) && Trimmed(pattern)
    ensures ParseRuleLine(RuleLine(name, t, pattern, a, risk), uuid, user, now)
         == Ok(NewRule(ShortId(uuid), name, t, pattern, a, risk, user, now))
  {
    var typeValue := ContentFilter.TypeValue(t);
    var actionValue := ContentFilter.ActionValue(a);
    var riskValue := ContentFilter.RiskValue(risk);
    var parts := [name, typeValue, pattern, actionValue, riskValue];
    TypeValueIsWord(t);
    ActionValueIsWord(a);
    RiskValueIsWord(risk);
    WordIsPlain(typeValue);
    WordIsPlain(actionValue);
    WordIsPlain(riskValue);
    ParseFive(name, typeValue, pattern, actionValue, riskValue, uuid, user, now);
    RulePartsRoundTrip(name, t, pattern, a, risk, uuid, user, now);
  }

  /** Five parts free of `|`, joined with `|`, split back into themselves. */
  lemma SplitFive(p0: string, p1: string, p2: string, p3: string, p4: string)
    requires '|' !in p0 && '|' !in p1 && '|' !in p2 && '|' !in p3 && '|' !in p4
    ensures Split(Join([p0, p1, p2, p3, p4], ['|']), '|') == [p0, p1, p2, p3, p4]
  {
    JoinSplit([p0, p1, p2, p3, p4], '|');
  }

  /** A line of five parts free of `|` is read part by part. */
  lemma ParseFive(p0: string, p1: string, p2: string, p3: string, p4: string,
                  uuid: string, user: int, now: int)
    requires '|' !in p0 && '|' !in p1 && '|' !in p2 && '|' !in p3 && '|' !in p4
    ensures ParseRuleLine(Join([p0, p1, p2, p3, p4], ['|']), uuid, user, now)
         == ParseRuleParts(p0, p1, p2, p3, p4, uuid, user, now)
  {
    SplitFive(p0, p1, p2, p3, p4);
  }

  /** Capitals and padding around the type, action and risk do not matter. */
  lemma RuleLineIgnoresCase(name: string, typeText: string, pattern: string, actionText: string,
                            riskText: string, uuid: string, user: int, now: int)
    requires '|' !in name && '|' !in typeText && '|' !in pattern && '|' !in actionText && '|' !in riskText
    requires ContentFilter.ParseType(Lower(Strip(typeText))).Some?
    requires ContentFilter.ParseAction(Lower(Strip(actionText))).Some?
    requires ContentFilter.ParseRisk(Lower(Strip(riskText))).Some?
    ensures ParseRuleLine(Join([name, typeText, pattern, actionText, riskText], ['|']), uuid, user, now)
         == Ok(NewRule(ShortId(uuid), Strip(name), ContentFilter.ParseType(Lower(Strip(typeText))).value,
                       Strip(pattern), ContentFilter.ParseAction(Lower(Strip(actionText))).value,
                       ContentFilter.ParseRisk(Lower(Strip(riskText))).value, user, now))
  {
    ParseFive(name, typeText, pattern, actionText, riskText, uuid, user, now);
  }

  /** The handler: a line that parses is stored with `add_rule`; a refused
      line stores nothing. */
  method AddRuleFromLine(engine: ContentFilter.ContentFilterEngine, line: string, uuid: string,
                         user: int, now: int)
    returns (r: Result<ContentFilter.FilterRule, RuleLineError>)
    requires engine.Valid()
    modifies engine
    ensures engine.Valid()
    ensures r == ParseRuleLine(line, uuid, user, now)
    ensures r.Ok? ==> engine.store == ContentFilter.Upsert(old(engine.store), r.value)
    ensures r.Err? ==> engine.store == old(engine.store) && engine.rules == old(engine.rules)
    ensures engine.rateLog == old(engine.rateLog) && engine.audit == old(engine.audit)
  {
    r := ParseRuleLine(line, uuid, user, now);
    if r.Ok? {
      var _ := engine.AddRule(r.value);
    }
  }

  // ---------------------------------------------------------------------
  // Bulk text

  const MaxBulkLines := 50
  const BulkPriority := 2

  datatype BulkError = NoLines | TooManyLines(count: nat)

  /** `[line.strip() for line in lines]`. */
  function StripEach(lines: seq<string>): (r: seq<string>)
    ensures |r| == |lines| && forall i :: 0 <= i < |r| ==> r[i] == Strip(lines[i])
  {
    if lines == [] then [] else [Strip(lines[0])] + StripEach(lines[1..])
  }

  predicate NonBlank(s: string) {
    s != ""
  }

  /** The `waiting_for_bulk_text` branch: the stripped non-blank lines, at
      least one and at most fifty. */
  function BulkLines(text: string): (r: Result<seq<string>, BulkError>)
    ensures r.Ok? ==> 0 < |r.value| <= MaxBulkLines
    ensures r.Ok? ==> forall i :: 0 <= i < |r.value| ==> r.value[i] != ""
    ensures r.Err? && r.error.TooManyLines? ==> r.error.count > MaxBulkLines
  {
    var lines := Keep(StripEach(Split(text, '\n')), NonBlank);
    KeepAll(StripEach(Split(text, '\n')), NonBlank);
    if |lines| == 0 then Err(NoLines)
    else if |lines| > MaxBulkLines then Err(TooManyLines(|lines|))
    else Ok(lines)
  }

  /** Some row of `raw` strips to `x`. */
  predicate StripsTo(raw: seq<string>, x: string) {
    exists i :: 0 <= i < |raw| && Strip(raw[i]) == x
  }

  /** Every row of `raw` is blank. */
  predicate AllBlank(raw: seq<string>) {
    forall i :: 0 <= i < |raw| ==> Strip(raw[i]) == ""
  }

  /** The stripped non-blank rows of `raw` are exactly the non-empty
      results of stripping one of its rows. */
  lemma KeptRows(raw: seq<string>, x: string)
    ensures x in Keep(StripEach(raw), NonBlank) <==> x != "" && StripsTo(raw, x)
  {
    var stripped := StripEach(raw);
    KeepMembers(stripped, NonBlank, x);
    if x in stripped {
      var i :| 0 <= i < |stripped| && stripped[i] == x;
      assert Strip(raw[i]) == x;
    }
    if exists i :: 0 <= i < |raw| && Strip(raw[i]) == x {
      var i :| 0 <= i < |raw| && Strip(raw[i]) == x;
      assert stripped[i] == x;
    }
  }

  /** The accepted lines are exactly the non-blank stripped lines of the text. */
  lemma BulkLinesExactly(text: string, x: string)
    requires BulkLines(text).Ok?
    ensures x in BulkLines(text).value <==> x != "" && StripsTo(Split(text, '\n'), x)
  {
    var raw := Split(text, '\n');
    assert BulkLines(text).value == Keep(StripEach(raw), NonBlank);
    KeptRows(raw, x);
  }

  /** No row of `raw` survives exactly when every row strips to nothing. */
  lemma NoKeptRows(raw: seq<string>)
    ensures Keep(StripEach(raw), NonBlank) == [] <==> AllBlank(raw)
  {
    var stripped := StripEach(raw);
    if AllBlank(raw) {
      KeepTrivial(stripped, NonBlank);
    } else {
      var i :| 0 <= i < |raw| && Strip(raw[i]) != "";
      KeepMembers(stripped, NonBlank, stripped[i]);
    }
  }

  /** The text is refused with `NoLines` exactly when every line is blank. */
  lemma BulkLinesNone(text: string)
    ensures BulkLines(text) == Err(NoLines) <==> AllBlank(Split(text, '\n'))
  {
    var raw := Split(text, '\n');
    assert BulkLines(text) == Err(NoLines) <==> Keep(StripEach(raw), NonBlank) == [];
    NoKeptRows(raw);
  }

  /** Lines typed one per row, trimmed and non-blank, come back as they were. */
  lemma BulkLinesRoundTrip(lines: seq<string>)
    requires 0 < |lines| <= MaxBulkLines
    requires forall i :: 0 <= i < |lines| ==> lines[i] != "" && Trimmed(lines[i]) && '\n' !in lines[i]
    ensures BulkLines(Join(lines, "\n")) == Ok(lines)
  {
    JoinSplit(lines, '\n');
    var stripped := StripEach(lines);
    forall i | 0 <= i < |lines|
      ensures stripped[i] == lines[i]
    {
      StripTrimmed(lines[i]);
    }
    assert stripped == lines;
    KeepTrivial(lines, NonBlank);
  }

  /** The queue after the lines are added one by one, line `i` with priority
      2 and a delay of `i` seconds, when every addition succeeds. */
  function Enqueued(q: seq<QueueManager.Message>, lines: seq<string>, user: int, now: int)
    : seq<QueueManager.Message>
  {
    if lines == [] then q
    else
      var n := |lines| - 1;
      InsertByRank(Enqueued(q, lines[..n], user, now), BulkMessage(lines[n], n, user, now),
                   QueueManager.PriorityRank)
  }

  /** The message `add_message` builds for line `i` of a bulk text. */
  function BulkMessage(line: string, i: int, user: int, now: int): QueueManager.Message {
    QueueManager.NewMessage(QueueManager.MessageId(user, now), line, user, BulkPriority, i,
                            QueueManager.DefaultStyle, now)
  }

  /** The messages built for the lines, in line order. */
  function BulkMessages(lines: seq<string>, user: int, now: int): (r: seq<QueueManager.Message>)
    ensures |r| == |lines|
    ensures forall i :: 0 <= i < |r| ==> r[i] == BulkMessage(lines[i], i, user, now)
  {
    if lines == [] then []
    else
      var n := |lines| - 1;
      BulkMessages(lines[..n], user, now) + [BulkMessage(lines[n], n, user, now)]
  }

  /** Adding the bulk lines keeps the queue in priority order and grows it
      by one message per line. */
  lemma {:induction false} EnqueuedSorted(q: seq<QueueManager.Message>, lines: seq<string>, user: int, now: int)
    requires SortedByRank(q, QueueManager.PriorityRank)
    ensures SortedByRank(Enqueued(q, lines, user, now), QueueManager.PriorityRank)
    ensures |Enqueued(q, lines, user, now)| == |q| + |lines|
    decreases |lines|
  {
    if lines != [] {
      var n := |lines| - 1;
      EnqueuedSorted(q, lines[..n], user, now);
      var prev := Enqueued(q, lines[..n], user, now);
      var m := BulkMessage(lines[n], n, user, now);
      InsertKeepsSorted(prev, m, QueueManager.PriorityRank);
      InsertMultiset(prev, m, QueueManager.PriorityRank);
    }
  }

  /** The bulk lines join the queue after every message of their priority
      already there, in line order. */
  lemma {:induction false} EnqueuedInOrder(q: seq<QueueManager.Message>, lines: seq<string>, user: int, now: int)
    requires SortedByRank(q, QueueManager.PriorityRank)
    ensures Only(Enqueued(q, lines, user, now), Rank(BulkPriority, 0), QueueManager.PriorityRank)
         == Only(q, Rank(BulkPriority, 0), QueueManager.PriorityRank) + BulkMessages(lines, user, now)
    decreases |lines|
  {
    var tier := Rank(BulkPriority, 0);
    if lines == [] {
      assert Only(q, tier, QueueManager.PriorityRank) + [] == Only(q, tier, QueueManager.PriorityRank);
    } else {
      var n := |lines| - 1;
      EnqueuedInOrder(q, lines[..n], user, now);
      EnqueuedSorted(q, lines[..n], user, now);
      var prev := Enqueued(q, lines[..n], user, now);
      var m := BulkMessage(lines[n], n, user, now);
      InsertStable(prev, m, tier, QueueManager.PriorityRank);
    }
  }

  /** One pass of the bulk loop: `add_message` for line `i`; with no filter
      and room left, the line's message is inserted by priority. */
  method AddLine(queue: QueueManager.DanmakuQueue, line: string, i: int, user: int,
                 filter: ContentFilter.ContentFilterEngine?, now: int)
    returns (added: bool)
    requires queue.Valid()
    requires filter != null ==> filter.Valid()
    modifies queue, filter
    ensures queue.Valid() && (filter != null ==> filter.Valid())
    ensures filter == null && |old(queue.queue)| < queue.maxQueueSize ==>
      added && queue.queue == InsertByRank(old(queue.queue), BulkMessage(line, i, user, now),
                                           QueueManager.PriorityRank)
      && |queue.queue| == |old(queue.queue)| + 1
  {
    ghost var before := queue.queue;
    var r := queue.AddMessage(line, user, BulkPriority, i, false, QueueManager.DefaultStyle, filter, now);
    added := r.Ok?;
    InsertMultiset(before, BulkMessage(line, i, user, now), QueueManager.PriorityRank);
  }

  /** The bulk loop: each line in turn goes through `add_message` with
      priority 2 and a delay of its index in seconds; the two counters tally
      the outcomes.  Without a filter and with room for every line, every
      line is added. */
  method EnqueueBulk(queue: QueueManager.DanmakuQueue, lines: seq<string>, user: int,
                     filter: ContentFilter.ContentFilterEngine?, now: int)
    returns (successCount: nat, failedCount: nat)
    requires queue.Valid()
    requires filter != null ==> filter.Valid()
    modifies queue, filter
    ensures queue.Valid()
    ensures successCount + failedCount == |lines|
    ensures filter == null && |old(queue.queue)| + |lines| <= queue.maxQueueSize ==>
      successCount == |lines| && queue.queue == Enqueued(old(queue.queue), lines, user, now)
  {
    successCount, failedCount := 0, 0;
    ghost var start := queue.queue;
    ghost var room := filter == null && |start| + |lines| <= queue.maxQueueSize;
    var i := 0;
    while i < |lines|
      invariant 0 <= i <= |lines|
      invariant queue.Valid() && (filter != null ==> filter.Valid())
      invariant successCount + failedCount == i
      invariant room ==> successCount == i && queue.queue == Enqueued(start, lines[..i], user, now)
      invariant room ==> |queue.queue| == |start| + i
    {
      var added := AddLine(queue, lines[i], i, user, filter, now);
      if added {
        successCount := successCount + 1;
      } else {
        failedCount := failedCount + 1;
      }
      assert lines[..i + 1][..i] == lines[..i];
      i := i + 1;
    }
    assert lines[..i] == lines;
  }

  // ---------------------------------------------------------------------
  // Direct send

  /** The `waiting_for_danmaku_text` gate: a blocked or review verdict
      sends nothing; otherwise the filter's rewritten text is sent. */
  function DirectSendText(res: ContentFilter.FilterResult): (r: Option<string>)
  {
    if res.isBlocked || res.action == ContentFilter.Review then None
    else Some(res.filteredText)
  }

  /** A direct send goes out exactly when the queue would admit the same
      verdict; the two differ in the text only when the verdict rewrote the
      text without ending on a Replace action, where the queue keeps the
      original. */
  lemma DirectSendMatchesQueue(text: string, res: ContentFilter.FilterResult)
    ensures DirectSendText(res).Some? <==> QueueManager.Admit(text, QueueManager.Filtered(res)).Ok?
    ensures DirectSendText(res).Some? && res.action == ContentFilter.Replace ==>
      DirectSendText(res).value == QueueManager.Admit(text, QueueManager.Filtered(res)).value
    ensures DirectSendText(res).Some? && res.action != ContentFilter.Replace ==>
      QueueManager.Admit(text, QueueManager.Filtered(res)).value == text
      && DirectSendText(res).value == res.filteredText
  {
  }

  /** The filter's own failure verdict never reaches the send call. */
  lemma FailureNeverSent(text: string)
    ensures DirectSendText(ContentFilter.FailSafe(text)).None?
  {
  }

  /** The handler: filter the text, then send what the gate lets through. */
  method SendDirect(engine: ContentFilter.ContentFilterEngine, text: string, user: int, now: int)
    returns (sent: Option<string>)
    requires engine.Valid()
    modifies engine
    ensures engine.Valid()
    ensures var e := ContentFilter.Evaluate(old(engine.rules), ContentFilter.Ctx(text, user, now, engine.regex),
                                            old(engine.rateLog), old(engine.sensitiveWords));
      sent == DirectSendText(e.result) && engine.rateLog == e.log
      && engine.audit == old(engine.audit) + (if e.audited then [ContentFilter.AuditOf(user, e.result, now)] else [])
    ensures engine.store == old(engine.store) && engine.rules == old(engine.rules)
      && engine.sensitiveWords == old(engine.sensitiveWords)
    ensures sent.Some? ==> var e := ContentFilter.Evaluate(old(engine.rules),
                                      ContentFilter.Ctx(text, user, now, engine.regex),
                                      old(engine.rateLog), old(engine.sensitiveWords));
      !e.result.isBlocked && e.result.action != ContentFilter.Review
  {
    var res := engine.FilterContent(text, user, now);
    sent := DirectSendText(res);
  }
}
