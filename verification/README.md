# Danmaku bot: content filter, delivery queue and helpers, in Dafny

This project models the moderation and delivery pipeline of a Telegram bot
that sends danmaku (scrolling on-screen comments) to a live display, and
proves properties of that model.

- **Content filter** (`content_filter.dfy`, `DanmakuContentFilter`). Checks
  a text against a priority-ordered rule list. The rule kinds are length,
  rate limit, keyword and regex. The result carries:
  - a blocked flag and the final action;
  - a risk level;
  - the matched rule ids;
  - the rewritten text and the warnings.

  The filter also keeps a per-user sliding window of timestamps and a rule
  table with upsert-by-id semantics. It seeds four default rules when no
  rule is enabled.
- **Delivery queue** (`queue_manager.dfy`, `DanmakuQueue`). Covers:
  - admission through the filter;
  - stable priority insertion;
  - capacity cleanup and eviction;
  - cancellation and filtered clearing;
  - the scheduler's choice of the next due message;
  - the per-message retry state machine.
- **Chat handler inputs** (`commands.dfy`):
  - the `name|type|pattern|action|risk` rule line;
  - the bulk line list and its enqueue loop;
  - the filter gate in front of a direct send.
- **Template store** (`template_manager.dfy`), **user preferences**
  (`preferences_manager.dfy`) and the pure parts of the two HTTP clients
  (`danmaku_client.py` and `tmdb_client.py` become `danmaku_client.dfy` and
  `tmdb_client.dfy`):
  - URL building and payload clamping;
  - the bounded time-to-live response cache;
  - the request counters;
  - response shaping.

Shared modules:
- `text.dfy`: the Python string operations the code uses;
- `ranking.dfy`: stable descending order;
- `subseq.dfy`: list comprehensions;
- `json.dfy`: JSON values;
- `wrappers.dfy`: `Option` and `Result`.

Several files hold unresolved merge conflicts; the model follows the `HEAD`
side throughout. In `managers/preferences_manager.py`, line 166 holds the rest
of the file as a single line with literal `\n` sequences, so the module does
not parse as written. The model follows the code those sequences evidently
stand for.

**Time.** Time is a whole number of seconds, passed in as `now`. Durations
are whole seconds too.

**Inputs and outputs as parameters.** These take the place of the source's
external services:
- regular expressions: a `RegexEngine` value of oracle functions;
- ISO timestamp formatting: an `IsoCodec`;
- UUIDs: text parameters;
- HTTP responses: given JSON values.

**Objects.** Objects the source changes in place are classes with
`modifies` clauses:
- `ContentFilterEngine`;
- `DanmakuQueue`;
- `TemplateStore`;
- `UserPreferencesManager`;
- `DanmakuApiClient`.

Each method is proved against a specification function, and the lemmas
beside it state what the source promises.

**Code as written.** Where the code and its comments suggest different
behaviour, the model follows the code:
- The risk level moves only while it is Low, so it ends as the first
  non-Low matched level, not the highest.
- The fail-safe verdict has risk High.
- `remove_rule` answers true for an absent id.
- The preference cache compares `timedelta.seconds`, the part of the age
  within a day, so an entry is fresh again on every later day.
- A Warning rule overwrites the action. Allow and Quarantine leave it
  untouched.

## Model

| member | source | states |
|---|---|---|
| ContentFilter.ParseAction | managers/content_filter.py:30-37 | `FilterAction(v)` gives the member whose value is `v`, and succeeds for every member's value |
| ContentFilter.ParseType | managers/content_filter.py:40-48 | `FilterType(v)` gives the member whose value is `v`, and succeeds for every member's value |
| ContentFilter.ParseRisk | managers/content_filter.py:51-56 | `RiskLevel(v)` gives the member whose value is `v`, and succeeds for every member's value |
| ContentFilter.LengthOfDecimalPattern | managers/content_filter.py:344-350 | a Length rule with pattern `str(n)` matches iff `len(text) > n` |
| ContentFilter.DefaultLengthLimit | managers/content_filter.py:238-246 | the default length rule matches exactly the texts longer than 200 characters |
| ContentFilter.DefaultRateLimit | managers/content_filter.py:247-255 | for every log and user, the default rate rule matches iff the user already has at least five calls in the last 60 seconds; otherwise `now` is appended to the pruned log, which then holds at most five calls |
| ContentFilter.RateCheckCounts | managers/content_filter.py:352-376 | with a well-formed pattern, a call matches iff the pruned log holds at least `count` calls; otherwise the new log is the pruned log plus `now` |
| ContentFilter.Recent | managers/content_filter.py:359-364 | the pruned log keeps exactly the timestamps younger than the window |
| ContentFilter.RateCheck | managers/content_filter.py:352-376 | a malformed pattern never matches and leaves the log alone; other users' logs are untouched |
| ContentFilter.RateCheckWindow | managers/content_filter.py:352-376 | after a check the user's log holds only timestamps inside the window. The call does not match iff `now` was appended to the pruned log |
| ContentFilter.RateLogStaysBounded | managers/content_filter.py:366-373 | a log of at most `count` entries never grows beyond `count` |
| ContentFilter.AnyTermInIff | managers/content_filter.py:378-386 | a keyword rule matches iff some stripped, lowercased term occurs in the lowercased text |
| ContentFilter.KeywordEmptyTermMatchesAll | managers/content_filter.py:378-386 | a pattern with an empty term matches every text |
| ContentFilter.SensitiveHits | managers/content_filter.py:401-410 | the hits are exactly the listed words occurring in the text, ignoring case |
| ContentFilter.SensitiveWarnings | managers/content_filter.py:490-492 | one warning per sensitive hit |
| ContentFilter.KeywordReplaceLiteralSucceeds | managers/content_filter.py:412-417 | keyword replacement with a backslash-free replacement never raises |
| ContentFilter.KeywordReplaceWithoutMatch | managers/content_filter.py:412-417 | when no term occurs, keyword replacement leaves the text unchanged, so check and replacement agree |
| ContentFilter.EscalateOnlyFromLow | managers/content_filter.py:467-470 | the nested risk conditional replaces the level only when it is Low and never lowers it |
| ContentFilter.FirstNonLowSnoc | managers/content_filter.py:467-470 | folding the escalation over the matched levels yields the first level that is not Low |
| ContentFilter.RunStuck | managers/content_filter.py:474-488 | after Block, Review or a failure, later rules change nothing |
| ContentFilter.StepCoherent | managers/content_filter.py:448-488 | one loop step keeps Block tied to `is_blocked` and the original text unchanged |
| ContentFilter.ActCoherent | managers/content_filter.py:474-488 | each action keeps the same facts |
| ContentFilter.StepRecords | managers/content_filter.py:463-470 | a step records a match only for an enabled rule, with that rule's level |
| ContentFilter.RunCoherent | managers/content_filter.py:444-488 | the whole loop keeps those facts. Each matched id is the id of an enabled rule of the list, with that rule's risk level |
| ContentFilter.StepOrdered | managers/content_filter.py:444-488 | one more rule is recorded, after all earlier matches, exactly when the loop is still running, the rule is enabled and its check matches; if it stops the loop, it blocks or sends to review |
| ContentFilter.FiresPrefix | managers/content_filter.py:444-488 | a later rule does not change whether an earlier rule fires |
| ContentFilter.FiredStep | managers/content_filter.py:444-488 | one more rule adds its own position to the rules that fire exactly when the loop reaches it running, it is enabled and its check matches |
| ContentFilter.RunInOrder | managers/content_filter.py:444-488 | the recorded matches are exactly the rules that fire: reached while the loop runs, enabled, and matching under the rate-limit log of that moment. They are in list order, each with its level, and a loop that broke off ends with the Block or Review rule that stopped it |
| ContentFilter.RunWithoutReplace | managers/content_filter.py:478-480 | without Replace rules the loop neither rewrites the text nor fails |
| ContentFilter.RunWithLiteralReplacements | managers/content_filter.py:412-417 | backslash-free replacements never make the loop fail |
| ContentFilter.EvaluateVerdict | managers/content_filter.py:432-515 | Block implies blocked, and blocked implies Block or Review. A Review verdict that was audited is not blocked. The only unaudited outcome is the fail-safe (blocked, Review, High) |
| ContentFilter.EvaluateRisk | managers/content_filter.py:467-497 | the risk is the first non-Low matched level, raised from Low to Medium by a sensitive hit; matched ids come from the sorted rules |
| ContentFilter.EvaluateSensitive | managers/content_filter.py:489-495 | every sensitive hit adds its warning and the risk is not Low, even after Block or Review |
| ContentFilter.EvaluateWithoutReplace | managers/content_filter.py:432-503 | without Replace rules the filtered text is the original text |
| ContentFilter.RemoveId | managers/content_filter.py:330 | `DELETE ... WHERE id = ?` leaves no row with the id |
| ContentFilter.EnabledRows | managers/content_filter.py:209 | the selected rows are enabled |
| ContentFilter.RemoveIdMembers | managers/content_filter.py:330 | deletion keeps exactly the rows with another id |
| ContentFilter.EnabledRowsMembers | managers/content_filter.py:209 | the selection keeps exactly the enabled rows |
| ContentFilter.RemoveIdKeepsUnique | managers/content_filter.py:330 | deletion keeps ids unique |
| ContentFilter.UpsertKeepsUnique | managers/content_filter.py:299-311 | `INSERT OR REPLACE` keeps one row per id: the new row is the only row with its id, and every other row stays |
| ContentFilter.RemoveIdOfRemoved | managers/content_filter.py:330 | deleting an id twice is deleting it once |
| ContentFilter.UpsertIdempotent | managers/content_filter.py:299-311 | adding the same rule twice is adding it once |
| ContentFilter.LoadRulesCorrect | managers/content_filter.py:203-233 | the loaded rules are a permutation of the enabled rows, sorted by priority descending; equal priorities keep row order |
| ContentFilter.UpsertEnabled | managers/content_filter.py:299-311 | upserting an enabled rule whose id no enabled row has appends it after the enabled rows |
| ContentFilter.UpsertAllSuffix | managers/content_filter.py:276-279 | upserting rules with distinct fresh ids appends them in order |
| ContentFilter.RemoveIdAbsent | managers/content_filter.py:326-341 | removing an absent id changes nothing |
| ContentFilter.DefaultRulesShape | managers/content_filter.py:236-274 | there are four default rules, all enabled, of priority 1, with distinct ids |
| ContentFilter.SeedGivesDefaults | managers/content_filter.py:234-279 | seeding a table with no enabled rule loads exactly the four defaults, in their listed order |
| ContentFilter.SeedLoadsSeeds | managers/content_filter.py:276-279 | seeding enabled same-priority rules with distinct ids loads exactly them |
| ContentFilter.EmptyLoadMeansNoEnabledRows | managers/content_filter.py:203-236 | an empty loaded list means the table has no enabled row |
| ContentFilter.ContentFilterEngine.constructor | managers/content_filter.py:114-130 | loads the table and seeds the defaults exactly when nothing loads. The rate log is empty |
| ContentFilter.ContentFilterEngine.InitDefaultRules | managers/content_filter.py:234-279 | adds the four defaults one `add_rule` at a time, and only when no rule is loaded |
| ContentFilter.ContentFilterEngine.AddRule | managers/content_filter.py:295-319 | the table becomes the upsert, the rules are reloaded, and the answer is true |
| ContentFilter.ContentFilterEngine.RemoveRule | managers/content_filter.py:326-341 | the table loses the id's row, the rules are reloaded, and the answer is true even for an absent id |
| ContentFilter.ContentFilterEngine.CheckRateLimit | managers/content_filter.py:352-376 | the answer and the new log are those of `RateCheck` |
| ContentFilter.ContentFilterEngine.CheckKeyword | managers/content_filter.py:378-386 | the term loop answers the keyword match |
| ContentFilter.ContentFilterEngine.CheckSensitiveWords | managers/content_filter.py:401-410 | the word loop finds exactly `SensitiveHits` |
| ContentFilter.ContentFilterEngine.ApplyReplacement | managers/content_filter.py:412-430 | the term loop computes the keyword or regex replacement |
| ContentFilter.ContentFilterEngine.CheckRule | managers/content_filter.py:448-461 | the dispatch on the rule kind, with the rate log updated only by a rate rule |
| ContentFilter.ContentFilterEngine.ScanRule | managers/content_filter.py:443-488 | one loop iteration on the mutable result is one `Step` |
| ContentFilter.ContentFilterEngine.ScanRules | managers/content_filter.py:444-488 | the loop with `break` leaves exactly the state `Run` describes |
| ContentFilter.ContentFilterEngine.FilterContent | managers/content_filter.py:432-515 | the result and new rate log are those of `Evaluate` on the stored rules. An audit record is appended exactly when the verdict is not the fail-safe one |
| Ranking.InsertionPointIs | managers/queue_manager.py:179-187 | the insertion index is the first message ranked strictly below, or the end |
| Ranking.InsertKeepsSorted | managers/queue_manager.py:179-187 | priority insertion keeps the queue in non-increasing priority |
| Ranking.InsertStable | managers/queue_manager.py:179-187 | the new message goes after every message of its own priority (FIFO within a tier) |
| Ranking.InsertMultiset | managers/queue_manager.py:179-187 | insertion adds exactly the message |
| Ranking.SortByRankCorrect | managers/content_filter.py:444 | the stable descending sort is a sorted permutation that keeps the order within each priority |
| QueueManager.ParseStatus | managers/queue_manager.py:18-24 | `DanmakuStatus(v)` gives the status with value `v`, or fails when there is none |
| QueueManager.AgeSortedIsPrioritySorted | managers/queue_manager.py:196 | the eviction sort also leaves the queue in priority order |
| QueueManager.Admit | managers/queue_manager.py:132-157 | the text is rejected iff the filter blocked it or asked for review, a block carrying the filter's warnings. Only a final Replace substitutes the filtered text; otherwise the original is queued |
| QueueManager.FilterFailureRejects | managers/queue_manager.py:153-157 | the filter's fail-safe verdict is a rejection; an exception escaping the filter is ignored |
| QueueManager.CleanupKeepsLive | managers/queue_manager.py:189-201 | cleanup keeps only Pending and Sending messages, never grows the queue, and keeps priority order |
| QueueManager.CleanupEvictsLowest | managers/queue_manager.py:194-201 | when still full, cleanup keeps a prefix of the `(priority, created_at)` descending sort; everything dropped ranks no higher. `max - 100` messages remain, or none when `max <= 100` |
| QueueManager.CleanupMakesRoom | managers/queue_manager.py:125-129 | with a positive limit, cleanup always makes room, so the capacity error needs a limit of zero or less |
| QueueManager.IndexOf | managers/queue_manager.py:205-206 | the first message with the id, or none |
| QueueManager.UserMessages | managers/queue_manager.py:230-235 | exactly the user's messages, narrowed to the status when one is given |
| QueueManager.ClearScan | managers/queue_manager.py:246-258 | the filtering loop keeps the unselected messages in order and counts the selected pending ones |
| QueueManager.ClearQueueRemovesSelected | managers/queue_manager.py:237-264 | clearing removes exactly the messages matching both filters. The cancellation count is at most the number removed. With no filter it empties the queue and counts every pending message |
| QueueManager.FirstEligible | managers/queue_manager.py:296-305 | the first Pending message that is due (`delay <= 0` or `now >= created_at + delay`), or none |
| QueueManager.RetryThenFail | managers/queue_manager.py:346-360 | after `n` failures the message has `n` retries and the last error. Below the cap it is Pending with delay `5n`, restamped now; at the cap it is Failed |
| QueueManager.BackoffSchedule | managers/queue_manager.py:355-359 | a refused message is due again exactly `5 * retry_count` seconds later; a delivered one is never chosen again |
| QueueManager.NewMessageFailsAfterThree | managers/queue_manager.py:44 | a new message survives two failures and is Failed with `retry_count == 3` after the third |
| QueueManager.ToDict | managers/queue_manager.py:50-56 | `to_dict` writes exactly the message's field names |
| QueueManager.ToDictHolds | managers/queue_manager.py:50-56 | the dictionary holds every field, with the status by value and the timestamps as ISO text |
| QueueManager.ToDictPlain | managers/queue_manager.py:50-52 | the text and number fields appear under their own names |
| QueueManager.ToDictCoded | managers/queue_manager.py:53-55 | the status and timestamps are encoded |
| QueueManager.DecodeHolds | managers/queue_manager.py:58-67 | a dictionary holding a message's fields decodes as that message |
| QueueManager.FromDictToDict | managers/queue_manager.py:50-67 | `from_dict(to_dict(m)) == m` when the ISO codec reads back what it writes |
| QueueManager.StatusCountsCover | managers/queue_manager.py:218-220 | the five status counts add up to the queue length |
| QueueManager.DanmakuQueue.constructor | managers/queue_manager.py:73-86 | an empty, idle queue with zeroed counters |
| QueueManager.DanmakuQueue.InsertByPriority | managers/queue_manager.py:179-187 | the scan inserts before the first lower-priority message, or appends |
| QueueManager.DanmakuQueue.CleanupQueue | managers/queue_manager.py:189-201 | the queue becomes `Cleanup` of the old queue |
| QueueManager.DanmakuQueue.AddMessage | managers/queue_manager.py:115-177 | cleans up only when the queue is full, and a queue still full gives the capacity error. A blocked or review verdict gives its rejection and adds nothing. Otherwise a new Pending message with the admitted text is inserted by priority and its id returned. The filter's rate log and audit advance as `Evaluate` says |
| QueueManager.DanmakuQueue.RemoveMessage | managers/queue_manager.py:203-214 | a Sending message becomes Cancelled in place. Any other is removed and counted as cancelled. An unknown id changes nothing and answers false |
| QueueManager.DanmakuQueue.GetUserMessages | managers/queue_manager.py:230-235 | exactly the user's messages with the given status |
| QueueManager.DanmakuQueue.ClearQueue | managers/queue_manager.py:237-264 | the queue becomes `Cleared` of the old queue; `total_cancelled` rises by the selected pending messages |
| QueueManager.DanmakuQueue.Info | managers/queue_manager.py:216-228 | the total is the queue length, the status counts cover it, and the stats, flag and limit are reported |
| QueueManager.DanmakuQueue.StartProcessing | managers/queue_manager.py:266-274 | starts only when not already running |
| QueueManager.DanmakuQueue.StopProcessing | managers/queue_manager.py:276-285 | clears the running flag |
| QueueManager.DanmakuQueue.NextEligible | managers/queue_manager.py:295-305 | the selection loop finds `FirstEligible` |
| QueueManager.DanmakuQueue.SendMessage | managers/queue_manager.py:322-362 | the message takes its `AfterSend` state and the counters their `StatsAfter` values. Success adds one sent; the final failure adds one failed |
| QueueManager.DanmakuQueue.ProcessStep | managers/queue_manager.py:287-316 | one round sends the first eligible message, if any, and changes nothing otherwise |
| Commands.ShortId | handlers/commands.py:541 | the id is the first eight characters of the UUID text |
| Commands.ParseRuleParts | handlers/commands.py:518-548 | an accepted rule has the stripped name and pattern, the lowercased enum values, an 8-character id, the sender and the default enabled/priority. An unknown type is refused before action and risk |
| Commands.ParseRuleLine | handlers/commands.py:509-548 | a line is accepted only when it splits into exactly five parts; otherwise the error carries the part count |
| Commands.RulePartsRoundTrip | handlers/commands.py:518-548 | the values of a rule, as written, read back as that rule |
| Commands.RuleLineRoundTrip | handlers/commands.py:508-548 | every rule whose name and pattern hold no `\|` and no surrounding white space can be typed as a line that reads back as that rule |
| Commands.ParseFive | handlers/commands.py:510-518 | a line of five `\|`-free parts is read part by part |
| Commands.RuleLineIgnoresCase | handlers/commands.py:518-528 | capitals and padding in type, action and risk do not matter |
| Commands.AddRuleFromLine | handlers/commands.py:504-551 | a parsed line is stored with `add_rule`; a refused line stores nothing |
| Commands.StripEach | handlers/commands.py:452 | each line is stripped |
| Commands.BulkLines | handlers/commands.py:452-465 | accepted lines are non-blank and number 1 to 50; too many is refused with the count |
| Commands.KeptRows | handlers/commands.py:452 | the comprehension keeps exactly the non-empty stripped rows |
| Commands.BulkLinesExactly | handlers/commands.py:452 | the accepted lines are exactly the non-blank stripped lines of the text |
| Commands.NoKeptRows | handlers/commands.py:452-458 | nothing is kept iff every row is blank |
| Commands.BulkLinesNone | handlers/commands.py:452-458 | the text is refused as empty iff every line is blank |
| Commands.BulkLinesRoundTrip | handlers/commands.py:452-465 | trimmed non-blank lines typed one per row come back as they were |
| Commands.BulkMessages | handlers/commands.py:473-480 | line `i` becomes a message of priority 2 and delay `i` |
| Commands.EnqueuedSorted | handlers/commands.py:473-481 | enqueueing the bulk lines keeps priority order and adds one message per line |
| Commands.EnqueuedInOrder | handlers/commands.py:473-481 | the bulk messages join after the queued priority-2 messages, in line order |
| Commands.AddLine | handlers/commands.py:474-484 | with no filter and room left, line `i` is inserted by priority |
| Commands.EnqueueBulk | handlers/commands.py:469-484 | success plus failure counts equal the number of lines. With no filter and room for all, every line is added and the queue is `Enqueued` |
| Commands.DirectSendMatchesQueue | handlers/commands.py:329-359 | the direct-send gate passes exactly what queue admission passes. It sends `filtered_text`, where the queue substitutes the filtered text only after a Replace |
| Commands.FailureNeverSent | handlers/commands.py:331-339 | the filter's fail-safe verdict never reaches the send call |
| Commands.SendDirect | handlers/commands.py:329-367 | the handler sends `DirectSendText` of the filter's verdict, never a blocked or review one |
| DanmakuClient.BuildUrlShape | clients/danmaku_client.py:139-146 | the URL is the joined path, then `&` iff the path already holds `?` (else `?`), and it ends with `api_key=` and the key |
| DanmakuClient.BuildUrlTrailingSlash | clients/danmaku_client.py:141 | a trailing `/` on the base does not change the URL |
| DanmakuClient.BuildUrlLeadingSlash | clients/danmaku_client.py:141 | a leading `/` on the endpoint does not change the URL |
| DanmakuClient.BuildUrlPlain | clients/danmaku_client.py:139-146 | without slashes at the joint or queries, the URL is `base/endpoint?api_key=key` |
| DanmakuClient.BuildUrlWithQuery | clients/danmaku_client.py:142-143 | an endpoint with its own query gets `&api_key=key` |
| DanmakuClient.Clamp | clients/danmaku_client.py:547-548 | `max(lo, min(hi, x))` lies in range and is `x` when `x` is already in range |
| DanmakuClient.Payload | clients/danmaku_client.py:541-552 | the payload clamps the font size into [12, 48] and the duration into [1, 30], keeping in-range values |
| DanmakuClient.PresetStyle | clients/danmaku_client.py:585-618 | the style is one of the five presets |
| DanmakuClient.UnknownPresetIsNormal | clients/danmaku_client.py:618 | an unknown preset name falls back to `normal` |
| DanmakuClient.StyledPayload | clients/danmaku_client.py:574-619 | a styled send carries the text |
| DanmakuClient.StyledPayloadKeepsPreset | clients/danmaku_client.py:585-619 | every preset lies within the clamping ranges, so it is sent unchanged |
| DanmakuClient.BulkTally | clients/danmaku_client.py:632-658 | the total is the number of messages, and `success` is the count of successes. Failed is total minus success, and the result succeeds iff some send succeeded |
| DanmakuClient.SomeSucceeded | clients/danmaku_client.py:650 | a positive success count means some send succeeded |
| DanmakuClient.Find | clients/danmaku_client.py:181 | the key's position in the cache dict, or none |
| DanmakuClient.Store | clients/danmaku_client.py:191 | an existing key keeps its place with the new value; a new key goes last |
| DanmakuClient.StoreUnique | clients/danmaku_client.py:191 | storing keeps keys unique and grows only for a new key |
| DanmakuClient.Oldest | clients/danmaku_client.py:196 | `min(keys, key=timestamp)` is the first entry with the smallest timestamp |
| DanmakuClient.RemoveAtUnique | clients/danmaku_client.py:197 | deleting an entry keeps keys unique and shrinks the cache by one |
| DanmakuClient.CacheReadHits | clients/danmaku_client.py:179-187 | a read hits iff the key's entry is younger than 60 s, and then gives its data |
| DanmakuClient.CacheAfterReadKeepsOthers | clients/danmaku_client.py:179-187 | a read leaves other keys' entries as they were, in order |
| DanmakuClient.CacheAfterReadFresh | clients/danmaku_client.py:185-186 | after a read no expired entry for the key is left |
| DanmakuClient.CacheAfterSetBounded | clients/danmaku_client.py:189-197 | the cache never holds more than 100 entries, one per key |
| DanmakuClient.CacheSetThenRead | clients/danmaku_client.py:189-197 | with a clock that does not run backwards, what was just stored reads back at once |
| DanmakuClient.DanmakuApiClient.constructor | clients/danmaku_client.py:27-50 | empty cache and zeroed counters |
| DanmakuClient.DanmakuApiClient.GetFromCache | clients/danmaku_client.py:179-187 | returns `CacheRead` and leaves `CacheAfterRead` |
| DanmakuClient.DanmakuApiClient.SetCache | clients/danmaku_client.py:189-197 | the cache becomes `CacheAfterSet` |
| DanmakuClient.DanmakuApiClient.UpdateStats | clients/danmaku_client.py:199-208 | the total rises by one, plus exactly one of successes (stamped now) or failures (with the error), so total = successes + failures |
| TmdbClient.BuildUrlShape | clients/tmdb_client.py:30-35 | the URL is the joined path, then `&` iff the path already holds `?`, and it always ends with `&language=zh-CN` |
| TmdbClient.BuildUrlPlain | clients/tmdb_client.py:30-35 | without slashes at the joint or queries, the URL is `base/endpoint?api_key=key&language=zh-CN` |
| TmdbClient.ParamPairs | clients/tmdb_client.py:60 | one `k=v` per parameter, in dict order |
| TmdbClient.WithParamsAppends | clients/tmdb_client.py:58-61 | the parameters follow the URL as `&k1=v1&k2=v2...`, unescaped |
| TmdbClient.ParamsSplitBack | clients/tmdb_client.py:60 | `&`-free keys and values can be split back from the joined text |
| TmdbClient.ImageUrl | clients/tmdb_client.py:37-41 | empty iff the path is empty; otherwise image host, `/t/p/`, size, then path |
| TmdbClient.ImageOf | clients/tmdb_client.py:37-41 | the URL of a profile, poster or backdrop path: none for a falsy path. A text, integer or `True` path gives the image host, `/t/p/` and size, ending with the path formatted by `str()`. A float or non-empty list or dict path gives none |
| TmdbClient.ImageOfTruthy | clients/tmdb_client.py:37-41 | for a text, integer, boolean or null path: no URL iff the path is falsy. Otherwise the URL ends with the path's text |
| TmdbClient.FirstCast | clients/tmdb_client.py:223 | at most ten cast entries |
| TmdbClient.ShapeCrewAll | clients/tmdb_client.py:233-241 | one shaped crew record per entry, in order |
| TmdbClient.SearchMovies | clients/tmdb_client.py:91-131 | succeeds iff the results are a list of dicts, then one shaped movie per result in order, plus totals and page |
| TmdbClient.CastList | clients/tmdb_client.py:222-230 | the cast loop shapes each entry in order, failing on a non-dict |
| TmdbClient.CrewStep | clients/tmdb_client.py:233-241 | one more crew entry adds its shape exactly when its job is kept |
| TmdbClient.CrewList | clients/tmdb_client.py:232-241 | the crew loop shapes exactly the kept jobs, in order |
| TmdbClient.MovieCredits | clients/tmdb_client.py:216-257 | succeeds iff cast and crew are lists of dicts; cast is the first ten shaped, crew the kept jobs shaped |
| TmdbClient.FirstCastIsPrefix | clients/tmdb_client.py:223 | the cast is a prefix of the list, of length `min(len, 10)` |
| TmdbClient.KeyCrewExactly | clients/tmdb_client.py:234 | the kept crew are exactly the Director, Producer and Writer entries |
| TemplateManager.Names | managers/template_manager.py:122-124 | the names in dict order |
| TemplateManager.Lookup | managers/template_manager.py:107-109 | `templates.get(name)`: none iff the name is absent |
| TemplateManager.Put | managers/template_manager.py:146-153 | storing keeps an existing name's place and appends a new name |
| TemplateManager.Delete | managers/template_manager.py:177 | deletion never grows the store |
| TemplateManager.PutLookup | managers/template_manager.py:146-153 | after a store the name maps to the new fields and every other name is unchanged |
| TemplateManager.PutUnique | managers/template_manager.py:146 | storing keeps names unique |
| TemplateManager.DeleteLookup | managers/template_manager.py:173-183 | after a delete the name is absent and the others are unchanged |
| TemplateManager.DeleteMembers | managers/template_manager.py:177 | deletion keeps exactly the other templates |
| TemplateManager.DeleteUnique | managers/template_manager.py:177 | deletion keeps names unique |
| TemplateManager.DeleteOrder | managers/template_manager.py:177 | deletion keeps names unique and adds no entry |
| TemplateManager.DeleteIsFilter | managers/template_manager.py:177 | deletion keeps exactly the entries under other names, in dict order |
| TemplateManager.PutAllLookup | managers/template_manager.py:214-215 | after a merge, imported names take the imported fields and other names keep theirs |
| TemplateManager.PutAllUnique | managers/template_manager.py:215 | merging keeps names unique |
| TemplateManager.DefaultTemplatesUnique | managers/template_manager.py:29-96 | the eight default templates have distinct names |
| TemplateManager.InsertLexCorrect | managers/template_manager.py:132 | insertion into a sorted distinct list keeps it sorted and distinct |
| TemplateManager.SortDistinct | managers/template_manager.py:132 | `sorted(set(xs))` is strictly increasing with exactly the elements of `xs` |
| TemplateManager.SearchExactly | managers/template_manager.py:185-196 | a search lists exactly the templates whose name, text or category contains the keyword, ignoring case |
| TemplateManager.SearchHitsDefined | managers/template_manager.py:190-193 | a successful search could read every field it tested |
| TemplateManager.SearchStaysFailed | managers/template_manager.py:190-194 | once a field read fails the search fails |
| TemplateManager.TemplateStore.constructor | managers/template_manager.py:15-27 | the stored templates, or the defaults when there is no file |
| TemplateManager.TemplateStore.GetTemplatesByCategory | managers/template_manager.py:111-116 | exactly the templates of the category |
| TemplateManager.TemplateStore.GetCategories | managers/template_manager.py:126-132 | sorted, duplicate-free, exactly the categories present when all are text; none when some category is not text |
| TemplateManager.TemplateStore.AddTemplate | managers/template_manager.py:134-158 | stores the six fields under the name, inserting or overwriting; color, position, font size, duration and category default as in Python |
| TemplateManager.AddedTemplateDefaults | managers/template_manager.py:134-153 | a template added with a name and a text only looks up as white, scrolling, 24-point, five seconds, category `custom` |
| TemplateManager.TemplateStore.UpdateTemplate | managers/template_manager.py:160-171 | false and unchanged for a missing name; otherwise only the supplied fields are overwritten |
| TemplateManager.TemplateStore.DeleteTemplate | managers/template_manager.py:173-183 | true iff the name was present, and then the store is `Delete` |
| TemplateManager.TemplateStore.SearchTemplates | managers/template_manager.py:185-196 | the loop computes `Search` on the lowercased keyword |
| TemplateManager.TemplateStore.ImportTemplates | managers/template_manager.py:208-223 | merge updates by name; otherwise the import replaces everything |
| PreferencesManager.Render | managers/preferences_manager.py:79 | the favourites list as a JSON array of strings |
| PreferencesManager.NamesRender | managers/preferences_manager.py:77-91 | a rendered list reads back as itself |
| PreferencesManager.RenderNames | managers/preferences_manager.py:85-91 | a list read from an array renders back as that array |
| PreferencesManager.ToDict | managers/preferences_manager.py:77-82 | `to_dict` writes only field names |
| PreferencesManager.FromDictDefaults | managers/preferences_manager.py:27-75 | a record built from only `user_id` has the dataclass defaults: white scrolling text of size 24 for 5 s, no favourites, priority 3, queue size 100, a 30 s timeout and 3 retries, stamped now |
| PreferencesManager.DanmakuFieldsRoundTrip | managers/preferences_manager.py:32-37 | the danmaku fields read back |
| PreferencesManager.InterfaceFieldsRoundTrip | managers/preferences_manager.py:39-44 | the interface fields read back |
| PreferencesManager.BehaviourFieldsRoundTrip | managers/preferences_manager.py:46-51 | the feature fields read back |
| PreferencesManager.PrivacyFieldsRoundTrip | managers/preferences_manager.py:53-57 | the privacy fields read back |
| PreferencesManager.AdvancedFieldsRoundTrip | managers/preferences_manager.py:59-63 | the advanced fields read back |
| PreferencesManager.TimesRoundTrip | managers/preferences_manager.py:80-90 | the timestamps travel as ISO text and read back |
| PreferencesManager.DecodeHolds | managers/preferences_manager.py:85-91 | a dictionary holding a record's fields decodes as that record |
| PreferencesManager.FromDictToDict | managers/preferences_manager.py:77-91 | `from_dict(to_dict(p)) == p` |
| PreferencesManager.SetFieldStores | managers/preferences_manager.py:166 | a successful `setattr` of a field stores the value: `to_dict` writes exactly it under the key, and `created_at` holds the time its text parses to. No other field changes; a non-field attribute changes nothing |
| PreferencesManager.SetField | managers/preferences_manager.py:166 | `setattr` succeeds only for a name `hasattr` finds: a field, or a method or attribute of the class, which changes no field |
| PreferencesManager.AddFavoriteSpec | managers/preferences_manager.py:166 | adding holds the name, keeps the earlier names in place, and never duplicates |
| PreferencesManager.RemoveFirstSpec | managers/preferences_manager.py:166 | `list.remove` takes out one occurrence, or changes nothing when absent |
| PreferencesManager.RemoveFavoriteSpec | managers/preferences_manager.py:166 | on a duplicate-free list, removal leaves exactly the other names |
| PreferencesManager.SubDaySeconds | managers/preferences_manager.py:166 | `timedelta.seconds` is the sub-day remainder of the age |
| PreferencesManager.FreshWithinADay | managers/preferences_manager.py:102 | within a day of storing, an entry is fresh exactly for its first 300 seconds |
| PreferencesManager.FreshRepeatsDaily | managers/preferences_manager.py:166 | freshness repeats every day, because only the sub-day part is compared |
| PreferencesManager.GetCaches | managers/preferences_manager.py:166 | a read caches the record it returned, so a second read at once answers from the cache with the same record |
| PreferencesManager.SavedThrough | managers/preferences_manager.py:166 | after a change through a read, the saved record is cached fresh under its own `user_id`, and the entry the read left under the requested user holds the same record; other entries are untouched |
| PreferencesManager.ReadAfterSave | managers/preferences_manager.py:166 | the next read for the requested user answers the saved record, even when the change moved it to another `user_id` |
| PreferencesManager.UserPreferencesManager.constructor | managers/preferences_manager.py:97-102 | empty table and cache |
| PreferencesManager.UserPreferencesManager.SetCache | managers/preferences_manager.py:155-161 | the cache maps the user to the record stamped now |
| PreferencesManager.UserPreferencesManager.GetFromCache | managers/preferences_manager.py:163-166 | answers the cached record iff fresh; a stale entry is deleted |
| PreferencesManager.UserPreferencesManager.SavePreferences | managers/preferences_manager.py:166 | stamps `updated_at`, stores under the record's `user_id`, and caches it |
| PreferencesManager.UserPreferencesManager.GetUserPreferences | managers/preferences_manager.py:166 | answers the cached, stored or new default record, and saves and caches a new one |
| PreferencesManager.UserPreferencesManager.ShareCached | managers/preferences_manager.py:166 | the cached object under the user is changed in place; its timestamp stays |
| PreferencesManager.UserPreferencesManager.UpdatePreference | managers/preferences_manager.py:166 | false with nothing saved when `hasattr` fails or the value does not fit the field; otherwise the changed record is saved under its `user_id`, and the cache holds it both there and under the requested user |
| PreferencesManager.UserPreferencesManager.AddFavoriteTemplate | managers/preferences_manager.py:166 | true; saves the list with the name appended only when it was absent, and the cache holds the changed record under the requested user too |
| PreferencesManager.UserPreferencesManager.RemoveFavoriteTemplate | managers/preferences_manager.py:166 | true; saves the list without the name only when it was present, and the cache holds the changed record under the requested user too |

## Left out

- SQLite: the rule, audit, sensitive-word and preference tables are in-memory sequences and maps. SQL errors, the audit queries and the statistics are not modelled, and `add_rule`/`remove_rule` always succeed.
- The sensitive-word list is a sequence in a fixed order. Python iterates a `set`, in an order the model does not fix.
- The JSON snapshot of the queue, the template file and preference export/import are file I/O. Only the dictionary forms (`to_dict`/`from_dict`) and the merge semantics are modelled.
- Preferences: `reset_user_preferences`, `export_preferences`, `import_preferences`, `get_statistics` and `cleanup_cache` are reporting or file operations over the same table and are not modelled.
- Regular expressions and ISO timestamps are oracles. Their compile failures and parse errors count as the source's exception paths.
- Floating point: `batch_send_interval` is a Dafny `real`, which has no rounding. The float `delay` is whole seconds, and `avg_response_time` is left out.
- HTTP: sessions, the rate limiter sleep, the retry decorator and the status-code checks of `_make_request` are left out. A decoded response is given, and a failed request is the shaping code's `None`.
- The asyncio loop of `_process_queue` is modelled one round at a time. Task creation and cancellation in `start_processing`/`stop_processing` are not modelled.
- A message cancelled while it is being sent is overwritten by the send outcome, as in the source, because `_send_message` does not check again.
- DanmakuClient.Payload: the payload has six fixed keys. In Python, `send_danmaku` spreads `**kwargs` after them, so extra keys reach the payload and an `action` keyword replaces `"send"`; `send_bulk_danmaku` passes each message dict through `**message` the same way.
- `**style_kwargs` of `add_message` is a fixed `Style` record. Unknown keyword arguments, which raise in the source, are not modelled.
- `from_dict` of both records checks value types per field. Python's dataclass would accept any value, so a wrongly typed field is `None` here rather than stored.
- String case folding is ASCII only. White space is the ASCII set Python strips (space, `\t`, `\n`, `\r`, `\v`, `\f` and the separators `\x1c`..`\x1f`); the non-ASCII characters `str.strip()` and `int()` also remove, such as `\x85`, `\xa0` and `\u3000`, are kept.
- Commands.EnqueueBulk: states the exact queue only when there is no filter and room for every line. With a filter, each line's outcome depends on the filter's verdict, and only the count identity is stated.
- Commands.AddLine: states the insertion only with no filter and room left.
- `handlers/commands.py:475` calls `add_message` without `await`. The model enqueues as the comment intends; the never-awaited coroutine is not modelled.
- The bulk send of `send_bulk_danmaku` takes each send's outcome as given. The per-message payload dictionaries and the exception path are not modelled.
- TmdbClient.SearchMovies: a poster or backdrop path that is a float or a non-empty list or dict gives no URL, where Python formats its `str()` into one. Text, integer, boolean and null paths follow `get_image_url`.
- TmdbClient.ImageOf: a path that is a float or a non-empty list or dict gives no URL, where Python formats its `str()` into one.
- TmdbClient.ShapeCrewAll: a profile path that is a float or a non-empty list or dict gives no URL, where Python formats its `str()` into one. Text, integer, boolean and null paths follow `get_image_url`.
- TmdbClient.CastList: a profile path that is a float or a non-empty list or dict gives no URL, where Python formats its `str()` into one. Text, integer, boolean and null paths follow `get_image_url`.
- TmdbClient.CrewList: a profile path that is a float or a non-empty list or dict gives no URL, where Python formats its `str()` into one. Text, integer, boolean and null paths follow `get_image_url`.
- TmdbClient.MovieCredits: a profile path that is a float or a non-empty list or dict gives no URL, where Python formats its `str()` into one. Text, integer, boolean and null paths follow `get_image_url`.
- Query parameter values of the TMDB client are given as text. Python's `str()` of other value types is not modelled.
- TmdbClient.FirstCast: its own contract bounds the length only. FirstCastIsPrefix states the prefix.
- The `if cached_data:` test of the danmaku client's `_make_request` treats an empty response as a miss. `_make_request` itself is not part of this model.
- DanmakuClient.StyledPayload: its own contract states the text only. StyledPayloadKeepsPreset states the full payload.
- PreferencesManager.SetField: type-checks the new value per field, where Python's `setattr` stores any value. When the save then fails on such a value, the cached object is left changed; the model changes nothing.
- PreferencesManager.SetField: `__class__`, `__dict__` and `__weakref__` are not among the accepted attributes. Setting them raises for most values, so `update_preference` answers false, but a dict assigned to `__dict__` would be accepted.
- PreferencesManager.SetField: setting a method name such as `to_dict` leaves an instance attribute that hides the method on later calls. The model keeps the record's fields and does not track that attribute.
- PreferencesManager.SavedThrough: only the entries under the requested user and the record's `user_id` are updated. Another cache entry that still shares the object since an earlier `user_id` change is not tracked.
- TemplateManager.TemplateStore.GetCategories: any category that is not text makes the model fail. Python succeeds when there is a single such category or when all categories are mutually comparable numbers, and fails only on a list or dict category or an incomparable pair.
- ContentFilter.LoadRulesCorrect: assumes SQLite returns rows of equal priority in insertion order. SQLite does not promise that order for `ORDER BY priority DESC`.
- Text.ParseInt: Python's `int()` also accepts underscores between digits and non-ASCII decimal digits. The model accepts only ASCII digits, with surrounding white space and an optional sign.
- PreferencesManager.ToDict: its own contract bounds the keys only. The field lemmas state each value.
