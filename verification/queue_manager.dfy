/**
 * The delivery queue (managers/queue_manager.py): a list of messages kept in
 * descending priority, admission through the content filter, capacity
 * cleanup, cancellation and clearing, the scheduler's choice of the next
 * message and the retry state machine of one send.
 *
 * Times are whole seconds of one clock; `now` is passed in where the source
 * reads the wall clock.  A message's `delay` is whole seconds too.
 */
module QueueManager {
  import opened Wrappers
  import opened Text
  import opened Ranking
  import opened Subseq
  import opened Json
  import ContentFilter

  datatype Status = Pending | Sending | Success | Failed | Cancelled

  /** `DanmakuStatus.value`. */
  function StatusValue(s: Status): string {
    match s
    case Pending => "pending"
    case Sending => "sending"
    case Success => "success"
    case Failed => "failed"
    case Cancelled => "cancelled"
  }

  /** `DanmakuStatus(v)`: the status whose value is `v`; `None` where the
      enum constructor raises. */
  function ParseStatus(v: string): (r: Option<Status>)
    ensures r.Some? ==> StatusValue(r.value) == v
    ensures r.None? ==> forall s :: StatusValue(s) != v
  {
    if v == "pending" then Some(Pending)
    else if v == "sending" then Some(Sending)
    else if v == "success" then Some(Success)
    else if v == "failed" then Some(Failed)
    else if v == "cancelled" then Some(Cancelled)
    else None
  }

  /** The style keyword arguments a message is created with. */
  datatype Style = Style(color: string, position: string, fontSize: int, duration: int)

  const DefaultStyle := Style("#FFFFFF", "scroll", 24, 5)

  /** `DanmakuMessage`. */
  datatype Message = Message(
    id: string,
    text: string,
    userId: int,
    color: string,
    position: string,
    fontSize: int,
    duration: int,
    priority: int,
    delay: int,
    status: Status,
    createdAt: int,
    sentAt: Option<int>,
    errorMessage: string,
    retryCount: int,
    maxRetries: int)

  /** The counters of `self.stats`. */
  datatype Stats = Stats(totalSent: int, totalFailed: int, totalCancelled: int, sessionSent: int, sessionFailed: int)

  /** A message as `add_message` creates it: pending, created now, no
      retries yet, at most three attempts. */
  function NewMessage(id: string, text: string, user: int, priority: int, delay: int, style: Style, now: int): Message {
    Message(id, text, user, style.color, style.position, style.fontSize, style.duration,
            priority, delay, Pending, now, None, "", 0, 3)
  }

  /** `f"dm_{user_id}_{int(timestamp * 1000)}"`. */
  function MessageId(user: int, now: int): string {
    "dm_" + IntToString(user) + "_" + IntToString(now * 1000)
  }

  /** The queue's order: higher priority first. */
  function PriorityRank(m: Message): Rank {
    Rank(m.priority, 0)
  }

  /** The eviction order: the sort key `(priority, created_at)`. */
  function AgeRank(m: Message): Rank {
    Rank(m.priority, m.createdAt)
  }

  lemma AgeSortedIsPrioritySorted(q: seq<Message>)
    requires SortedByRank(q, AgeRank)
    ensures SortedByRank(q, PriorityRank)
  {
    forall i, j | 0 <= i < j < |q|
      ensures !Below(PriorityRank(q[i]), PriorityRank(q[j]))
    {
      assert !Below(AgeRank(q[i]), AgeRank(q[j]));
    }
  }

  // ---------------------------------------------------------------------
  // Admission

  datatype AddError = QueueFull | BlockedByFilter(warnings: seq<string>) | NeedsReview

  /** What the filter said about a message being admitted: not consulted
      (`skip_filter`, or no filter), a result, or an exception other than a
      rejection, which the queue logs and ignores. */
  datatype Verdict = Unfiltered | Filtered(result: ContentFilter.FilterResult) | FilterError

  /** The filter gate of `add_message`: the text to queue, or the rejection. */
  function Admit(text: string, v: Verdict): (r: Result<string, AddError>)
    ensures r.Err? <==> v.Filtered? && (v.result.isBlocked || v.result.action == ContentFilter.Review)
    ensures r.Err? && v.result.isBlocked ==> r.error == BlockedByFilter(v.result.warnings)
    ensures r.Ok? && v.Filtered? && v.result.action == ContentFilter.Replace ==> r.value == v.result.filteredText
    ensures r.Ok? && !(v.Filtered? && v.result.action == ContentFilter.Replace) ==> r.value == text
  {
    match v
    case Filtered(res) =>
      if res.isBlocked then Err(BlockedByFilter(res.warnings))
      else if res.action == ContentFilter.Review then Err(NeedsReview)
      else Ok(if res.action == ContentFilter.Replace then res.filteredText else text)
    case _ => Ok(text)
  }

  /** An internal error of the filter never lets a message through: the
      filter answers it with its fail-safe verdict, which is a rejection;
      only an exception escaping the filter would be ignored. */
  lemma FilterFailureRejects(text: string)
    ensures Admit(text, Filtered(ContentFilter.FailSafe(text))).Err?
    ensures Admit(text, FilterError) == Ok(text)
  {
  }

  // ---------------------------------------------------------------------
  // Capacity cleanup

  /** Still to be delivered: pending or being sent. */
  predicate Live(m: Message) {
    m.status == Pending || m.status == Sending
  }

  /** `_cleanup_queue`: drop delivered, failed and cancelled messages; if the
      queue is still at capacity, sort by `(priority, created_at)` descending
      and pop `len - max + 100` messages from the tail. */
  function Cleanup(q: seq<Message>, max: int): seq<Message> {
    var live := Keep(q, Live);
    if |live| < max then live
    else
      var sorted := SortByRank(live, AgeRank);
      var drop := |live| - max + 100;
      sorted[..if drop < |sorted| then |sorted| - drop else 0]
  }

  /** Cleanup keeps only live messages of the queue, in priority order. */
  lemma CleanupKeepsLive(q: seq<Message>, max: int)
    requires SortedByRank(q, PriorityRank)
    ensures forall m :: m in Cleanup(q, max) ==> m in q && Live(m)
    ensures |Cleanup(q, max)| <= |q|
    ensures SortedByRank(Cleanup(q, max), PriorityRank)
  {
    var live := Keep(q, Live);
    KeepExactly(q, Live);
    KeepSorted(q, Live, PriorityRank);
    if |live| >= max {
      var sorted := SortByRank(live, AgeRank);
      SortByRankCorrect(live, AgeRank);
      AgeSortedIsPrioritySorted(sorted);
      forall m | m in Cleanup(q, max)
        ensures m in q && Live(m)
      {
        assert m in multiset(sorted);
      }
      assert |sorted| == |live| by {
        assert |multiset(sorted)| == |multiset(live)|;
      }
    }
  }

  /** When eviction happens, it removes the lowest-ranked messages: the
      result is a prefix of the sorted live messages, and every evicted
      message ranks, by `(priority, created_at)`, no higher than every kept
      one. What is left is `max - 100` messages, or none when `max <= 100`. */
  lemma CleanupEvictsLowest(q: seq<Message>, max: int)
    requires |Keep(q, Live)| >= max
    ensures var sorted := SortByRank(Keep(q, Live), AgeRank);
      var kept := Cleanup(q, max);
      multiset(sorted) == multiset(Keep(q, Live))
      && kept == sorted[..|kept|]
      && (forall i, j :: 0 <= i < |kept| <= j < |sorted| ==> !Below(AgeRank(sorted[i]), AgeRank(sorted[j])))
      && |kept| == (if max > 100 then max - 100 else 0)
  {
    var live := Keep(q, Live);
    var sorted := SortByRank(live, AgeRank);
    SortByRankCorrect(live, AgeRank);
    assert |sorted| == |live| by {
      assert |multiset(sorted)| == |multiset(live)|;
    }
  }

  /** The capacity error after cleanup is only reachable with a limit of
      zero or less: with a positive limit, cleanup always makes room. */
  lemma CleanupMakesRoom(q: seq<Message>, max: int)
    requires max > 0 && |q| >= max
    ensures |Cleanup(q, max)| < max
  {
    if |Keep(q, Live)| >= max {
      CleanupEvictsLowest(q, max);
    }
  }

  // ---------------------------------------------------------------------
  // Lookup, clearing and selection

  /** The index of the first message with identifier `id`. */
  function IndexOf(q: seq<Message>, id: string): (k: Option<nat>)
    ensures k.Some? ==> (k.value < |q| && q[k.value].id == id
                         && forall j :: 0 <= j < k.value ==> q[j].id != id)
    ensures k.None? ==> forall j :: 0 <= j < |q| ==> q[j].id != id
  {
    if q == [] then None
    else if q[0].id == id then Some(0)
    else match IndexOf(q[1..], id)
      case Some(k) => Some(k + 1)
      case None => None
  }

  function StatusIs(s: Status): Message -> bool {
    (m: Message) => m.status == s
  }

  /** The messages of `user`, narrowed to one status when a status is given. */
  function UserMessages(q: seq<Message>, user: int, statusFilter: Option<Status>): (r: seq<Message>)
    ensures forall m :: m in r <==> m in q && m.userId == user && (statusFilter.None? || m.status == statusFilter.value)
  {
    var mine := Keep(q, (m: Message) => m.userId == user);
    KeepExactly(q, (m: Message) => m.userId == user);
    if statusFilter.Some? then
      KeepExactly(mine, StatusIs(statusFilter.value));
      Keep(mine, StatusIs(statusFilter.value))
    else mine
  }

  /** Matches both filters of `clear_queue`; a missing filter matches all. */
  predicate Selected(m: Message, user: Option<int>, statusFilter: Option<Status>) {
    (user.None? || m.userId == user.value) && (statusFilter.None? || m.status == statusFilter.value)
  }

  /** What `clear_queue` leaves: the unselected messages, in order. */
  function Cleared(q: seq<Message>, user: Option<int>, statusFilter: Option<Status>): seq<Message> {
    Keep(q, (m: Message) => !Selected(m, user, statusFilter))
  }

  /** What `clear_queue` adds to `total_cancelled`: the selected pending messages. */
  function CancelledBy(q: seq<Message>, user: Option<int>, statusFilter: Option<Status>): nat {
    Count(q, (m: Message) => Selected(m, user, statusFilter) && m.status == Pending)
  }

  /** The filtering loop of `clear_queue`: keep the unselected messages in
      order and count the selected pending ones. */
  method ClearScan(q: seq<Message>, user: Option<int>, statusFilter: Option<Status>)
    returns (kept: seq<Message>, count: nat)
    ensures kept == Cleared(q, user, statusFilter)
    ensures count == CancelledBy(q, user, statusFilter)
  {
    kept, count := [], 0;
    for i := 0 to |q|
      invariant kept == Cleared(q[..i], user, statusFilter)
      invariant count == CancelledBy(q[..i], user, statusFilter)
    {
      var m := q[i];
      var remove := true;
      if user.Some? && m.userId != user.value {
        remove := false;
      }
      if statusFilter.Some? && m.status != statusFilter.value {
        remove := false;
      }
      assert q[..i + 1][..i] == q[..i] && q[..i + 1][i] == m;
      if remove && m.status == Pending {
        count := count + 1;
      } else if !remove {
        kept := kept + [m];
      }
    }
    assert q[..|q|] == q;
  }

  /** `clear_queue` removes exactly the selected messages; the cancellation
      count is at most the number removed; with no filter at all, it
      empties the queue and counts every pending message. */
  lemma ClearQueueRemovesSelected(q: seq<Message>, user: Option<int>, statusFilter: Option<Status>)
    ensures forall m :: m in Cleared(q, user, statusFilter) <==> m in q && !Selected(m, user, statusFilter)
    ensures CancelledBy(q, user, statusFilter) <= |q| - |Cleared(q, user, statusFilter)|
    ensures user.None? && statusFilter.None? ==>
      Cleared(q, user, statusFilter) == [] && CancelledBy(q, user, statusFilter) == Count(q, StatusIs(Pending))
  {
    var keep := (m: Message) => !Selected(m, user, statusFilter);
    var sel := (m: Message) => Selected(m, user, statusFilter);
    var cancel := (m: Message) => Selected(m, user, statusFilter) && m.status == Pending;
    KeepExactly(q, keep);
    KeepSplit(q, keep, sel);
    CountBelow(q, cancel, sel);
    if user.None? && statusFilter.None? {
      KeepTrivial(q, keep);
      KeepSame(q, cancel, StatusIs(Pending));
    }
  }

  /** Counting by a stronger condition counts no more. */
  lemma {:induction false} CountBelow(q: seq<Message>, p: Message -> bool, p2: Message -> bool)
    requires forall m :: p(m) ==> p2(m)
    ensures Count(q, p) <= Count(q, p2)
    decreases |q|
  {
    if q != [] {
      CountBelow(q[..|q| - 1], p, p2);
    }
  }

  /** Due for sending: pending, and its delay (if any) has elapsed. */
  predicate Eligible(m: Message, now: int) {
    m.status == Pending && (m.delay <= 0 || now >= m.createdAt + m.delay)
  }

  /** The scheduler's choice: the first eligible message in queue order. */
  function FirstEligible(q: seq<Message>, now: int): (k: Option<nat>)
    ensures k.Some? ==> (k.value < |q| && Eligible(q[k.value], now)
                         && forall j :: 0 <= j < k.value ==> !Eligible(q[j], now))
    ensures k.None? ==> forall j :: 0 <= j < |q| ==> !Eligible(q[j], now)
  {
    if q == [] then None
    else if Eligible(q[0], now) then Some(0)
    else match FirstEligible(q[1..], now)
      case Some(k) => Some(k + 1)
      case None => None
  }

  // ---------------------------------------------------------------------
  // One send and its retry state machine

  /** The sink's answer to one send: delivered, or an error message (a
      refusal reported by the client or an exception it raised). */
  datatype Outcome = Delivered | Refused(reason: string)

  /** The message after `_send_message`. */
  function AfterSend(m: Message, o: Outcome, now: int): Message {
    match o
    case Delivered => m.(status := Success, sentAt := Some(now))
    case Refused(e) =>
      var n := m.retryCount + 1;
      if n >= m.maxRetries then m.(retryCount := n, errorMessage := e, status := Failed)
      else m.(retryCount := n, errorMessage := e, status := Pending, delay := 5 * n, createdAt := now)
  }

  /** The counters after `_send_message` on `m`. */
  function StatsAfter(s: Stats, m: Message, o: Outcome): Stats {
    match o
    case Delivered => s.(totalSent := s.totalSent + 1, sessionSent := s.sessionSent + 1)
    case Refused(_) =>
      if m.retryCount + 1 >= m.maxRetries
      then s.(totalFailed := s.totalFailed + 1, sessionFailed := s.sessionFailed + 1)
      else s
  }

  /** `n` failed sends in a row. */
  function FailTimes(m: Message, n: nat, reason: string, now: int): Message {
    if n == 0 then m else AfterSend(FailTimes(m, n - 1, reason, now), Refused(reason), now)
  }

  /** A fresh message is retried with a linear backoff until its attempts
      are used up: after `n < max_retries` failures it is pending again,
      due `5 n` seconds after the failure; after `max_retries` failures it
      has failed with `retry_count == max_retries`. */
  lemma {:induction false} RetryThenFail(m: Message, n: nat, reason: string, now: int)
    requires m.retryCount == 0 && 0 < n <= m.maxRetries
    ensures var r := FailTimes(m, n, reason, now);
      r.retryCount == n && r.errorMessage == reason
      && r.priority == m.priority && r.maxRetries == m.maxRetries
      && (n < m.maxRetries ==> r.status == Pending && r.delay == 5 * n && r.createdAt == now)
      && (n == m.maxRetries ==> r.status == Failed)
  {
    var prev := FailTimes(m, n - 1, reason, now);
    assert FailTimes(m, n, reason, now) == AfterSend(prev, Refused(reason), now);
    if n > 1 {
      RetryThenFail(m, n - 1, reason, now);
    } else {
      assert prev == m;
    }
  }

  /** A message that fails and is to be retried becomes due again exactly
      `5 * retry_count` seconds after the failure; a message that has
      succeeded or failed for good is never chosen again. */
  lemma BackoffSchedule(m: Message, reason: string, now: int, t: int)
    requires 0 <= m.retryCount && m.retryCount + 1 < m.maxRetries
    ensures Eligible(AfterSend(m, Refused(reason), now), t) <==> t >= now + 5 * (m.retryCount + 1)
    ensures !Eligible(AfterSend(m, Delivered, now), t)
  {
  }

  /** Three failed attempts of a new message exhaust it. */
  lemma NewMessageFailsAfterThree(id: string, text: string, user: int, priority: int, delay: int, style: Style,
                                  created: int, reason: string, now: int)
    ensures var m := NewMessage(id, text, user, priority, delay, style, created);
      FailTimes(m, 2, reason, now).status == Pending
      && FailTimes(m, 3, reason, now).status == Failed
      && FailTimes(m, 3, reason, now).retryCount == 3
  {
    var m := NewMessage(id, text, user, priority, delay, style, created);
    RetryThenFail(m, 2, reason, now);
    RetryThenFail(m, 3, reason, now);
  }

  // ---------------------------------------------------------------------
  // to_dict / from_dict

  const MessageKeys: set<string> := {"id", "text", "user_id", "color", "position", "font_size", "duration",
    "priority", "delay", "status", "created_at", "sent_at", "error_message", "retry_count", "max_retries"}

  /** `DanmakuMessage.to_dict`. */
  function ToDict(m: Message, iso: IsoCodec): (d: map<string, JsonValue>)
    ensures d.Keys == MessageKeys
  {
    map["id" := JStr(m.id), "text" := JStr(m.text), "user_id" := JInt(m.userId),
        "color" := JStr(m.color), "position" := JStr(m.position),
        "font_size" := JInt(m.fontSize), "duration" := JInt(m.duration),
        "priority" := JInt(m.priority), "delay" := JInt(m.delay),
        "status" := JStr(StatusValue(m.status)),
        "created_at" := JStr(iso.format(m.createdAt)),
        "sent_at" := (if m.sentAt.Some? then JStr(iso.format(m.sentAt.value)) else JNull),
        "error_message" := JStr(m.errorMessage),
        "retry_count" := JInt(m.retryCount), "max_retries" := JInt(m.maxRetries)]
  }

  /** The status field: `pending` when absent. */
  function StatusField(d: map<string, JsonValue>): Option<Status> {
    if "status" !in d then Some(Pending)
    else if d["status"].JStr? then ParseStatus(d["status"].s)
    else None
  }

  /** `DanmakuMessage.from_dict`: `id`, `text` and `user_id` are required,
      every other field has its default, an unknown key is an error; a
      missing creation time is `now`. */
  function FromDict(d: map<string, JsonValue>, iso: IsoCodec, now: int): Option<Message> {
    if !(d.Keys <= MessageKeys) then None else Decode(d, iso, now)
  }

  /** The fields of a dictionary with no unknown key, as a message. */
  function Decode(d: map<string, JsonValue>, iso: IsoCodec, now: int): Option<Message> {
    var id := StrField(d, "id", None);
    var text := StrField(d, "text", None);
    var user := IntField(d, "user_id", None);
    var color := StrField(d, "color", Some("#FFFFFF"));
    var position := StrField(d, "position", Some("scroll"));
    var fontSize := IntField(d, "font_size", Some(24));
    var duration := IntField(d, "duration", Some(5));
    var priority := IntField(d, "priority", Some(1));
    var delay := IntField(d, "delay", Some(0));
    var status := StatusField(d);
    var created := TimeField(d, "created_at", iso);
    var sent := TimeField(d, "sent_at", iso);
    var error := StrField(d, "error_message", Some(""));
    var retries := IntField(d, "retry_count", Some(0));
    var maxRetries := IntField(d, "max_retries", Some(3));
    if id.None? || text.None? || user.None? || color.None? || position.None?
       || fontSize.None? || duration.None? || priority.None? || delay.None? || status.None?
       || created.None? || sent.None? || error.None? || retries.None? || maxRetries.None?
    then None
    else Some(Message(id.value, text.value, user.value, color.value, position.value, fontSize.value,
                      duration.value, priority.value, delay.value, status.value,
                      if created.value.Some? then created.value.value else now,
                      sent.value, error.value, retries.value, maxRetries.value))
  }

  /** `d` holds the fields of `m` as `to_dict` writes them. */
  predicate Holds(d: map<string, JsonValue>, m: Message, iso: IsoCodec) {
    PlainHolds(d, m) && CodedHolds(d, m, iso)
  }

  /** `d` holds the text and number fields of `m`. */
  predicate PlainHolds(d: map<string, JsonValue>, m: Message) {
    StrField(d, "id", None) == Some(m.id) && StrField(d, "text", None) == Some(m.text)
    && IntField(d, "user_id", None) == Some(m.userId)
    && StrField(d, "color", Some("#FFFFFF")) == Some(m.color)
    && StrField(d, "position", Some("scroll")) == Some(m.position)
    && IntField(d, "font_size", Some(24)) == Some(m.fontSize)
    && IntField(d, "duration", Some(5)) == Some(m.duration)
    && IntField(d, "priority", Some(1)) == Some(m.priority)
    && IntField(d, "delay", Some(0)) == Some(m.delay)
    && StrField(d, "error_message", Some("")) == Some(m.errorMessage)
    && IntField(d, "retry_count", Some(0)) == Some(m.retryCount)
    && IntField(d, "max_retries", Some(3)) == Some(m.maxRetries)
  }

  /** `d` holds the status and the timestamps of `m`, encoded. */
  predicate CodedHolds(d: map<string, JsonValue>, m: Message, iso: IsoCodec) {
    "status" in d && d["status"] == JStr(StatusValue(m.status))
    && "created_at" in d && d["created_at"] == JStr(iso.format(m.createdAt))
    && "sent_at" in d && d["sent_at"] == (if m.sentAt.Some? then JStr(iso.format(m.sentAt.value)) else JNull)
  }

  lemma ToDictHolds(m: Message, iso: IsoCodec)
    ensures Holds(ToDict(m, iso), m, iso)
  {
    ToDictPlain(m, iso);
    ToDictCoded(m, iso);
  }

  lemma ToDictPlain(m: Message, iso: IsoCodec)
    ensures PlainHolds(ToDict(m, iso), m)
  {
  }

  lemma ToDictCoded(m: Message, iso: IsoCodec)
    ensures CodedHolds(ToDict(m, iso), m, iso)
  {
  }

  /** Decoding reads back every field that the dictionary holds. */
  lemma DecodeHolds(d: map<string, JsonValue>, m: Message, iso: IsoCodec, now: int)
    requires RoundTrips(iso) && Holds(d, m, iso)
    ensures Decode(d, iso, now) == Some(m)
  {
    TimeFieldRoundTrip(d, "created_at", iso, Some(m.createdAt));
    TimeFieldRoundTrip(d, "sent_at", iso, m.sentAt);
    assert ParseStatus(StatusValue(m.status)) == Some(m.status);
    assert StatusField(d) == Some(m.status);
  }

  /** A message survives its own dictionary form. */
  lemma FromDictToDict(m: Message, iso: IsoCodec, now: int)
    requires RoundTrips(iso)
    ensures FromDict(ToDict(m, iso), iso, now) == Some(m)
  {
    var d := ToDict(m, iso);
    ToDictHolds(m, iso);
    DecodeHolds(d, m, iso, now);
    assert d.Keys <= MessageKeys;
  }

  // ---------------------------------------------------------------------

  /** `DanmakuQueue`. */
  class DanmakuQueue {
    const maxQueueSize: int
    var queue: seq<Message>
    var isProcessing: bool
    var stats: Stats

    /** Highest priority first, and no more messages than the limit. */
    predicate Valid()
      reads this
    {
      SortedByRank(queue, PriorityRank) && (queue == [] || |queue| <= maxQueueSize)
    }

    /** An empty queue; the snapshot file is not part of this model. */
    constructor(maxQueueSize: int)
      ensures Valid()
      ensures this.maxQueueSize == maxQueueSize && queue == [] && !isProcessing
      ensures stats == Stats(0, 0, 0, 0, 0)
    {
      this.maxQueueSize := maxQueueSize;
      queue := [];
      isProcessing := false;
      stats := Stats(0, 0, 0, 0, 0);
    }

    /** `_insert_by_priority`: before the first message of strictly lower
        priority, else at the end. */
    method InsertByPriority(m: Message)
      modifies this
      ensures queue == InsertByRank(old(queue), m, PriorityRank)
      ensures stats == old(stats) && isProcessing == old(isProcessing)
    {
      var i := 0;
      while i < |queue|
        invariant 0 <= i <= |queue|
        invariant forall j :: 0 <= j < i ==> !Below(PriorityRank(queue[j]), PriorityRank(m))
      {
        if queue[i].priority < m.priority {
          InsertionPointIs(queue, m, PriorityRank, i);
          queue := queue[..i] + [m] + queue[i..];
          return;
        }
        i := i + 1;
      }
      InsertionPointIs(queue, m, PriorityRank, i);
      assert queue[..i] + [m] + queue[i..] == queue + [m];
      queue := queue + [m];
    }

    /** `_cleanup_queue`. */
    method CleanupQueue()
      modifies this
      ensures queue == Cleanup(old(queue), maxQueueSize)
      ensures stats == old(stats) && isProcessing == old(isProcessing)
    {
      queue := Keep(queue, Live);
      if |queue| >= maxQueueSize {
        var drop := |queue| - maxQueueSize + 100;
        queue := SortByRank(queue, AgeRank);
        ghost var sorted := queue;
        for j := 0 to drop
          invariant queue == sorted[..if j < |sorted| then |sorted| - j else 0]
          invariant stats == old(stats) && isProcessing == old(isProcessing)
        {
          if |queue| > 0 {
            queue := queue[..|queue| - 1];
          }
        }
      }
    }

    /** `add_message`: make room if full, consult the filter unless told not
        to, then insert the new message by priority and return its id. */
    method AddMessage(text: string, user: int, priority: int, delay: int, skipFilter: bool, style: Style,
                      filter: ContentFilter.ContentFilterEngine?, now: int)
      returns (r: Result<string, AddError>)
      requires Valid()
      requires filter != null ==> filter.Valid()
      modifies this, filter
      ensures Valid() && stats == old(stats) && isProcessing == old(isProcessing)
      ensures var cleaned := if |old(queue)| >= maxQueueSize then Cleanup(old(queue), maxQueueSize) else old(queue);
        if |cleaned| >= maxQueueSize then
          r == Err(QueueFull) && queue == cleaned && (filter != null ==> unchanged(filter))
        else if skipFilter || filter == null then
          var m := NewMessage(MessageId(user, now), text, user, priority, delay, style, now);
          r == Ok(m.id) && queue == InsertByRank(cleaned, m, PriorityRank) && (filter != null ==> unchanged(filter))
        else
          var e := ContentFilter.Evaluate(old(filter.rules), ContentFilter.Ctx(text, user, now, filter.regex),
                                          old(filter.rateLog), old(filter.sensitiveWords));
          filter.Valid() && filter.store == old(filter.store) && filter.rules == old(filter.rules)
          && filter.rateLog == e.log
          && filter.audit == old(filter.audit) + (if e.audited then [ContentFilter.AuditOf(user, e.result, now)] else [])
          && match Admit(text, Filtered(e.result))
             case Err(err) => r == Err(err) && queue == cleaned
             case Ok(t) =>
               var m := NewMessage(MessageId(user, now), t, user, priority, delay, style, now);
               r == Ok(m.id) && queue == InsertByRank(cleaned, m, PriorityRank)
    {
      if |queue| >= maxQueueSize {
        CleanupKeepsLive(queue, maxQueueSize);
        CleanupQueue();
        if |queue| >= maxQueueSize {
          return Err(QueueFull);
        }
      }
      var admitted := text;
      if !skipFilter && filter != null {
        var res := filter.FilterContent(text, user, now);
        var gate := Admit(text, Filtered(res));
        if gate.Err? {
          return Err(gate.error);
        }
        admitted := gate.value;
      }
      var id := MessageId(user, now);
      var m := NewMessage(id, admitted, user, priority, delay, style, now);
      InsertKeepsSorted(queue, m, PriorityRank);
      InsertMultiset(queue, m, PriorityRank);
      InsertByPriority(m);
      r := Ok(id);
    }

    /** `remove_message`: a message being sent is marked cancelled and kept;
        any other is removed and counted as cancelled; an unknown id
        changes nothing. */
    method RemoveMessage(id: string) returns (found: bool)
      requires Valid()
      modifies this
      ensures Valid() && isProcessing == old(isProcessing)
      ensures var k := IndexOf(old(queue), id);
        found == k.Some?
        && (k.None? ==> queue == old(queue) && stats == old(stats))
        && (k.Some? && old(queue)[k.value].status == Sending ==>
              queue == old(queue)[k.value := old(queue)[k.value].(status := Cancelled)] && stats == old(stats))
        && (k.Some? && old(queue)[k.value].status != Sending ==>
              queue == old(queue)[..k.value] + old(queue)[k.value + 1..]
              && stats == old(stats).(totalCancelled := old(stats).totalCancelled + 1))
    {
      var i := 0;
      while i < |queue|
        invariant 0 <= i <= |queue|
        invariant forall j :: 0 <= j < i ==> queue[j].id != id
      {
        if queue[i].id == id {
          var m := queue[i];
          if m.status == Sending {
            queue := queue[i := m.(status := Cancelled)];
            assert forall j :: 0 <= j < |queue| ==> PriorityRank(queue[j]) == PriorityRank(old(queue)[j]);
          } else {
            queue := queue[..i] + queue[i + 1..];
            assert forall j :: 0 <= j < |queue| ==> queue[j] == old(queue)[if j < i then j else j + 1];
            stats := stats.(totalCancelled := stats.totalCancelled + 1);
          }
          return true;
        }
        i := i + 1;
      }
      return false;
    }

    /** `get_user_messages`. */
    function GetUserMessages(user: int, statusFilter: Option<Status>): (r: seq<Message>)
      reads this
      ensures forall m :: m in r <==> m in queue && m.userId == user && (statusFilter.None? || m.status == statusFilter.value)
    {
      UserMessages(queue, user, statusFilter)
    }

    /** `clear_queue`: remove the messages matching both filters, count the
        pending ones among them as cancelled. */
    method ClearQueue(user: Option<int>, statusFilter: Option<Status>)
      requires Valid()
      modifies this
      ensures Valid() && isProcessing == old(isProcessing)
      ensures queue == Cleared(old(queue), user, statusFilter)
      ensures stats == old(stats).(totalCancelled := old(stats).totalCancelled + CancelledBy(old(queue), user, statusFilter))
    {
      ClearQueueRemovesSelected(queue, user, statusFilter);
      if user.None? && statusFilter.None? {
        var count := Count(queue, StatusIs(Pending));
        queue := [];
        stats := stats.(totalCancelled := stats.totalCancelled + count);
      } else {
        var kept, count := ClearScan(queue, user, statusFilter);
        KeepSorted(queue, (m: Message) => !Selected(m, user, statusFilter), PriorityRank);
        queue := kept;
        stats := stats.(totalCancelled := stats.totalCancelled + count);
      }
    }

    /** `get_queue_info`. */
    function Info(): (info: QueueInfo)
      reads this
      ensures info.totalMessages == |queue|
      ensures info.pending + info.sending + info.success + info.failed + info.cancelled == |queue|
      ensures info.stats == stats && info.isProcessing == isProcessing && info.sizeLimit == maxQueueSize
    {
      StatusCountsCover(queue);
      QueueInfo(|queue|, Count(queue, StatusIs(Pending)), Count(queue, StatusIs(Sending)),
                Count(queue, StatusIs(Success)), Count(queue, StatusIs(Failed)),
                Count(queue, StatusIs(Cancelled)), stats, isProcessing, maxQueueSize)
    }

    /** The guard of `start_processing`: start only when not already running. */
    method StartProcessing() returns (started: bool)
      modifies this
      ensures started == !old(isProcessing) && isProcessing
      ensures queue == old(queue) && stats == old(stats)
    {
      if isProcessing {
        return false;
      }
      isProcessing := true;
      started := true;
    }

    /** `stop_processing`, without the task cancellation. */
    method StopProcessing()
      modifies this
      ensures !isProcessing && queue == old(queue) && stats == old(stats)
    {
      isProcessing := false;
    }

    /** The selection loop of `_process_queue`. */
    method NextEligible(now: int) returns (k: Option<nat>)
      ensures k == FirstEligible(queue, now)
    {
      var i := 0;
      while i < |queue|
        invariant 0 <= i <= |queue|
        invariant forall j :: 0 <= j < i ==> !Eligible(queue[j], now)
      {
        var m := queue[i];
        if m.status == Pending {
          if m.delay > 0 && now < m.createdAt + m.delay {
            // not yet due
          } else {
            return Some(i);
          }
        }
        i := i + 1;
      }
      return None;
    }

    /** `_send_message` on the message at index `k`, given the sink's answer. */
    method SendMessage(k: nat, outcome: Outcome, now: int)
      requires Valid() && k < |queue|
      modifies this
      ensures Valid() && isProcessing == old(isProcessing)
      ensures queue == old(queue)[k := AfterSend(old(queue)[k], outcome, now)]
      ensures stats == StatsAfter(old(stats), old(queue)[k], outcome)
    {
      var m := queue[k];
      queue := queue[k := m.(status := Sending)];
      match outcome {
        case Delivered =>
          m := m.(status := Success, sentAt := Some(now));
          stats := stats.(totalSent := stats.totalSent + 1, sessionSent := stats.sessionSent + 1);
        case Refused(e) =>
          m := m.(retryCount := m.retryCount + 1, errorMessage := e);
          if m.retryCount >= m.maxRetries {
            m := m.(status := Failed);
            stats := stats.(totalFailed := stats.totalFailed + 1, sessionFailed := stats.sessionFailed + 1);
          } else {
            m := m.(status := Pending, delay := 5 * m.retryCount, createdAt := now);
          }
      }
      queue := queue[k := m];
      assert forall j :: 0 <= j < |queue| ==> PriorityRank(queue[j]) == PriorityRank(old(queue)[j]);
    }

    /** One round of `_process_queue`: choose the next due message and, if
        there is one, send it. */
    method ProcessStep(now: int, outcome: Outcome) returns (sent: Option<nat>)
      requires Valid()
      modifies this
      ensures Valid() && isProcessing == old(isProcessing)
      ensures sent == FirstEligible(old(queue), now)
      ensures sent.None? ==> queue == old(queue) && stats == old(stats)
      ensures sent.Some? ==>
        queue == old(queue)[sent.value := AfterSend(old(queue)[sent.value], outcome, now)]
        && stats == StatsAfter(old(stats), old(queue)[sent.value], outcome)
    {
      sent := NextEligible(now);
      if sent.Some? {
        SendMessage(sent.value, outcome, now);
      }
    }
  }

  /** What `get_queue_info` reports. */
  datatype QueueInfo = QueueInfo(
    totalMessages: nat,
    pending: nat,
    sending: nat,
    success: nat,
    failed: nat,
    cancelled: nat,
    stats: Stats,
    isProcessing: bool,
    sizeLimit: int)

  /** Every message has exactly one status. */
  lemma {:induction false} StatusCountsCover(q: seq<Message>)
    ensures Count(q, StatusIs(Pending)) + Count(q, StatusIs(Sending)) + Count(q, StatusIs(Success))
          + Count(q, StatusIs(Failed)) + Count(q, StatusIs(Cancelled)) == |q|
    decreases |q|
  {
    if q != [] {
      StatusCountsCover(q[..|q| - 1]);
    }
  }
}
