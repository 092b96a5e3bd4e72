/**
 * The event and revenue ledger of `src/lib/webhook-utils.ts`.
 *
 * The module-level arrays `webhookEvents` and `revenueEvents` are the fields
 * of one `WebhookStore`; the replies `scheduleAutoResponse` would send are
 * recorded in a third field, `replies`, with the delivery decision taken for
 * each. The clock and the random ids are parameters.
 */
module WebhookUtils {
  import opened Wrappers

  // ---------------------------------------------------------------------------
  // Records
  // ---------------------------------------------------------------------------

  /** The message carried by a `message.received` event. */
  datatype ChatMessage = ChatMessage(id: string, content: string, createdAt: string)

  /** The `data` record of a webhook payload, with the fields the webhook route declares. */
  datatype WebhookData = WebhookData(
    userUuid: Option<string>,
    username: Option<string>,
    message: Option<ChatMessage>,
    amount: Option<real>,
    currency: Option<string>,
    subscriptionTier: Option<string>)

  datatype Status = Success | Error

  /** A ledger entry; `data` is `None` when the payload had no `data` record. */
  datatype WebhookEvent = WebhookEvent(
    id: string,
    event: string,
    timestamp: int,
    status: Status,
    data: Option<WebhookData>,
    error: Option<string>)

  datatype RevenueType = Tip | Purchase | Subscription

  datatype RevenueEvent = RevenueEvent(
    kind: RevenueType,
    amount: real,
    currency: string,
    userUuid: Option<string>,
    timestamp: int)

  /** Sent at once (`delay <= 0`) or after `delay` milliseconds through a timer. */
  datatype Delivery = Immediately | After(delay: int)

  datatype ScheduledReply = ScheduledReply(userUuid: string, content: string, delivery: Delivery)

  /** The three module-level lists at one moment. */
  datatype Ledger = Ledger(events: seq<WebhookEvent>, revenue: seq<RevenueEvent>, replies: seq<ScheduledReply>)

  const MaxStoredEvents: nat := 100
  /** The `limit` of the two event queries when the caller leaves it out. */
  const DefaultLimit: int := 10
  /** The `delay` of `scheduleAutoResponse` when the caller leaves it out. */
  const DefaultDelay: int := 0

  // ---------------------------------------------------------------------------
  // The bounded event log
  // ---------------------------------------------------------------------------

  function Min(a: int, b: int): int {
    if a <= b then a else b
  }

  /**
   * `unshift` followed by `splice(MAX_STORED_EVENTS)` when the log is over
   * capacity: the new entry first, then the previous entries in order, the
   * oldest dropped when the log was full.
   */
  function Logged(log: seq<WebhookEvent>, e: WebhookEvent): (r: seq<WebhookEvent>)
    ensures |r| == Min(|log| + 1, MaxStoredEvents) && |r| <= MaxStoredEvents
    ensures r[0] == e
    ensures r[1..] == log[..|r| - 1]
  {
    var pushed := [e] + log;
    var r := if |pushed| > MaxStoredEvents then pushed[..MaxStoredEvents] else pushed;
    assert r[1..] == pushed[1..|r|];
    r
  }

  /** The end index of `slice(0, limit)` on `n` elements. */
  function SliceEnd(n: nat, limit: int): (r: nat)
    ensures r <= n
    ensures limit >= 0 ==> r == Min(limit, n)
    ensures limit < 0 ==> r + Min(-limit, n) == n
  {
    if limit < 0 then (if n + limit < 0 then 0 else n + limit) else Min(limit, n)
  }

  /** `slice(0, limit)`: a prefix. */
  function Take<T>(s: seq<T>, limit: int): (r: seq<T>)
    ensures |r| == SliceEnd(|s|, limit) && r == s[..|r|]
  {
    s[..SliceEnd(|s|, limit)]
  }

  /** `filter(e => e.event === eventType)` */
  function OfType(log: seq<WebhookEvent>, eventType: string): (r: seq<WebhookEvent>)
    ensures |r| <= |log|
    ensures forall i :: 0 <= i < |r| ==> r[i].event == eventType
    ensures forall e :: e in r <==> e in log && e.event == eventType
  {
    if log == [] then []
    else (if log[0].event == eventType then [log[0]] else []) + OfType(log[1..], eventType)
  }

  /** The filter keeps the log order: filtering a concatenation concatenates the filtered parts. */
  lemma {:induction false} OfTypeAppend(a: seq<WebhookEvent>, b: seq<WebhookEvent>, eventType: string)
    ensures OfType(a + b, eventType) == OfType(a, eventType) + OfType(b, eventType)
    decreases |a|
  {
    if a != [] {
      assert (a + b)[1..] == a[1..] + b;
      OfTypeAppend(a[1..], b, eventType);
    } else {
      assert a + b == b;
    }
  }

  // ---------------------------------------------------------------------------
  // Statistics
  // ---------------------------------------------------------------------------

  function CountStatus(log: seq<WebhookEvent>, status: Status): (r: nat)
    ensures r <= |log|
  {
    if log == [] then 0 else (if log[0].status == status then 1 else 0) + CountStatus(log[1..], status)
  }

  /** Every entry is a success or an error, never both. */
  lemma {:induction false} StatusesPartition(log: seq<WebhookEvent>)
    ensures CountStatus(log, Success) + CountStatus(log, Error) == |log|
    decreases |log|
  {
    if log != [] {
      StatusesPartition(log[1..]);
    }
  }

  /** `(eventCounts[name] || 0) + 1` on a record of counts. */
  function Bump(counts: map<string, nat>, name: string): map<string, nat> {
    counts[name := (if name in counts then counts[name] else 0) + 1]
  }

  /** The `eventCounts` record after the `forEach` over the entries of `log`. */
  function EventCounts(log: seq<WebhookEvent>): map<string, nat> {
    if log == [] then map[] else Bump(EventCounts(log[..|log| - 1]), log[|log| - 1].event)
  }

  /** The distinct event names of `log`, in the order they first appear (the key order of `eventCounts`). */
  function Names(log: seq<WebhookEvent>): seq<string> {
    if log == [] then []
    else
      var names := Names(log[..|log| - 1]);
      var name := log[|log| - 1].event;
      if name in names then names else names + [name]
  }

  ghost predicate Distinct(names: seq<string>) {
    forall i, j :: 0 <= i < j < |names| ==> names[i] != names[j]
  }

  /** The counts of the names in `keys`, added up (an absent name counts 0). */
  function SumOver(counts: map<string, nat>, keys: seq<string>): nat {
    if keys == [] then 0
    else SumOver(counts, keys[..|keys| - 1]) + (if keys[|keys| - 1] in counts then counts[keys[|keys| - 1]] else 0)
  }

  /** Changing the count of a name outside `keys` leaves their sum alone. */
  lemma {:induction false} SumOverOutside(counts: map<string, nat>, keys: seq<string>, name: string, v: nat)
    requires name !in keys
    ensures SumOver(counts[name := v], keys) == SumOver(counts, keys)
    decreases |keys|
  {
    if keys != [] {
      SumOverOutside(counts, keys[..|keys| - 1], name, v);
    }
  }

  /** Adding one to the count of a name that occurs once in `keys` adds one to their sum. */
  lemma {:induction false} SumOverBump(counts: map<string, nat>, keys: seq<string>, name: string)
    requires Distinct(keys) && name in keys
    ensures SumOver(Bump(counts, name), keys) == SumOver(counts, keys) + 1
    decreases |keys|
  {
    var init := keys[..|keys| - 1];
    var last := keys[|keys| - 1];
    if last == name {
      assert name !in init;
      SumOverOutside(counts, init, name, (if name in counts then counts[name] else 0) + 1);
    } else {
      assert name in init;
      SumOverBump(counts, init, name);
    }
  }

  /**
   * The record of counts has one key per distinct event name, listed once
   * each by `Names`, and the counts add up to the number of entries.
   */
  lemma {:induction false} CountsAddUp(log: seq<WebhookEvent>)
    ensures Distinct(Names(log))
    ensures forall name :: name in EventCounts(log) <==> name in Names(log)
    ensures SumOver(EventCounts(log), Names(log)) == |log|
    decreases |log|
  {
    if log != [] {
      var init := log[..|log| - 1];
      var name := log[|log| - 1].event;
      CountsAddUp(init);
      var counts := EventCounts(init);
      var names := Names(init);
      if name in names {
        SumOverBump(counts, names, name);
      } else {
        SumOverOutside(counts, names, name, 1);
        assert (names + [name])[..|names|] == names;
      }
    }
  }

  /** A name's count is the number of entries with that name. */
  function CountEvent(log: seq<WebhookEvent>, name: string): nat {
    if log == [] then 0 else CountEvent(log[..|log| - 1], name) + (if log[|log| - 1].event == name then 1 else 0)
  }

  lemma {:induction false} EventCountsCount(log: seq<WebhookEvent>, name: string)
    ensures name in EventCounts(log) <==> CountEvent(log, name) > 0
    ensures name in EventCounts(log) ==> EventCounts(log)[name] == CountEvent(log, name)
    decreases |log|
  {
    if log != [] {
      EventCountsCount(log[..|log| - 1], name);
    }
  }

  datatype WebhookStats = WebhookStats(
    total: nat,
    successful: nat,
    failed: nat,
    successRate: real,
    eventCounts: map<string, nat>)

  /** `successful / total * 100`, or 0 for an empty log. */
  function SuccessRate(successful: nat, total: nat): (r: real)
    requires successful <= total
    ensures 0.0 <= r <= 100.0
    ensures total > 0 && successful == total ==> r == 100.0
    ensures successful == 0 ==> r == 0.0
    ensures total > 0 ==> r * (total as real) == (successful as real) * 100.0
  {
    if total > 0 then
      var share := successful as real / total as real;
      assert share * total as real == successful as real;
      WholeShare(successful as real, total as real);
      share * 100.0
    else 0.0
  }

  /** A share of the whole is one. */
  lemma WholeShare(part: real, whole: real)
    requires whole > 0.0
    ensures part == whole ==> part / whole == 1.0
  {
  }

  // ---------------------------------------------------------------------------
  // Revenue
  // ---------------------------------------------------------------------------

  datatype Period = Day | Week | Month | All

  const MillisPerDay: int := 24 * 60 * 60 * 1000

  /** The first instant a period keeps: a day, a week or 30 days back, or the epoch for `all`. */
  function StartOf(period: Period, now: int): int {
    match period
    case Day => now - MillisPerDay
    case Week => now - 7 * MillisPerDay
    case Month => now - 30 * MillisPerDay
    case All => 0
  }

  /** The events at or after `start`, in log order. */
  function Since(log: seq<RevenueEvent>, start: int): (r: seq<RevenueEvent>)
    ensures |r| <= |log|
    ensures forall e :: e in r <==> e in log && e.timestamp >= start
  {
    if log == [] then []
    else (if log[0].timestamp >= start then [log[0]] else []) + Since(log[1..], start)
  }

  /** A later start keeps no more events. */
  lemma {:induction false} SinceShrinks(log: seq<RevenueEvent>, early: int, late: int)
    requires early <= late
    ensures |Since(log, late)| <= |Since(log, early)|
    decreases |log|
  {
    if log != [] {
      SinceShrinks(log[1..], early, late);
    }
  }

  /** The day's events are among the week's, which are among the month's. */
  lemma WindowsNest(log: seq<RevenueEvent>, now: int)
    ensures |Since(log, StartOf(Day, now))| <= |Since(log, StartOf(Week, now))|
                                             <= |Since(log, StartOf(Month, now))|
  {
    SinceShrinks(log, StartOf(Week, now), StartOf(Day, now));
    SinceShrinks(log, StartOf(Month, now), StartOf(Week, now));
  }

  /** `reduce((sum, e) => sum + e.amount, 0)` */
  function Total(log: seq<RevenueEvent>): real {
    if log == [] then 0.0 else Total(log[..|log| - 1]) + log[|log| - 1].amount
  }

  /** `acc[e.type] = (acc[e.type] || 0) + e.amount` over the log, from an empty record. */
  function ByType(log: seq<RevenueEvent>): map<RevenueType, real> {
    if log == [] then map[]
    else
      var acc := ByType(log[..|log| - 1]);
      var e := log[|log| - 1];
      acc[e.kind := (if e.kind in acc then acc[e.kind] else 0.0) + e.amount]
  }

  function Get(m: map<RevenueType, real>, t: RevenueType): real {
    if t in m then m[t] else 0.0
  }

  /** The per-type sums add up to the total, and a type is listed only if some kept event has it. */
  lemma ByTypeAddsUp(log: seq<RevenueEvent>)
    ensures Total(log) == Get(ByType(log), Tip) + Get(ByType(log), Purchase) + Get(ByType(log), Subscription)
    ensures forall t :: t in ByType(log) <==> exists i :: 0 <= i < |log| && log[i].kind == t
  {
    ByTypeSums(log);
    forall t
      ensures t in ByType(log) <==> exists i :: 0 <= i < |log| && log[i].kind == t
    {
      ByTypeKeys(log, t);
    }
  }

  lemma {:induction false} ByTypeSums(log: seq<RevenueEvent>)
    ensures Total(log) == Get(ByType(log), Tip) + Get(ByType(log), Purchase) + Get(ByType(log), Subscription)
    decreases |log|
  {
    if log != [] {
      var init, e := log[..|log| - 1], log[|log| - 1];
      ByTypeSums(init);
      assert Get(ByType(log), e.kind) == Get(ByType(init), e.kind) + e.amount;
      forall t | t != e.kind
        ensures Get(ByType(log), t) == Get(ByType(init), t)
      {
      }
      match e.kind
      case Tip =>
      case Purchase =>
      case Subscription =>
    }
  }

  lemma {:induction false} ByTypeKeys(log: seq<RevenueEvent>, t: RevenueType)
    ensures t in ByType(log) <==> exists i :: 0 <= i < |log| && log[i].kind == t
    decreases |log|
  {
    if log != [] {
      var init := log[..|log| - 1];
      ByTypeKeys(init, t);
      if t in ByType(init) {
        var i :| 0 <= i < |init| && init[i].kind == t;
        assert log[i].kind == t;
      }
      if exists i :: 0 <= i < |log| && log[i].kind == t {
        var i :| 0 <= i < |log| && log[i].kind == t;
        if i < |init| {
          assert init[i].kind == t;
        }
      }
    }
  }

  datatype RevenueStats = RevenueStats(total: real, byType: map<RevenueType, real>, count: nat)

  // ---------------------------------------------------------------------------
  // Auto-responses
  // ---------------------------------------------------------------------------

  datatype AutoResponseConfig = AutoResponseConfig(enabled: bool, delay: Option<int>, script: Option<string>)

  /** `getAutoResponseConfig`: the configuration is fixed, switched off with no delay. */
  function GetAutoResponseConfig(): (c: AutoResponseConfig)
    ensures !c.enabled && c.delay == Some(0) && c.script == None
  {
    AutoResponseConfig(false, Some(0), None)
  }

  /**
   * `shouldAutoRespond` for a given configuration: never when it is switched
   * off, and for every user when it is on (the source has no further checks).
   */
  function ShouldAutoRespondWith(config: AutoResponseConfig, userUuid: string): (r: bool)
    ensures r <==> config.enabled
  {
    config.enabled
  }

  /** `shouldAutoRespond`: with the fixed configuration, no user gets an auto-response. */
  function ShouldAutoRespond(userUuid: string): (r: bool)
    ensures !r
  {
    ShouldAutoRespondWith(GetAutoResponseConfig(), userUuid)
  }

  /** The branch of `scheduleAutoResponse`: a timer for a positive delay, an immediate send otherwise. */
  function DeliveryFor(delay: int): (r: Delivery)
    ensures r == Immediately <==> delay <= 0
    ensures r.After? ==> r.delay == delay && delay > 0
  {
    if delay > 0 then After(delay) else Immediately
  }

  // ---------------------------------------------------------------------------
  // The store
  // ---------------------------------------------------------------------------

  class WebhookStore {
    var events: seq<WebhookEvent>
    var revenue: seq<RevenueEvent>
    var replies: seq<ScheduledReply>

    function Snapshot(): Ledger
      reads this
    {
      Ledger(events, revenue, replies)
    }

    /** The log never holds more than `MaxStoredEvents` entries. */
    ghost predicate Valid()
      reads this
    {
      |events| <= MaxStoredEvents
    }

    constructor()
      ensures events == [] && revenue == [] && replies == []
      ensures Valid()
    {
      events := [];
      revenue := [];
      replies := [];
    }

    /** `logWebhookEvent`: records the entry at the front of the bounded log and returns it. */
    method LogWebhookEvent(event: string, data: Option<WebhookData>, status: Status, error: Option<string>,
                           id: string, timestamp: int) returns (e: WebhookEvent)
      modifies this
      ensures e == WebhookEvent(id, event, timestamp, status, data, error)
      ensures events == Logged(old(events), e) && Valid()
      ensures revenue == old(revenue) && replies == old(replies)
    {
      e := WebhookEvent(id, event, timestamp, status, data, error);
      events := [e] + events;
      if |events| > MaxStoredEvents {
        events := events[..MaxStoredEvents];
      }
    }

    /** `getRecentWebhookEvents`: the newest `limit` entries (10 when left out). */
    function GetRecentWebhookEvents(limit: Option<int>): (r: seq<WebhookEvent>)
      reads this
      ensures |r| == SliceEnd(|events|, limit.GetOr(DefaultLimit)) && r == events[..|r|]
      ensures limit.None? ==> |r| == Min(10, |events|)
    {
      Take(events, limit.GetOr(DefaultLimit))
    }

    /** `getWebhookEventsByType`: the newest `limit` entries of one type, newest first. */
    function GetWebhookEventsByType(eventType: string, limit: Option<int>): (r: seq<WebhookEvent>)
      reads this
      ensures |r| == SliceEnd(|OfType(events, eventType)|, limit.GetOr(DefaultLimit))
      ensures limit.None? ==> |r| == Min(10, |OfType(events, eventType)|)
      ensures forall i :: 0 <= i < |r| ==> r[i].event == eventType && r[i] in events
      ensures r == OfType(events, eventType)[..|r|]
    {
      Take(OfType(events, eventType), limit.GetOr(DefaultLimit))
    }

    /** `getWebhookStats`: counts by status and, in a loop over the log, by event name. */
    method GetWebhookStats() returns (stats: WebhookStats)
      ensures stats.total == |events|
      ensures stats.successful == CountStatus(events, Success) && stats.failed == CountStatus(events, Error)
      ensures stats.successful + stats.failed == stats.total
      ensures stats.successRate == SuccessRate(stats.successful, stats.total)
      ensures stats.eventCounts == EventCounts(events)
      ensures SumOver(stats.eventCounts, Names(events)) == stats.total
    {
      var total := |events|;
      var successful := CountStatus(events, Success);
      var failed := CountStatus(events, Error);
      StatusesPartition(events);
      var eventCounts: map<string, nat> := map[];
      for i := 0 to |events|
        invariant eventCounts == EventCounts(events[..i])
      {
        var name := events[i].event;
        assert events[..i + 1][..i] == events[..i];
        eventCounts := eventCounts[name := (if name in eventCounts then eventCounts[name] else 0) + 1];
      }
      assert events[..|events|] == events;
      CountsAddUp(events);
      stats := WebhookStats(total, successful, failed, SuccessRate(successful, total), eventCounts);
    }

    /** `clearWebhookEvents`: empties the event log. */
    method ClearWebhookEvents()
      modifies this
      ensures events == [] && Valid()
      ensures revenue == old(revenue) && replies == old(replies)
    {
      events := [];
    }

    /** `scheduleAutoResponse`: the reply is recorded with its delivery decision (immediate when no delay is given). */
    method ScheduleAutoResponse(userUuid: string, messageContent: string, delay: Option<int>)
      modifies this
      ensures replies == old(replies) + [ScheduledReply(userUuid, messageContent, DeliveryFor(delay.GetOr(DefaultDelay)))]
      ensures delay.None? ==> replies[|replies| - 1].delivery == Immediately
      ensures events == old(events) && revenue == old(revenue)
    {
      var d := delay.GetOr(DefaultDelay);
      var delivery := if d > 0 then After(d) else Immediately;
      replies := replies + [ScheduledReply(userUuid, messageContent, delivery)];
    }

    /** `logRevenueEvent`: prepends, with no bound. */
    method LogRevenueEvent(e: RevenueEvent)
      modifies this
      ensures revenue == [e] + old(revenue)
      ensures events == old(events) && replies == old(replies)
    {
      revenue := [e] + revenue;
    }

    /**
     * `getRevenueStats`: the events of the period, their total, their sums
     * per type and their number.
     */
    function GetRevenueStats(period: Period, now: int): (r: RevenueStats)
      reads this
      ensures var kept := Since(revenue, StartOf(period, now));
              r.count == |kept| && r.total == Total(kept) && r.byType == ByType(kept)
              && r.total == Get(r.byType, Tip) + Get(r.byType, Purchase) + Get(r.byType, Subscription)
      ensures forall e :: e in revenue && e.timestamp >= StartOf(period, now) ==> r.count > 0
    {
      var kept := Since(revenue, StartOf(period, now));
      ByTypeAddsUp(kept);
      RevenueStats(Total(kept), ByType(kept), |kept|)
    }
  }
}
