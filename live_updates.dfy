/**
 * The live-update connection (frontend/src/services/liveUpdates.js): one server-sent-events
 * source, one reconnect timer slot and a backoff counter. Timers are explicit: a scheduled
 * timer is an entry of `live` under its handle until it fires or is cleared. The transport
 * callbacks (`onopen`, `onmessage`, `onerror`) and the firing of a timer are inputs.
 */
module LiveUpdates {
  import opened Wrappers
  import opened Domain

  const BaseReconnectDelay := 1000
  const MaxReconnectDelay := 30000

  function Pow2(n: nat): (r: nat)
    ensures r >= 1
  {
    if n == 0 then 1 else 2 * Pow2(n - 1)
  }

  lemma {:induction false} Pow2Monotone(a: nat, b: nat)
    requires a <= b
    ensures Pow2(a) <= Pow2(b)
    decreases b
  {
    if a < b {
      Pow2Monotone(a, b - 1);
    }
  }

  /** `Math.min(baseReconnectDelay * 2^attempts, maxReconnectDelay)` */
  function Delay(attempts: nat): int {
    var d := BaseReconnectDelay * Pow2(attempts);
    if d < MaxReconnectDelay then d else MaxReconnectDelay
  }

  /** Every scheduled delay lies between one and thirty seconds. */
  lemma DelayBounds(attempts: nat)
    ensures BaseReconnectDelay <= Delay(attempts) <= MaxReconnectDelay
  {
  }

  /** The delays run 1 s, 2 s, 4 s, 8 s, 16 s and then stay at 30 s. */
  lemma DelaySchedule(attempts: nat)
    ensures attempts == 0 ==> Delay(attempts) == 1000
    ensures attempts == 1 ==> Delay(attempts) == 2000
    ensures attempts == 2 ==> Delay(attempts) == 4000
    ensures attempts == 3 ==> Delay(attempts) == 8000
    ensures attempts == 4 ==> Delay(attempts) == 16000
    ensures attempts >= 5 ==> Delay(attempts) == 30000
  {
    if attempts >= 5 {
      Pow2Monotone(5, attempts);
      assert Pow2(5) == 32;
    } else {
      assert Pow2(4) == 16;
    }
  }

  /** Each further attempt doubles the delay until it reaches the maximum. */
  lemma DelayDoubles(attempts: nat)
    ensures Delay(attempts + 1) == if 2 * Delay(attempts) < MaxReconnectDelay then 2 * Delay(attempts) else MaxReconnectDelay
  {
  }

  /** The `EventSource` object: its URL and whether its `readyState` is `OPEN`. */
  datatype Source = Source(url: string, open: bool)

  /** A `setTimeout` callback not yet run or cleared: the reconnect it will make. */
  datatype PendingReconnect = PendingReconnect(delay: int, url: string)

  /**
   * The service's fields, the observable effects of its two callbacks (`reports`: every value
   * passed to `onConnectionChange`; `events`: every event passed to `onEvent`; the flags say
   * whether the callbacks are set), and the environment's live timers with the next handle.
   */
  datatype Conn = Conn(
    source: Option<Source>,
    timer: Option<nat>,
    attempts: nat,
    onEvent: bool,
    onChange: bool,
    reports: seq<bool>,
    events: seq<Json>,
    live: map<nat, PendingReconnect>,
    nextHandle: nat)

  /** The timer slot names the only live timer, if any; handles are fresh. */
  ghost predicate Inv(c: Conn) {
    && (forall h :: h in c.live ==> c.timer == Some(h))
    && (forall h :: h in c.live ==> 1 <= h < c.nextHandle)
    && c.nextHandle >= 1
  }

  /** The constructor's state. */
  function Fresh(): Conn {
    Conn(None, None, 0, false, false, [], [], map[], 1)
  }

  function Report(c: Conn, connected: bool): seq<bool> {
    if c.onChange then c.reports + [connected] else c.reports
  }

  /** `clearTimeout(this.reconnectTimer)`, which does nothing for a timer that already ran. */
  function ClearTimer(c: Conn): map<nat, PendingReconnect> {
    if c.timer.Some? then c.live - {c.timer.value} else c.live
  }

  /** `scheduleReconnect(url)` */
  function Schedule(c: Conn, url: string): Conn {
    c.(live := ClearTimer(c)[c.nextHandle := PendingReconnect(Delay(c.attempts), url)],
       timer := Some(c.nextHandle),
       nextHandle := c.nextHandle + 1)
  }

  /** `disconnect()` */
  function AfterDisconnect(c: Conn): Conn {
    c.(live := ClearTimer(c), timer := None, source := None, reports := Report(c, false), attempts := 0)
  }

  /**
   * `connect(url, onEvent, onConnectionChange)`; `constructs` says whether `new EventSource(url)`
   * returned rather than threw.
   */
  function AfterConnect(c: Conn, url: string, onEvent: bool, onChange: bool, constructs: bool): Conn {
    var c1 := c.(onEvent := onEvent, onChange := onChange);
    var c2 := if c1.source.Some? then AfterDisconnect(c1) else c1;
    if constructs then c2.(source := Some(Source(url, false))) else Schedule(c2, url)
  }

  /** The source's `onopen` callback. */
  function Open(c: Conn): Conn
    requires c.source.Some?
  {
    c.(source := Some(c.source.value.(open := true)), attempts := 0, reports := Report(c, true))
  }

  /**
   * The source's `onmessage` callback; `parsed` is `JSON.parse` of the data, `None` when it
   * throws. Reading `data.type` throws for `null` as well, so a `null` payload is dropped too.
   */
  function Message(c: Conn, parsed: Option<Json>): Conn
    requires c.source.Some?
  {
    if Deliverable(parsed) && c.onEvent then c.(events := c.events + [parsed.value]) else c
  }

  /** A payload that parsed to a value whose `type` can be read. */
  predicate Deliverable(parsed: Option<Json>) {
    parsed.Some? && parsed.value != JNull
  }

  /** The source's `onerror` callback: the source leaves the open state and a reconnect is scheduled. */
  function Error(c: Conn): Conn
    requires c.source.Some?
  {
    var c1 := c.(source := Some(c.source.value.(open := false)), reports := Report(c, false));
    Schedule(c1, c.source.value.url)
  }

  /** The timer callback as written: count the attempt, then connect again with the same callbacks. */
  function Fire(c: Conn, h: nat, constructs: bool): Conn
    requires h in c.live
  {
    var c1 := c.(live := c.live - {h}, attempts := c.attempts + 1);
    AfterConnect(c1, c.live[h].url, c.onEvent, c.onChange, constructs)
  }

  /** `isConnected()` */
  function Connected(c: Conn): bool {
    c.source.Some? && c.source.value.open
  }

  /** What can happen to the service: a call from the application or a callback from the environment. */
  datatype Event =
    | ConnectCall(url: string, withOnEvent: bool, withOnChange: bool, constructs: bool)
    | DisconnectCall
    | Opened
    | Received(parsed: Option<Json>)
    | Errored
    | TimerFired(handle: nat, constructs: bool)

  /** The effect of one event, as written; `None` when the event cannot happen in that state. */
  function Step(c: Conn, e: Event): Option<Conn> {
    match e
    case ConnectCall(url, ev, ch, ok) => Some(AfterConnect(c, url, ev, ch, ok))
    case DisconnectCall => Some(AfterDisconnect(c))
    case Opened => if c.source.Some? then Some(Open(c)) else None
    case Received(p) => if c.source.Some? then Some(Message(c, p)) else None
    case Errored => if c.source.Some? then Some(Error(c)) else None
    case TimerFired(h, ok) => if h in c.live then Some(Fire(c, h, ok)) else None
  }

  /** The state after a run of events, `None` if one of them could not happen. */
  function Run(c: Conn, es: seq<Event>): Option<Conn>
    decreases |es|
  {
    if es == [] then Some(c)
    else match Step(c, es[0])
      case None => None
      case Some(c1) => Run(c1, es[1..])
  }

  /** A fresh service has no source, no timer and no attempts, and the invariant holds. */
  lemma FreshIsIdle()
    ensures var c := Fresh();
      c.source.None? && c.timer.None? && c.live == map[] && c.attempts == 0 && !Connected(c) && Inv(c)
  {
  }

  /** Scheduling clears the previous timer, so exactly one reconnect is pending afterwards, with the backoff delay. */
  lemma ScheduleLeavesOnePending(c: Conn, url: string)
    requires Inv(c)
    ensures var r := Schedule(c, url);
      && Inv(r)
      && r.timer.Some? && r.live.Keys == {r.timer.value}
      && r.live[r.timer.value] == PendingReconnect(Delay(c.attempts), url)
      && BaseReconnectDelay <= r.live[r.timer.value].delay <= MaxReconnectDelay
  {
    ClearLeavesNone(c);
  }

  /** `disconnect` leaves nothing pending and nothing open, counts no attempt and reports the loss. */
  lemma DisconnectClearsAll(c: Conn)
    requires Inv(c)
    ensures var r := AfterDisconnect(c);
      && Inv(r)
      && r.source.None? && r.timer.None? && r.live == map[] && r.attempts == 0
      && r.reports == (if c.onChange then c.reports + [false] else c.reports)
  {
    ClearLeavesNone(c);
  }

  /** `onopen` resets the backoff and reports the connection; `onerror` reports its loss and schedules a reconnect. */
  lemma OpenAndError(c: Conn)
    requires Inv(c) && c.source.Some?
    ensures Open(c).attempts == 0 && Connected(Open(c)) && Inv(Open(c))
    ensures c.onChange ==> Open(c).reports == c.reports + [true]
    ensures !Connected(Error(c)) && Error(c).attempts == c.attempts
    ensures c.onChange ==> Error(c).reports == c.reports + [false]
    ensures Error(c).live == map[Error(c).timer.value := PendingReconnect(Delay(c.attempts), c.source.value.url)]
  {
    var c1 := c.(source := Some(c.source.value.(open := false)), reports := Report(c, false));
    ScheduleLeavesOnePending(c1, c.source.value.url);
  }

  /**
   * A message that does not parse, or parses to `null`, is dropped: no event is delivered and
   * nothing else changes. Any other value reaches `onEvent` when it is set, and only the event
   * list changes.
   */
  lemma UnparsableMessageDropped(c: Conn, parsed: Option<Json>)
    requires c.source.Some?
    ensures Message(c, None) == c && Message(c, Some(JNull)) == c
    ensures parsed.Some? && parsed.value != JNull && c.onEvent ==>
      Message(c, parsed) == c.(events := c.events + [parsed.value])
    ensures !c.onEvent ==> Message(c, parsed) == c
  {
  }

  /** `connect` keeps the invariant; with a source in place it first disconnects, which zeroes the attempts. */
  lemma ConnectKeepsInv(c: Conn, url: string, ev: bool, ch: bool, ok: bool)
    requires Inv(c)
    ensures Inv(AfterConnect(c, url, ev, ch, ok))
    ensures c.source.Some? ==> AfterConnect(c, url, ev, ch, ok).attempts == 0
    ensures c.source.None? ==> AfterConnect(c, url, ev, ch, ok).attempts == c.attempts
    ensures ok ==> AfterConnect(c, url, ev, ch, ok).source == Some(Source(url, false))
  {
    var c1 := c.(onEvent := ev, onChange := ch);
    if c1.source.Some? {
      DisconnectClearsAll(c1);
      if !ok {
        ScheduleLeavesOnePending(AfterDisconnect(c1), url);
      }
    } else if !ok {
      ScheduleLeavesOnePending(c1, url);
    }
  }

  /** Every event keeps the invariant. */
  lemma StepKeepsInv(c: Conn, e: Event)
    requires Inv(c) && Step(c, e).Some?
    ensures Inv(Step(c, e).value)
  {
    match e
    case ConnectCall(url, ev, ch, ok) => ConnectKeepsInv(c, url, ev, ch, ok);
    case DisconnectCall => DisconnectClearsAll(c);
    case Opened => OpenAndError(c);
    case Received(p) =>
    case Errored => OpenAndError(c);
    case TimerFired(h, ok) => FireKeepsInv(c, h, ok);
  }

  /** Whatever happens, at most one reconnect is ever pending, and it is the one in the timer slot. */
  lemma {:induction false} AtMostOnePending(c: Conn, es: seq<Event>)
    requires Inv(c) && Run(c, es).Some?
    ensures Inv(Run(c, es).value)
    ensures |Run(c, es).value.live| <= 1
    decreases |es|
  {
    if es == [] {
      OnePendingFromInv(c);
    } else {
      StepKeepsInv(c, es[0]);
      AtMostOnePending(Step(c, es[0]).value, es[1..]);
    }
  }

  /** The timer callback as written keeps the invariant: the fired timer was the only live one. */
  lemma FireKeepsInv(c: Conn, h: nat, ok: bool)
    requires Inv(c) && h in c.live
    ensures Inv(Fire(c, h, ok))
  {
    assert Inv(c.(live := c.live - {h}, attempts := c.attempts + 1));
    ConnectKeepsInv(c.(live := c.live - {h}, attempts := c.attempts + 1), c.live[h].url, c.onEvent, c.onChange, ok);
  }

  lemma OnePendingFromInv(c: Conn)
    requires Inv(c)
    ensures |c.live| <= 1
  {
    if c.timer.Some? && c.timer.value in c.live {
      assert c.live.Keys == {c.timer.value};
    } else {
      assert c.live.Keys == {};
    }
  }

  /** Clearing the slot's timer leaves no timer live. */
  lemma ClearLeavesNone(c: Conn)
    requires Inv(c)
    ensures ClearTimer(c) == map[]
  {
    if c.timer.Some? {
      assert c.live.Keys <= {c.timer.value};
      assert ClearTimer(c).Keys == {};
    } else {
      assert c.live.Keys == {};
    }
  }

  /**
   * When the timer fires the attempt is counted before connecting. After a failed construction
   * (no source) the counter survives, so the next delay is doubled.
   */
  lemma FireWithoutSourceCounts(c: Conn, h: nat, ok: bool)
    requires Inv(c) && h in c.live && c.source.None?
    ensures Fire(c, h, ok).attempts == c.attempts + 1
    ensures !ok ==> Fire(c, h, ok).live[Fire(c, h, ok).timer.value].delay == Delay(c.attempts + 1)
  {
    var c1 := c.(live := c.live - {h}, attempts := c.attempts + 1);
    assert Inv(c1);
    if !ok {
      ScheduleLeavesOnePending(c1.(onEvent := c.onEvent, onChange := c.onChange), c.live[h].url);
    }
  }

  /**
   * As written, a timer that fires while the errored source still exists reconnects through
   * `disconnect`, which zeroes the counter: the attempt just counted is lost.
   */
  lemma FireWithSourceResets(c: Conn, h: nat, ok: bool)
    requires Inv(c) && h in c.live && c.source.Some?
    ensures Fire(c, h, ok).attempts == 0
  {
    var c1 := c.(live := c.live - {h}, attempts := c.attempts + 1);
    assert Inv(c1);
    ConnectKeepsInv(c1, c.live[h].url, c.onEvent, c.onChange, ok);
  }

  /** The delay scheduled by the latest `onerror` or failed construction, if one is pending. */
  function PendingDelay(c: Conn): Option<int> {
    if c.timer.Some? && c.timer.value in c.live then Some(c.live[c.timer.value].delay) else None
  }

  /**
   * The backoff never builds up across transport errors: connect, error, reconnect, error again
   * schedules 1 s both times, where the comment on `scheduleReconnect` promises 1 s then 2 s.
   */
  lemma RepeatedErrorsDoNotBackOff(url: string)
    ensures var c1 := Error(AfterConnect(Fresh(), url, true, true, true));
      && c1.timer == Some(1) && 1 in c1.live
      && PendingDelay(c1) == Some(1000)
      && var c2 := Fire(c1, 1, true);
         c2.source.Some? && PendingDelay(Error(c2)) == Some(1000)
  {
    var c0 := AfterConnect(Fresh(), url, true, true, true);
    var c1 := Error(c0);
    assert c1.live == map[1 := PendingReconnect(1000, url)];
    var c2 := Fire(c1, 1, true);
    assert c2.attempts == 0;
    assert Delay(0) == 1000;
  }

  /**
   * The evidently intended reconnect: the timer callback closes the previous source without
   * going through `disconnect`, so the counted attempt is kept.
   */
  function FireIntended(c: Conn, h: nat, constructs: bool): (r: Conn)
    requires h in c.live
    ensures r.attempts == c.attempts + 1
    ensures r.onEvent == c.onEvent && r.onChange == c.onChange && r.reports == c.reports
    ensures constructs ==> r.source == Some(Source(c.live[h].url, false))
    ensures !constructs ==> r.source.None?
  {
    var c1 := c.(live := c.live - {h}, attempts := c.attempts + 1);
    var c2 := c1.(live := ClearTimer(c1), timer := None, source := None);
    if constructs then c2.(source := Some(Source(c.live[h].url, false))) else Schedule(c2, c.live[h].url)
  }

  /**
   * With the intended reconnect, every reconnect counts: after error, reconnect, error the
   * pending delay is the next step of the backoff, whether or not a source existed.
   */
  lemma IntendedBackoffDoubles(c: Conn, h: nat, ok: bool)
    requires Inv(c) && h in c.live
    ensures Inv(FireIntended(c, h, ok))
    ensures FireIntended(c, h, ok).attempts == c.attempts + 1
    ensures var r := FireIntended(c, h, ok);
      ok ==> r.source.Some? && PendingDelay(Error(r)) == Some(Delay(c.attempts + 1))
    ensures !ok ==> PendingDelay(FireIntended(c, h, ok)) == Some(Delay(c.attempts + 1))
  {
    var c1 := c.(live := c.live - {h}, attempts := c.attempts + 1);
    var c2 := c1.(live := ClearTimer(c1), timer := None, source := None);
    assert Inv(c1);
    ClearLeavesNone(c1);
    assert Inv(c2);
    var r := FireIntended(c, h, ok);
    if ok {
      assert Inv(r);
      OpenAndError(r);
    } else {
      ScheduleLeavesOnePending(c2, c.live[h].url);
    }
  }

  /** Under the intended reconnect the scenario above schedules 1 s, then 2 s. */
  lemma IntendedRepeatedErrorsBackOff(url: string)
    ensures var c1 := Error(AfterConnect(Fresh(), url, true, true, true));
      && 1 in c1.live
      && PendingDelay(c1) == Some(1000)
      && PendingDelay(Error(FireIntended(c1, 1, true))) == Some(2000)
  {
    var c0 := AfterConnect(Fresh(), url, true, true, true);
    var c1 := Error(c0);
    assert c1.live == map[1 := PendingReconnect(1000, url)];
    assert Inv(c1);
    IntendedBackoffDoubles(c1, 1, true);
    assert Delay(1) == 2000;
  }

  /** The machine with the intended reconnect: the same events, but a timer runs `FireIntended`. */
  function StepIntended(c: Conn, e: Event): Option<Conn> {
    match e
    case TimerFired(h, ok) => if h in c.live then Some(FireIntended(c, h, ok)) else None
    case _ => Step(c, e)
  }

  function RunIntended(c: Conn, es: seq<Event>): Option<Conn>
    decreases |es|
  {
    if es == [] then Some(c)
    else match StepIntended(c, es[0])
      case None => None
      case Some(c1) => RunIntended(c1, es[1..])
  }

  /** With the intended reconnect every event keeps the invariant as well. */
  lemma StepIntendedKeepsInv(c: Conn, e: Event)
    requires Inv(c) && StepIntended(c, e).Some?
    ensures Inv(StepIntended(c, e).value)
  {
    match e
    case TimerFired(h, ok) => IntendedBackoffDoubles(c, h, ok);
    case _ => StepKeepsInv(c, e);
  }

  /** With the intended reconnect, too, at most one reconnect is ever pending. */
  lemma {:induction false} AtMostOnePendingIntended(c: Conn, es: seq<Event>)
    requires Inv(c) && RunIntended(c, es).Some?
    ensures Inv(RunIntended(c, es).value)
    ensures |RunIntended(c, es).value.live| <= 1
    decreases |es|
  {
    if es == [] {
      OnePendingFromInv(c);
    } else {
      StepIntendedKeepsInv(c, es[0]);
      AtMostOnePendingIntended(StepIntended(c, es[0]).value, es[1..]);
    }
  }

  /** `LiveUpdatesService`, whose fields and callbacks change as `Conn` describes. */
  class LiveUpdatesService {
    var eventSource: Option<Source>
    var reconnectTimer: Option<nat>
    var reconnectAttempts: nat
    var hasOnEvent: bool
    var hasOnConnectionChange: bool
    var reports: seq<bool>
    var events: seq<Json>
    /** The environment's timers: scheduled, not yet run and not cleared. */
    var liveTimers: map<nat, PendingReconnect>
    var nextHandle: nat

    function State(): Conn
      reads this
    {
      Conn(eventSource, reconnectTimer, reconnectAttempts, hasOnEvent, hasOnConnectionChange,
           reports, events, liveTimers, nextHandle)
    }

    constructor ()
      ensures State() == Fresh()
    {
      eventSource, reconnectTimer, reconnectAttempts := None, None, 0;
      hasOnEvent, hasOnConnectionChange := false, false;
      reports, events := [], [];
      liveTimers, nextHandle := map[], 1;
    }

    method ReportChange(connected: bool)
      modifies this`reports
      ensures reports == Report(old(State()), connected)
    {
      if hasOnConnectionChange {
        reports := reports + [connected];
      }
    }

    method ScheduleReconnect(url: string)
      modifies this
      ensures State() == Schedule(old(State()), url)
    {
      if reconnectTimer.Some? {
        liveTimers := liveTimers - {reconnectTimer.value};
      }
      var delay := Delay(reconnectAttempts);
      liveTimers := liveTimers[nextHandle := PendingReconnect(delay, url)];
      reconnectTimer := Some(nextHandle);
      nextHandle := nextHandle + 1;
    }

    method Disconnect()
      modifies this
      ensures State() == AfterDisconnect(old(State()))
    {
      if reconnectTimer.Some? {
        liveTimers := liveTimers - {reconnectTimer.value};
        reconnectTimer := None;
      }
      if eventSource.Some? {
        eventSource := None;
      }
      ReportChange(false);
      reconnectAttempts := 0;
    }

    method Connect(url: string, withOnEvent: bool, withOnChange: bool, constructs: bool)
      modifies this
      ensures State() == AfterConnect(old(State()), url, withOnEvent, withOnChange, constructs)
    {
      hasOnEvent := withOnEvent;
      hasOnConnectionChange := withOnChange;
      if eventSource.Some? {
        Disconnect();
      }
      if constructs {
        eventSource := Some(Source(url, false));
      } else {
        ScheduleReconnect(url);
      }
    }

    method OnOpen()
      requires eventSource.Some?
      modifies this
      ensures State() == Open(old(State()))
    {
      eventSource := Some(eventSource.value.(open := true));
      reconnectAttempts := 0;
      ReportChange(true);
    }

    method OnMessage(parsed: Option<Json>)
      requires eventSource.Some?
      modifies this
      ensures State() == Message(old(State()), parsed)
    {
      if Deliverable(parsed) && hasOnEvent {
        events := events + [parsed.value];
      }
    }

    method OnError()
      requires eventSource.Some?
      modifies this
      ensures State() == Error(old(State()))
    {
      var url := eventSource.value.url;
      eventSource := Some(eventSource.value.(open := false));
      ReportChange(false);
      ScheduleReconnect(url);
    }

    /**
     * The environment runs the callback of timer `handle`: count the attempt, then
     * `connect(url, this.onEvent, this.onConnectionChange)`.
     */
    method TimerFires(handle: nat, constructs: bool)
      requires handle in liveTimers
      modifies this
      ensures State() == Fire(old(State()), handle, constructs)
    {
      var url := liveTimers[handle].url;
      liveTimers := liveTimers - {handle};
      reconnectAttempts := reconnectAttempts + 1;
      Connect(url, hasOnEvent, hasOnConnectionChange, constructs);
    }

    method IsConnected() returns (r: bool)
      ensures r == Connected(State())
      ensures r ==> eventSource.Some?
    {
      r := eventSource.Some? && eventSource.value.open;
    }
  }
}
