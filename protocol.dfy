/**
 * The client's protocol as pure steps over its state: connecting, reading the
 * register, notifications, the write path, the read-modify-write commands, the
 * two-write schedule change, polling and disconnecting. The class in module
 * Client performs these steps in place and is proved against them.
 */
module Protocol {
  import opened Bytes
  import opened Register
  import opened Debouncing

  datatype Error =
    | NotConnected     // "Not connected to kettle"
    | ConnectFailed    // the connection could not be established
    | TransportError   // a read, write or disconnect failed
    | IndexError       // the register held fewer bytes than an index needed
    | ValueError       // clock hour or minute out of range

  datatype Outcome = Done | Failed(error: Error)

  /** A wall-clock reading: `datetime.now()`'s hour and minute, and `time.time()` in milliseconds. */
  datatype WallClock = WallClock(hour: int, minute: int, ms: int) {
    predicate Valid() {
      ValidTime(hour, minute)
    }
  }

  /** What the radio and the kettle do during one client operation: whether a connection can be
      established, what a read returns (None: the read fails), and how many writes succeed. */
  datatype Device = Device(connects: bool, reply: Option<seq<byte>>, writesAccepted: nat)

  /** The client's fields: a live link, the cached register, the counter, the debounce time. */
  datatype ClientState = ClientState(
    connected: bool,
    cache: Option<seq<byte>>,
    counter: byte,
    lastCommandMs: int)

  const INITIAL: ClientState := ClientState(false, None, 0, 0)

  /** One transmitted buffer and the time it reached the transport. */
  datatype Frame = Frame(data: seq<byte>, atMs: int)

  /** The state after an operation, the frames it transmitted and how it ended. */
  datatype Step = Step(state: ClientState, sent: seq<Frame>, outcome: Outcome)

  /** A full cached register always carries the counter in its last byte. */
  predicate Consistent(s: ClientState) {
    s.cache.Some? && |s.cache.value| >= SIZE ==> s.cache.value[COUNTER] == s.counter
  }

  /** Python's `not self._state_data`. */
  predicate CacheEmpty(cache: Option<seq<byte>>)
    ensures CacheEmpty(cache) ==> ParseState(cache).None?
  {
    cache.None? || |cache.value| == 0
  }

  /** The error path of every operation: drop the link, keep the cache and the counter. */
  function Teardown(s: ClientState): (t: ClientState)
    ensures !t.connected && t.cache == s.cache && t.counter == s.counter
    ensures t.lastCommandMs == s.lastCommandMs
  {
    s.(connected := false)
  }

  /** `_ensure_connected`: reuse a live link, or establish one. */
  function ConnectStep(s: ClientState, connects: bool): (r: Step)
    ensures r.sent == []
    ensures r.outcome.Done? <==> s.connected || connects
    ensures r.outcome.Failed? ==> r.outcome.error == ConnectFailed && r.state == s
    ensures r.outcome.Done? ==> r.state == s.(connected := true)
  {
    if s.connected then Step(s, [], Done)
    else if connects then Step(s.(connected := true), [], Done)
    else Step(s, [], Failed(ConnectFailed))
  }

  /** Storing received bytes, as a read or a notification does: the counter follows byte 16,
      and bytes too short to hold it are stored anyway before indexing fails. */
  function Receive(s: ClientState, data: seq<byte>): (r: Step)
    ensures r.sent == [] && r.state.connected == s.connected
    ensures r.state.cache == Some(data) && r.state.lastCommandMs == s.lastCommandMs
    ensures r.outcome.Done? <==> |data| >= SIZE
    ensures r.outcome.Failed? ==> r.outcome.error == IndexError && r.state.counter == s.counter
    ensures r.outcome.Done? ==> r.state.counter == data[COUNTER]
    ensures Consistent(s) ==> Consistent(r.state)
  {
    if |data| < SIZE then Step(s.(cache := Some(data)), [], Failed(IndexError))
    else Step(s.(cache := Some(data), counter := data[COUNTER]), [], Done)
  }

  /** `_handle_notification`. */
  function NotificationStep(s: ClientState, data: seq<byte>): (r: Step)
    ensures r.sent == [] && r.state.cache == Some(data) && r.state.connected == s.connected
    ensures r.state.lastCommandMs == s.lastCommandMs
    ensures |data| >= SIZE ==> r.outcome == Done && r.state.counter == data[COUNTER]
    ensures |data| < SIZE ==> r.outcome == Failed(IndexError) && r.state.counter == s.counter
  {
    Receive(s, data)
  }

  /** `_refresh_state`: read the register over a live link. */
  function RefreshStep(s: ClientState, reply: Option<seq<byte>>): (r: Step)
    ensures r.sent == [] && r.state.connected == s.connected
    ensures !s.connected ==> r == Step(s, [], Failed(NotConnected))
    ensures s.connected && reply.None? ==> r == Step(s, [], Failed(TransportError))
    ensures s.connected && reply.Some? ==> r == Receive(s, reply.value)
  {
    if !s.connected then Step(s, [], Failed(NotConnected))
    else if reply.None? then Step(s, [], Failed(TransportError))
    else Receive(s, reply.value)
  }

  /** `_write_state`: stamp the wall clock and the next counter into the buffer, debounce,
      transmit, and make the transmitted bytes the cache. */
  function WriteStep(s: ClientState, buf: seq<byte>, clock: WallClock, accepted: bool): (r: Step)
    requires clock.Valid()
    ensures r.state.connected == s.connected
    ensures r.outcome.Done? <==> s.connected && |buf| >= SIZE && accepted
    ensures !s.connected ==> r == Step(s, [], Failed(NotConnected))
    ensures r.outcome.Failed? ==> r.sent == [] && r.state.cache == s.cache && r.state.counter == s.counter
    ensures r.outcome.Done? ==>
              && |r.sent| == 1 && |r.sent[0].data| >= SIZE
              && r.state.cache == Some(r.sent[0].data)
              && r.state.counter == r.sent[0].data[COUNTER]
              && r.state.lastCommandMs == clock.ms
    ensures Consistent(s) ==> Consistent(r.state)
  {
    if !s.connected then Step(s, [], Failed(NotConnected))
    else if |buf| < SIZE then Step(s, [], Failed(IndexError))
    else
      var data := Stamp(buf, clock.hour, clock.minute, s.counter);
      var d := Debounce(clock.ms, s.lastCommandMs);
      if !accepted then Step(s.(lastCommandMs := d.recordedMs), [], Failed(TransportError))
      else Step(s.(cache := Some(data), counter := data[COUNTER], lastCommandMs := d.recordedMs),
                [Frame(data, clock.ms + d.delayMs)], Done)
  }

  /** What a successful write transmits: the buffer with the wall-clock minute and hour in
      bytes 10 and 11 and the next counter value in byte 16, whatever the caller put there,
      after the debounce delay. */
  lemma WriteStepTransmits(s: ClientState, buf: seq<byte>, clock: WallClock)
    requires clock.Valid() && s.connected && |buf| >= SIZE
    ensures var r := WriteStep(s, buf, clock, true);
            && r.outcome == Done && |r.sent| == 1
            && SameExcept(buf, r.sent[0].data, {CLOCK_MINUTE, CLOCK_HOUR, COUNTER})
            && r.sent[0].data[CLOCK_MINUTE] == clock.minute
            && r.sent[0].data[CLOCK_HOUR] == clock.hour
            && r.sent[0].data[COUNTER] == NextCounter(s.counter)
            && r.sent[0].atMs == SentAt(clock.ms, s.lastCommandMs)
  {
  }

  /** The start of every command: connect, then read the register only if the cache is empty. */
  function PrepareStep(s: ClientState, dev: Device): (r: Step)
    ensures r.sent == [] && r.state.lastCommandMs == s.lastCommandMs
    ensures r.outcome.Done? ==> r.state.connected && !CacheEmpty(r.state.cache)
    ensures !CacheEmpty(s.cache) ==> r.state.cache == s.cache && r.state.counter == s.counter
    ensures Consistent(s) ==> Consistent(r.state)
  {
    var c := ConnectStep(s, dev.connects);
    if c.outcome.Failed? || !CacheEmpty(c.state.cache) then c
    else RefreshStep(c.state, dev.reply)
  }

  /** Closing a failed operation: the error path tears the link down; frames already sent stay sent. */
  function Finish(r: Step): (f: Step)
    ensures f.sent == r.sent && f.outcome == r.outcome
    ensures f.state == (if r.outcome.Failed? then Teardown(r.state) else r.state)
  {
    if r.outcome.Failed? then Step(Teardown(r.state), r.sent, r.outcome) else r
  }

  /** A one-write command: prepare, edit a copy of the cached register, write it. */
  function CommandStep(s: ClientState, e: Edit, dev: Device, clock: WallClock): (r: Step)
    requires EditValid(e) && clock.Valid()
    ensures r.outcome.Failed? ==> r.sent == [] && !r.state.connected
    ensures r.outcome.Done? ==>
              && |r.sent| == 1 && r.state.connected
              && r.state.cache == Some(r.sent[0].data)
              && |r.sent[0].data| >= SIZE
              && r.state.counter == r.sent[0].data[COUNTER]
    ensures Consistent(s) ==> Consistent(r.state)
  {
    var p := PrepareStep(s, dev);
    if p.outcome.Failed? then Finish(p)
    else
      var buf := p.state.cache.value;
      if |buf| < SIZE then Finish(Step(p.state, [], Failed(IndexError)))
      else Finish(WriteStep(p.state, Apply(buf, e), clock, dev.writesAccepted >= 1))
  }

  /** `async_set_clock_time`: out-of-range values fail before anything else happens. */
  function ClockCommandStep(s: ClientState, hours: int, minutes: int, display: Option<ClockMode>,
                            dev: Device, clock: WallClock): (r: Step)
    requires clock.Valid()
    ensures !(0 <= hours <= 23 && 0 <= minutes <= 59) ==> r == Step(s, [], Failed(ValueError))
    ensures r.outcome.Done? ==> |r.sent| == 1 && r.state.connected
  {
    if !(0 <= hours <= 23) || !(0 <= minutes <= 59) then Step(s, [], Failed(ValueError))
    else CommandStep(s, ClockTime(hours, minutes, display), dev, clock)
  }

  /** `async_set_schedule`. Mode OFF is one write; ONCE or DAILY is one write, preceded by a
      disabling write when the register already has a schedule enabled. */
  function ScheduleStep(s: ClientState, mode: ScheduleMode, hour: int, minute: int, temp: real,
                        dev: Device, first: WallClock, second: WallClock): (r: Step)
    requires first.Valid() && second.Valid()
    ensures |r.sent| <= 2
    ensures r.outcome.Done? ==> r.state.connected && |r.sent| >= 1
                                && r.state.cache == Some(r.sent[|r.sent| - 1].data)
    ensures r.outcome.Failed? ==> !r.state.connected
    ensures Consistent(s) ==> Consistent(r.state)
  {
    var p := PrepareStep(s, dev);
    if p.outcome.Failed? then Finish(p)
    else
      var buf := p.state.cache.value;
      if |buf| < SIZE then Finish(Step(p.state, [], Failed(IndexError)))
      else if mode == ScheduleOff then
        Finish(WriteStep(p.state, Apply(buf, ScheduleClear), first, dev.writesAccepted >= 1))
      else
        var enable := ScheduleEnable(mode, hour, minute, temp);
        if HasBits(buf[STATUS], SCHEDULE_ENABLED) then
          var w1 := WriteStep(p.state, Apply(buf, ScheduleDisable), first, dev.writesAccepted >= 1);
          if w1.outcome.Failed? then Finish(w1)
          else
            var w2 := WriteStep(w1.state, Apply(w1.state.cache.value, enable), second,
                                dev.writesAccepted >= 2);
            Finish(Step(w2.state, w1.sent + w2.sent, w2.outcome))
        else
          Finish(WriteStep(p.state, Apply(buf, enable), first, dev.writesAccepted >= 1))
  }

  /** What `async_poll` returns (None for the empty dict) and the state it leaves. */
  datatype Polled = Polled(state: ClientState, result: Option<KettleState>)

  /** `async_poll`: connect, read, decode; any failure is swallowed into an empty result. */
  function PollStep(s: ClientState, dev: Device): (r: Polled)
    ensures r.result.Some? <==>
              (s.connected || dev.connects) && dev.reply.Some? && |dev.reply.value| >= SIZE
    ensures r.result.Some? ==>
              && r.state.connected
              && r.state.cache == dev.reply
              && r.result.value == Decode(dev.reply.value)
              && r.state.counter == dev.reply.value[COUNTER]
    ensures r.result.None? ==> !r.state.connected
    ensures r.state.lastCommandMs == s.lastCommandMs
    ensures Consistent(s) ==> Consistent(r.state)
  {
    var c := ConnectStep(s, dev.connects);
    if c.outcome.Failed? then Polled(Teardown(c.state), None)
    else
      var rd := RefreshStep(c.state, dev.reply);
      if rd.outcome.Failed? then Polled(Teardown(rd.state), None)
      else Polled(rd.state, ParseState(rd.state.cache))
  }

  /** `disconnect`: a failing close propagates before the link is dropped. */
  function DisconnectStep(s: ClientState, closes: bool): (r: Step)
    ensures r.sent == [] && r.state.cache == s.cache && r.state.counter == s.counter
    ensures r.state.lastCommandMs == s.lastCommandMs
    ensures r.outcome.Done? <==> !s.connected || closes
    ensures r.outcome.Done? ==> !r.state.connected
    ensures r.outcome.Failed? ==> r.state == s && r.outcome.error == TransportError
  {
    if s.connected && !closes then Step(s, [], Failed(TransportError))
    else Step(s.(connected := false), [], Done)
  }
}
