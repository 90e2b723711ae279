/**
 * What the client's protocol guarantees across operations: the counter after a
 * run of writes, which register a command edits, what a failure leaves behind,
 * and the writes a schedule change transmits.
 */
module ProtocolFacts {
  import opened Bytes
  import opened Register
  import opened Debouncing
  import opened Protocol
  import RF = RegisterFacts

  // ---------------------------------------------------------- runs of writes

  predicate ValidClocks(clocks: seq<WallClock>) {
    forall k :: 0 <= k < |clocks| ==> clocks[k].Valid()
  }

  /** Writing each buffer in turn, each at its own wall-clock reading, with no read or
      notification in between; stops at the first failure. */
  function WriteAll(s: ClientState, bufs: seq<seq<byte>>, clocks: seq<WallClock>): (r: Step)
    requires |bufs| == |clocks| && ValidClocks(clocks)
    ensures |r.sent| <= |bufs| && r.state.connected == s.connected
    decreases |bufs|
  {
    if |bufs| == 0 then Step(s, [], Done)
    else
      var w := WriteStep(s, bufs[0], clocks[0], true);
      if w.outcome.Failed? then w
      else
        var rest := WriteAll(w.state, bufs[1..], clocks[1..]);
        Step(rest.state, w.sent + rest.sent, rest.outcome)
  }

  /** One more write, then k more, is k + 1 more (mod 256). */
  lemma CounterShift(next: int, c: int, k: int)
    requires 0 <= c && 0 <= k && next == (c + 1) % 256
    ensures (next + k) % 256 == (c + 1 + k) % 256
  {
  }

  /** `f` is `buf` as the write path transmits it at `clock` with counter byte `counter`. */
  predicate StampedFrame(buf: seq<byte>, f: Frame, clock: WallClock, counter: int) {
    && |buf| >= SIZE
    && SameExcept(buf, f.data, {CLOCK_MINUTE, CLOCK_HOUR, COUNTER})
    && f.data[COUNTER] == counter
    && f.data[CLOCK_HOUR] == clock.hour
    && f.data[CLOCK_MINUTE] == clock.minute
  }

  /** N back-to-back writes over a live link all succeed, and leave the counter at
      (c0 + N) mod 256 and the cache at the last transmitted buffer. */
  lemma {:induction false} BackToBackWrites(s: ClientState, bufs: seq<seq<byte>>, clocks: seq<WallClock>)
    requires |bufs| == |clocks| && ValidClocks(clocks)
    requires s.connected
    requires forall k :: 0 <= k < |bufs| ==> |bufs[k]| >= SIZE
    ensures var r := WriteAll(s, bufs, clocks);
            && r.outcome == Done && r.state.connected
            && |r.sent| == |bufs|
            && r.state.counter == (s.counter + |bufs|) % 256
            && (|bufs| > 0 ==> r.state.cache == Some(r.sent[|bufs| - 1].data))
    decreases |bufs|
  {
    if |bufs| > 0 {
      var w := WriteStep(s, bufs[0], clocks[0], true);
      var tail, tailClocks := bufs[1..], clocks[1..];
      assert ValidClocks(tailClocks);
      assert forall k :: 0 <= k < |tail| ==> |tail[k]| >= SIZE;
      BackToBackWrites(w.state, tail, tailClocks);
      var rest := WriteAll(w.state, tail, tailClocks);
      assert WriteAll(s, bufs, clocks) == Step(rest.state, w.sent + rest.sent, rest.outcome);
      WriteStepTransmits(s, bufs[0], clocks[0]);
      var c0: int, c1: int, cn: int := s.counter, w.state.counter, rest.state.counter;
      assert c1 == (c0 + 1) % 256;
      assert cn == (c1 + |tail|) % 256;
      CounterShift(c1, c0, |tail|);
    }
  }

  /** The k-th of N back-to-back writes transmits the k-th buffer with the k-th wall-clock
      time and counter byte c0 + k + 1 (mod 256), whatever the buffer held there. */
  lemma {:induction false} RunFrame(s: ClientState, bufs: seq<seq<byte>>, clocks: seq<WallClock>, k: nat)
    requires |bufs| == |clocks| && ValidClocks(clocks)
    requires s.connected
    requires forall j :: 0 <= j < |bufs| ==> |bufs[j]| >= SIZE
    requires k < |bufs|
    ensures var r := WriteAll(s, bufs, clocks);
            k < |r.sent| && StampedFrame(bufs[k], r.sent[k], clocks[k], (s.counter + k + 1) % 256)
    decreases k
  {
    var r := WriteAll(s, bufs, clocks);
    var w := WriteStep(s, bufs[0], clocks[0], true);
    WriteStepTransmits(s, bufs[0], clocks[0]);
    var tail, tailClocks := bufs[1..], clocks[1..];
    assert ValidClocks(tailClocks);
    assert forall j :: 0 <= j < |tail| ==> |tail[j]| >= SIZE;
    var rest := WriteAll(w.state, tail, tailClocks);
    assert r == Step(rest.state, w.sent + rest.sent, rest.outcome);
    if k == 0 {
      assert r.sent[0] == w.sent[0];
    } else {
      RunFrame(w.state, tail, tailClocks, k - 1);
      assert r.sent[k] == rest.sent[k - 1];
      assert tail[k - 1] == bufs[k] && tailClocks[k - 1] == clocks[k];
      CounterShift(w.state.counter, s.counter, k - 1);
    }
  }

  /** Every frame of a run of writes, as `RunFrame` describes it. */
  lemma BackToBackFrames(s: ClientState, bufs: seq<seq<byte>>, clocks: seq<WallClock>)
    requires |bufs| == |clocks| && ValidClocks(clocks)
    requires s.connected
    requires forall k :: 0 <= k < |bufs| ==> |bufs[k]| >= SIZE
    ensures var r := WriteAll(s, bufs, clocks);
            |r.sent| == |bufs| &&
            forall k :: 0 <= k < |bufs| ==>
              StampedFrame(bufs[k], r.sent[k], clocks[k], (s.counter + k + 1) % 256)
  {
    BackToBackWrites(s, bufs, clocks);
    forall k | 0 <= k < |bufs|
      ensures StampedFrame(bufs[k], WriteAll(s, bufs, clocks).sent[k], clocks[k], (s.counter + k + 1) % 256)
    {
      RunFrame(s, bufs, clocks, k);
    }
  }

  /** 256 consecutive writes bring the counter back to where it started. */
  lemma CounterWrapsAfter256(s: ClientState, bufs: seq<seq<byte>>, clocks: seq<WallClock>)
    requires |bufs| == |clocks| == 256 && ValidClocks(clocks)
    requires s.connected
    requires forall k :: 0 <= k < |bufs| ==> |bufs[k]| >= SIZE
    ensures WriteAll(s, bufs, clocks).state.counter == s.counter
  {
    BackToBackWrites(s, bufs, clocks);
    var c := WriteAll(s, bufs, clocks).state.counter;
    assert c == s.counter;
  }

  // -------------------------------------------------------------- commands

  /** A command over a cached, full register edits that register, whatever a read would have
      returned: the frame sent is the edit stamped with the wall clock and the next counter. */
  lemma CommandEditsCache(s: ClientState, e: Edit, dev: Device, clock: WallClock)
    requires EditValid(e) && clock.Valid()
    requires !CacheEmpty(s.cache) && |s.cache.value| >= SIZE
    requires s.connected || dev.connects
    requires dev.writesAccepted >= 1
    ensures var f := RF.Written(s.cache.value, e, clock.hour, clock.minute, s.counter);
            CommandStep(s, e, dev, clock)
            == Step(ClientState(true, Some(f), f[COUNTER], clock.ms),
                    [Frame(f, SentAt(clock.ms, s.lastCommandMs))], Done)
  {
  }

  /** With an empty cache the command first reads the register and edits what it read,
      stamping the counter that follows the counter byte read. */
  lemma CommandReadsEmptyCache(s: ClientState, e: Edit, dev: Device, clock: WallClock)
    requires EditValid(e) && clock.Valid()
    requires CacheEmpty(s.cache)
    requires s.connected || dev.connects
    requires dev.reply.Some? && |dev.reply.value| >= SIZE
    requires dev.writesAccepted >= 1
    ensures var d := dev.reply.value;
            var f := RF.Written(d, e, clock.hour, clock.minute, d[COUNTER]);
            CommandStep(s, e, dev, clock)
            == Step(ClientState(true, Some(f), f[COUNTER], clock.ms),
                    [Frame(f, SentAt(clock.ms, s.lastCommandMs))], Done)
  {
  }

  /** The register a command edits: the cache, or what the read returned when it was empty. */
  function Loaded(s: ClientState, dev: Device): Option<seq<byte>> {
    if CacheEmpty(s.cache) then dev.reply else s.cache
  }

  /** Each way a command can fail, in the order the code meets them. */
  lemma CommandErrors(s: ClientState, e: Edit, dev: Device, clock: WallClock)
    requires EditValid(e) && clock.Valid()
    ensures var r := CommandStep(s, e, dev, clock);
            var loaded := Loaded(s, dev);
            r.outcome == (if !(s.connected || dev.connects) then Failed(ConnectFailed)
                          else if loaded.None? then Failed(TransportError)
                          else if |loaded.value| < SIZE then Failed(IndexError)
                          else if dev.writesAccepted == 0 then Failed(TransportError)
                          else Done)
  {
  }

  /** A failed command transmits nothing, drops the link and leaves a non-empty cache and the
      counter as they were. */
  lemma FailedCommandKeepsRegister(s: ClientState, e: Edit, dev: Device, clock: WallClock)
    requires EditValid(e) && clock.Valid()
    requires !CacheEmpty(s.cache)
    ensures var r := CommandStep(s, e, dev, clock);
            r.outcome.Failed? ==>
              r.sent == [] && !r.state.connected
              && r.state.cache == s.cache && r.state.counter == s.counter
  {
  }

  /** After a failure the stale cache is what the next command edits: the kettle is not re-read. */
  lemma CommandAfterFailureUsesStaleCache(s: ClientState, e1: Edit, e2: Edit, dev1: Device, dev2: Device,
                                          c1: WallClock, c2: WallClock)
    requires EditValid(e1) && EditValid(e2) && c1.Valid() && c2.Valid()
    requires !CacheEmpty(s.cache) && |s.cache.value| >= SIZE
    requires CommandStep(s, e1, dev1, c1).outcome.Failed?
    requires dev2.connects && dev2.writesAccepted >= 1
    ensures var t := CommandStep(s, e1, dev1, c1).state;
            CommandStep(t, e2, dev2, c2).sent[0].data
            == RF.Written(s.cache.value, e2, c2.hour, c2.minute, s.counter)
  {
    var t := CommandStep(s, e1, dev1, c1).state;
    FailedCommandKeepsRegister(s, e1, dev1, c1);
    CommandEditsCache(t, e2, dev2, c2);
  }

  /** An out-of-range clock time fails before connecting and changes nothing. */
  lemma ClockRejectsBeforeConnecting(s: ClientState, hours: int, minutes: int,
                                     display: Option<ClockMode>, dev: Device, clock: WallClock)
    requires clock.Valid()
    requires hours == 24 || minutes == 60
    ensures ClockCommandStep(s, hours, minutes, display, dev, clock) == Step(s, [], Failed(ValueError))
  {
  }

  // -------------------------------------------------------------- schedule

  /** Turning the schedule off is one write, clearing the enable bit, the temperature and the
      time, whatever the register held before. */
  lemma ScheduleOffOneWrite(s: ClientState, h: int, m: int, t: real, dev: Device,
                            first: WallClock, second: WallClock)
    requires first.Valid() && second.Valid()
    requires !CacheEmpty(s.cache) && |s.cache.value| >= SIZE
    requires s.connected || dev.connects
    requires dev.writesAccepted >= 1
    ensures var r := ScheduleStep(s, ScheduleOff, h, m, t, dev, first, second);
            var f := RF.Written(s.cache.value, ScheduleClear, first.hour, first.minute, s.counter);
            && r.outcome == Done
            && r.sent == [Frame(f, SentAt(first.ms, s.lastCommandMs))]
            && !HasBits(f[STATUS], SCHEDULE_ENABLED) && f[SCHEDULE_TEMP] == NO_SCHEDULE_TEMP
            && f[SCHEDULE_MINUTE] == 0 && f[SCHEDULE_HOUR] == 0
  {
    RF.ScheduleClearRoundTrip(s.cache.value, first.hour, first.minute, s.counter);
  }

  /** Setting ONCE or DAILY while a schedule is enabled is two writes: the first disables the
      schedule and clears its temperature, the second is built from the register the first
      one left and enables the new schedule. */
  lemma ScheduleChangeTwoWrites(s: ClientState, mode: ScheduleMode, h: int, m: int, t: real,
                                dev: Device, first: WallClock, second: WallClock)
    requires first.Valid() && second.Valid() && mode != ScheduleOff
    requires !CacheEmpty(s.cache) && |s.cache.value| >= SIZE
    requires HasBits(s.cache.value[STATUS], SCHEDULE_ENABLED)
    requires s.connected || dev.connects
    requires dev.writesAccepted >= 2
    ensures var r := ScheduleStep(s, mode, h, m, t, dev, first, second);
            var f1 := RF.Written(s.cache.value, ScheduleDisable, first.hour, first.minute, s.counter);
            var f2 := RF.Written(f1, ScheduleEnable(mode, h, m, t), second.hour, second.minute, f1[COUNTER]);
            && r.outcome == Done && r.state.connected
            && |r.sent| == 2
            && r.sent[0].data == f1 && r.sent[1].data == f2
            && r.state.cache == Some(f2)
            && r.state.counter == (s.counter + 2) % 256
  {
    var buf := s.cache.value;
    var p := PrepareStep(s, dev);
    assert p == Step(s.(connected := true), [], Done);
    var w1 := WriteStep(p.state, Apply(buf, ScheduleDisable), first, true);
    WriteStepTransmits(p.state, Apply(buf, ScheduleDisable), first);
    var f1 := RF.Written(buf, ScheduleDisable, first.hour, first.minute, s.counter);
    assert w1.sent[0].data == f1;
    var enable := ScheduleEnable(mode, h, m, t);
    var w2 := WriteStep(w1.state, Apply(f1, enable), second, true);
    WriteStepTransmits(w1.state, Apply(f1, enable), second);
    var f2 := RF.Written(f1, enable, second.hour, second.minute, f1[COUNTER]);
    assert w2.sent[0].data == f2;
    CounterShift(f1[COUNTER], s.counter, 1);
  }

  /** Setting ONCE or DAILY while no schedule is enabled is one write. */
  lemma ScheduleStartOneWrite(s: ClientState, mode: ScheduleMode, h: int, m: int, t: real,
                              dev: Device, first: WallClock, second: WallClock)
    requires first.Valid() && second.Valid() && mode != ScheduleOff
    requires !CacheEmpty(s.cache) && |s.cache.value| >= SIZE
    requires !HasBits(s.cache.value[STATUS], SCHEDULE_ENABLED)
    requires s.connected || dev.connects
    requires dev.writesAccepted >= 1
    ensures var r := ScheduleStep(s, mode, h, m, t, dev, first, second);
            var f := RF.Written(s.cache.value, ScheduleEnable(mode, h, m, t), first.hour, first.minute, s.counter);
            && r.outcome == Done
            && r.sent == [Frame(f, SentAt(first.ms, s.lastCommandMs))]
  {
  }

  /** The 300 ms pause between the two schedule writes always clears the debounce window, so
      the second write goes out when it is requested. */
  lemma SecondScheduleWriteNotDelayed(s: ClientState, mode: ScheduleMode, h: int, m: int, t: real,
                                      dev: Device, first: WallClock, second: WallClock)
    requires first.Valid() && second.Valid() && mode != ScheduleOff
    requires !CacheEmpty(s.cache) && |s.cache.value| >= SIZE
    requires HasBits(s.cache.value[STATUS], SCHEDULE_ENABLED)
    requires s.connected || dev.connects
    requires dev.writesAccepted >= 2
    requires second.ms >= SentAt(first.ms, s.lastCommandMs) + 300
    ensures var r := ScheduleStep(s, mode, h, m, t, dev, first, second);
            |r.sent| == 2 && r.sent[1].atMs == second.ms
  {
  }

  /** When the enabling write of a schedule change is refused, the disabling write stays sent
      and cached, and the link is dropped. */
  lemma ScheduleFailureDropsLink(s: ClientState, mode: ScheduleMode, h: int, m: int, t: real,
                                 dev: Device, first: WallClock, second: WallClock)
    requires first.Valid() && second.Valid()
    requires dev.writesAccepted == 1
    requires !CacheEmpty(s.cache) && |s.cache.value| >= SIZE
    requires HasBits(s.cache.value[STATUS], SCHEDULE_ENABLED) && mode != ScheduleOff
    requires s.connected || dev.connects
    ensures var r := ScheduleStep(s, mode, h, m, t, dev, first, second);
            && r.outcome == Failed(TransportError) && !r.state.connected
            && |r.sent| == 1 && r.state.cache == Some(r.sent[0].data)
            && !HasBits(r.sent[0].data[STATUS], SCHEDULE_ENABLED)
  {
    RF.ScheduleDisableRoundTrip(s.cache.value, first.hour, first.minute, s.counter);
  }

  /** Because the counter always mirrors byte 16 of a full cache, a command numbers its frame
      from the register it cached: the frame's byte 16 follows the cached byte 16. */
  lemma CommandCountsFromCache(s: ClientState, e: Edit, dev: Device, clock: WallClock)
    requires EditValid(e) && clock.Valid() && Consistent(s)
    requires !CacheEmpty(s.cache) && |s.cache.value| >= SIZE
    ensures var r := CommandStep(s, e, dev, clock);
            r.outcome.Done? ==> r.sent[0].data[COUNTER] == NextCounter(s.cache.value[COUNTER])
  {
    var p := PrepareStep(s, dev);
    if p.outcome.Done? {
      WriteStepTransmits(p.state, Apply(p.state.cache.value, e), clock);
    }
  }

  // ----------------------------------------------------------------- link loss

  /** A write over a link that dropped on its own is refused before the debounce, so the
      debounce time stays; a write the transport refuses is refused after it and records the time. */
  lemma LostLinkWriteKeepsDebounce(s: ClientState, buf: seq<byte>, clock: WallClock)
    requires clock.Valid() && s.connected && |buf| >= SIZE
    ensures var lost := s.(connected := false);
            WriteStep(lost, buf, clock, true) == Step(lost, [], Failed(NotConnected))
    ensures WriteStep(s, buf, clock, false)
            == Step(s.(lastCommandMs := clock.ms), [], Failed(TransportError))
  {
  }

  /** After the link drops on its own, the next command reconnects and behaves as over the old
      link, or, when the kettle is out of reach, fails to connect without sending anything. */
  lemma LostLinkReconnects(s: ClientState, e: Edit, dev: Device, clock: WallClock)
    requires EditValid(e) && clock.Valid() && s.connected
    ensures dev.connects ==>
              CommandStep(s.(connected := false), e, dev, clock) == CommandStep(s, e, dev, clock)
    ensures !dev.connects ==>
              CommandStep(s.(connected := false), e, dev, clock)
              == Step(s.(connected := false), [], Failed(ConnectFailed))
  {
  }

  // ----------------------------------------------------------------- polling

  /** A poll after a command reads the kettle afresh: its cache is whatever the kettle returned. */
  lemma PollReplacesCache(s: ClientState, dev: Device)
    requires s.connected && dev.reply.Some?
    ensures PollStep(s, dev).state.cache == dev.reply
  {
  }

  /** Polling while the kettle is out of reach returns nothing and keeps the cache, so the next
      command edits the register the client last saw. */
  lemma PollFailureKeepsCache(s: ClientState, dev: Device)
    requires !s.connected && !dev.connects
    ensures PollStep(s, dev) == Polled(s, None)
  {
  }
}
