/**
 * The kettle client: one object holding the link state, the cached register,
 * the counter and the debounce time, updated in place by its operations. Each
 * method is proved to perform exactly the corresponding step of module
 * Protocol, and records the frames it transmits in a ghost log.
 */
module Client {
  import opened Bytes
  import opened Register
  import opened Debouncing
  import opened Protocol

  class KettleClient {
    /** A live link to the kettle (`_client` set and connected). */
    var connected: bool
    /** `_state_data`. */
    var cache: Option<seq<byte>>
    /** `_counter`. */
    var counter: byte
    /** `_last_command_time`, in milliseconds. */
    var lastCommandMs: int
    /** Every buffer transmitted so far, with the time it reached the transport. */
    ghost var sent: seq<Frame>

    function State(): ClientState
      reads this
    {
      ClientState(connected, cache, counter, lastCommandMs)
    }

    ghost predicate Valid()
      reads this
    {
      Consistent(State())
    }

    /** The object performed `step`, starting from a log `before`, and reported `r`. */
    ghost predicate Took(before: seq<Frame>, step: Step, r: Outcome)
      reads this
    {
      State() == step.state && sent == before + step.sent && r == step.outcome
    }

    constructor ()
      ensures State() == INITIAL && sent == [] && Valid()
    {
      connected := false;
      cache := None;
      counter := 0;
      lastCommandMs := 0;
      sent := [];
    }

    /** `_ensure_connected`. */
    method EnsureConnected(connects: bool) returns (r: Outcome)
      modifies this
      ensures Took(old(sent), ConnectStep(old(State()), connects), r)
    {
      if connected {
        return Done;
      }
      if !connects {
        return Failed(ConnectFailed);
      }
      connected := true;
      r := Done;
    }

    /** `_ensure_debounce`: returns the sleep taken before the write. */
    method EnsureDebounce(nowMs: int) returns (delayMs: int)
      modifies this
      ensures delayMs == Debounce(nowMs, old(lastCommandMs)).delayMs
      ensures State() == old(State()).(lastCommandMs := nowMs) && sent == old(sent)
    {
      delayMs := 0;
      if nowMs - lastCommandMs < DEBOUNCE_MS {
        delayMs := DEBOUNCE_MS;
      }
      lastCommandMs := nowMs;
    }

    /** Stores received bytes, then reads the counter from them. */
    method Store(data: seq<byte>) returns (r: Outcome)
      modifies this
      ensures Took(old(sent), Receive(old(State()), data), r)
    {
      cache := Some(data);
      if |data| < SIZE {
        return Failed(IndexError);
      }
      counter := data[COUNTER];
      r := Done;
    }

    /** `_handle_notification`. */
    method HandleNotification(data: seq<byte>) returns (r: Outcome)
      requires Valid()
      modifies this
      ensures Took(old(sent), NotificationStep(old(State()), data), r)
      ensures Valid()
    {
      r := Store(data);
    }

    /** `_refresh_state`; `reply` is what the read returned (None: the read failed). */
    method RefreshState(reply: Option<seq<byte>>) returns (r: Outcome)
      modifies this
      ensures Took(old(sent), RefreshStep(old(State()), reply), r)
    {
      if !connected {
        return Failed(NotConnected);
      }
      if reply.None? {
        return Failed(TransportError);
      }
      r := Store(reply.value);
    }

    /** `_write_state`: `accepted` says whether the transport takes the write. */
    method WriteState(buf: seq<byte>, clock: WallClock, accepted: bool) returns (r: Outcome)
      requires clock.Valid()
      modifies this
      ensures Took(old(sent), WriteStep(old(State()), buf, clock, accepted), r)
    {
      if !connected {
        return Failed(NotConnected);
      }
      if |buf| < SIZE {
        return Failed(IndexError);
      }
      var data := buf;
      data := data[CLOCK_MINUTE := clock.minute];
      data := data[CLOCK_HOUR := clock.hour];
      data := data[COUNTER := (counter + 1) % 256];
      var delayMs := EnsureDebounce(clock.ms);
      if !accepted {
        return Failed(TransportError);
      }
      sent := sent + [Frame(data, clock.ms + delayMs)];
      cache := Some(data);
      counter := data[COUNTER];
      r := Done;
    }

    /** The error path of every operation. */
    method Teardown()
      modifies this
      ensures State() == Protocol.Teardown(old(State())) && sent == old(sent)
    {
      connected := false;
    }

    /** The kettle drops the link on its own (`is_connected` turns false): nothing else changes,
        and the next operation reconnects or fails "not connected". */
    method LinkLost()
      modifies this
      ensures State() == old(State()).(connected := false) && sent == old(sent)
      ensures old(Valid()) ==> Valid()
    {
      connected := false;
    }

    /** Connect, then read the register only when the cache is empty. */
    method Prepare(dev: Device) returns (r: Outcome)
      modifies this
      ensures Took(old(sent), PrepareStep(old(State()), dev), r)
    {
      r := EnsureConnected(dev.connects);
      if r.Failed? || !CacheEmpty(cache) {
        return;
      }
      r := RefreshState(dev.reply);
    }

    /** The shape every one-write command shares: prepare, edit a copy, write, and tear the
        link down on any failure. */
    method Command(e: Edit, dev: Device, clock: WallClock) returns (r: Outcome)
      requires EditValid(e) && clock.Valid()
      modifies this
      ensures Took(old(sent), CommandStep(old(State()), e, dev, clock), r)
    {
      r := Prepare(dev);
      if r.Failed? {
        Teardown();
        return;
      }
      var data := cache.value;
      if |data| < SIZE {
        Teardown();
        return Failed(IndexError);
      }
      r := WriteState(Apply(data, e), clock, dev.writesAccepted >= 1);
      if r.Failed? {
        Teardown();
      }
    }

    /** `async_set_power`. */
    method SetPower(dev: Device, on: bool, clock: WallClock) returns (r: Outcome)
      requires clock.Valid() && Valid()
      modifies this
      ensures Took(old(sent), CommandStep(old(State()), Power(on), dev, clock), r)
      ensures Valid()
    {
      r := Command(Power(on), dev, clock);
    }

    /** `async_set_temperature`. */
    method SetTemperature(dev: Device, temp: int, fahrenheit: bool, clock: WallClock) returns (r: Outcome)
      requires clock.Valid() && Valid()
      modifies this
      ensures Took(old(sent), CommandStep(old(State()), TargetTemperature(temp, fahrenheit), dev, clock), r)
      ensures Valid()
    {
      r := Command(TargetTemperature(temp, fahrenheit), dev, clock);
    }

    /** `async_set_hold_time`. */
    method SetHoldTime(dev: Device, minutes: int, clock: WallClock) returns (r: Outcome)
      requires clock.Valid() && Valid()
      modifies this
      ensures Took(old(sent), CommandStep(old(State()), HoldTime(minutes), dev, clock), r)
      ensures Valid()
    {
      r := Command(HoldTime(minutes), dev, clock);
    }

    /** `async_set_pre_boil`. */
    method SetPreBoil(dev: Device, enabled: bool, clock: WallClock) returns (r: Outcome)
      requires clock.Valid() && Valid()
      modifies this
      ensures Took(old(sent), CommandStep(old(State()), PreBoil(enabled), dev, clock), r)
      ensures Valid()
    {
      r := Command(PreBoil(enabled), dev, clock);
    }

    /** `async_set_chime_volume`. */
    method SetChimeVolume(dev: Device, volume: int, clock: WallClock) returns (r: Outcome)
      requires clock.Valid() && Valid()
      modifies this
      ensures Took(old(sent), CommandStep(old(State()), ChimeVolume(volume), dev, clock), r)
      ensures Valid()
    {
      r := Command(ChimeVolume(volume), dev, clock);
    }

    /** `async_set_units`. */
    method SetUnits(dev: Device, celsius: bool, clock: WallClock) returns (r: Outcome)
      requires clock.Valid() && Valid()
      modifies this
      ensures Took(old(sent), CommandStep(old(State()), UnitsFlag(celsius), dev, clock), r)
      ensures Valid()
    {
      r := Command(UnitsFlag(celsius), dev, clock);
    }

    /** `async_set_clock_time`: range checks come first and fail without touching anything. */
    method SetClockTime(dev: Device, hours: int, minutes: int, display: Option<ClockMode>,
                        clock: WallClock) returns (r: Outcome)
      requires clock.Valid() && Valid()
      modifies this
      ensures Took(old(sent), ClockCommandStep(old(State()), hours, minutes, display, dev, clock), r)
      ensures Valid()
    {
      if !(0 <= hours <= 23) || !(0 <= minutes <= 59) {
        return Failed(ValueError);
      }
      r := Command(ClockTime(hours, minutes, display), dev, clock);
    }

    /** `async_set_altitude`. */
    method SetAltitude(dev: Device, meters: int, clock: WallClock) returns (r: Outcome)
      requires clock.Valid() && Valid()
      modifies this
      ensures Took(old(sent), CommandStep(old(State()), Altitude(meters), dev, clock), r)
      ensures Valid()
    {
      r := Command(Altitude(meters), dev, clock);
    }

    /** `async_set_schedule`: `first` and `second` are the wall-clock readings of the (at most
        two) writes. */
    method SetSchedule(dev: Device, mode: ScheduleMode, hour: int, minute: int, temp: real,
                       first: WallClock, second: WallClock) returns (r: Outcome)
      requires first.Valid() && second.Valid() && Valid()
      modifies this
      ensures Took(old(sent), ScheduleStep(old(State()), mode, hour, minute, temp, dev, first, second), r)
      ensures Valid()
    {
      r := Prepare(dev);
      if r.Failed? {
        Teardown();
        return;
      }
      var data := cache.value;
      if |data| < SIZE {
        Teardown();
        return Failed(IndexError);
      }
      if mode == ScheduleOff {
        r := WriteState(Apply(data, ScheduleClear), first, dev.writesAccepted >= 1);
      } else if HasBits(data[STATUS], SCHEDULE_ENABLED) {
        r := WriteState(Apply(data, ScheduleDisable), first, dev.writesAccepted >= 1);
        if r.Done? {
          var disabled := cache.value;
          r := WriteState(Apply(disabled, ScheduleEnable(mode, hour, minute, temp)), second,
                          dev.writesAccepted >= 2);
        }
      } else {
        r := WriteState(Apply(data, ScheduleEnable(mode, hour, minute, temp)), first,
                        dev.writesAccepted >= 1);
      }
      if r.Failed? {
        Teardown();
      }
    }

    /** `async_poll`: failures are swallowed into an empty result. */
    method Poll(dev: Device) returns (result: Option<KettleState>)
      requires Valid()
      modifies this
      ensures State() == PollStep(old(State()), dev).state && sent == old(sent)
      ensures result == PollStep(old(State()), dev).result
      ensures Valid()
    {
      var r := EnsureConnected(dev.connects);
      if r.Done? {
        r := RefreshState(dev.reply);
      }
      if r.Failed? {
        Teardown();
        return None;
      }
      result := ParseState(cache);
    }

    /** `disconnect`: `closes` says whether the transport's disconnect succeeds. */
    method Disconnect(closes: bool) returns (r: Outcome)
      modifies this
      ensures Took(old(sent), DisconnectStep(old(State()), closes), r)
    {
      if connected && !closes {
        return Failed(TransportError);
      }
      connected := false;
      r := Done;
    }
  }
}
