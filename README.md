# Fellow Stagg EKG Pro kettle client — Dafny model

This project models the protocol core of the Home Assistant integration for the Fellow Stagg EKG
Pro kettle: the client object `KettleBLEClient` in
`custom_components/fellow_stagg_ekg_pro/kettle_ble.py`.

The kettle keeps its whole configuration in one 17-byte register:
- target temperature in half degrees Celsius;
- a control byte holding the Celsius and pre-boil flags;
- a 15-bit altitude field;
- the schedule: enable bit, temperature, hour and minute;
- the clock: minute, hour and display mode;
- hold time, chime volume and menu language;
- a sequence counter whose bit 3 selects a once or daily schedule.

The client caches the register, the counter and the time of the last write. Every command copies
the cached register, changes a few bytes or bits, and hands the copy to the write path. The write
path does four things:
- it stamps the wall-clock hour and minute and the next counter value into the buffer;
- it debounces;
- it transmits;
- it makes the transmitted bytes the new cache.

The model has four layers:

- `Bytes` (bytes.dfy): bytes as integers 0..255, the two single-bit masks (0x02, 0x08) with
  Python's `b & m`, `b | m` and `b & ~m` written out, clamps, and "same except at these offsets".
- `Register` (register.dfy): the register layout, the decoder (`_parse_state`) and the byte edit
  each command makes (`Edit`, `Apply`). It also holds the write path's stamp (`Stamp`).
  `RegisterFacts` (register_facts.dfy) proves the round trips from command argument to decoded
  field, the fact that no command disturbs another field, and the encoding's quirks.
- `Debouncing` (debounce.dfy): the 200 ms debounce rule and what it does and does not guarantee
  about the spacing of writes.
- `Protocol` (protocol.dfy) and `ProtocolFacts` (protocol_facts.dfy): each client operation as a
  pure step over the client's fields. A step returns the new fields, the frames it transmitted
  and how it ended. The facts module states the properties that span operations: the counter
  after N writes, which register a command edits, what a failure leaves behind, and the one or
  two writes of a schedule change.
- `Client` (client.dfy): class `KettleClient` holds the source's fields (`connected`, `cache`,
  `counter`, `lastCommandMs`) and a ghost log `sent` of every transmitted frame. Each method
  updates the fields in place as the source does. Each is proved to perform exactly its
  `Protocol` step, so every property proved about the steps holds of the object. The invariant
  `Valid()` says the counter mirrors byte 16 of a full cache, and every method keeps it.
  `CommandCountsFromCache` uses it to show that a command numbers its frame from the cached
  register.

Nothing the client depends on from outside is modelled as code; each becomes a parameter:
- The radio and the kettle become a `Device`:
  - whether a connection can be established;
  - what a read returns, with `None` meaning the read fails;
  - how many writes the transport accepts.
- Each write's wall-clock reading is passed in as a `WallClock`: the hour, minute and
  milliseconds of `datetime.now()` and `time.time()`.
- A sleep is returned as a value (the debounce delay) or appears as the gap between two
  wall-clock readings (the 300 ms pause between schedule writes). `ScheduleStep` and
  `SetSchedule` leave the second reading unconstrained; only `SecondScheduleWriteNotDelayed`
  assumes the 300 ms gap.
- A link that drops on its own is the transition `KettleClient.LinkLost`.

The model follows the code as written, including where it differs from what its comments
suggest:
- The write path overwrites bytes 10, 11 and 16. So the clock command's hour and minute, and the
  schedule command's once/daily bit, never reach the kettle (`ClockArgumentsOverwritten`,
  `ScheduleModeBitOverwritten`). The decoded schedule mode then follows bit 3 of whatever counter
  value the write produced (`OnceReadsAsDaily`).
- Temperatures are truncated to half degrees, not rounded. A schedule at 96 °C encodes as 0xC0,
  the "no temperature" sentinel, and reads back as mode "off" (`ScheduleAt96ReadsAsOff`).
- Altitude is rounded half to even: 45 m and 75 m both become 60 m (`AltitudeExamples`).
- On failure only the link is dropped. The cache and the counter survive, and the next command
  edits that cached register without re-reading the kettle (`CommandAfterFailureUsesStaleCache`).
- Debounce has three quirks (`SpacingCanCollapse`, `SleepIsNotRemainder`):
  - it sleeps a fixed 200 ms, not the time remaining;
  - it records the time before the sleep;
  - as a result, two writes can reach the transport at the same instant.
- An out-of-range clock time fails before connecting and without the error teardown.
- A failing `disconnect` propagates and leaves the link up.

## Model

| member | source | states |
|---|---|---|
| Bytes.HasBits | custom_components/fellow_stagg_ekg_pro/kettle_ble.py:198-199 | `bool(b & mask)`: a set flag bit implies the byte is at least the mask |
| Bytes.SetBits | custom_components/fellow_stagg_ekg_pro/kettle_ble.py:454 | `b \| mask` has the mask's bit set and keeps every bit below and above it |
| Bytes.ClearBits | custom_components/fellow_stagg_ekg_pro/kettle_ble.py:456 | `b & ~mask` has the mask's bit clear and keeps every bit below and above it |
| Bytes.SetKeepsOtherBit | custom_components/fellow_stagg_ekg_pro/kettle_ble.py:522 | setting the Celsius or the pre-boil bit leaves the other flag as it was |
| Bytes.ClearKeepsOtherBit | custom_components/fellow_stagg_ekg_pro/kettle_ble.py:524 | clearing one flag bit leaves the other as it was |
| Bytes.HasBitsIsBitwiseAnd | custom_components/fellow_stagg_ekg_pro/kettle_ble.py:198-199 | for every octet, the arithmetic flag test is exactly the bitwise `b & mask != 0` |
| Bytes.SetBitsIsBitwiseOr | custom_components/fellow_stagg_ekg_pro/kettle_ble.py:454 | for every octet, `SetBits` is exactly the bitwise `b \| mask` |
| Bytes.ClearBitsIsBitwiseAndNot | custom_components/fellow_stagg_ekg_pro/kettle_ble.py:456 | for every octet, `ClearBits` is exactly the bitwise `b & ~mask` |
| Bytes.Clamp | custom_components/fellow_stagg_ekg_pro/kettle_ble.py:410 | `max(lo, min(hi, x))` lies in [lo, hi], is x inside the range and the nearer bound outside |
| Bytes.ClampReal | custom_components/fellow_stagg_ekg_pro/kettle_ble.py:378 | the same clamp on a temperature |
| Register.ClockModeValue | custom_components/fellow_stagg_ekg_pro/kettle_ble.py:41-45 | clock modes are the values 0, 1, 2 |
| Register.LanguageCode | custom_components/fellow_stagg_ekg_pro/kettle_ble.py:61-67 | languages are the codes 0..4 |
| Register.AltitudeRaw | custom_components/fellow_stagg_ekg_pro/kettle_ble.py:211-213 | the altitude field is the low 7 bits of byte 3 and byte 2, a 15-bit value |
| Register.RoundSteps | custom_components/fellow_stagg_ekg_pro/kettle_ble.py:214 | `round(n / 30)`: the nearest multiple of 30, taking the even quotient on a tie |
| Register.DecodedAltitude | custom_components/fellow_stagg_ekg_pro/kettle_ble.py:211-214 | decoded altitude is a non-negative multiple of 30 within 15 m of the raw field, and on a tie (exactly 15 m away) an even multiple of 30 |
| Register.CounterMode | custom_components/fellow_stagg_ekg_pro/kettle_ble.py:249-251 | the schedule sub-mode is "once" exactly when bit 3 of the counter byte is set, otherwise "daily" |
| Register.DecodeClockMode | custom_components/fellow_stagg_ekg_pro/kettle_ble.py:220-227 | bytes 0, 1, 2 decode to the mode with that value; any other byte is "unknown" |
| Register.DecodeLanguage | custom_components/fellow_stagg_ekg_pro/kettle_ble.py:255-257 | bytes 0..4 decode to the language with that code; any other byte n is "unknown_n" |
| Register.Decode | custom_components/fellow_stagg_ekg_pro/kettle_ble.py:192-294 | the snapshot is coherent (hold iff hold time > 0, chime enabled iff volume > 0, schedule time present iff byte 0 bit 0x08, temperature present iff mode is not "off"); units are °C iff byte 1 bit 0x02; the schedule temperature is present iff the bit is set and byte 6 is not 0xC0; a non-off mode is read from the counter byte |
| Register.ParseState | custom_components/fellow_stagg_ekg_pro/kettle_ble.py:189-190 | the result is empty exactly when the cache is absent, empty or shorter than 17 bytes; otherwise a coherent snapshot whose counter is byte 16 |
| Register.Celsius | custom_components/fellow_stagg_ekg_pro/kettle_ble.py:195 | a half-degree byte read as Celsius lies in 0..127.5 and doubles back to the byte |
| Register.Displayed | custom_components/fellow_stagg_ekg_pro/kettle_ble.py:201-207 | a Celsius value is shown unchanged in °C, and in °F as the value that converts back to it |
| Register.ToCelsius | custom_components/fellow_stagg_ekg_pro/kettle_ble.py:372-375 | a Fahrenheit argument becomes the Celsius value that converts back to it; a Celsius argument is kept |
| Register.HalfDegrees | custom_components/fellow_stagg_ekg_pro/kettle_ble.py:387 | `int(clamp(c, 0, 100) * 2)` is at most 200 and truncates: it represents the clamped value rounded down to a half degree |
| Register.Quantize | custom_components/fellow_stagg_ekg_pro/kettle_ble.py:588-589 | the altitude sent is a multiple of 30 in 0..3000 within 15 m of the clamped request, and on a tie an even multiple of 30 |
| Register.Apply | custom_components/fellow_stagg_ekg_pro/kettle_ble.py:339-347 | each command's edit changes only the offsets it targets (power: 13; temperature: 4; pre-boil, units: 1; clock: 10, 11 and 12 when a mode is given; altitude: 2, 3; schedule: 0, 6, 8, 9 and 16) |
| Register.NextCounter | custom_components/fellow_stagg_ekg_pro/kettle_ble.py:157 | `(counter + 1) & 0xFF`: one more, and 255 wraps to 0 |
| Register.Stamp | custom_components/fellow_stagg_ekg_pro/kettle_ble.py:151-157 | the write path sets byte 10 to the minute, byte 11 to the hour and byte 16 to the next counter, and changes nothing else |
| RegisterFacts.AltitudeFieldRoundTrip | custom_components/fellow_stagg_ekg_pro/kettle_ble.py:591-592 | the two bytes the altitude command computes from a quantized q decode back to exactly q |
| RegisterFacts.AltitudeRoundTrip | custom_components/fellow_stagg_ekg_pro/kettle_ble.py:588-602 | `async_set_altitude(x)` sends byte 2 = q & 0xFF and byte 3 = 0x80 + ((q >> 8) & 0x7F) for the quantized q, and the decoded altitude is then q |
| RegisterFacts.QuantizeIdempotent | custom_components/fellow_stagg_ekg_pro/kettle_ble.py:588-589 | quantizing an already quantized altitude changes nothing |
| RegisterFacts.AltitudeExamples | custom_components/fellow_stagg_ekg_pro/kettle_ble.py:589 | 100 m becomes 90 m; the ties 45 m and 75 m both become 60 m; requests are clamped to 0..3000 |
| RegisterFacts.TemperatureRoundTrip | custom_components/fellow_stagg_ekg_pro/kettle_ble.py:371-387 | after `async_set_temperature` the decoded target is the clamped Celsius request truncated to a half degree, shown in the unit the register already had; the units do not change |
| RegisterFacts.Fahrenheit203 | custom_components/fellow_stagg_ekg_pro/kettle_ble.py:373 | 203 °F is stored as 190 and read back as 203 °F |
| RegisterFacts.HoldRoundTrip | custom_components/fellow_stagg_ekg_pro/kettle_ble.py:410-419 | the decoded hold time is the request clamped to 0..60; hold is on iff it is positive |
| RegisterFacts.ChimeRoundTrip | custom_components/fellow_stagg_ekg_pro/kettle_ble.py:478-487 | the decoded chime volume is the request clamped to 0..10; chime is enabled iff it is positive |
| RegisterFacts.PowerRoundTrip | custom_components/fellow_stagg_ekg_pro/kettle_ble.py:341-347 | power off gives hold time 0; power on keeps a non-zero hold time and otherwise sets 30 |
| RegisterFacts.PreBoilRoundTrip | custom_components/fellow_stagg_ekg_pro/kettle_ble.py:453-456 | pre-boil decodes as requested and every other bit of byte 1 is unchanged |
| RegisterFacts.UnitsRoundTrip | custom_components/fellow_stagg_ekg_pro/kettle_ble.py:521-524 | units decode as requested and every other bit of byte 1 is unchanged |
| RegisterFacts.ClockRoundTrip | custom_components/fellow_stagg_ekg_pro/kettle_ble.py:561-566 | after the clock command the decoded time is the wall clock at the write, and the mode is the one given or the previous one |
| RegisterFacts.ClockArgumentsOverwritten | custom_components/fellow_stagg_ekg_pro/kettle_ble.py:153-154 | the bytes sent by the clock command do not depend on its hour and minute arguments |
| RegisterFacts.ScheduleClearRoundTrip | custom_components/fellow_stagg_ekg_pro/kettle_ble.py:636-642 | schedule off clears byte 0 bit 0x08, sets byte 6 to 0xC0 and bytes 8/9 to 0; it decodes as disabled, mode "off", no time, no temperature |
| RegisterFacts.ScheduleDisableRoundTrip | custom_components/fellow_stagg_ekg_pro/kettle_ble.py:657-659 | the disabling write clears the bit and sets byte 6 to 0xC0; it decodes as mode "off" |
| RegisterFacts.ScheduleEnableRoundTrip | custom_components/fellow_stagg_ekg_pro/kettle_ble.py:663-667 | the enabling write decodes as enabled at the clamped hour and minute; temperature and mode are absent/"off" iff the truncated temperature is 0xC0, otherwise the mode comes from the new counter |
| RegisterFacts.ScheduleEnableBytes | custom_components/fellow_stagg_ekg_pro/kettle_ble.py:665-668 | the enabling write sets byte 0 bit 0x08, byte 6 = floor(2·clamp(t, 0, 100)), byte 8 = clamp(minute, 0, 59), byte 9 = clamp(hour, 0, 23) |
| RegisterFacts.ScheduleModeBitOverwritten | custom_components/fellow_stagg_ekg_pro/kettle_ble.py:670-674 | ONCE and DAILY transmit identical bytes |
| RegisterFacts.ScheduleAt96ReadsAsOff | custom_components/fellow_stagg_ekg_pro/kettle_ble.py:242 | a schedule at 96 °C reads back as enabled, mode "off", no temperature |
| RegisterFacts.OnceReadsAsDaily | custom_components/fellow_stagg_ekg_pro/kettle_ble.py:249-251 | requesting ONCE with counter 0 reads back as DAILY |
| RegisterFacts.ScheduleModeFollowsCounter | custom_components/fellow_stagg_ekg_pro/kettle_ble.py:157 | after any write the decoded schedule mode is "off" or the one bit 3 of the new counter selects |
| RegisterFacts.ControlBitsKept | custom_components/fellow_stagg_ekg_pro/kettle_ble.py:453-456 | only the units command changes the Celsius flag and only the pre-boil command changes the pre-boil flag |
| RegisterFacts.UntouchedBytes | custom_components/fellow_stagg_ekg_pro/kettle_ble.py:151-157 | neither an edit nor the stamp touches the bytes of a field the edit does not target |
| RegisterFacts.DecodeIsLocal | custom_components/fellow_stagg_ekg_pro/kettle_ble.py:192-257 | each decoded field depends only on its own bytes and flag bits |
| RegisterFacts.NoCrossFieldCorruption | custom_components/fellow_stagg_ekg_pro/kettle_ble.py:322-580 | every decoded field other than the command's targets and the stamped clock, counter and schedule mode is the same before and after a write |
| Debouncing.Debounce | custom_components/fellow_stagg_ekg_pro/kettle_ble.py:116-121 | the delay is exactly 200 ms when less than 200 ms passed since the recorded time and 0 otherwise; the recorded time becomes the pre-delay "now" |
| Debouncing.SentAt | custom_components/fellow_stagg_ekg_pro/kettle_ble.py:118-120 | a write reaches the transport between "now" and "now" + 200 ms |
| Debouncing.SpacedFromPreviousRequest | custom_components/fellow_stagg_ekg_pro/kettle_ble.py:116-121 | with a clock that does not go back, a write reaches the transport at least 200 ms after the previous write was requested |
| Debouncing.SpacingCanCollapse | custom_components/fellow_stagg_ekg_pro/kettle_ble.py:118-121 | two writes can reach the transport at the same instant (100 → 300, then 300 → 300) |
| Debouncing.SleepIsNotRemainder | custom_components/fellow_stagg_ekg_pro/kettle_ble.py:120 | 199 ms after a write the sleep is still the full 200 ms |
| Protocol.CacheEmpty | custom_components/fellow_stagg_ekg_pro/kettle_ble.py:336 | `not self._state_data`: an empty cache decodes to nothing |
| Protocol.Teardown | custom_components/fellow_stagg_ekg_pro/kettle_ble.py:353-360 | the error path drops the link and keeps cache, counter and debounce time |
| Protocol.ConnectStep | custom_components/fellow_stagg_ekg_pro/kettle_ble.py:91-114 | a live link is reused; otherwise connecting succeeds iff the device connects, and a failure changes nothing |
| Protocol.Receive | custom_components/fellow_stagg_ekg_pro/kettle_ble.py:141-143 | received bytes always become the cache; the counter becomes byte 16, or IndexError when there are fewer than 17 bytes; consistency is kept |
| Protocol.NotificationStep | custom_components/fellow_stagg_ekg_pro/kettle_ble.py:129-130 | a notification replaces the cache and sets the counter to byte 16 (IndexError on short data); it transmits nothing and keeps the link and the debounce time |
| Protocol.RefreshStep | custom_components/fellow_stagg_ekg_pro/kettle_ble.py:136-143 | fails "not connected" without a link, fails when the read fails, and otherwise stores what was read |
| Protocol.WriteStep | custom_components/fellow_stagg_ekg_pro/kettle_ble.py:146-166 | succeeds iff there is a link, the buffer has at least 17 bytes and the transport accepts; fails "not connected" with no change; a failure keeps cache and counter; a success sends one frame and makes it the cache, with the counter its byte 16 |
| Protocol.WriteStepTransmits | custom_components/fellow_stagg_ekg_pro/kettle_ble.py:151-161 | the frame is the buffer with minute, hour and next counter stamped into bytes 10, 11, 16, and it is sent after the debounce delay |
| Protocol.PrepareStep | custom_components/fellow_stagg_ekg_pro/kettle_ble.py:333-337 | a command reads the kettle only when the cache is empty, so a non-empty cache and its counter are kept |
| Protocol.Finish | custom_components/fellow_stagg_ekg_pro/kettle_ble.py:353-361 | a failed command tears the link down and re-raises; frames already sent stay sent |
| Protocol.CommandStep | custom_components/fellow_stagg_ekg_pro/kettle_ble.py:322-361 | a command either sends exactly one frame, which becomes the cache, or sends nothing and drops the link |
| Protocol.ClockCommandStep | custom_components/fellow_stagg_ekg_pro/kettle_ble.py:549-552 | an hour outside 0..23 or minute outside 0..59 fails with ValueError and changes nothing |
| Protocol.ScheduleStep | custom_components/fellow_stagg_ekg_pro/kettle_ble.py:618-688 | a schedule command sends at most two frames; on success the last one is the cache; on failure the link is dropped |
| Protocol.PollStep | custom_components/fellow_stagg_ekg_pro/kettle_ble.py:296-320 | poll returns a snapshot iff it connects and reads at least 17 bytes, and then it is the decoded reply; any failure is swallowed, returns nothing and drops the link |
| Protocol.DisconnectStep | custom_components/fellow_stagg_ekg_pro/kettle_ble.py:690-699 | disconnect drops the link, keeping cache, counter and debounce time, unless closing a live link fails, in which case the error propagates and nothing changes |
| ProtocolFacts.WriteAll | custom_components/fellow_stagg_ekg_pro/kettle_ble.py:146-166 | a run of writes sends at most one frame per buffer and keeps the link state |
| ProtocolFacts.BackToBackWrites | custom_components/fellow_stagg_ekg_pro/kettle_ble.py:156-166 | N back-to-back writes over a live link all succeed and leave counter = (c0 + N) mod 256 and the cache at the last frame |
| ProtocolFacts.RunFrame | custom_components/fellow_stagg_ekg_pro/kettle_ble.py:151-157 | the k-th write of a run sends the k-th buffer with the k-th wall-clock time and counter byte (c0 + k + 1) mod 256 |
| ProtocolFacts.BackToBackFrames | custom_components/fellow_stagg_ekg_pro/kettle_ble.py:151-157 | the same for every frame of the run at once |
| ProtocolFacts.CounterWrapsAfter256 | custom_components/fellow_stagg_ekg_pro/kettle_ble.py:157 | 256 writes bring the counter back to its start |
| ProtocolFacts.CommandEditsCache | custom_components/fellow_stagg_ekg_pro/kettle_ble.py:333-347 | with a full cache a command sends exactly the cached register edited and stamped, whatever a read would return |
| ProtocolFacts.CommandReadsEmptyCache | custom_components/fellow_stagg_ekg_pro/kettle_ble.py:336-337 | with an empty cache a command edits what it reads and stamps the counter following the one read |
| ProtocolFacts.CommandCountsFromCache | custom_components/fellow_stagg_ekg_pro/kettle_ble.py:157 | with the client consistent (the counter mirrors byte 16 of a full cache), a command's frame carries the counter that follows the cached byte 16 |
| ProtocolFacts.CommandErrors | custom_components/fellow_stagg_ekg_pro/kettle_ble.py:322-361 | a command fails on connect failure, read failure, a register shorter than 17 bytes or a refused write, in that order, and succeeds otherwise |
| ProtocolFacts.FailedCommandKeepsRegister | custom_components/fellow_stagg_ekg_pro/kettle_ble.py:353-361 | a failed command sends nothing, drops the link and keeps a non-empty cache and the counter |
| ProtocolFacts.CommandAfterFailureUsesStaleCache | custom_components/fellow_stagg_ekg_pro/kettle_ble.py:336-337 | after a failure the next command edits the stale cached register without re-reading |
| ProtocolFacts.ClockRejectsBeforeConnecting | custom_components/fellow_stagg_ekg_pro/kettle_ble.py:549-552 | hour 24 or minute 60 is rejected before connecting, with no state change |
| ProtocolFacts.ScheduleOffOneWrite | custom_components/fellow_stagg_ekg_pro/kettle_ble.py:636-646 | schedule OFF is exactly one write, with the bit cleared, byte 6 = 0xC0 and bytes 8/9 = 0, whatever the prior state |
| ProtocolFacts.ScheduleChangeTwoWrites | custom_components/fellow_stagg_ekg_pro/kettle_ble.py:653-676 | ONCE/DAILY with a schedule enabled is exactly two writes: a disabling one, then an enabling one built from the register the first left; the counter advances by 2 |
| ProtocolFacts.ScheduleStartOneWrite | custom_components/fellow_stagg_ekg_pro/kettle_ble.py:663-676 | ONCE/DAILY with no schedule enabled is exactly one enabling write |
| ProtocolFacts.SecondScheduleWriteNotDelayed | custom_components/fellow_stagg_ekg_pro/kettle_ble.py:660-661 | after the 300 ms pause the second schedule write is not debounced |
| ProtocolFacts.ScheduleFailureDropsLink | custom_components/fellow_stagg_ekg_pro/kettle_ble.py:678-688 | if the second schedule write is refused, the disabling write stays sent and cached and the link is dropped |
| ProtocolFacts.LostLinkWriteKeepsDebounce | custom_components/fellow_stagg_ekg_pro/kettle_ble.py:146-150 | a write over a link that dropped is refused "not connected" before the debounce, leaving the debounce time; a write the transport refuses records it |
| ProtocolFacts.LostLinkReconnects | custom_components/fellow_stagg_ekg_pro/kettle_ble.py:97-114 | after the link drops, the next command reconnects and behaves as over the old link, or fails to connect and sends nothing |
| ProtocolFacts.PollReplacesCache | custom_components/fellow_stagg_ekg_pro/kettle_ble.py:306-307 | a poll stores whatever the kettle returned |
| ProtocolFacts.PollFailureKeepsCache | custom_components/fellow_stagg_ekg_pro/kettle_ble.py:308-320 | an unreachable kettle makes poll return nothing and change nothing |
| Client.KettleClient.constructor | custom_components/fellow_stagg_ekg_pro/kettle_ble.py:77-89 | a new client has no link, no cache, counter 0, last write time 0 and an empty log |
| Client.KettleClient.EnsureConnected | custom_components/fellow_stagg_ekg_pro/kettle_ble.py:91-114 | performs `ConnectStep` in place |
| Client.KettleClient.EnsureDebounce | custom_components/fellow_stagg_ekg_pro/kettle_ble.py:116-121 | returns the `Debounce` delay and records "now", changing nothing else |
| Client.KettleClient.Store | custom_components/fellow_stagg_ekg_pro/kettle_ble.py:141-143 | performs `Receive` in place |
| Client.KettleClient.HandleNotification | custom_components/fellow_stagg_ekg_pro/kettle_ble.py:123-134 | performs `NotificationStep` in place and keeps the counter consistent with the cache |
| Client.KettleClient.RefreshState | custom_components/fellow_stagg_ekg_pro/kettle_ble.py:136-144 | performs `RefreshStep` in place |
| Client.KettleClient.WriteState | custom_components/fellow_stagg_ekg_pro/kettle_ble.py:146-166 | performs `WriteStep` in place and appends the transmitted frame to the log |
| Client.KettleClient.Teardown | custom_components/fellow_stagg_ekg_pro/kettle_ble.py:353-360 | drops the link only |
| Client.KettleClient.LinkLost | custom_components/fellow_stagg_ekg_pro/kettle_ble.py:97 | the kettle dropping the link (`is_connected` false) changes only the link flag and keeps the client consistent |
| Client.KettleClient.Prepare | custom_components/fellow_stagg_ekg_pro/kettle_ble.py:333-337 | performs `PrepareStep` in place |
| Client.KettleClient.Command | custom_components/fellow_stagg_ekg_pro/kettle_ble.py:322-361 | performs `CommandStep` in place |
| Client.KettleClient.SetPower | custom_components/fellow_stagg_ekg_pro/kettle_ble.py:322-361 | performs the power command's `CommandStep` and keeps the client consistent |
| Client.KettleClient.SetTemperature | custom_components/fellow_stagg_ekg_pro/kettle_ble.py:363-401 | performs the temperature command's `CommandStep` and keeps the client consistent |
| Client.KettleClient.SetHoldTime | custom_components/fellow_stagg_ekg_pro/kettle_ble.py:403-436 | performs the hold command's `CommandStep` and keeps the client consistent |
| Client.KettleClient.SetPreBoil | custom_components/fellow_stagg_ekg_pro/kettle_ble.py:438-469 | performs the pre-boil command's `CommandStep` and keeps the client consistent |
| Client.KettleClient.SetChimeVolume | custom_components/fellow_stagg_ekg_pro/kettle_ble.py:471-504 | performs the chime command's `CommandStep` and keeps the client consistent |
| Client.KettleClient.SetUnits | custom_components/fellow_stagg_ekg_pro/kettle_ble.py:506-537 | performs the units command's `CommandStep` and keeps the client consistent |
| Client.KettleClient.SetClockTime | custom_components/fellow_stagg_ekg_pro/kettle_ble.py:539-579 | performs `ClockCommandStep` in place |
| Client.KettleClient.SetAltitude | custom_components/fellow_stagg_ekg_pro/kettle_ble.py:581-616 | performs the altitude command's `CommandStep` and keeps the client consistent |
| Client.KettleClient.SetSchedule | custom_components/fellow_stagg_ekg_pro/kettle_ble.py:618-688 | performs `ScheduleStep` in place, including the two-write sequence |
| Client.KettleClient.Poll | custom_components/fellow_stagg_ekg_pro/kettle_ble.py:296-320 | performs `PollStep` in place and returns its snapshot |
| Client.KettleClient.Disconnect | custom_components/fellow_stagg_ekg_pro/kettle_ble.py:690-699 | performs `DisconnectStep` in place |

## Left out

- The BLE transport is not modelled as code. This covers `BleakClient`, `establish_connection`
  with its three attempts, `start_notify` and `stop_notify`, GATT reads and writes, and the
  transport's `disconnect`. A `Device` value says whether connecting succeeds, what a read
  returns and how many writes are accepted. A failing `start_notify` counts as a failed
  connection.
- `asyncio.sleep` is not executed: the debounce delay is a returned value, and the 300 ms pause
  is the gap between the two schedule writes' wall-clock readings. `time.time` and
  `datetime.now` are parameters.
- Temperatures are exact rationals, not Python floats, in the decoded °F values and the
  Fahrenheit-to-Celsius conversion. The byte encodings are floors of rationals, so they agree
  with the floats wherever float rounding does not cross a half-degree boundary.
- The notification observer callback and logging are left out, as is the `raw_data` hex string.
- The "HH:MM" strings `clock_time` and `schedule_time` are left out; the decoded hour and minute
  fields carry the same information.
- The link cannot drop inside one operation. `LinkLost` happens between operations, so in a
  command the "not connected" guard of `_write_state` does not fire. This includes the second
  schedule write after the 300 ms pause. A link lost there shows up in the model as a refused
  write, which records the debounce time. The source's guard fails before the debounce and
  leaves the time unchanged (`LostLinkWriteKeepsDebounce` states the difference).
- `time.time() * 1000` is a float; `WallClock.ms` is an integer number of milliseconds.
- Concurrency is not modelled. The source has no lock, so a notification can arrive in the
  middle of a command; the model runs operations one at a time.
- The `Units` enum (0x17/0x15) is left out because no core operation uses it; decoded units are
  `C` or `F`.
- The model raises IndexError for a short register at one point, before anything is
  transmitted. In the source it is raised by the first out-of-range index. Nothing observable
  differs: the buffer is a local copy and no write happens.
- Bit operations are modelled only for the masks the client uses (0x02 and 0x08, plus `& 0x7F`,
  `& 0xFF` and `>> 8` on values below 0x8000), written as integer arithmetic. The flag test,
  `|` and `& ~` are proved equal to the `bv8` bitwise operations for every octet.
- The Home Assistant glue (`__init__.py`, the entity platforms and the config flow) is not part
  of this model.
