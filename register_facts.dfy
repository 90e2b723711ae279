/**
 * What the register codec guarantees: each command's edit, once stamped by the
 * write path, decodes to the value the command asked for (as the code computes
 * it), leaves every other decoded field alone, and the quirks of the encoding.
 */
module RegisterFacts {
  import opened Bytes
  import opened Register

  /** The bytes a command transmits: its edit, then the write path's stamp. */
  function Written(buf: seq<byte>, e: Edit, hour: int, minute: int, counter: byte): seq<byte>
    requires |buf| >= SIZE && EditValid(e) && ValidTime(hour, minute)
  {
    Stamp(Apply(buf, e), hour, minute, counter)
  }

  // ---------------------------------------------------------------- altitude

  /** The two altitude bytes a command writes decode back to the quantized altitude. */
  lemma AltitudeFieldRoundTrip(q: int)
    requires 0 <= q <= ALTITUDE_MAX && q % ALTITUDE_STEP == 0
    ensures DecodedAltitude(q % 256, ALTITUDE_OFFSET + (q / 256) % 128) == q
  {
    var k := q / 256;
    assert k < 12;
    var high := ALTITUDE_OFFSET + k % 128;
    assert high % 128 == k;
    assert AltitudeRaw(q % 256, high) == q;
    assert RoundSteps(q) == q / ALTITUDE_STEP;
  }

  /** `async_set_altitude` sends the quantized altitude as its low byte and, in byte 3, the 0x80
      marker plus the next 7 bits; decoding then reports exactly the quantized altitude. */
  lemma AltitudeRoundTrip(buf: seq<byte>, meters: int, hour: int, minute: int, counter: byte)
    requires |buf| >= SIZE && ValidTime(hour, minute)
    ensures var w := Written(buf, Altitude(meters), hour, minute, counter);
            && w[ALTITUDE_LOW] == Quantize(meters) % 256
            && w[ALTITUDE_HIGH] == ALTITUDE_OFFSET + (Quantize(meters) / 256) % 128
    ensures Decode(Written(buf, Altitude(meters), hour, minute, counter)).altitudeMeters
            == Quantize(meters)
  {
    AltitudeFieldRoundTrip(Quantize(meters));
  }

  /** Quantizing an already quantized altitude changes nothing. */
  lemma QuantizeIdempotent(meters: int)
    ensures Quantize(Quantize(meters)) == Quantize(meters)
  {
    var q := Quantize(meters);
    assert Clamp(0, ALTITUDE_MAX, q) == q;
    assert RoundSteps(q) == q / ALTITUDE_STEP;
  }

  /** Python's round: 100 m becomes 90 m, and both 45 m and 75 m (ties) become 60 m. */
  lemma AltitudeExamples()
    ensures Quantize(100) == 90
    ensures Quantize(45) == 60 && Quantize(75) == 60
    ensures Quantize(-20) == 0 && Quantize(5000) == 3000
  {
  }

  // ------------------------------------------------------------- temperature

  /** The target temperature a command writes is the clamped request truncated to half degrees,
      shown in whichever unit the register already selects. */
  lemma TemperatureRoundTrip(buf: seq<byte>, temp: int, fahrenheit: bool,
                             hour: int, minute: int, counter: byte)
    requires |buf| >= SIZE && ValidTime(hour, minute)
    ensures var st := Decode(Written(buf, TargetTemperature(temp, fahrenheit), hour, minute, counter));
            var b := HalfDegrees(ToCelsius(temp, fahrenheit));
            && st.units == Decode(buf).units
            && st.targetTemp == Displayed(Celsius(b), st.units == C)
            && Celsius(b) <= ClampReal(0.0, 100.0, ToCelsius(temp, fahrenheit)) < Celsius(b) + 0.5
  {
  }

  /** 203 °F is stored as 190 half degrees and shown again as 203 °F. */
  lemma Fahrenheit203(buf: seq<byte>, hour: int, minute: int, counter: byte)
    requires |buf| >= SIZE && ValidTime(hour, minute) && !HasBits(buf[CONTROL], CELSIUS)
    ensures Written(buf, TargetTemperature(203, true), hour, minute, counter)[TARGET_TEMP] == 190
    ensures Decode(Written(buf, TargetTemperature(203, true), hour, minute, counter)).targetTemp == 203.0
  {
    assert ToCelsius(203, true) == 95.0;
  }

  // ------------------------------------------------------ single-byte fields

  lemma HoldRoundTrip(buf: seq<byte>, minutes: int, hour: int, minute: int, counter: byte)
    requires |buf| >= SIZE && ValidTime(hour, minute)
    ensures var st := Decode(Written(buf, HoldTime(minutes), hour, minute, counter));
            st.holdTimeMinutes == Clamp(0, 60, minutes) && st.hold == (Clamp(0, 60, minutes) > 0)
  {
  }

  lemma ChimeRoundTrip(buf: seq<byte>, volume: int, hour: int, minute: int, counter: byte)
    requires |buf| >= SIZE && ValidTime(hour, minute)
    ensures var st := Decode(Written(buf, ChimeVolume(volume), hour, minute, counter));
            st.chimeVolume == Clamp(0, 10, volume) && st.chimeEnabled == (Clamp(0, 10, volume) > 0)
  {
  }

  /** Power on keeps a non-zero hold time and otherwise sets 30 minutes; power off clears it. */
  lemma PowerRoundTrip(buf: seq<byte>, on: bool, hour: int, minute: int, counter: byte)
    requires |buf| >= SIZE && ValidTime(hour, minute)
    ensures var before := Decode(buf);
            var st := Decode(Written(buf, Power(on), hour, minute, counter));
            && st.hold == on
            && st.holdTimeMinutes == (if !on then 0
                                      else if before.holdTimeMinutes == 0 then DEFAULT_HOLD
                                      else before.holdTimeMinutes)
  {
  }

  /** Pre-boil sets or clears bit 0x08 of the control byte and no other bit. */
  lemma PreBoilRoundTrip(buf: seq<byte>, enabled: bool, hour: int, minute: int, counter: byte)
    requires |buf| >= SIZE && ValidTime(hour, minute)
    ensures var w := Written(buf, PreBoil(enabled), hour, minute, counter);
            && Decode(w).preBoilEnabled == enabled
            && ClearBits(w[CONTROL], PRE_BOIL) == ClearBits(buf[CONTROL], PRE_BOIL)
  {
  }

  /** Units sets or clears bit 0x02 of the control byte and no other bit. */
  lemma UnitsRoundTrip(buf: seq<byte>, celsius: bool, hour: int, minute: int, counter: byte)
    requires |buf| >= SIZE && ValidTime(hour, minute)
    ensures var w := Written(buf, UnitsFlag(celsius), hour, minute, counter);
            && (Decode(w).units == C <==> celsius)
            && ClearBits(w[CONTROL], CELSIUS) == ClearBits(buf[CONTROL], CELSIUS)
  {
  }

  // -------------------------------------------------------------------- clock

  /** The clock command's mode is kept, but the time shown is the wall clock of the write. */
  lemma ClockRoundTrip(buf: seq<byte>, hours: int, minutes: int, display: Option<ClockMode>,
                       hour: int, minute: int, counter: byte)
    requires |buf| >= SIZE && ValidTime(hour, minute) && EditValid(ClockTime(hours, minutes, display))
    ensures var st := Decode(Written(buf, ClockTime(hours, minutes, display), hour, minute, counter));
            && st.clockHours == hour && st.clockMinutes == minute
            && st.clockMode == (if display.Some? then display else Decode(buf).clockMode)
  {
  }

  /** The hours and minutes given to the clock command never reach the kettle. */
  lemma ClockArgumentsOverwritten(buf: seq<byte>, h1: int, m1: int, h2: int, m2: int,
                                                     display: Option<ClockMode>,
                                                     hour: int, minute: int, counter: byte)
    requires |buf| >= SIZE && ValidTime(hour, minute)
    requires EditValid(ClockTime(h1, m1, display)) && EditValid(ClockTime(h2, m2, display))
    ensures Written(buf, ClockTime(h1, m1, display), hour, minute, counter)
            == Written(buf, ClockTime(h2, m2, display), hour, minute, counter)
  {
    var a := Written(buf, ClockTime(h1, m1, display), hour, minute, counter);
    var b := Written(buf, ClockTime(h2, m2, display), hour, minute, counter);
    assert forall i | 0 <= i < |a| :: a[i] == b[i];
  }

  // ----------------------------------------------------------------- schedule

  /** Turning the schedule off clears the enable bit, the temperature and the time,
      whatever the register held before. */
  lemma ScheduleClearRoundTrip(buf: seq<byte>, hour: int, minute: int, counter: byte)
    requires |buf| >= SIZE && ValidTime(hour, minute)
    ensures var w := Written(buf, ScheduleClear, hour, minute, counter);
            var st := Decode(w);
            && !HasBits(w[STATUS], SCHEDULE_ENABLED) && w[SCHEDULE_TEMP] == NO_SCHEDULE_TEMP
            && w[SCHEDULE_MINUTE] == 0 && w[SCHEDULE_HOUR] == 0
            && !st.scheduleEnabled && st.scheduleMode == ScheduleOff
            && st.scheduleHours.None? && st.scheduleTemperature.None?
  {
  }

  /** The first write of a schedule change disables the schedule and clears its temperature. */
  lemma ScheduleDisableRoundTrip(buf: seq<byte>, hour: int, minute: int, counter: byte)
    requires |buf| >= SIZE && ValidTime(hour, minute)
    ensures var w := Written(buf, ScheduleDisable, hour, minute, counter);
            && !HasBits(w[STATUS], SCHEDULE_ENABLED) && w[SCHEDULE_TEMP] == NO_SCHEDULE_TEMP
            && Decode(w).scheduleMode == ScheduleOff
  {
  }

  /** The enabling write stores the clamped time and temperature; the reported mode then comes
      from the counter byte, and a temperature that truncates to 0xC0 reads as no schedule. */
  lemma ScheduleEnableRoundTrip(buf: seq<byte>, mode: ScheduleMode, h: int, m: int, t: real,
                                hour: int, minute: int, counter: byte)
    requires |buf| >= SIZE && ValidTime(hour, minute)
    ensures var w := Written(buf, ScheduleEnable(mode, h, m, t), hour, minute, counter);
            var st := Decode(w);
            var b := HalfDegrees(t);
            && w[SCHEDULE_TEMP] == b
            && st.scheduleEnabled
            && st.scheduleHours == Some(Clamp(0, 23, h))
            && st.scheduleMinutes == Some(Clamp(0, 59, m))
            && st.scheduleTemperature == (if b == NO_SCHEDULE_TEMP then None
                                          else Some(Displayed(Celsius(b), st.units == C)))
            && st.scheduleMode == (if b == NO_SCHEDULE_TEMP then ScheduleOff
                                   else CounterMode(NextCounter(counter)))
  {
  }

  /** The enabling write sets the schedule bit and stores the truncated half-degree temperature
      and the clamped minute and hour. */
  lemma ScheduleEnableBytes(buf: seq<byte>, mode: ScheduleMode, h: int, m: int, t: real,
                            hour: int, minute: int, counter: byte)
    requires |buf| >= SIZE && ValidTime(hour, minute)
    ensures var w := Written(buf, ScheduleEnable(mode, h, m, t), hour, minute, counter);
            && HasBits(w[STATUS], SCHEDULE_ENABLED)
            && w[SCHEDULE_TEMP] == (ClampReal(0.0, 100.0, t) * 2.0).Floor
            && w[SCHEDULE_MINUTE] == Clamp(0, 59, m)
            && w[SCHEDULE_HOUR] == Clamp(0, 23, h)
  {
  }

  /** Choosing ONCE or DAILY makes no difference to the bytes sent: the write path overwrites
      the counter byte that carries the choice. */
  lemma ScheduleModeBitOverwritten(buf: seq<byte>, h: int, m: int, t: real,
                                                      hour: int, minute: int, counter: byte)
    requires |buf| >= SIZE && ValidTime(hour, minute)
    ensures Written(buf, ScheduleEnable(Once, h, m, t), hour, minute, counter)
            == Written(buf, ScheduleEnable(Daily, h, m, t), hour, minute, counter)
  {
    var a := Written(buf, ScheduleEnable(Once, h, m, t), hour, minute, counter);
    var b := Written(buf, ScheduleEnable(Daily, h, m, t), hour, minute, counter);
    assert forall i | 0 <= i < |a| :: a[i] == b[i];
  }

  /** A schedule at 96 °C stores 192 = 0xC0, the "no temperature" sentinel, and reads back
      as an enabled schedule in mode "off" with no temperature. */
  lemma ScheduleAt96ReadsAsOff(buf: seq<byte>, mode: ScheduleMode, h: int, m: int,
                               hour: int, minute: int, counter: byte)
    requires |buf| >= SIZE && ValidTime(hour, minute)
    ensures var st := Decode(Written(buf, ScheduleEnable(mode, h, m, 96.0), hour, minute, counter));
            st.scheduleEnabled && st.scheduleMode == ScheduleOff && st.scheduleTemperature.None?
  {
    assert HalfDegrees(96.0) == NO_SCHEDULE_TEMP;
  }

  /** Requesting ONCE right after a counter of 0 transmits counter byte 1, which reads as DAILY. */
  lemma OnceReadsAsDaily(buf: seq<byte>, hour: int, minute: int)
    requires |buf| >= SIZE && ValidTime(hour, minute)
    ensures Decode(Written(buf, ScheduleEnable(Once, 7, 0, 85.0), hour, minute, 0)).scheduleMode == Daily
  {
    assert HalfDegrees(85.0) == 170;
    assert NextCounter(0) == 1;
    assert CounterMode(1) == Daily;
    ScheduleEnableRoundTrip(buf, Once, 7, 0, 85.0, hour, minute, 0);
  }

  /** After any write the reported schedule mode is "off" or read from the new counter value. */
  lemma ScheduleModeFollowsCounter(buf: seq<byte>, e: Edit, hour: int, minute: int, counter: byte)
    requires |buf| >= SIZE && EditValid(e) && ValidTime(hour, minute)
    ensures var st := Decode(Written(buf, e, hour, minute, counter));
            st.scheduleMode == ScheduleOff || st.scheduleMode == CounterMode(NextCounter(counter))
  {
  }

  // ------------------------------------------------------- cross-field safety

  /** Groups of decoded fields. */
  datatype Field =
    | TargetTempField | UnitsField | HoldField | PreBoilField | ChimeField
    | ClockModeField | ClockTimeField | AltitudeField | LanguageField
    | ScheduleSlotField | ScheduleModeField | CounterField

  predicate Agree(a: KettleState, b: KettleState, f: Field) {
    match f
    case TargetTempField => a.targetTemp == b.targetTemp
    case UnitsField => a.units == b.units
    case HoldField => a.hold == b.hold && a.holdTimeMinutes == b.holdTimeMinutes
    case PreBoilField => a.preBoilEnabled == b.preBoilEnabled
    case ChimeField => a.chimeVolume == b.chimeVolume && a.chimeEnabled == b.chimeEnabled
    case ClockModeField => a.clockMode == b.clockMode
    case ClockTimeField => a.clockHours == b.clockHours && a.clockMinutes == b.clockMinutes
    case AltitudeField => a.altitudeMeters == b.altitudeMeters
    case LanguageField => a.language == b.language
    case ScheduleSlotField =>
      && a.scheduleEnabled == b.scheduleEnabled && a.scheduleHours == b.scheduleHours
      && a.scheduleMinutes == b.scheduleMinutes && a.scheduleTemperature == b.scheduleTemperature
    case ScheduleModeField => a.scheduleMode == b.scheduleMode
    case CounterField => a.counter == b.counter
  }

  /** The decoded fields a command means to change (the unit flag also changes how both
      temperatures are shown). */
  function Targets(e: Edit): set<Field> {
    match e
    case Power(_) => {HoldField}
    case TargetTemperature(_, _) => {TargetTempField}
    case HoldTime(_) => {HoldField}
    case PreBoil(_) => {PreBoilField}
    case ChimeVolume(_) => {ChimeField}
    case UnitsFlag(_) => {UnitsField, TargetTempField, ScheduleSlotField}
    case ClockTime(_, _, _) => {ClockModeField, ClockTimeField}
    case Altitude(_) => {AltitudeField}
    case ScheduleClear => {ScheduleSlotField, ScheduleModeField}
    case ScheduleDisable => {ScheduleSlotField, ScheduleModeField}
    case ScheduleEnable(_, _, _, _) => {ScheduleSlotField, ScheduleModeField}
  }

  /** Decoded fields every write may change: the stamped clock and counter, and the
      schedule mode read from the counter byte. */
  const STAMPED: set<Field> := {ClockTimeField, CounterField, ScheduleModeField}

  /** Of the control byte's two flags, an edit changes at most the one it targets. */
  lemma ControlBitsKept(buf: seq<byte>, e: Edit, hour: int, minute: int, counter: byte)
    requires |buf| >= SIZE && EditValid(e) && ValidTime(hour, minute)
    ensures var w := Written(buf, e, hour, minute, counter);
            && (!e.UnitsFlag? ==> HasBits(w[CONTROL], CELSIUS) == HasBits(buf[CONTROL], CELSIUS))
            && (!e.PreBoil? ==> HasBits(w[CONTROL], PRE_BOIL) == HasBits(buf[CONTROL], PRE_BOIL))
  {
    var w := Written(buf, e, hour, minute, counter);
    var b := buf[CONTROL];
    match e
    case PreBoil(_) =>
      SetKeepsOtherBit(b, PRE_BOIL, CELSIUS);
      ClearKeepsOtherBit(b, PRE_BOIL, CELSIUS);
    case UnitsFlag(_) =>
      SetKeepsOtherBit(b, CELSIUS, PRE_BOIL);
      ClearKeepsOtherBit(b, CELSIUS, PRE_BOIL);
    case _ =>
      assert CONTROL !in Touched(e);
      assert w[CONTROL] == b;
  }

  /** The register bytes, other than the control byte, that each decoded field reads. */
  function FieldBytes(f: Field): set<int> {
    match f
    case TargetTempField => {TARGET_TEMP}
    case UnitsField => {}
    case HoldField => {HOLD}
    case PreBoilField => {}
    case ChimeField => {CHIME}
    case ClockModeField => {CLOCK_MODE}
    case ClockTimeField => {CLOCK_MINUTE, CLOCK_HOUR}
    case AltitudeField => {ALTITUDE_LOW, ALTITUDE_HIGH}
    case LanguageField => {LANGUAGE}
    case ScheduleSlotField => {STATUS, SCHEDULE_TEMP, SCHEDULE_MINUTE, SCHEDULE_HOUR}
    case ScheduleModeField => {STATUS, SCHEDULE_TEMP, COUNTER}
    case CounterField => {COUNTER}
  }

  /** Fields whose value depends on the Celsius flag of the control byte. */
  predicate ReadsUnit(f: Field) {
    f == TargetTempField || f == UnitsField || f == ScheduleSlotField
  }

  /** `a` and `b` agree on everything field `f` is decoded from. */
  predicate SameInputs(a: seq<byte>, b: seq<byte>, f: Field)
    requires |a| >= SIZE && |b| >= SIZE
  {
    && (forall i :: i in FieldBytes(f) ==> 0 <= i < SIZE && a[i] == b[i])
    && (ReadsUnit(f) ==> HasBits(a[CONTROL], CELSIUS) == HasBits(b[CONTROL], CELSIUS))
    && (f == PreBoilField ==> HasBits(a[CONTROL], PRE_BOIL) == HasBits(b[CONTROL], PRE_BOIL))
  }

  /** Decoding is local: a field's value depends only on its own bytes and bits. */
  lemma DecodeIsLocal(a: seq<byte>, b: seq<byte>, f: Field)
    requires |a| >= SIZE && |b| >= SIZE && SameInputs(a, b, f)
    ensures Agree(Decode(a), Decode(b), f)
  {
    match f
    case AltitudeField =>
      assert a[ALTITUDE_LOW] == b[ALTITUDE_LOW] && a[ALTITUDE_HIGH] == b[ALTITUDE_HIGH];
    case _ =>
  }

  /** An edit and the write path's stamp never touch the bytes of a field the edit does not
      target, stamped fields aside. */
  lemma UntouchedBytes(e: Edit, f: Field)
    requires f !in Targets(e) && f !in STAMPED
    ensures FieldBytes(f) !! (Touched(e) + {CLOCK_MINUTE, CLOCK_HOUR, COUNTER})
  {
  }

  /** No cross-field corruption: a write leaves every decoded field outside its targets and the
      stamped ones as it was. */
  lemma NoCrossFieldCorruption(buf: seq<byte>, e: Edit, hour: int, minute: int, counter: byte,
                               f: Field)
    requires |buf| >= SIZE && EditValid(e) && ValidTime(hour, minute)
    requires f !in Targets(e) && f !in STAMPED
    ensures Agree(Decode(buf), Decode(Written(buf, e, hour, minute, counter)), f)
  {
    var w := Written(buf, e, hour, minute, counter);
    ControlBitsKept(buf, e, hour, minute, counter);
    UntouchedBytes(e, f);
    assert SameInputs(buf, w, f);
    DecodeIsLocal(buf, w, f);
  }
}
