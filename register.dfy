/**
 * The kettle's 17-byte configuration register: its layout, the decoder from
 * register bytes to the semantic state the client reports, and the byte edits
 * that the control commands apply before a write.
 */
module Register {
  import opened Bytes

  /** Number of bytes the decoder and the write path need. */
  const SIZE: int := 17

  // Byte offsets.
  const STATUS: int := 0
  const CONTROL: int := 1
  const ALTITUDE_LOW: int := 2
  const ALTITUDE_HIGH: int := 3
  const TARGET_TEMP: int := 4
  const SCHEDULE_TEMP: int := 6
  const SCHEDULE_MINUTE: int := 8
  const SCHEDULE_HOUR: int := 9
  const CLOCK_MINUTE: int := 10
  const CLOCK_HOUR: int := 11
  const CLOCK_MODE: int := 12
  const HOLD: int := 13
  const CHIME: int := 14
  const LANGUAGE: int := 15
  const COUNTER: int := 16

  // Bit masks.
  const SCHEDULE_ENABLED: Mask := 0x08  // in STATUS
  const CELSIUS: Mask := 0x02           // in CONTROL
  const PRE_BOIL: Mask := 0x08          // in CONTROL
  const ONCE: Mask := 0x08              // in COUNTER

  /** Schedule temperature byte meaning "no schedule temperature". */
  const NO_SCHEDULE_TEMP: byte := 0xC0
  /** Constant folded into the altitude high byte on write. */
  const ALTITUDE_OFFSET: int := 0x80
  /** Altitude granularity in meters, and the largest altitude a command sends. */
  const ALTITUDE_STEP: int := 30
  const ALTITUDE_MAX: int := 3000
  /** Hold time a power-on command sets when hold is off. */
  const DEFAULT_HOLD: byte := 30

  datatype ClockMode = ClockOff | Digital | Analog
  datatype ScheduleMode = ScheduleOff | Once | Daily
  datatype Language = English | French | Spanish | SimplifiedChinese | TraditionalChinese
  datatype Units = C | F

  /** A decoded language byte: a table entry, or the raw code ("unknown_<n>"). */
  datatype MenuLanguage = Named(language: Language) | Unknown(code: int)

  function ClockModeValue(m: ClockMode): (v: byte)
    ensures v < 3
  {
    match m
    case ClockOff => 0
    case Digital => 1
    case Analog => 2
  }

  function LanguageCode(l: Language): (v: byte)
    ensures v < 5
  {
    match l
    case English => 0
    case French => 1
    case Spanish => 2
    case SimplifiedChinese => 3
    case TraditionalChinese => 4
  }

  /** The semantic snapshot the decoder produces (one entry per key of the source's dict). */
  datatype KettleState = KettleState(
    targetTemp: real,
    units: Units,
    hold: bool,
    holdTimeMinutes: int,
    preBoilEnabled: bool,
    chimeVolume: int,
    chimeEnabled: bool,
    clockMode: Option<ClockMode>,   // None is "unknown"
    clockHours: int,
    clockMinutes: int,
    altitudeMeters: int,
    language: MenuLanguage,
    scheduleEnabled: bool,
    scheduleMode: ScheduleMode,
    scheduleHours: Option<int>,
    scheduleMinutes: Option<int>,
    scheduleTemperature: Option<real>,
    counter: int)

  /** Celsius value of a half-degree byte. */
  function Celsius(raw: byte): (c: real)
    ensures 0.0 <= c <= 127.5 && c * 2.0 == raw as real
  {
    raw as real / 2.0
  }

  /** A Celsius temperature shown in the unit the register selects. */
  function Displayed(celsius: real, inCelsius: bool): (t: real)
    ensures inCelsius ==> t == celsius
    ensures !inCelsius ==> (t - 32.0) * 5.0 / 9.0 == celsius
  {
    if inCelsius then celsius else celsius * 9.0 / 5.0 + 32.0
  }

  /** The 15-bit altitude field: low 7 bits of the high byte, then the low byte. */
  function AltitudeRaw(low: byte, high: byte): (n: int)
    ensures 0 <= n < 0x8000
  {
    (high % 128) * 256 + low
  }

  /** Python's `round(n / 30)` for a non-negative `n`: nearest integer, ties to even. */
  function RoundSteps(n: int): (q: int)
    requires 0 <= n
    ensures 0 <= q
    ensures 2 * (n - q * ALTITUDE_STEP) <= ALTITUDE_STEP
    ensures 2 * (q * ALTITUDE_STEP - n) <= ALTITUDE_STEP
    ensures (2 * (n - q * ALTITUDE_STEP) == ALTITUDE_STEP
             || 2 * (q * ALTITUDE_STEP - n) == ALTITUDE_STEP) ==> q % 2 == 0
  {
    var q, r := n / ALTITUDE_STEP, n % ALTITUDE_STEP;
    if 2 * r < ALTITUDE_STEP then q
    else if 2 * r > ALTITUDE_STEP then q + 1
    else if q % 2 == 0 then q
    else q + 1
  }

  /** Decoded altitude: the raw field rounded to a multiple of 30 meters. */
  function DecodedAltitude(low: byte, high: byte): (m: int)
    ensures m % ALTITUDE_STEP == 0 && 0 <= m
    ensures 2 * (m - AltitudeRaw(low, high)) <= ALTITUDE_STEP
    ensures 2 * (AltitudeRaw(low, high) - m) <= ALTITUDE_STEP
    ensures (2 * (m - AltitudeRaw(low, high)) == ALTITUDE_STEP
             || 2 * (AltitudeRaw(low, high) - m) == ALTITUDE_STEP) ==> (m / ALTITUDE_STEP) % 2 == 0
  {
    RoundSteps(AltitudeRaw(low, high)) * ALTITUDE_STEP
  }

  /** The schedule sub-mode read from bit 3 of the counter byte. */
  function CounterMode(counter: byte): (m: ScheduleMode)
    ensures m != ScheduleOff
    ensures m == Once <==> HasBits(counter, ONCE)
  {
    if (counter / 8) % 2 == 1 then Once else Daily
  }

  /** Clock mode byte: 0, 1, 2 name a mode, anything else is "unknown" (None). */
  function DecodeClockMode(b: byte): (m: Option<ClockMode>)
    ensures m.Some? <==> b < 3
    ensures m.Some? ==> ClockModeValue(m.value) == b
  {
    var v := b;
    if v == 0 then Some(ClockOff)
    else if v == 1 then Some(Digital)
    else if v == 2 then Some(Analog)
    else None
  }

  /** Language byte: 0..4 through the table, anything else kept as its code. */
  function DecodeLanguage(b: byte): (l: MenuLanguage)
    ensures l.Named? <==> b < 5
    ensures l.Named? ==> LanguageCode(l.language) == b
    ensures l.Unknown? ==> l.code == b
  {
    var v := b;
    if v == 0 then Named(English)
    else if v == 1 then Named(French)
    else if v == 2 then Named(Spanish)
    else if v == 3 then Named(SimplifiedChinese)
    else if v == 4 then Named(TraditionalChinese)
    else Unknown(v)
  }

  /** Consistency between the fields of a decoded snapshot. */
  predicate Coherent(st: KettleState) {
    && st.hold == (st.holdTimeMinutes > 0)
    && st.chimeEnabled == (st.chimeVolume > 0)
    && st.scheduleHours.Some? == st.scheduleEnabled
    && st.scheduleMinutes.Some? == st.scheduleEnabled
    && (st.scheduleTemperature.Some? <==> st.scheduleMode != ScheduleOff)
    && (st.scheduleMode != ScheduleOff ==> st.scheduleEnabled)
    && st.altitudeMeters % ALTITUDE_STEP == 0 && 0 <= st.altitudeMeters
    && 0 <= st.counter < 256
  }

  /** Decode a register of at least 17 bytes. */
  function Decode(data: seq<byte>): (st: KettleState)
    requires |data| >= SIZE
    ensures Coherent(st)
    ensures st.units == C <==> HasBits(data[CONTROL], CELSIUS)
    ensures st.scheduleEnabled <==> HasBits(data[STATUS], SCHEDULE_ENABLED)
    ensures st.scheduleTemperature.Some? <==>
              st.scheduleEnabled && data[SCHEDULE_TEMP] != NO_SCHEDULE_TEMP
    ensures st.scheduleMode != ScheduleOff ==> st.scheduleMode == CounterMode(data[COUNTER])
  {
    var inCelsius := HasBits(data[CONTROL], CELSIUS);
    var enabled := HasBits(data[STATUS], SCHEDULE_ENABLED);
    var timed := enabled && data[SCHEDULE_TEMP] != NO_SCHEDULE_TEMP;
    KettleState(
      targetTemp := Displayed(Celsius(data[TARGET_TEMP]), inCelsius),
      units := if inCelsius then C else F,
      hold := data[HOLD] > 0,
      holdTimeMinutes := data[HOLD],
      preBoilEnabled := HasBits(data[CONTROL], PRE_BOIL),
      chimeVolume := data[CHIME],
      chimeEnabled := data[CHIME] > 0,
      clockMode := DecodeClockMode(data[CLOCK_MODE]),
      clockHours := data[CLOCK_HOUR],
      clockMinutes := data[CLOCK_MINUTE],
      altitudeMeters := DecodedAltitude(data[ALTITUDE_LOW], data[ALTITUDE_HIGH]),
      language := DecodeLanguage(data[LANGUAGE]),
      scheduleEnabled := enabled,
      scheduleMode := if timed then CounterMode(data[COUNTER]) else ScheduleOff,
      scheduleHours := if enabled then Some(data[SCHEDULE_HOUR]) else None,
      scheduleMinutes := if enabled then Some(data[SCHEDULE_MINUTE]) else None,
      scheduleTemperature := if timed then Some(Displayed(Celsius(data[SCHEDULE_TEMP]), inCelsius))
                             else None,
      counter := data[COUNTER])
  }

  /** The decoder on the client's cache: empty when there is no cache or it is too short. */
  function ParseState(cache: Option<seq<byte>>): (r: Option<KettleState>)
    ensures r.Some? <==> cache.Some? && |cache.value| >= SIZE
    ensures r.Some? ==> Coherent(r.value) && r.value.counter == cache.value[COUNTER]
  {
    if cache.None? || |cache.value| < SIZE then None else Some(Decode(cache.value))
  }

  /** Celsius after the unit conversion `async_set_temperature` applies to its argument. */
  function ToCelsius(temp: int, fahrenheit: bool): (c: real)
    ensures fahrenheit ==> c * 9.0 / 5.0 + 32.0 == temp as real
    ensures !fahrenheit ==> c == temp as real
  {
    if fahrenheit then (temp - 32) as real * 5.0 / 9.0 else temp as real
  }

  /** `int(max(0, min(100, c)) * 2)`: half degrees, truncated. */
  function HalfDegrees(celsius: real): (b: byte)
    ensures b <= 200
    ensures Celsius(b) <= ClampReal(0.0, 100.0, celsius) < Celsius(b) + 0.5
  {
    var c := ClampReal(0.0, 100.0, celsius);
    (c * 2.0).Floor
  }

  /** `round(max(0, min(3000, x)) / 30) * 30`. */
  function Quantize(meters: int): (q: int)
    ensures 0 <= q <= ALTITUDE_MAX && q % ALTITUDE_STEP == 0
    ensures 2 * (q - Clamp(0, ALTITUDE_MAX, meters)) <= ALTITUDE_STEP
    ensures 2 * (Clamp(0, ALTITUDE_MAX, meters) - q) <= ALTITUDE_STEP
    ensures (2 * (q - Clamp(0, ALTITUDE_MAX, meters)) == ALTITUDE_STEP
             || 2 * (Clamp(0, ALTITUDE_MAX, meters) - q) == ALTITUDE_STEP) ==> (q / ALTITUDE_STEP) % 2 == 0
  {
    RoundSteps(Clamp(0, ALTITUDE_MAX, meters)) * ALTITUDE_STEP
  }

  /** The byte change each control command makes to its copy of the register. */
  datatype Edit =
    | Power(on: bool)
    | TargetTemperature(temp: int, fahrenheit: bool)
    | HoldTime(minutes: int)
    | PreBoil(enabled: bool)
    | ChimeVolume(volume: int)
    | UnitsFlag(celsius: bool)
    | ClockTime(hours: int, minutes: int, display: Option<ClockMode>)
    | Altitude(meters: int)
    | ScheduleClear                 // schedule mode OFF
    | ScheduleDisable               // first write of a change to an active schedule
    | ScheduleEnable(mode: ScheduleMode, hour: int, minute: int, tempCelsius: real)

  /** Only the clock edit carries unclamped bytes; its command rejects bad values before editing. */
  predicate EditValid(e: Edit) {
    e.ClockTime? ==> 0 <= e.hours <= 23 && 0 <= e.minutes <= 59
  }

  /** The offsets an edit may change. */
  function Touched(e: Edit): set<int> {
    match e
    case Power(_) => {HOLD}
    case TargetTemperature(_, _) => {TARGET_TEMP}
    case HoldTime(_) => {HOLD}
    case PreBoil(_) => {CONTROL}
    case ChimeVolume(_) => {CHIME}
    case UnitsFlag(_) => {CONTROL}
    case ClockTime(_, _, mode) => if mode.Some? then {CLOCK_MINUTE, CLOCK_HOUR, CLOCK_MODE}
                                  else {CLOCK_MINUTE, CLOCK_HOUR}
    case Altitude(_) => {ALTITUDE_LOW, ALTITUDE_HIGH}
    case ScheduleClear => {STATUS, SCHEDULE_TEMP, SCHEDULE_MINUTE, SCHEDULE_HOUR}
    case ScheduleDisable => {STATUS, SCHEDULE_TEMP}
    case ScheduleEnable(_, _, _, _) =>
      {STATUS, SCHEDULE_TEMP, SCHEDULE_MINUTE, SCHEDULE_HOUR, COUNTER}
  }

  /** The register copy a command hands to the write path. */
  function Apply(buf: seq<byte>, e: Edit): (r: seq<byte>)
    requires |buf| >= SIZE && EditValid(e)
    ensures SameExcept(buf, r, Touched(e))
  {
    match e
    case Power(on) =>
      buf[HOLD := if !on then 0 else if buf[HOLD] == 0 then DEFAULT_HOLD else buf[HOLD]]
    case TargetTemperature(t, fahrenheit) =>
      buf[TARGET_TEMP := HalfDegrees(ToCelsius(t, fahrenheit))]
    case HoldTime(m) =>
      buf[HOLD := Clamp(0, 60, m)]
    case PreBoil(on) =>
      buf[CONTROL := if on then SetBits(buf[CONTROL], PRE_BOIL) else ClearBits(buf[CONTROL], PRE_BOIL)]
    case ChimeVolume(v) =>
      buf[CHIME := Clamp(0, 10, v)]
    case UnitsFlag(celsius) =>
      buf[CONTROL := if celsius then SetBits(buf[CONTROL], CELSIUS) else ClearBits(buf[CONTROL], CELSIUS)]
    case ClockTime(h, m, mode) =>
      var timed := buf[CLOCK_MINUTE := m][CLOCK_HOUR := h];
      if mode.Some? then timed[CLOCK_MODE := ClockModeValue(mode.value)] else timed
    case Altitude(x) =>
      var q := Quantize(x);
      buf[ALTITUDE_LOW := q % 256][ALTITUDE_HIGH := ALTITUDE_OFFSET + (q / 256) % 128]
    case ScheduleClear =>
      buf[STATUS := ClearBits(buf[STATUS], SCHEDULE_ENABLED)][SCHEDULE_TEMP := NO_SCHEDULE_TEMP]
         [SCHEDULE_MINUTE := 0][SCHEDULE_HOUR := 0]
    case ScheduleDisable =>
      buf[STATUS := ClearBits(buf[STATUS], SCHEDULE_ENABLED)][SCHEDULE_TEMP := NO_SCHEDULE_TEMP]
    case ScheduleEnable(mode, h, m, t) =>
      buf[STATUS := SetBits(buf[STATUS], SCHEDULE_ENABLED)][SCHEDULE_TEMP := HalfDegrees(t)]
         [SCHEDULE_MINUTE := Clamp(0, 59, m)][SCHEDULE_HOUR := Clamp(0, 23, h)]
         [COUNTER := if mode == Once then SetBits(buf[COUNTER], ONCE) else ClearBits(buf[COUNTER], ONCE)]
  }

  /** `(counter + 1) & 0xFF`. */
  function NextCounter(c: byte): (r: byte)
    ensures c < 255 ==> r == c + 1
    ensures c == 255 ==> r == 0
  {
    (c + 1) % 256
  }

  /** A wall-clock hour and minute. */
  predicate ValidTime(hour: int, minute: int) {
    0 <= hour < 24 && 0 <= minute < 60
  }

  /** What the write path does to every buffer: stamp the wall-clock time and the next counter. */
  function Stamp(buf: seq<byte>, hour: int, minute: int, counter: byte): (r: seq<byte>)
    requires |buf| >= SIZE && ValidTime(hour, minute)
    ensures SameExcept(buf, r, {CLOCK_MINUTE, CLOCK_HOUR, COUNTER})
    ensures r[CLOCK_MINUTE] == minute && r[CLOCK_HOUR] == hour
    ensures r[COUNTER] == NextCounter(counter)
  {
    buf[CLOCK_MINUTE := minute][CLOCK_HOUR := hour][COUNTER := NextCounter(counter)]
  }
}
