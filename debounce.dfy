/**
 * The write debounce: a write requested less than 200 ms after the recorded
 * time of the previous one sleeps a fixed 200 ms first; the recorded time
 * becomes the moment of the request, before any sleep.
 */
module Debouncing {

  const DEBOUNCE_MS: int := 200

  /** The sleep before a write and the time recorded for the next one. */
  datatype Debounced = Debounced(delayMs: int, recordedMs: int)

  /** `_ensure_debounce` at wall-clock time `nowMs`, the previous recorded time being `lastMs`. */
  function Debounce(nowMs: int, lastMs: int): (d: Debounced)
    ensures d.recordedMs == nowMs
    ensures d.delayMs == 0 || d.delayMs == DEBOUNCE_MS
    ensures d.delayMs == DEBOUNCE_MS <==> nowMs - lastMs < DEBOUNCE_MS
  {
    Debounced(if nowMs - lastMs < DEBOUNCE_MS then DEBOUNCE_MS else 0, nowMs)
  }

  /** Time at which a write requested at `nowMs` reaches the transport. */
  function SentAt(nowMs: int, lastMs: int): (t: int)
    ensures nowMs <= t <= nowMs + DEBOUNCE_MS
  {
    nowMs + Debounce(nowMs, lastMs).delayMs
  }

  /** What the debounce does guarantee: with a clock that does not go back, a write reaches the
      transport at least 200 ms after the previous write was requested. */
  lemma SpacedFromPreviousRequest(first: int, last: int, second: int)
    requires second >= SentAt(first, last)
    ensures SentAt(second, first) >= first + DEBOUNCE_MS
  {
  }

  /** What it does not: because the recorded time is taken before the sleep, two writes can
      reach the transport at the same instant. */
  lemma SpacingCanCollapse()
    ensures SentAt(100, 0) == 300
    ensures SentAt(300, Debounce(100, 0).recordedMs) == 300
  {
  }

  /** The sleep is fixed, not the time remaining: 199 ms after a write it still sleeps 200 ms. */
  lemma SleepIsNotRemainder()
    ensures Debounce(1199, 1000).delayMs == DEBOUNCE_MS
  {
  }
}
