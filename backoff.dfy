/** The reconnect policy shared by both connection managers: the close-code gate,
    the attempt cap and the backoff delays. */
module Backoff {
  /** `maxReconnectAttempts`. */
  const MaxReconnectAttempts := 5
  /** `reconnectDelay`, in milliseconds. */
  const BaseDelay := 2000
  /** The WebSocket normal-closure code. */
  const NormalClosure := 1000

  function Pow(b: nat, e: nat): nat
    decreases e
  {
    if e == 0 then 1 else b * Pow(b, e - 1)
  }

  /** `reconnectDelay * Math.pow(1.5, attempt - 1)` as integer arithmetic:
      2000 * 3^(n-1) / 2^(n-1). Within the cap the division is exact, so the
      floating-point product and this value agree. */
  function Delay(attempt: nat): (d: nat)
    requires 1 <= attempt <= MaxReconnectAttempts
    ensures d * Pow(2, attempt - 1) == BaseDelay * Pow(3, attempt - 1)
  {
    assert Pow(3, 0) == 1 && Pow(3, 1) == 3 && Pow(3, 2) == 9 && Pow(3, 3) == 27 && Pow(3, 4) == 81;
    assert Pow(2, 0) == 1 && Pow(2, 1) == 2 && Pow(2, 2) == 4 && Pow(2, 3) == 8 && Pow(2, 4) == 16;
    BaseDelay * Pow(3, attempt - 1) / Pow(2, attempt - 1)
  }

  /** The five delays, in milliseconds. */
  lemma DelaySchedule()
    ensures Delay(1) == 2000 && Delay(2) == 3000 && Delay(3) == 4500 && Delay(4) == 6750 && Delay(5) == 10125
  {
    assert Pow(3, 4) == 81 && Pow(2, 4) == 16;
  }

  /** Each delay is one and a half times the one before. */
  lemma DelayGrows(attempt: nat)
    requires 1 <= attempt < MaxReconnectAttempts
    ensures 2 * Delay(attempt + 1) == 3 * Delay(attempt)
  {
    DelaySchedule();
  }

  /** A delay some attempt within the cap uses. */
  ghost predicate IsBackoffDelay(d: nat) {
    exists attempt :: 1 <= attempt <= MaxReconnectAttempts && Delay(attempt) == d
  }

  /** The reconnect gate of the close handler. */
  predicate ShouldReconnect(intentionalClosure: bool, code: int) {
    !intentionalClosure && code != NormalClosure
  }

  /** `Math.round(delay / 1000)`: for a non-negative integer delay, rounding
      half up is (delay + 500) div 1000. */
  function RoundedSeconds(delay: nat): nat {
    (delay + 500) / 1000
  }

  lemma RoundedSecondsSchedule()
    ensures RoundedSeconds(Delay(1)) == 2 && RoundedSeconds(Delay(2)) == 3 && RoundedSeconds(Delay(3)) == 5
    ensures RoundedSeconds(Delay(4)) == 7 && RoundedSeconds(Delay(5)) == 10
  {
    DelaySchedule();
  }
}
