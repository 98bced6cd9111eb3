/** Why a connection ended, and how long to wait before the next (LinkState.swift, ReconnectPolicy.swift). */
module Reconnect {
  import opened Prelude

  datatype Found = Peer | SocketFile

  datatype Disconnection =
    | NotRunning
    | Refused
    | NotPermitted
    | Rejected
    | Goodbye
    | Lost
    | NotRoot(uid: Option<nat>, found: Found)
    | Failed(code: int)

  /** Milliseconds. */
  type Duration = nat

  const CEILING: Duration := 30_000

  function Base(reason: Disconnection): Duration {
    match reason
    case Lost | Rejected | Failed(_) => 250
    case NotRunning | Refused => 1_000
    case NotPermitted | NotRoot(_, _) => 5_000
    case Goodbye => 2_000
  }

  function Doubled(times: nat): (factor: nat)
    ensures factor >= 1
  {
    if times == 0 then 1 else 2 * Doubled(times - 1)
  }

  function Delay(reason: Disconnection, attempt: nat): Duration {
    Min(CEILING, Base(reason) * Doubled(Min(attempt, 8)))
  }

  /** How long the first wait is, by why the connection ended. */
  lemma FirstDelays(code: int, uid: Option<nat>, found: Found)
    ensures Delay(Lost, 0) == Delay(Rejected, 0) == Delay(Failed(code), 0) == 250
    ensures Delay(NotRunning, 0) == Delay(Refused, 0) == 1_000
    ensures Delay(Goodbye, 0) == 2_000
    ensures Delay(NotPermitted, 0) == Delay(NotRoot(uid, found), 0) == 5_000
  {
    assert Doubled(0) == 1;
  }

  lemma {:induction false} DoublingGrows(a: nat, b: nat)
    requires a <= b
    ensures Doubled(a) <= Doubled(b)
  {
    if a < b {
      DoublingGrows(a, b - 1);
    }
  }

  lemma ProductGrows(base: nat, a: nat, b: nat)
    requires a <= b
    ensures base * a <= base * b
  {
  }

  /** A delay is never below its reason's base nor above the ceiling, and it never shrinks as attempts add up. */
  lemma DelayIsBoundedAndClimbs(reason: Disconnection, attempt: nat, later: nat)
    requires attempt <= later
    ensures 250 <= Base(reason) <= Delay(reason, attempt) <= Delay(reason, later) <= CEILING
    ensures Delay(reason, 0) == Base(reason)
  {
    var a, b := Doubled(Min(attempt, 8)), Doubled(Min(later, 8));
    DoublingGrows(Min(attempt, 8), Min(later, 8));
    assert Doubled(0) == 1;
    ProductGrows(Base(reason), 1, a);
    ProductGrows(Base(reason), a, b);
  }

  /** Every attempt waits twice as long as the one before, up to the ceiling; capping the doublings changes nothing. */
  lemma EachAttemptWaitsTwiceAsLong(reason: Disconnection, attempt: nat)
    ensures Delay(reason, attempt + 1) == Min(CEILING, 2 * Delay(reason, attempt))
  {
    if attempt >= 8 {
      DelayTopsOut(reason, attempt);
      DelayTopsOut(reason, attempt + 1);
    } else {
      assert Base(reason) * Doubled(attempt + 1) == 2 * (Base(reason) * Doubled(attempt));
    }
  }

  /** However many attempts fail, the wait reaches the ceiling after eight doublings and stays there. */
  lemma DelayTopsOut(reason: Disconnection, attempt: nat)
    requires attempt >= 8
    ensures Delay(reason, attempt) == CEILING
  {
    assert Doubled(8) == 256 by {
      assert Doubled(2) == 4 && Doubled(4) == 16 && Doubled(6) == 64;
    }
  }
}
