/** How long the worker maintenance window is made, in the operator's 64-bit nanoseconds. */
module MaintenanceWindow {
  import opened Kube
  import opened Drain

  const MINUTE: int := 60_000_000_000
  const MAX64: int := 0x7FFF_FFFF_FFFF_FFFF
  const MODULUS: int := 0x1_0000_0000_0000_0000

  /** The most minutes a duration can hold. */
  const MAX_MINUTES: int := 153722867

  /** The value a 64-bit signed addition or multiplication leaves. */
  function Wrap(x: int): (r: int)
    ensures -MAX64 - 1 <= r <= MAX64
    ensures -MAX64 - 1 <= x <= MAX64 ==> r == x
  {
    var m := x % MODULUS;
    if m > MAX64 then m - MODULUS else m
  }

  function Longer(a: int, b: int): int {
    if a < b then b else a
  }

  /** The window for `count` pending workers, given the budget grace, the drain timeout and the expected
      drain time in minutes. */
  method WorkerWindow(count: int, pdbForce: int, timeOut: int, expected: int) returns (window: int)
    requires count >= 1 && pdbForce >= 0 && timeOut >= 0 && expected >= 0
    ensures window == count * (Longer(pdbForce, timeOut) + expected) * MINUTE <==>
            count * (Longer(pdbForce, timeOut) + expected) <= MAX_MINUTES
  {
    var pdbForceTime := Wrap(pdbForce * MINUTE);
    var timeOutTime := Wrap(timeOut * MINUTE);
    var waitTime := Wrap(count * pdbForceTime);
    if pdbForceTime < timeOutTime {
      waitTime := Wrap(count * timeOutTime);
    }
    var actionTime := Wrap(count * Wrap(expected * MINUTE));
    window := Wrap(waitTime + actionTime);
    var longer := Longer(pdbForce, timeOut);
    if count * (longer + expected) <= MAX_MINUTES {
      Within(count, pdbForce, longer, expected);
      Within(count, timeOut, longer, expected);
      Within(count, expected, longer, expected);
      assert waitTime == count * longer * MINUTE;
      Total(count, longer, expected);
    }
  }

  /** No part of a window that fits overflows on the way. */
  lemma Within(count: int, part: int, longer: int, expected: int)
    requires count >= 1 && 0 <= part && longer >= 0 && expected >= 0 && (part <= longer || part <= expected)
    requires count * (longer + expected) <= MAX_MINUTES
    ensures part <= count * part <= MAX_MINUTES
    ensures Wrap(part * MINUTE) == part * MINUTE
    ensures Wrap(count * Wrap(part * MINUTE)) == count * part * MINUTE
  {
    Scaled(1, count, part);
    Scaled(part, longer + expected, count);
    assert count * (part * MINUTE) == count * part * MINUTE;
  }

  lemma Scaled(a: int, b: int, k: int)
    requires 0 <= a <= b && k >= 0
    ensures a * k <= b * k && k * a <= k * b
  {
  }

  lemma Total(count: int, longer: int, expected: int)
    ensures count * longer * MINUTE + count * expected * MINUTE == count * (longer + expected) * MINUTE
  {
  }

  /** More workers get a longer window, and it covers the latest drain strategy of each of them. */
  lemma WindowCoversDrains(count: nat, count': nat, pdbForce: Time, timeOut: Time, expected: Time, t: Timed)
    requires count <= count' && t in Strategies(timeOut, pdbForce, expected)
    ensures count * (Longer(pdbForce, timeOut) + expected) <= count' * (Longer(pdbForce, timeOut) + expected)
    ensures count * t.wait <= count * (Longer(pdbForce, timeOut) + expected)
  {
  }
}
