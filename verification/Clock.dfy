/** Conversion of real seconds to integer nanoseconds: `int(seconds * 1e9)`, which truncates toward zero. */
module Clock {
  const NANOS: real := 1000000000.0

  function Trunc(x: real): (n: int)
    ensures x >= 0.0 ==> n as real <= x < n as real + 1.0
    ensures x <= 0.0 ==> n as real - 1.0 < x <= n as real
  {
    if x >= 0.0 then x.Floor else -((-x).Floor)
  }

  function ToNanos(seconds: real): int {
    Trunc(seconds * NANOS)
  }

  lemma TruncMonotone(x: real, y: real)
    requires x <= y
    ensures Trunc(x) <= Trunc(y)
  {
    if x < 0.0 <= y {
      assert Trunc(x) <= 0 <= Trunc(y);
    }
  }

  lemma ToNanosMonotone(x: real, y: real)
    requires x <= y
    ensures ToNanos(x) <= ToNanos(y)
  {
  }
}
