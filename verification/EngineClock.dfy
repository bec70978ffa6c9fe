/** Calibration of engine timestamps: one monotonic/wall sample, taken where the engine finishes its outputs. */
module EngineClock {
  import opened Common
  import opened Clock

  // The wall reading sits between two monotonic readings; the midpoint stands for its instant.
  datatype Calibration = Calibration(mono: real, wall: int, error: int)

  function Sample(before: int, wall: int, after: int): Calibration {
    Calibration((before + after) as real / 2000000000.0, wall, after - before)
  }

  // An engine time in monotonic seconds, as wall-clock nanoseconds.
  function Stamp(c: Calibration, edge: real): int {
    c.wall + ToNanos(edge - c.mono)
  }

  datatype Header = ClockMono | ClockUnix | ClockError | EngineStages | Upstream(tag: nat)

  function ClockHeaders(c: Calibration): map<Header, real> {
    map[ClockMono := c.mono, ClockUnix := c.wall as real, ClockError := c.error as real]
  }

  class Output {
    const finished: bool
    var headers: Option<map<Header, real>>

    constructor (finished: bool)
      ensures this.finished == finished && headers == None
    {
      this.finished, headers := finished, None;
    }

    ghost function Merged(extra: map<Header, real>): map<Header, real>
      reads this
    {
      (if headers.Some? then headers.value else map[]) + extra
    }
  }

  /** Finished outputs gain the three clock headers over what they carried; the others are not touched. */
  method StampOutputs(outputs: seq<Output>, before: int, wall: int, after: int)
    modifies set o | o in outputs && o.finished
    ensures forall o :: o in outputs && o.finished ==>
              o.headers == Some(old(o.Merged(ClockHeaders(Sample(before, wall, after)))))
    ensures forall o :: o in outputs && !o.finished ==> unchanged(o)
  {
    var calibration := ClockHeaders(Sample(before, wall, after));
    for i := 0 to |outputs|
      invariant forall o :: o in outputs[..i] && o.finished ==> o.headers == Some(old(o.Merged(calibration)))
      invariant forall o :: o in outputs && !(o in outputs[..i] && o.finished) ==> unchanged(o)
    {
      var output := outputs[i];
      assert outputs[..i + 1] == outputs[..i] + [output];
      assert forall h: map<Header, real> :: (h + calibration) + calibration == h + calibration;
      if output.finished {
        output.headers := Some((if output.headers.Some? then output.headers.value else map[]) + calibration);
      }
    }
  }

  // The API process reads the sample back; the wall reading and the error are integers again.
  function ReadBack(headers: map<Header, real>): Option<Calibration> {
    if ClockMono in headers && ClockUnix in headers && ClockError in headers then
      Some(Calibration(headers[ClockMono], Trunc(headers[ClockUnix]), Trunc(headers[ClockError])))
    else None
  }

  lemma TruncOfInteger(n: int)
    ensures Trunc(n as real) == n
  {
  }

  lemma ClockOf(c: Calibration)
    ensures var headers := ClockHeaders(c);
            && headers.Keys == {ClockMono, ClockUnix, ClockError}
            && headers[ClockMono] == c.mono && headers[ClockUnix] == c.wall as real && headers[ClockError] == c.error as real
  {
  }

  lemma {:induction false} ReadsBack(carried: map<Header, real>, c: Calibration)
    ensures ReadBack(carried + ClockHeaders(c)) == Some(c)
  {
    ClockOf(c);
    TruncOfInteger(c.wall);
    TruncOfInteger(c.error);
  }

  /** Whatever headers an output carried, the API process reads back the very sample that the engine took. */
  lemma {:induction false} SampleReadsBack(carried: map<Header, real>, before: int, wall: int, after: int)
    ensures ReadBack(carried + ClockHeaders(Sample(before, wall, after))) ==
            Some(Calibration((before + after) as real / 2000000000.0, wall, after - before))
    ensures forall h :: h in carried && h != ClockMono && h != ClockUnix && h != ClockError ==>
              h in carried + ClockHeaders(Sample(before, wall, after))
              && (carried + ClockHeaders(Sample(before, wall, after)))[h] == carried[h]
  {
    ReadsBack(carried, Sample(before, wall, after));
    ClockOf(Sample(before, wall, after));
  }

  // ---------- The error of a converted stamp ----------

  function Abs(x: real): (r: real)
    ensures r >= 0.0 && (r == x || r == -x)
  {
    if x >= 0.0 then x else -x
  }

  /**
   When wall time runs a constant offset ahead of monotonic time, and the wall clock was read at
   instant m between the two monotonic readings, every converted stamp misses the true wall time by
   less than half the recorded calibration error plus one nanosecond.
   */
  lemma CalibrationBound(before: int, wall: int, after: int, m: real, offset: real, edge: real)
    requires before as real <= m <= after as real && wall as real == m + offset
    ensures var c := Sample(before, wall, after);
            Abs(Stamp(c, edge) as real - (edge * NANOS + offset)) < c.error as real / 2.0 + 1.0
  {
  }

  /** Half the recorded error is really reached, whatever that error is. */
  lemma CalibrationBoundIsTight(k: nat)
    ensures var c := Sample(0, 0, 2 * k);
            c.error == 2 * k && exists edge: real :: Abs(Stamp(c, edge) as real - edge * NANOS) == c.error as real / 2.0
  {
    var c := Sample(0, 0, 2 * k);
    var edge := c.mono;
    assert edge * NANOS == k as real;
    assert edge - c.mono == 0.0;
    assert Stamp(c, edge) == 0;
  }

  /** Conversion keeps order, so engine edges in order give stamps in order. */
  lemma StampMonotone(c: Calibration, a: real, b: real)
    requires a <= b
    ensures Stamp(c, a) <= Stamp(c, b)
  {
  }

  /**
   A converted duration is off by less than two nanoseconds whatever the calibration error, and by
   less than one when both edges lie on the same side of the calibration instant.
   */
  lemma StampDuration(c: Calibration, a: real, b: real)
    ensures Abs((Stamp(c, b) - Stamp(c, a)) as real - (b - a) * NANOS) < 2.0
    ensures (a <= c.mono && b <= c.mono) || (c.mono <= a && c.mono <= b) ==>
              Abs((Stamp(c, b) - Stamp(c, a)) as real - (b - a) * NANOS) < 1.0
  {
  }
}
