/** The estimate of the offset between the device clock and the system clock (clock.c): a moving
    average over 32 observations, in integers, with C's truncating division. */
module StreamClock {
  import opened Arithmetic

  const CLOCK_RANGE := 32

  datatype Estimate = Estimate(range: nat, offset: int)

  function Updated(e: Estimate, observed: int): Estimate
  {
    var range := if e.range < CLOCK_RANGE then e.range + 1 else e.range;
    var clockWeight := range - 1;
    var valueWeight := CLOCK_RANGE - range + 1;
    Estimate(range, Truncated(e.offset * clockWeight + observed * valueWeight, CLOCK_RANGE))
  }

  function UpdatedBy(e: Estimate, observations: seq<int>): Estimate
  {
    if observations == [] then e
    else Updated(UpdatedBy(e, observations[..|observations| - 1]), observations[|observations| - 1])
  }

  class Clock {
    var range: nat
    var offset: int

    constructor ()
      ensures Model() == Estimate(0, 0)
    {
      range, offset := 0, 0;
    }

    ghost function Model(): Estimate
      reads this
    {
      Estimate(range, offset)
    }

    method Update(system: int, stream: int)
      requires range <= CLOCK_RANGE
      modifies this
      ensures Model() == Updated(old(Model()), system - stream)
      ensures range == Min(old(range) + 1, 32)
      ensures Averaged(range - 1, old(offset), offset, system - stream)
    {
      UpdatedIsAveraged(Model(), system - stream);
      if range < CLOCK_RANGE {
        range := range + 1;
      }
      var observed := system - stream;
      offset := Truncated(offset * (range - 1) + observed * (CLOCK_RANGE - range + 1), CLOCK_RANGE);
    }

    method ToSystemTime(stream: int) returns (system: int)
      requires 0 < range
      ensures system - stream == Model().offset
    {
      system := stream + offset;
    }
  }

  /** The error is scaled by `w` over 32, up to a truncation toward zero. */
  predicate Averaged(w: int, before: int, after: int, observed: int)
  {
    var (scaled, error) := (w * (before - observed), 32 * (after - observed));
    && scaled - 31 <= error <= scaled + 31
    && (before >= 0 && observed >= 0 ==> error <= scaled)
    && (before <= 0 && observed <= 0 ==> scaled <= error)
  }

  lemma UpdatedIsAveraged(e: Estimate, observed: int)
    requires e.range <= CLOCK_RANGE
    ensures var next := Updated(e, observed);
            next.range == Min(e.range + 1, 32) && Averaged(next.range - 1, e.offset, next.offset, observed)
  {
    TruncatedAverage(Min(e.range + 1, 32) - 1, e.offset, observed);
  }

  lemma TruncatedAverage(w: nat, before: int, observed: int)
    requires w <= 31
    ensures Averaged(w, before, Truncated(before * w + observed * (32 - w), CLOCK_RANGE), observed)
  {
    Recombined(before, observed, w);
    TruncatedNear(before * w + observed * (32 - w));
    if before >= 0 && observed >= 0 {
      Scaled(w, 0, before);
      Scaled(32 - w, 0, observed);
    }
    if before <= 0 && observed <= 0 {
      Scaled(w, before, 0);
      Scaled(32 - w, observed, 0);
    }
  }

  lemma TruncatedNear(x: int)
    ensures var y := 32 * Truncated(x, CLOCK_RANGE); if x >= 0 then x - 31 <= y <= x else x <= y <= x + 31
  {
  }

  /** While the clock warms up, the n-th observation weighs 33 - n in 32: the first one replaces the
      estimate, and from the 32nd on each one weighs a single part. */
  lemma {:induction false} WarmUp(observations: seq<int>, observed: int)
    ensures var before := UpdatedBy(Estimate(0, 0), observations);
            var after := UpdatedBy(Estimate(0, 0), observations + [observed]);
            && before.range == Min(|observations|, 32) && after.range == Min(|observations| + 1, 32)
            && Averaged(Min(|observations|, 31), before.offset, after.offset, observed)
  {
    var n := |observations|;
    if n > 0 {
      WarmUp(observations[..n - 1], observations[n - 1]);
      assert observations[..n - 1] + [observations[n - 1]] == observations;
    }
    assert (observations + [observed])[..n] == observations;
    UpdatedIsAveraged(UpdatedBy(Estimate(0, 0), observations), observed);
  }

  lemma Scaled(w: nat, a: int, b: int)
    requires a <= b
    ensures a * w <= b * w
  {
  }

  lemma TruncatedBetween(x: int, lo: int, hi: int)
    requires 32 * lo <= x <= 32 * hi
    ensures lo <= Truncated(x, CLOCK_RANGE) <= hi
  {
  }

  lemma WeightedBetween(a: int, b: int, w: nat, lo: int, hi: int)
    requires w <= 32 && lo <= b <= hi && (w > 0 ==> lo <= a <= hi)
    ensures lo <= Truncated(a * w + b * (32 - w), CLOCK_RANGE) <= hi
  {
    if w > 0 {
      Scaled(w, lo, a);
      Scaled(w, a, hi);
    }
    Scaled(32 - w, lo, b);
    Scaled(32 - w, b, hi);
    assert lo * w + lo * (32 - w) == lo * 32 && hi * w + hi * (32 - w) == hi * 32;
    TruncatedBetween(a * w + b * (32 - w), lo, hi);
  }

  /** Truncation never pushes the estimate outside the observed differences. */
  lemma {:induction false} OffsetWithinObserved(observations: seq<int>, lo: int, hi: int)
    requires observations != []
    requires forall i | 0 <= i < |observations| :: lo <= observations[i] <= hi
    ensures var e := UpdatedBy(Estimate(0, 0), observations);
            0 < e.range <= CLOCK_RANGE && lo <= e.offset <= hi
  {
    var last := |observations| - 1;
    var before := UpdatedBy(Estimate(0, 0), observations[..last]);
    if last > 0 {
      OffsetWithinObserved(observations[..last], lo, hi);
    }
    var range := if before.range < CLOCK_RANGE then before.range + 1 else before.range;
    WeightedBetween(before.offset, observations[last], range - 1, lo, hi);
  }

  function Abs(x: int): nat { if x < 0 then -x else x }

  /** Observing one constant difference never moves the estimate away from it, and brings it
      strictly closer while the error exceeds 31. */
  lemma ConstantObservation(e: Estimate, observed: int)
    requires e.range <= CLOCK_RANGE
    ensures var error := Abs(e.offset - observed);
            var next := Abs(Updated(e, observed).offset - observed);
            next <= error && (error > 31 ==> next < error)
  {
    UpdatedIsAveraged(e, observed);
    var error := e.offset - observed;
    ScaledByWeight(Min(e.range + 1, 32) - 1, error);
    Shrinks(error, (Min(e.range + 1, 32) - 1) * error, Updated(e, observed).offset - observed);
  }

  lemma Recombined(offset: int, observed: int, w: int)
    ensures offset * w + observed * (32 - w) == 32 * observed + (offset - observed) * w
  {
  }

  lemma ScaledByWeight(w: nat, error: int)
    requires w <= 31
    ensures if error >= 0 then 0 <= w * error <= 31 * error else 31 * error <= w * error <= 0
  {
  }

  lemma Shrinks(error: int, scaled: int, next: int)
    requires if error >= 0 then 0 <= scaled <= 31 * error else 31 * error <= scaled <= 0
    requires scaled - 31 <= 32 * next <= scaled + 31
    ensures Abs(next) <= Abs(error) && (Abs(error) > 31 ==> Abs(next) < Abs(error))
  {
  }

  function Repeat(observed: int, n: nat): seq<int> { seq(n, _ => observed) }

  /** From any estimate, a constant difference is reached up to 31 in at most |error| updates,
      and kept. */
  lemma {:induction false} Converges(e: Estimate, observed: int, n: nat)
    requires e.range <= CLOCK_RANGE
    ensures var last := UpdatedBy(e, Repeat(observed, n));
            && last.range <= CLOCK_RANGE
            && (n >= Abs(e.offset - observed) ==> Abs(last.offset - observed) <= 31)
            && (Abs(last.offset - observed) <= 31
                || Abs(last.offset - observed) <= Abs(e.offset - observed) - n)
    decreases n
  {
    if n > 0 {
      Converges(e, observed, n - 1);
      assert Repeat(observed, n)[..n - 1] == Repeat(observed, n - 1);
      ConstantObservation(UpdatedBy(e, Repeat(observed, n - 1)), observed);
    }
  }

  /** The remaining error is the truncation's: a settled clock stays where it is exactly when it
      lies within 31 on the side of zero. */
  lemma SettledExactly(e: Estimate, observed: int)
    requires e.range == CLOCK_RANGE
    ensures Updated(e, observed) == e <==>
            || (0 <= 31 * e.offset + observed && -31 <= e.offset - observed <= 0)
            || (31 * e.offset + observed <= 0 && 0 <= e.offset - observed <= 31)
  {
  }
}
