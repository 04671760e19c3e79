/** Go's fixed-width signed integers and `time.Duration`, written out over
    Dafny's unbounded `int`. */
module GoInt {

  const Int64Min: int := -0x8000_0000_0000_0000
  const Int64Max: int := 0x7FFF_FFFF_FFFF_FFFF
  const TwoTo64: int := 0x1_0000_0000_0000_0000

  /** True iff `x` fits in a Go `int64`. */
  predicate IsInt64(x: int) {
    Int64Min <= x <= Int64Max
  }

  /** The `int64` that Go's two's-complement arithmetic yields for the
      mathematical value `x`: the unique `int64` congruent to `x` modulo 2^64. */
  function Wrap64(x: int): (r: int)
    ensures IsInt64(r)
    ensures (x - r) % TwoTo64 == 0
    ensures IsInt64(x) ==> r == x
  {
    (x - Int64Min) % TwoTo64 + Int64Min
  }
}

/** `time.Duration` is an `int64` count of nanoseconds. */
module GoTime {
  import opened GoInt

  /** `time.Second`, in nanoseconds. */
  const Second: int := 1_000_000_000

  /** The whole numbers of seconds whose Duration fits in an `int64`. */
  const MinWholeSeconds: int := -9_223_372_036
  const MaxWholeSeconds: int := 9_223_372_036

  /** `time.Duration(sec) * time.Second` for an `int64` `sec`: the product is
      computed in `int64` and wraps around on overflow. */
  function SecondsToDuration(sec: int): (d: int)
    ensures IsInt64(d)
    ensures (d - sec * Second) % TwoTo64 == 0
    ensures MinWholeSeconds <= sec <= MaxWholeSeconds ==> d == sec * Second
    ensures sec > MaxWholeSeconds ==> d != sec * Second
    ensures sec < MinWholeSeconds ==> d != sec * Second
  {
    assert MinWholeSeconds <= sec <= MaxWholeSeconds ==>
        MinWholeSeconds * Second <= sec * Second <= MaxWholeSeconds * Second;
    Wrap64(sec * Second)
  }

  /** The bound MaxWholeSeconds is tight: one second more and the product
      wraps to a negative Duration. */
  lemma DurationOverflowWitness()
    ensures SecondsToDuration(MaxWholeSeconds) == 9_223_372_036_000_000_000
    ensures SecondsToDuration(MaxWholeSeconds + 1) == -9_223_372_036_709_551_616
    ensures SecondsToDuration(MaxWholeSeconds + 1) < 0
  {
  }
}
