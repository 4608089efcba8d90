/** Regions of the LCD known by name, and the wall-clock budget of a play call. */
module PlayDefaults {
  import opened PlayTypes

  const DEFAULT_REGION := Region(0, 0, 160, 144)
  const DEFAULT_HASH_REGIONS := map[
    "full" := DEFAULT_REGION,
    "bottom" := Region(0, 96, 160, 48),
    "center" := Region(40, 32, 80, 80)]

  /** Frames per second at a speed; uncapped counts as 1x. */
  function Rate(speed: nat): (r: real)
    ensures r >= 60.0
  {
    if speed > 0 then 60.0 * speed as real else 60.0
  }

  /** The wall-clock budget covers the planned frames and five seconds more, between 90 and 180 seconds. */
  function TimeoutFor(speed: nat, planned: nat): (t: real)
    ensures 90.0 <= t <= 180.0
    ensures t < 180.0 ==> (t - 5.0) * Rate(speed) >= planned as real
    ensures 90.0 < t < 180.0 ==> (t - 5.0) * Rate(speed) == planned as real
  {
    var seconds := planned as real / Rate(speed) + 5.0;
    DivideMultiply(planned as real, Rate(speed), seconds);
    var least := if seconds > 90.0 then seconds else 90.0;
    if least < 180.0 then least else 180.0
  }

  lemma {:induction false} DivideMultiply(x: real, rate: real, seconds: real)
    requires rate >= 60.0 && seconds == x / rate + 5.0
    ensures (seconds - 5.0) * rate == x
    ensures seconds <= 90.0 ==> (90.0 - 5.0) * rate >= x
  {
  }
}
