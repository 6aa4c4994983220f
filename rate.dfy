/**
 The mousemove handler's mapping from pointer speed (pixels per millisecond)
 to the audio element's playback rate (script.js, lines 142-151).
 */
module Rate {
  /** Below this speed the rate is the minimum. */
  const SlowThreshold: real := 0.3
  /** Above this speed the fast segment applies. */
  const FastThreshold: real := 2.5
  const MinRate: real := 0.3
  const MaxRate: real := 2.5
  /** Slope of the middle segment. */
  const MidSlope: real := 0.4
  /** The fast segment starts at this rate just above FastThreshold ... */
  const FastBase: real := 1.0
  /** ... and climbs with this slope until MaxRate caps it. */
  const FastSlope: real := 0.3

  function Min(a: real, b: real): real
  {
    if b < a then b else a
  }

  /** Pointer speed in pixels per millisecond: distance over elapsed time. */
  function Speed(distance: real, deltaTime: int): (s: real)
    requires 0 < deltaTime
    ensures 0.0 <= distance ==> 0.0 <= s
  {
    distance / (deltaTime as real)
  }

  /** The three-piece rate mapping, branch for branch as the handler has it. */
  function PlaybackRate(speed: real): (r: real)
    ensures MinRate <= r <= MaxRate
  {
    if speed < SlowThreshold then MinRate
    else if speed > FastThreshold then Min(MaxRate, FastBase + (speed - FastThreshold) * FastSlope)
    else MinRate + (speed - SlowThreshold) * MidSlope
  }

  /** Every speed below the slow threshold gives exactly the minimum rate. */
  lemma SlowSegment(speed: real)
    requires speed < SlowThreshold
    ensures PlaybackRate(speed) == MinRate
  {
  }

  /** The middle segment is the linear interpolation and never exceeds 1.18. */
  lemma MidSegment(speed: real)
    requires SlowThreshold <= speed <= FastThreshold
    ensures PlaybackRate(speed) == MinRate + (speed - SlowThreshold) * MidSlope
    ensures MinRate <= PlaybackRate(speed) <= 1.18
    ensures PlaybackRate(speed) == 1.18 <==> speed == FastThreshold
  {
  }

  /** The fast segment lies strictly above 1.0 and reaches the maximum exactly from speed 7.5 on. */
  lemma FastSegment(speed: real)
    requires speed > FastThreshold
    ensures FastBase < PlaybackRate(speed)
    ensures PlaybackRate(speed) == MaxRate <==> speed >= 7.5
    ensures speed < 7.5 ==> PlaybackRate(speed) == FastBase + (speed - FastThreshold) * FastSlope
  {
  }

  /** The mapping is non-decreasing on (-inf, 2.5] and on (2.5, +inf) separately. */
  lemma MonotoneWithinSides(s1: real, s2: real)
    requires s1 <= s2
    requires s2 <= FastThreshold || FastThreshold < s1
    ensures PlaybackRate(s1) <= PlaybackRate(s2)
  {
  }

  /** At the low threshold the slow and middle segments meet: no jump there. */
  lemma ContinuousAtSlowThreshold(speed: real)
    requires SlowThreshold <= speed
    ensures PlaybackRate(SlowThreshold) == MinRate
    ensures PlaybackRate(speed) - PlaybackRate(SlowThreshold) <= (speed - SlowThreshold) * MidSlope
  {
  }

  /**
   At the fast threshold the mapping drops from 1.18 to just above 1.0: every speed in
   (2.5, 3.1) gets a lower rate than speed 2.5 itself, and speeds just above 2.5 sit
   more than 0.15 below it. The mapping is therefore neither monotone nor continuous there.
   */
  lemma DropAtFastThreshold(speed: real)
    requires FastThreshold < speed < 3.1
    ensures PlaybackRate(speed) < PlaybackRate(FastThreshold)
    ensures speed < 2.6 ==> PlaybackRate(FastThreshold) - PlaybackRate(speed) > 0.15
  {
  }

  /** A pointer moving 300 px in 100 ms gets rate 1.15, not the maximum; 5 px in 100 ms gets the minimum. */
  lemma SpeedScenarios()
    ensures Speed(300.0, 100) == 3.0 && PlaybackRate(Speed(300.0, 100)) == 1.15
    ensures Speed(5.0, 100) == 0.05 && PlaybackRate(Speed(5.0, 100)) == MinRate
  {
  }
}
