// The pinch gesture test: how often the hand classifier is consulted, and
// the smoothed thumb-to-little-finger distance compared with the threshold.

module Detection {
  import opened Common

  /** The tips of the thumb and the little finger of the first hand found,
      in normalised picture coordinates. */
  datatype Hand = Hand(thumbX: real, thumbY: real, pinkyX: real, pinkyY: real)

  /** The Manhattan distance between the two tips. */
  function Distance(hand: Hand): (d: real)
    ensures d >= 0.0
    ensures d == 0.0 <==> hand.thumbX == hand.pinkyX && hand.thumbY == hand.pinkyY
  {
    AbsReal(hand.thumbX - hand.pinkyX) + AbsReal(hand.thumbY - hand.pinkyY)
  }

  /** The classifier is consulted only once the detection interval has passed
      since the last positive detection. */
  predicate ShouldDetect(now: real, lastDetection: real, interval: real)
  {
    now - lastDetection >= interval
  }

  /** The smoothed distance: the first measurement is taken as it is; later
      ones are blended with the previous smoothed value. */
  function Smooth(last: Option<real>, raw: real, factor: real): real
  {
    match last
    case None => raw
    case Some(prev) => factor * raw + (1.0 - factor) * prev
  }

  /** The outcome of one classification: whether the gesture is made, and
      the smoothed distance remembered for the next one. */
  datatype Verdict = Verdict(pinched: bool, last: Option<real>)

  /** _detect_gesture: no hand means no gesture and a memory left as it was;
      otherwise the smoothed distance is remembered and compared with the
      threshold. */
  function Detect(last: Option<real>, hand: Option<Hand>, factor: real, threshold: real): (v: Verdict)
    ensures hand.None? ==> v == Verdict(false, last)
    ensures hand.Some? ==> v.last.Some? && (v.pinched <==> v.last.value < threshold)
  {
    match hand
    case None => Verdict(false, last)
    case Some(hd) =>
      var d := Smooth(last, Distance(hd), factor);
      Verdict(d < threshold, Some(d))
  }

  /** With a factor in [0, 1] the smoothed value lies between the previous
      value and the new measurement. */
  lemma SmoothBetween(prev: real, raw: real, factor: real)
    requires 0.0 <= factor <= 1.0
    ensures MinReal(prev, raw) <= Smooth(Some(prev), raw, factor) <= MaxReal(prev, raw)
  {
    var s := Smooth(Some(prev), raw, factor);
    assert s == prev + factor * (raw - prev);
    if prev <= raw {
      MulNonNegative(1.0 - factor, raw - prev);
      MulNonNegative(factor, raw - prev);
    } else {
      MulNonNegative(1.0 - factor, prev - raw);
      MulNonNegative(factor, prev - raw);
    }
  }

  lemma MulNonNegative(a: real, b: real)
    requires a >= 0.0 && b >= 0.0
    ensures a * b >= 0.0
  {
  }

  /** A measurement equal to the remembered value leaves it unchanged. */
  lemma SmoothSteady(prev: real, factor: real)
    ensures Smooth(Some(prev), prev, factor) == prev
  {
    assert factor * prev + (1.0 - factor) * prev == prev;
  }

  /** The smoothed distance stays non-negative, so a threshold of 0 or less
      never reports the gesture. */
  lemma SmoothedNonNegative(last: Option<real>, hand: Hand, factor: real)
    requires 0.0 <= factor <= 1.0
    requires last.Some? ==> last.value >= 0.0
    ensures Smooth(last, Distance(hand), factor) >= 0.0
  {
    if last.Some? {
      SmoothBetween(last.value, Distance(hand), factor);
    }
  }
}
