/**
 * UltrasoundSignal.convert: an echo time in microseconds becomes a distance in
 * centimetres (29 us per cm, there and back), dropped when it is beyond the range
 * the sensor measures reliably.
 */
module Ultrasound {
  import opened JavaLang

  /** The largest distance, in centimetres, that is reported. */
  const MaxReliable: int := 367

  /** The largest nonnegative echo time that still gives a reading. */
  const MaxReliableEcho: int := 21343

  /** microseconds / 29 / 2 in Java long arithmetic: two truncating divisions,
      which together truncate the echo time divided by 58. */
  function Distance(us: int): (cm: int)
    ensures us >= 0 ==> 0 <= cm && cm * 58 <= us < cm * 58 + 58
    ensures us < 0 ==> cm <= 0 && cm * 58 - 58 < us <= cm * 58
  {
    TwoQuotients(us);
    Quot(Quot(us, 29), 2)
  }

  lemma TwoQuotients(us: int)
    ensures var cm := Quot(Quot(us, 29), 2);
            (us >= 0 ==> 0 <= cm && cm * 58 <= us < cm * 58 + 58) &&
            (us < 0 ==> cm <= 0 && cm * 58 - 58 < us <= cm * 58)
  {
    var perCm := Quot(us, 29);
    var cm := Quot(perCm, 2);
    assert cm * 58 == (cm * 2) * 29;
    if us >= 0 {
      assert cm * 2 <= perCm <= cm * 2 + 1;
      assert (cm * 2) * 29 <= perCm * 29;
      assert perCm * 29 <= (cm * 2 + 1) * 29;
    } else {
      assert cm * 2 - 1 <= perCm <= cm * 2;
      assert (cm * 2 - 1) * 29 <= perCm * 29;
      assert perCm * 29 <= (cm * 2) * 29;
    }
  }

  /** convert: the distance, or nothing (null) when it exceeds MAX_RELIABLE. */
  function Convert(us: int): (r: Option<int>)
    ensures r.Some? <==> Distance(us) <= MaxReliable
    ensures r.Some? ==> r.value == Distance(us)
  {
    var value := Distance(us);
    if value <= MaxReliable then Some(value) else None
  }

  /** The two truncating divisions agree with one truncating division by 58. */
  lemma DistanceIsQuot58(us: int)
    ensures Distance(us) == Quot(us, 58)
  {
  }

  /** A nonnegative echo gives a reading exactly when it is at most 21343 us. */
  lemma ReliableIff(us: int)
    requires us >= 0
    ensures Convert(us).Some? <==> us <= MaxReliableEcho
  {
    var d := Distance(us);
    if d <= MaxReliable {
      assert d * 58 <= MaxReliable * 58;
    } else {
      assert (MaxReliable + 1) * 58 <= d * 58;
    }
  }

  /** Longer echoes never give shorter distances. */
  lemma Monotone(a: int, b: int)
    requires 0 <= a <= b
    ensures Distance(a) <= Distance(b)
  {
  }

  /** Every reading of a nonnegative echo lies in [0, 367]. */
  lemma ReadingRange(us: int)
    requires us >= 0 && Convert(us).Some?
    ensures 0 <= Convert(us).value <= MaxReliable
  {
  }

  /** A negative echo time truncates toward zero and is always reported. */
  lemma NegativeAlwaysReading(us: int)
    requires us < 0
    ensures Convert(us) == Some(Distance(us)) && Distance(us) <= 0
    ensures us > -58 ==> Distance(us) == 0
  {
  }
}
