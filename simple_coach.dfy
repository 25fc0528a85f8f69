/** The first mini AI coach: a status line built from at most two sentences
    about the whole session, mistakes first, then speed judged on the
    average rounded to two decimals. */
module SimpleCoach {
  import opened Common

  datatype Sentence = Mistakes | Fast | Slower

  /** The sentences of the message, in order: "too many mistakes" with
      more than 3 wrong records; "fast" when the two-decimal average is
      below 400, "react faster" when it is above 600, neither without an
      average. */
  function Message(h: seq<Attempt>): seq<Sentence>
  {
    var avg := MeanHundredths(h);
    (if Count(h, Wrong) > 3 then [Mistakes] else [])
    + (if avg.Some? && avg.value < 40000 then [Fast] else [])
    + (if avg.Some? && avg.value > 60000 then [Slower] else [])
  }

  /** `miniCoach`: the text written into the status box, `None` when it is
      left alone: for an empty list, and when the message is empty. */
  function MiniCoach(h: seq<Attempt>): (r: Option<seq<Sentence>>)
    ensures h == [] ==> r.None?
    ensures r.Some? ==> r.value != [] && r.value == Message(h)
    ensures h != [] && Message(h) != [] ==> r.Some?
  {
    if h == [] then None
    else
      var message := Message(h);
      if message != [] then Some(message) else None
  }

  /** The message has at most two sentences: the mistakes sentence comes
      first and the two speed sentences never appear together. */
  lemma MessageShape(h: seq<Attempt>)
    ensures |Message(h)| <= 2
    ensures Mistakes in Message(h) <==> Count(h, Wrong) > 3
    ensures Mistakes in Message(h) ==> Message(h)[0] == Mistakes
    ensures !(Fast in Message(h) && Slower in Message(h))
  {
  }

  /** The speed sentences on the exact mean `sum / n` of the valid times:
      "fast" exactly when the mean is below 399.995 and "react faster"
      exactly when it is at least 600.005, so that a mean between 400 and
      600 after rounding gets neither. */
  lemma SpeedSentences(h: seq<Attempt>)
    ensures var ts := ValidTimes(h);
      && (Fast in Message(h) <==> ts != [] && 200 * Sum(ts) < 79999 * |ts|)
      && (Slower in Message(h) <==> ts != [] && 200 * Sum(ts) >= 120001 * |ts|)
  {
    var ts := ValidTimes(h);
    if ts != [] {
      var n := |ts|;
      var r := MeanHundredths(h).value;
      if r < 40000 {
        MulMonotone(2 * n, r, 39999);
      } else {
        MulMonotone(2 * n, 40000, r);
      }
      if r > 60000 {
        MulMonotone(2 * n, 60001, r);
      } else {
        MulMonotone(2 * n, r, 60000);
      }
    }
  }

  /** Without a valid time the status only ever speaks of mistakes. */
  lemma NoTimesNoSpeed(h: seq<Attempt>)
    requires ValidTimes(h) == []
    ensures MiniCoach(h).Some? <==> Count(h, Wrong) > 3
    ensures MiniCoach(h).Some? ==> MiniCoach(h).value == [Mistakes]
  {
  }
}
