/**
 * The "Duration" field of the now-playing panel (`get_track_embed`): a track
 * length in milliseconds shown as `MM:SS`, or `HH:MM:SS` once it reaches an hour.
 */
module Duration {
  import opened Wrappers
  import opened Text

  /** Whole hours, minutes and seconds of a track. */
  datatype Clock = Clock(hours: nat, minutes: nat, seconds: nat)

  /**
   * `seconds = length // 1000`, then two `divmod(_, 60)` steps. Dafny's `/` and `%`
   * by a positive divisor agree with Python's floor division and modulo.
   */
  function ClockOf(lengthMs: nat): (c: Clock)
    ensures c.minutes < 60 && c.seconds < 60
    ensures c.hours * 3600 + c.minutes * 60 + c.seconds == lengthMs / 1000
  {
    var total := lengthMs / 1000;
    var minutes, seconds := total / 60, total % 60;
    var hours, minutes' := minutes / 60, minutes % 60;
    assert hours * 60 + minutes' == minutes;
    assert minutes * 60 + seconds == total;
    assert hours * 3600 + minutes' * 60 == (hours * 60 + minutes') * 60;
    Clock(hours, minutes', seconds)
  }

  /** `MM:SS` (five characters) under an hour, `HH:MM:SS` (eight or more) from an hour on. */
  function FormatDuration(lengthMs: nat): (text: string)
    ensures |text| == 5 <==> lengthMs / 1000 < 3600
    ensures lengthMs / 1000 >= 3600 ==> |text| >= 8
  {
    var c := ClockOf(lengthMs);
    Pad2Reads(c.hours);
    Pad2Reads(c.minutes);
    Pad2Reads(c.seconds);
    if c.hours > 0 then Pad2(c.hours) + ":" + Pad2(c.minutes) + ":" + Pad2(c.seconds)
    else Pad2(c.minutes) + ":" + Pad2(c.seconds)
  }

  /** Reads `MM:SS` or `HH:MM:SS` back into a number of seconds. */
  function ParseClock(s: string): Option<nat>
  {
    var fields := Split(s, ':');
    if |fields| == 2 then
      match (ParseNat(fields[0]), ParseNat(fields[1]))
      case (Some(m), Some(sec)) => Some(m * 60 + sec)
      case _ => None
    else if |fields| == 3 then
      match (ParseNat(fields[0]), ParseNat(fields[1]), ParseNat(fields[2]))
      case (Some(h), Some(m), Some(sec)) => Some(h * 3600 + m * 60 + sec)
      case _ => None
    else None
  }

  /** Two digit fields joined by ':' split back into those two fields. */
  lemma SplitTwoFields(m: string, sec: string)
    requires AllDigits(m) && AllDigits(sec)
    ensures Split(m + ":" + sec, ':') == [m, sec]
  {
    assert ':' !in m && ':' !in sec;
    SplitNoSep(sec, ':');
    SplitAfter(m, ':', sec);
  }

  /** Three digit fields joined by ':' split back into those three fields. */
  lemma SplitThreeFields(h: string, m: string, sec: string)
    requires AllDigits(h) && AllDigits(m) && AllDigits(sec)
    ensures Split(h + ":" + m + ":" + sec, ':') == [h, m, sec]
  {
    assert ':' !in h;
    SplitTwoFields(m, sec);
    var rest := m + ":" + sec;
    SplitAfter(h, ':', rest);
    assert h + ":" + m + ":" + sec == h + [':'] + rest;
  }

  /**
   * The displayed text splits on ':' into three fields exactly when the track
   * is at least an hour long, two otherwise; every field is two or more digits
   * and reads back as the hour, minute or second count.
   */
  lemma DurationFields(lengthMs: nat)
    ensures var c := ClockOf(lengthMs);
            var f := Split(FormatDuration(lengthMs), ':');
            && (|f| == 3 <==> c.hours > 0)
            && (|f| == 2 <==> c.hours == 0)
            && (forall i :: 0 <= i < |f| ==> |f[i]| >= 2 && AllDigits(f[i]))
            && |f[|f| - 2]| == 2 && |f[|f| - 1]| == 2
            && (c.hours > 0 ==> f == [Pad2(c.hours), Pad2(c.minutes), Pad2(c.seconds)])
            && (c.hours == 0 ==> f == [Pad2(c.minutes), Pad2(c.seconds)])
  {
    var c := ClockOf(lengthMs);
    Pad2Reads(c.hours);
    Pad2Reads(c.minutes);
    Pad2Reads(c.seconds);
    if c.hours > 0 {
      SplitThreeFields(Pad2(c.hours), Pad2(c.minutes), Pad2(c.seconds));
    } else {
      SplitTwoFields(Pad2(c.minutes), Pad2(c.seconds));
    }
  }

  /** Nothing is lost in the display: it reads back as `length // 1000` seconds. */
  lemma DurationRoundTrip(lengthMs: nat)
    ensures ParseClock(FormatDuration(lengthMs)) == Some(lengthMs / 1000)
  {
    var c := ClockOf(lengthMs);
    DurationFields(lengthMs);
    Pad2Reads(c.hours);
    Pad2Reads(c.minutes);
    Pad2Reads(c.seconds);
  }
}
