/**
 * The maintenance page's elapsed-time display: a seconds counter advanced by a
 * periodic tick, and its `HH:MM:SS` rendering.
 */
module Maintenance {
  import opened Strings
  import opened Decimal

  /** `n.toString().padStart(2, "0")` */
  function Field(n: nat): (r: string)
    ensures AllDigits(r) && |r| >= 2
    ensures ParseNat(r) == n
    ensures |r| == 2 <==> n < 100
  {
    ParseNatToString(n);
    ParsePadded(NatToString(n), 2);
    NatToStringAtMostTwo(n);
    PadStart(NatToString(n), 2, '0')
  }

  function Hours(seconds: nat): nat { seconds / 3600 }
  function Minutes(seconds: nat): nat { seconds % 3600 / 60 }
  function Secs(seconds: nat): nat { seconds % 60 }

  /** `formatTime(seconds)`: hours, minutes and seconds, each padded to two digits, joined by ':'. */
  function FormatTime(seconds: nat): string {
    Field(Hours(seconds)) + ":" + Field(Minutes(seconds)) + ":" + Field(Secs(seconds))
  }

  /** The three fields split a second count exactly, with minutes and seconds below 60. */
  lemma TimeFields(seconds: nat)
    ensures Minutes(seconds) < 60 && Secs(seconds) < 60
    ensures Hours(seconds) * 3600 + Minutes(seconds) * 60 + Secs(seconds) == seconds
  {
    var h, rest := seconds / 3600, seconds % 3600;
    var m, sec := rest / 60, rest % 60;
    assert rest == 60 * m + sec && m < 60;
    assert seconds == 60 * (60 * h + m) + sec;
    DivModSixty(seconds, 60 * h + m, sec);
  }

  lemma DivModSixty(n: int, q: int, r: int)
    requires 0 <= r < 60 && n == 60 * q + r
    ensures n % 60 == r && n / 60 == q
  {
  }

  function HoursText(t: string): string requires |t| >= 8 { t[..|t| - 6] }
  function MinutesText(t: string): string requires |t| >= 8 { t[|t| - 5..|t| - 3] }
  function SecsText(t: string): string requires |t| >= 8 { t[|t| - 2..] }

  /** An `H…H:MM:SS` text: at least two hour digits, then two and two digits. */
  predicate IsClockText(t: string) {
    |t| >= 8 && t[|t| - 6] == ':' && t[|t| - 3] == ':' &&
    AllDigits(HoursText(t)) && AllDigits(MinutesText(t)) && AllDigits(SecsText(t))
  }

  /** Reads an `H…H:MM:SS` text back into seconds. */
  function ParseTime(t: string): nat
    requires IsClockText(t)
  {
    ParseNat(HoursText(t)) * 3600 + ParseNat(MinutesText(t)) * 60 + ParseNat(SecsText(t))
  }

  /**
   * The rendering loses nothing: the last two fields are exactly two digits each, each
   * field reads back as its part of the split, and reading the text back gives the seconds.
   */
  lemma FormatTimeRoundTrip(seconds: nat)
    ensures IsClockText(FormatTime(seconds))
    ensures ParseNat(HoursText(FormatTime(seconds))) == Hours(seconds)
    ensures ParseNat(MinutesText(FormatTime(seconds))) == Minutes(seconds)
    ensures ParseNat(SecsText(FormatTime(seconds))) == Secs(seconds)
    ensures ParseTime(FormatTime(seconds)) == seconds
  {
    TimeFields(seconds);
    ParseJoinedFields(Hours(seconds), Minutes(seconds), Secs(seconds), seconds);
  }

  lemma ParseJoinedFields(hours: nat, minutes: nat, secs: nat, total: nat)
    requires minutes < 60 && secs < 60
    requires hours * 3600 + minutes * 60 + secs == total
    ensures IsClockText(Field(hours) + ":" + Field(minutes) + ":" + Field(secs))
    ensures ParseNat(HoursText(Field(hours) + ":" + Field(minutes) + ":" + Field(secs))) == hours
    ensures ParseNat(MinutesText(Field(hours) + ":" + Field(minutes) + ":" + Field(secs))) == minutes
    ensures ParseNat(SecsText(Field(hours) + ":" + Field(minutes) + ":" + Field(secs))) == secs
    ensures ParseTime(Field(hours) + ":" + Field(minutes) + ":" + Field(secs)) == total
  {
    var h, m, s := Field(hours), Field(minutes), Field(secs);
    JoinedTexts(h, m, s);
  }

  /** A joined `h:mm:ss` of digit texts is a clock text whose three texts are the parts it was joined from. */
  lemma JoinedTexts(h: string, m: string, s: string)
    requires |h| >= 2 && |m| == 2 && |s| == 2
    requires AllDigits(h) && AllDigits(m) && AllDigits(s)
    ensures var t := h + ":" + m + ":" + s;
      IsClockText(t) && HoursText(t) == h && MinutesText(t) == m && SecsText(t) == s &&
      ParseTime(t) == ParseNat(h) * 3600 + ParseNat(m) * 60 + ParseNat(s)
  {
    var t := h + ":" + m + ":" + s;
    assert |t| >= 8 && t[|t| - 6] == ':' && t[|t| - 3] == ':' by {
      JoinedSlices(h, m, s);
    }
    assert HoursText(t) == h && MinutesText(t) == m && SecsText(t) == s by {
      JoinedSlices(h, m, s);
    }
  }

  /** Where the separators of a joined `h:mm:ss` text sit, and the three slices between them. */
  lemma JoinedSlices(h: string, m: string, s: string)
    requires |m| == 2 && |s| == 2
    ensures var t := h + ":" + m + ":" + s;
      |t| == |h| + 6 && t[|t| - 6] == ':' && t[|t| - 3] == ':' &&
      t[..|t| - 6] == h && t[|t| - 5..|t| - 3] == m && t[|t| - 2..] == s
  {
    var tail := ":" + m + ":" + s;
    var t := h + tail;
    assert h + ":" + m + ":" + s == t;
    assert |tail| == 6 && tail[0] == ':' && tail[3] == ':';
    assert t[|t| - 5..|t| - 3] == tail[1..3] == m;
    assert t[|t| - 2..] == tail[4..] == s;
  }

  /** Exactly eight characters while the hours fit in two digits. */
  lemma FormatTimeLength(seconds: nat)
    ensures |FormatTime(seconds)| == 8 <==> seconds < 360000
  {
    TimeFields(seconds);
  }

  /** The page's counter: starts at zero, advanced by one on every tick. */
  class ElapsedClock {
    var timeElapsed: nat

    constructor ()
      ensures timeElapsed == 0
    {
      timeElapsed := 0;
    }

    /** The interval callback `setTimeElapsed(prev => prev + 1)`. */
    method Tick()
      modifies this
      ensures timeElapsed == old(timeElapsed) + 1
    {
      timeElapsed := timeElapsed + 1;
    }

    /**
     * The text shown on the page: it reads back as the elapsed seconds, with minutes and
     * seconds fields below 60.
     */
    function Display(): (r: string)
      reads this
      ensures IsClockText(r) && ParseTime(r) == timeElapsed
      ensures ParseNat(HoursText(r)) == Hours(timeElapsed)
      ensures ParseNat(MinutesText(r)) == Minutes(timeElapsed) < 60
      ensures ParseNat(SecsText(r)) == Secs(timeElapsed) < 60
      ensures |r| == 8 <==> timeElapsed < 360000
    {
      FormatTimeRoundTrip(timeElapsed);
      FormatTimeLength(timeElapsed);
      TimeFields(timeElapsed);
      FormatTime(timeElapsed)
    }
  }
}
