/** The therapy-session page: its `mm:ss` timer display, the one-second
    counter behind it, and the end-of-session handler. */
module TherapySession {
  import opened Options
  import Js
  import TherapyContext

  /** `Math.floor(seconds / 60)` and `seconds % 60`. */
  function MinutesAndSeconds(seconds: nat): (ms: (nat, nat))
    ensures ms.0 * 60 + ms.1 == seconds
    ensures ms.1 < 60
  {
    (seconds / 60, seconds % 60)
  }

  /** A field of the display: the decimal spelling, padded with '0' to at
      least two characters. */
  function Field(n: nat): string {
    Js.PadStart(Js.ToDecimal(n), 2, '0')
  }

  /** `formatTime` */
  function FormatTime(seconds: nat): string {
    var (mins, secs) := MinutesAndSeconds(seconds);
    Field(mins) + ":" + Field(secs)
  }

  /** Reads an `MM:SS` display back into seconds; `None` for anything that
      is not two digits, a colon and two digits below 60. */
  function ParseTime(t: string): Option<nat> {
    if |t| == 5 && t[2] == ':' && Js.AllDigits(t[..2]) && Js.AllDigits(t[3..])
       && Js.ParseDecimal(t[3..]) < 60
    then Some(60 * Js.ParseDecimal(t[..2]) + Js.ParseDecimal(t[3..]))
    else None
  }

  /** Below 100 a field is exactly two digits and reads back as its value. */
  lemma FieldOfTwoDigits(n: nat)
    requires n < 100
    ensures |Field(n)| == 2 && Js.AllDigits(Field(n)) && Js.ParseDecimal(Field(n)) == n
  {
    var s := Js.ToDecimal(n);
    if n < 10 {
      assert |s| == 1;
      var f := Field(n);
      assert f == "0" + s;
      assert f[..1] == "0" && f[1] == s[0];
      assert Js.ParseDecimal(f[..1]) == 0 by {
        assert f[..1][..0] == [];
      }
      assert Js.ParseDecimal(s) == 10 * Js.ParseDecimal(s[..0]) + Js.DigitValue(s[0]);
      assert s[..0] == [];
    } else {
      PowerAgainstHundred(|s| - 1);
    }
  }

  lemma {:induction false} PowerAgainstHundred(k: nat)
    ensures k >= 2 ==> Js.Pow10(k) >= 100
    ensures k <= 2 ==> Js.Pow10(k) <= 100
  {
    if k > 2 {
      PowerAgainstHundred(k - 1);
    }
  }

  /** Below 100 minutes the display has exactly five characters, `MM:SS`,
      and reads back as the number of seconds shown. */
  lemma {:induction false} FormatTimeRoundTrip(seconds: nat)
    requires seconds < 6000
    ensures |FormatTime(seconds)| == 5 && FormatTime(seconds)[2] == ':'
    ensures ParseTime(FormatTime(seconds)) == Some(seconds)
  {
    var (mins, secs) := MinutesAndSeconds(seconds);
    FieldOfTwoDigits(mins);
    FieldOfTwoDigits(secs);
    var t := FormatTime(seconds);
    assert t[..2] == Field(mins);
    assert t[3..] == Field(secs);
  }

  /** Below 100 minutes different second counts are displayed differently. */
  lemma FormatTimeInjective(a: nat, b: nat)
    requires a < 6000 && b < 6000 && a != b
    ensures FormatTime(a) != FormatTime(b)
  {
    FormatTimeRoundTrip(a);
    FormatTimeRoundTrip(b);
  }

  /** From 100 minutes on the minutes field is the full decimal spelling of
      three digits or more, so the display grows past five characters:
      padding never truncates. */
  lemma FormatTimeWide(seconds: nat)
    requires seconds >= 6000
    ensures var t := FormatTime(seconds);
            && |t| > 5
            && t[..|t| - 3] == Js.ToDecimal(seconds / 60)
  {
    var mins := seconds / 60;
    var s := Js.ToDecimal(mins);
    PowerAgainstHundred(|s|);
    FieldOfTwoDigits(seconds % 60);
    var t := FormatTime(seconds);
    assert t == s + ":" + Field(seconds % 60);
    assert t[..|t| - 3] == s;
  }

  /** The page's timer state. */
  class SessionTimer {
    var sessionTime: nat

    constructor ()
      ensures sessionTime == 0
    {
      sessionTime := 0;
    }

    /** One firing of the one-second interval, which is installed only while
        a session is active. */
    method Tick(therapy: TherapyContext.TherapyProvider)
      modifies this
      ensures sessionTime == old(sessionTime) + (if therapy.isSessionActive then 1 else 0)
    {
      if therapy.isSessionActive {
        sessionTime := sessionTime + 1;
      }
    }

    /** The timer text, shown only while a session is active. */
    function Display(therapy: TherapyContext.TherapyProvider): (shown: Option<string>)
      reads this, therapy
      ensures shown.Some? <==> therapy.isSessionActive
      ensures shown.Some? ==> shown.value == FormatTime(sessionTime)
      ensures shown.Some? && sessionTime < 6000 ==> ParseTime(shown.value) == Some(sessionTime)
    {
      FormatTimeRoundTrip(if sessionTime < 6000 then sessionTime else 0);
      if therapy.isSessionActive then Some(FormatTime(sessionTime)) else None
    }

    /** `handleEndSession`: end the session, reset the counter, then go to
        the feedback page, whose route is returned. */
    method HandleEndSession(therapy: TherapyContext.TherapyProvider, now: nat) returns (target: string)
      modifies this, therapy
      ensures therapy.State() == TherapyContext.Ended(old(therapy.State()), now)
      ensures sessionTime == 0
      ensures target == "/feedback"
    {
      therapy.EndSession(now);
      sessionTime := 0;
      target := "/feedback";
    }
  }
}
