/** The "H:MM" clock formatter `to24Time` of include/SunrisetWorker/SunrisetWorker.hpp:
    both fields are cut toward zero as C++ `static_cast<int>` does, the integers are
    written as `std::to_string` writes them, and a single "0" is put in front of any
    minute value below ten (negative ones included). */
module ClockFormat {
  import opened Wrappers

  /** `static_cast<int>` of a double: truncation toward zero. */
  function Trunc(x: real): (n: int)
    ensures 0.0 <= x ==> n >= 0 && n as real <= x < n as real + 1.0
    ensures x < 0.0 ==> n <= 0 && n as real - 1.0 < x <= n as real
  {
    if x >= 0.0 then x.Floor else -((-x).Floor)
  }

  predicate IsDigit(c: char) { '0' <= c <= '9' }

  predicate IsDigits(s: string) { forall i :: 0 <= i < |s| ==> IsDigit(s[i]) }

  function DigitChar(d: nat): (c: char)
    requires d < 10
    ensures IsDigit(c) && (c as int) - ('0' as int) == d
  {
    ('0' as int + d) as char
  }

  /** Decimal digits of `n`, most significant first, without leading zeros. */
  function NatToString(n: nat): (s: string)
    ensures 1 <= |s|
    ensures n < 10 <==> |s| == 1
    ensures s[0] == '0' <==> n == 0
  {
    if n < 10 then [DigitChar(n)] else NatToString(n / 10) + [DigitChar(n % 10)]
  }

  lemma {:induction false} NatToStringDigits(n: nat)
    ensures IsDigits(NatToString(n))
  {
    if n >= 10 {
      NatToStringDigits(n / 10);
    }
  }

  /** The value of a string of decimal digits. */
  function ParseDigits(s: string): int
  {
    if |s| == 0 then 0
    else 10 * ParseDigits(s[..|s| - 1]) + ((s[|s| - 1] as int) - ('0' as int))
  }

  lemma {:induction false} ParseNatToString(n: nat)
    ensures ParseDigits(NatToString(n)) == n
  {
    if n >= 10 {
      var s := NatToString(n);
      assert s[..|s| - 1] == NatToString(n / 10);
      ParseNatToString(n / 10);
    }
  }

  /** `std::to_string(int)`: a minus sign exactly for negative values, then the
      decimal digits of the magnitude. */
  function IntToString(i: int): (s: string)
    ensures 1 <= |s|
    ensures s[0] == '-' <==> i < 0
    ensures 0 <= i ==> IsDigits(s) && ParseDigits(s) == i
    ensures i < 0 ==> IsDigits(s[1..]) && ParseDigits(s[1..]) == -i
  {
    var magnitude: nat := if i < 0 then -i else i;
    NatToStringDigits(magnitude);
    ParseNatToString(magnitude);
    if i < 0 then
      assert ("-" + NatToString(magnitude))[1..] == NatToString(magnitude);
      "-" + NatToString(magnitude)
    else
      NatToString(magnitude)
  }

  /** Hours field of `to24Time(t)`: whole hours counted toward zero, so the part
      of the hour left over has the sign of `t` and is less than one hour. */
  function HoursOf(t: real): (h: int)
    ensures 0.0 <= t ==> 0.0 <= t - h as real < 1.0
    ensures t < 0.0 ==> -1.0 < t - h as real <= 0.0
  {
    Trunc(t)
  }

  /** Minutes field of `to24Time(t)`: the truncated fraction of the hour, times 60.
      It lies in 0..59 for a non-negative time and in -59..0 for a negative one. */
  function MinutesOf(t: real): (m: int)
    ensures 0.0 <= t ==> 0 <= m < 60
    ensures t < 0.0 ==> -60 < m <= 0
  {
    Trunc((t - HoursOf(t) as real) * 60.0)
  }

  /** The minutes field as printed: one "0" in front of every value below ten, so a
      minute of the hour takes exactly two digits and a negative one starts "0-". */
  function MinutesText(m: int): (s: string)
    ensures 0 <= m < 60 ==> |s| == 2 && IsDigits(s) && ParseDigits(s) == m
    ensures m < 0 ==> 2 <= |s| && s[0] == '0' && s[1] == '-'
  {
    var s := (if m < 10 then "0" else "") + IntToString(m);
    assert 0 <= m < 60 ==> ParseDigits(s) == m by {
      if 0 <= m < 10 {
        assert s[..1] == ['0'];
        assert ParseDigits(s[..1]) == 10 * ParseDigits(s[..1][..0]);
      } else if 10 <= m < 60 {
        assert s == NatToString(m / 10) + [DigitChar(m % 10)];
        assert s[..1] == [DigitChar(m / 10)];
        assert ParseDigits(s[..1]) == 10 * ParseDigits(s[..1][..0]) + m / 10;
      }
    }
    s
  }

  /** `to24Time`: the hours, ':', then the padded minutes. Inside one day the text
      reads back as the hour and the minute in progress at `t`. */
  function To24Time(t: real): (s: string)
    ensures 0.0 <= t < 24.0 ==> ParseClock(s) == Some((t.Floor, MinutesOf(t)))
  {
    var hours := IntToString(HoursOf(t));
    var minutes := MinutesText(MinutesOf(t));
    assert 0.0 <= t < 24.0 ==> ParseClock(hours + ":" + minutes) == Some((t.Floor, MinutesOf(t))) by {
      if 0.0 <= t < 24.0 {
        ClockFieldsInDay(t);
        IndexOfAfterDigits(hours, minutes);
        var s := hours + ":" + minutes;
        assert s[..|hours|] == hours;
        assert s[|hours| + 1..] == minutes;
      }
    }
    hours + ":" + minutes
  }

  /** Inside one day the fields are the floor of the hour and the floor of the minute,
      each in its clock range, and they never round up: the minute shown is the one
      in progress at `t`. */
  lemma ClockFieldsInDay(t: real)
    requires 0.0 <= t < 24.0
    ensures HoursOf(t) == t.Floor && 0 <= HoursOf(t) <= 23
    ensures MinutesOf(t) == ((t - HoursOf(t) as real) * 60.0).Floor && 0 <= MinutesOf(t) <= 59
    ensures HoursOf(t) as real + MinutesOf(t) as real / 60.0 <= t
    ensures t < HoursOf(t) as real + (MinutesOf(t) + 1) as real / 60.0
  {
  }

  /** Position of the first `c` in `s`, or |s| when there is none. */
  function IndexOf(s: string, c: char): (i: nat)
    ensures i <= |s|
    ensures forall j :: 0 <= j < i ==> s[j] != c
    ensures i < |s| ==> s[i] == c
  {
    if |s| == 0 then 0 else if s[0] == c then 0 else 1 + IndexOf(s[1..], c)
  }

  /** Reads back a clock string of the in-day shape: digits, ':', two digits. */
  function ParseClock(s: string): Option<(int, int)>
  {
    var i := IndexOf(s, ':');
    if i < |s| && 1 <= i && IsDigits(s[..i]) && |s[i + 1..]| == 2 && IsDigits(s[i + 1..])
    then Some((ParseDigits(s[..i]), ParseDigits(s[i + 1..])))
    else None
  }

  lemma {:induction false} IndexOfAfterDigits(d: string, rest: string)
    requires IsDigits(d)
    ensures IndexOf(d + ":" + rest, ':') == |d|
  {
    if |d| > 0 {
      assert (d + ":" + rest)[1..] == d[1..] + ":" + rest;
      IndexOfAfterDigits(d[1..], rest);
    }
  }

  /** Hours are never padded and minutes always take two characters, so an in-day
      string has four characters before 10:00 and five from then on. */
  lemma To24TimeLength(t: real)
    requires 0.0 <= t < 24.0
    ensures |To24Time(t)| == (if t < 10.0 then 4 else 5)
  {
  }

  /** From 24 hours on (reachable through a user offset that is never wrapped)
      the hour field leaves the clock range. */
  lemma HoursBeyondDay(t: real)
    requires 24.0 <= t
    ensures HoursOf(t) >= 24
    ensures 0 <= MinutesOf(t) <= 59
  {
  }

  /** Just before midnight on the negative side the hour is cut to 0 and the minutes
      come out negative; the "0" padding then lands in front of the minus sign. */
  lemma NegativeFraction(t: real)
    requires -1.0 < t < 0.0
    ensures HoursOf(t) == 0 && -60 < MinutesOf(t) <= 0
    ensures MinutesOf(t) < 0 ==> To24Time(t) == "0:0-" + NatToString(-MinutesOf(t))
  {
  }

  lemma HalfPastOne()
    ensures To24Time(13.5) == "13:30"
  {
  }

  lemma Midnight()
    ensures To24Time(0.0) == "0:00"
  {
  }

  lemma LastMinuteNotRounded()
    ensures To24Time(23.999) == "23:59"
  {
  }

  lemma PastMidnightOffset()
    ensures To24Time(25.5) == "25:30"
  {
  }

  lemma HalfHourBeforeMidnight()
    ensures To24Time(-0.5) == "0:0-30"
  {
    assert NatToString(30) == "30";
  }
}
