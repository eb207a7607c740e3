/**
  TimeUtils.getPlayerTimeStr: a duration in seconds rendered as "MM:SS" or "HH:MM:SS" for
  the player's progress label. The fields are decimal strings, zero-padded to two
  characters when they have one; the reading functions below (ParseDecimal, ParseClock)
  are the reference the rendering is checked against.
*/
module TimeUtils {

  predicate IsDigit(ch: char)
  {
    '0' <= ch <= '9'
  }

  predicate AllDigits(s: string)
  {
    forall i :: 0 <= i < |s| ==> IsDigit(s[i])
  }

  function DigitValue(ch: char): (d: nat)
  {
    if IsDigit(ch) then ch as int - '0' as int else 0
  }

  function DigitChar(d: nat): (ch: char)
    requires d < 10
    ensures IsDigit(ch) && DigitValue(ch) == d
  {
    ('0' as int + d) as char
  }

  /** The value of a string of decimal digits, most significant first. */
  function ParseDecimal(s: string): (n: nat)
  {
    if s == [] then 0 else ParseDecimal(s[..|s| - 1]) * 10 + DigitValue(s[|s| - 1])
  }

  /** toString() of an Integer that is not negative: its decimal digits, without leading
      zeros, one character exactly for the values below ten. */
  function DecimalString(n: nat): (s: string)
    ensures 1 <= |s| && AllDigits(s)
    ensures |s| == 1 <==> n < 10
    ensures |s| > 1 ==> s[0] != '0'
  {
    if n < 10 then [DigitChar(n)] else DecimalString(n / 10) + [DigitChar(n % 10)]
  }

  /** Reading back a decimal string gives the value it was made from. */
  lemma {:induction false} DecimalStringRoundTrip(n: nat)
    ensures ParseDecimal(DecimalString(n)) == n
  {
    if n >= 10 {
      var s := DecimalString(n);
      assert s[..|s| - 1] == DecimalString(n / 10);
      DecimalStringRoundTrip(n / 10);
    }
  }

  /** A leading zero does not change the value read. */
  lemma {:induction false} LeadingZero(d: string)
    ensures ParseDecimal("0" + d) == ParseDecimal(d)
    decreases |d|
  {
    if d != [] {
      var z := "0" + d;
      assert z[..|z| - 1] == "0" + d[..|d| - 1];
      LeadingZero(d[..|d| - 1]);
    }
  }

  /** One field as getPlayerTimeStr renders it: "0" in front of a one-character decimal
      string, the decimal string itself otherwise. */
  function Pad(n: nat): (s: string)
    ensures 2 <= |s| && AllDigits(s)
    ensures n < 100 ==> |s| == 2
    ensures ParseDecimal(s) == n
  {
    var d := DecimalString(n);
    DecimalStringRoundTrip(n);
    LeadingZero(d);
    if |d| == 1 then "0" + d else d
  }

  /** The hour, minute and second of getPlayerTimeStr. */
  datatype Clock = Clock(hour: nat, minute: nat, seconds: nat)

  /** The decomposition at the head of getPlayerTimeStr; for a time that is not negative,
      Java's truncating division agrees with Dafny's. */
  function Fields(time: nat): (c: Clock)
    ensures time == c.hour * 3600 + c.minute * 60 + c.seconds
    ensures c.minute < 60 && c.seconds < 60
  {
    var hour := time / (60 * 60);
    var minute := (time - hour * 3600) / 60;
    var seconds := time - hour * 3600 - minute * 60;
    Clock(hour, minute, seconds)
  }

  /** getPlayerTimeStr as written: the hour field and its colon appear only when the hour
      count itself is at least 3600. */
  function GetPlayerTimeStr(time: nat): (s: string)
    ensures 5 <= |s|
    ensures forall i :: 0 <= i < |s| ==> IsDigit(s[i]) || s[i] == ':'
  {
    var c := Fields(time);
    (if c.hour >= 3600 then Pad(c.hour) + ":" else "") + Pad(c.minute) + ":" + Pad(c.seconds)
  }

  /** getPlayerTimeStr as evidently intended: the hour field appears whenever there is at
      least one hour. */
  function GetPlayerTimeStrIntended(time: nat): (s: string)
    ensures 5 <= |s|
    ensures forall i :: 0 <= i < |s| ==> IsDigit(s[i]) || s[i] == ':'
  {
    var c := Fields(time);
    (if c.hour > 0 then Pad(c.hour) + ":" else "") + Pad(c.minute) + ":" + Pad(c.seconds)
  }

  // ---------------------------------------------------------------------------------
  // Reading a label back
  // ---------------------------------------------------------------------------------

  /** The pieces of s between colons. */
  function SplitColons(s: string): (parts: seq<string>)
    ensures 1 <= |parts|
  {
    if s == [] then [""]
    else
      var rest := SplitColons(s[1..]);
      if s[0] == ':' then [""] + rest else [[s[0]] + rest[0]] + rest[1..]
  }

  /** Base-60 value of a list of decimal fields, most significant first. */
  function Sexagesimal(fields: seq<string>): (n: nat)
  {
    if fields == [] then 0
    else Sexagesimal(fields[..|fields| - 1]) * 60 + ParseDecimal(fields[|fields| - 1])
  }

  /** The number of seconds a "MM:SS" or "HH:MM:SS" label stands for. */
  function ParseClock(s: string): (seconds: nat)
  {
    Sexagesimal(SplitColons(s))
  }

  lemma {:induction false} SplitField(a: string)
    requires ':' !in a
    ensures SplitColons(a) == [a]
    decreases |a|
  {
    if a != [] {
      assert ':' !in a[1..] by {
        forall ch | ch in a[1..] ensures ch in a { }
      }
      SplitField(a[1..]);
      assert [a[0]] + a[1..] == a;
    }
  }

  lemma {:induction false} SplitFirstField(a: string, b: string)
    requires ':' !in a
    ensures SplitColons(a + ":" + b) == [a] + SplitColons(b)
    decreases |a|
  {
    var s := a + ":" + b;
    if a == [] {
      assert s[1..] == b;
    } else {
      assert s[1..] == a[1..] + ":" + b;
      assert ':' !in a[1..] by {
        forall ch | ch in a[1..] ensures ch in a { }
      }
      SplitFirstField(a[1..], b);
      assert [a[0]] + a[1..] == a;
    }
  }

  lemma DigitsHaveNoColon(s: string)
    requires AllDigits(s)
    ensures ':' !in s
  {
  }

  lemma SexagesimalSnoc(fields: seq<string>, f: string)
    ensures Sexagesimal(fields + [f]) == Sexagesimal(fields) * 60 + ParseDecimal(f)
  {
    assert (fields + [f])[..|fields|] == fields;
  }

  /** "MM:SS" reads back as MM * 60 + SS. */
  lemma ParseTwoFields(m: string, s: string)
    requires AllDigits(m) && AllDigits(s)
    ensures ParseClock(m + ":" + s) == ParseDecimal(m) * 60 + ParseDecimal(s)
  {
    DigitsHaveNoColon(m);
    DigitsHaveNoColon(s);
    SplitFirstField(m, s);
    SplitField(s);
    assert SplitColons(m + ":" + s) == [m] + [s];
    SexagesimalSnoc([m], s);
    SexagesimalSnoc([], m);
    assert [] + [m] == [m];
  }

  /** "HH:MM:SS" reads back as (HH * 60 + MM) * 60 + SS. */
  lemma ParseThreeFields(h: string, m: string, s: string)
    requires AllDigits(h) && AllDigits(m) && AllDigits(s)
    ensures ParseClock(h + ":" + m + ":" + s) == (ParseDecimal(h) * 60 + ParseDecimal(m)) * 60 + ParseDecimal(s)
  {
    DigitsHaveNoColon(h);
    DigitsHaveNoColon(m);
    DigitsHaveNoColon(s);
    assert h + ":" + m + ":" + s == h + ":" + (m + ":" + s);
    SplitFirstField(h, m + ":" + s);
    SplitFirstField(m, s);
    SplitField(s);
    assert SplitColons(h + ":" + m + ":" + s) == [h, m] + [s];
    SexagesimalSnoc([h, m], s);
    SexagesimalSnoc([h], m);
    SexagesimalSnoc([], h);
    assert [h] + [m] == [h, m];
    assert [] + [h] == [h];
  }

  // ---------------------------------------------------------------------------------
  // What getPlayerTimeStr promises
  // ---------------------------------------------------------------------------------

  /** Below 3600 hours the label is "MM:SS": five characters, a colon in the middle, and it
      reads back as the time modulo one hour; below one hour, as the time itself. */
  lemma ShortLabel(time: nat)
    requires Fields(time).hour < 3600
    ensures var s := GetPlayerTimeStr(time);
            && |s| == 5 && s[2] == ':'
            && ParseClock(s) == time % 3600
            && (time < 3600 ==> ParseClock(s) == time)
  {
    var c := Fields(time);
    var s := GetPlayerTimeStr(time);
    assert s == Pad(c.minute) + ":" + Pad(c.seconds);
    ParseTwoFields(Pad(c.minute), Pad(c.seconds));
    assert time % 3600 == c.minute * 60 + c.seconds;
  }

  /** From 3600 hours on the label is "HH:MM:SS" and reads back as the time. */
  lemma LongLabel(time: nat)
    requires Fields(time).hour >= 3600
    ensures ParseClock(GetPlayerTimeStr(time)) == time
  {
    var c := Fields(time);
    assert GetPlayerTimeStr(time) == Pad(c.hour) + ":" + Pad(c.minute) + ":" + Pad(c.seconds);
    ParseThreeFields(Pad(c.hour), Pad(c.minute), Pad(c.seconds));
  }

  /** As written, one hour and one minute and one second is labelled like one minute and one
      second: the hour is lost. */
  lemma HourDropped()
    ensures GetPlayerTimeStr(3661) == "01:01"
    ensures GetPlayerTimeStr(61) == "01:01"
    ensures ParseClock(GetPlayerTimeStr(3661)) != 3661
  {
    assert Fields(3661) == Clock(1, 1, 1);
    assert Fields(61) == Clock(0, 1, 1);
    assert DecimalString(1) == "1";
    ShortLabel(3661);
  }

  /** As intended, every label reads back as the time it was made from. */
  lemma IntendedRoundTrip(time: nat)
    ensures ParseClock(GetPlayerTimeStrIntended(time)) == time
  {
    var c := Fields(time);
    if c.hour > 0 {
      assert GetPlayerTimeStrIntended(time) == Pad(c.hour) + ":" + Pad(c.minute) + ":" + Pad(c.seconds);
      ParseThreeFields(Pad(c.hour), Pad(c.minute), Pad(c.seconds));
    } else {
      assert GetPlayerTimeStrIntended(time) == Pad(c.minute) + ":" + Pad(c.seconds);
      ParseTwoFields(Pad(c.minute), Pad(c.seconds));
    }
  }

  /** As intended, different times get different labels. */
  lemma IntendedIsInjective(t1: nat, t2: nat)
    requires GetPlayerTimeStrIntended(t1) == GetPlayerTimeStrIntended(t2)
    ensures t1 == t2
  {
    IntendedRoundTrip(t1);
    IntendedRoundTrip(t2);
  }

  /** The correction changes only the labels from one hour up to 3600 hours. */
  lemma IntendedAgreesOutsideTheGap(time: nat)
    ensures Fields(time).hour == 0 || Fields(time).hour >= 3600 <==>
            GetPlayerTimeStrIntended(time) == GetPlayerTimeStr(time)
  {
    var c := Fields(time);
    if 0 < c.hour < 3600 {
      IntendedRoundTrip(time);
      ShortLabel(time);
    }
  }
}
