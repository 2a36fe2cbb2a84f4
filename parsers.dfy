/** The two command-line string parsers: a duration `"<number><unit>"` and a
    start time `"H:M:S"`, both built on `datetime.strptime`. */
module Parsers {
  import opened Errors
  import opened Strings
  import opened Times

  /** The largest value each directive's pattern accepts: `%H` is
      `2[0-3]|[0-1]\d|\d`, `%M` is `[0-5]\d|\d` and `%S` is `6[0-1]|[0-5]\d|\d`. */
  const HourPatternMax: nat := 23
  const MinutePatternMax: nat := 59
  const SecondPatternMax: nat := 61

  /** What one strptime directive accepts when it must cover `s` entirely:
      one digit, or two digits whose value is at most `max`. */
  function StrptimeField(s: string, max: nat): (r: Option<nat>)
    ensures r.Some? <==> 1 <= |s| <= 2 && AllDigits(s) && (|s| == 1 || DecimalValue(s) <= max)
    ensures r.Some? ==> AllDigits(s) && r.value == DecimalValue(s)
    ensures r.Some? ==> r.value <= max || r.value < 10
  {
    if 1 <= |s| <= 2 && AllDigits(s) && (|s| == 1 || DecimalValue(s) <= max)
    then
      assert |s| == 1 ==> s[..0] == [] && DecimalValue(s) == DigitValue(s[0]);
      Some(DecimalValue(s))
    else None
  }

  /** The `datetime` built from the matched fields: its constructor rejects the
      leap seconds 60 and 61 that the `%S` pattern lets through. */
  function MakeTime(hour: nat, minute: nat, second: nat): (r: Result<Time>)
    requires hour <= HourPatternMax && minute <= MinutePatternMax
    ensures r.Ok? <==> second < 60
    ensures r.Ok? ==> r.value == Time(hour, minute, second, 0) && r.value.Valid()
    ensures r.Err? ==> r.error == ValueError
  {
    if second < 60 then Ok(Time(hour, minute, second, 0)) else Err(ValueError)
  }

  /** `c.lower()` as far as comparing with `h`, `m` or `s` goes: no character
      outside ASCII lowers to one of them. */
  function LowerAscii(c: char): char {
    if 'A' <= c <= 'Z' then (c as int + 32) as char else c
  }

  /** `str2time_duration`: the last character picks the field (h, m or s, in
      either case), the rest is parsed with that field's directive, and the
      other fields of the result are zero. */
  function ParseDuration(duration: Option<string>): (r: Result<Option<Time>>)
    ensures duration.None? <==> r == Ok(None)
    ensures duration == Some("") ==> r == Err(IndexError)
    ensures duration.Some? && |duration.value| > 0 && r.Err? ==> r.error == ValueError
    ensures r.Ok? && r.value.Some? ==> r.value.value.Valid() && r.value.value.microsecond == 0
    ensures duration.Some? && |duration.value| > 0 && r.Ok? ==>
      var d := duration.value;
      var unit := LowerAscii(d[|d| - 1]);
      var t := r.value.value;
      && (unit == 'h' || unit == 'm' || unit == 's')
      && (unit != 'h' ==> t.hour == 0)
      && (unit != 'm' ==> t.minute == 0)
      && (unit != 's' ==> t.second == 0)
      && Some(t.hour + t.minute + t.second) == StrptimeField(d[..|d| - 1], SecondPatternMax)
  {
    match duration
    case None => Ok(None)
    case Some(d) =>
      if |d| == 0 then Err(IndexError)
      else
        var num := d[..|d| - 1];
        var unit := LowerAscii(d[|d| - 1]);
        if unit == 'h' then
          match StrptimeField(num, HourPatternMax)
          case Some(v) => Ok(Some(Time(v, 0, 0, 0)))
          case None => Err(ValueError)
        else if unit == 'm' then
          match StrptimeField(num, MinutePatternMax)
          case Some(v) => Ok(Some(Time(0, v, 0, 0)))
          case None => Err(ValueError)
        else if unit == 's' then
          match StrptimeField(num, SecondPatternMax)
          case Some(v) =>
            (match MakeTime(0, 0, v)
             case Ok(t) => Ok(Some(t))
             case Err(e) => Err(e))
          case None => Err(ValueError)
        else
          Err(ValueError)
  }

  /** `str2time_start_processing_time`: strptime with `'%H:%M:%S'`. Each field
      must be a whole strptime field, so the text splits on `:` into exactly
      three of them. */
  function ParseStartTime(fromTime: Option<string>): (r: Result<Option<Time>>)
    ensures fromTime.None? <==> r == Ok(None)
    ensures r.Ok? && r.value.Some? ==> r.value.value.Valid() && r.value.value.microsecond == 0
    ensures r.Err? ==> r.error == ValueError
  {
    match fromTime
    case None => Ok(None)
    case Some(s) =>
      var parts := Split(s, ':');
      if |parts| != 3 then Err(ValueError)
      else
        match (StrptimeField(parts[0], HourPatternMax),
               StrptimeField(parts[1], MinutePatternMax),
               StrptimeField(parts[2], SecondPatternMax))
        case (Some(h), Some(m), Some(sec)) =>
          (match MakeTime(h, m, sec)
           case Ok(t) => Ok(Some(t))
           case Err(e) => Err(e))
        case _ => Err(ValueError)
  }

  /** Two-digit zero-padded rendering, as `%H`, `%M` and `%S` print a field. */
  function Pad2(n: nat): (s: string)
    requires n < 100
    ensures |s| == 2 && AllDigits(s)
  {
    [DigitChar(n / 10), DigitChar(n % 10)]
  }

  lemma Pad2Value(n: nat)
    requires n < 100
    ensures DecimalValue(Pad2(n)) == n
  {
    var s := Pad2(n);
    assert s[..1] == [DigitChar(n / 10)];
    assert DecimalValue(s[..1]) == n / 10 by {
      assert s[..1][..0] == [];
    }
  }

  /** Any three fields the `%H`, `%M` and `%S` directives accept, joined by
      colons, parse to the time holding their values, provided the second
      is below 60; one-digit fields are accepted as well as two-digit ones. */
  lemma {:induction false} StartTimeFields(p0: string, p1: string, p2: string, h: nat, m: nat, sec: nat)
    requires StrptimeField(p0, HourPatternMax) == Some(h)
    requires StrptimeField(p1, MinutePatternMax) == Some(m)
    requires StrptimeField(p2, SecondPatternMax) == Some(sec) && sec < 60
    ensures ParseStartTime(Some(p0 + ":" + p1 + ":" + p2)) == Ok(Some(Time(h, m, sec, 0)))
  {
    var parts := [p0, p1, p2];
    assert Join(parts, ':') == p0 + ":" + p1 + ":" + p2 by {
      assert Join(parts[2..], ':') == p2;
      assert parts[1..][1..] == parts[2..];
    }
    forall k | 0 <= k < 3 ensures ':' !in parts[k] {
      assert AllDigits(parts[k]);
    }
    SplitJoin(parts, ':');
  }

  /** Every valid whole-second time formatted as `HH:MM:SS` parses back to
      itself. */
  lemma StartTimeRoundTrip(t: Time)
    requires t.Valid() && t.microsecond == 0
    ensures ParseStartTime(Some(Pad2(t.hour) + ":" + Pad2(t.minute) + ":" + Pad2(t.second))) == Ok(Some(t))
  {
    Pad2Value(t.hour);
    Pad2Value(t.minute);
    Pad2Value(t.second);
    StartTimeFields(Pad2(t.hour), Pad2(t.minute), Pad2(t.second), t.hour, t.minute, t.second);
  }

  /** Unpadded fields: `"7:5:3"` is seven hours, five minutes and three
      seconds, as `strptime` reads it. */
  lemma StartTimeUnpadded()
    ensures ParseStartTime(Some("7:5:3")) == Ok(Some(Time(7, 5, 3, 0)))
  {
    StartTimeFields("7", "5", "3", 7, 5, 3);
  }

  /** Conversely, an accepted start time is three colon-separated fields of
      one or two digits holding the hour, minute and second. */
  lemma StartTimeAccepted(s: string, t: Time)
    requires ParseStartTime(Some(s)) == Ok(Some(t))
    ensures var p := Split(s, ':');
      && |p| == 3
      && s == p[0] + ":" + p[1] + ":" + p[2]
      && StrptimeField(p[0], HourPatternMax) == Some(t.hour)
      && StrptimeField(p[1], MinutePatternMax) == Some(t.minute)
      && StrptimeField(p[2], SecondPatternMax) == Some(t.second)
  {
    var p := Split(s, ':');
    JoinSplit(s, ':');
    assert Join(p[2..], ':') == p[2];
    assert p[1..][1..] == p[2..];
    assert Join(p[1..], ':') == p[1] + [':'] + p[2];
  }

  /** The largest value the directive chosen by `unit` accepts. */
  function UnitPatternMax(unit: char): nat {
    if LowerAscii(unit) == 'h' then HourPatternMax
    else if LowerAscii(unit) == 'm' then MinutePatternMax
    else SecondPatternMax
  }

  /** A prefix the unit's directive accepts as `v` sets exactly that field to
      `v`, for either case of the unit; seconds must also be below 60. */
  lemma DurationField(num: string, unit: char, v: nat)
    requires LowerAscii(unit) == 'h' || LowerAscii(unit) == 'm' || LowerAscii(unit) == 's'
    requires StrptimeField(num, UnitPatternMax(unit)) == Some(v)
    requires LowerAscii(unit) == 's' ==> v < 60
    ensures ParseDuration(Some(num + [unit])) ==
      Ok(Some(if LowerAscii(unit) == 'h' then Time(v, 0, 0, 0)
              else if LowerAscii(unit) == 'm' then Time(0, v, 0, 0)
              else Time(0, 0, v, 0)))
  {
  }

  /** The text `"<n>h"`, `"<n>m"` or `"<n>s"` with n written in two digits
      sets exactly that field to n, up to 23 hours, 59 minutes or 59 seconds. */
  lemma DurationRoundTrip(n: nat, unit: char)
    requires unit == 'h' || unit == 'm' || unit == 's'
    requires n < (if unit == 'h' then 24 else 60)
    ensures ParseDuration(Some(Pad2(n) + [unit])) ==
      Ok(Some(if unit == 'h' then Time(n, 0, 0, 0)
              else if unit == 'm' then Time(0, n, 0, 0)
              else Time(0, 0, n, 0)))
  {
    var d := Pad2(n) + [unit];
    assert d[..|d| - 1] == Pad2(n);
    Pad2Value(n);
  }

  /** A unit character other than h, m or s, in either case, is rejected with
      `ValueError`, whatever precedes it. */
  lemma DurationBadUnit(num: string, unit: char)
    requires LowerAscii(unit) != 'h' && LowerAscii(unit) != 'm' && LowerAscii(unit) != 's'
    ensures ParseDuration(Some(num + [unit])) == Err(ValueError)
  {
    var d := num + [unit];
    assert d[|d| - 1] == unit;
  }

  /** The cases the repository's tests check, and the edges next to them. */
  lemma DurationExamples()
    ensures ParseDuration(Some("10h")) == Ok(Some(Time(10, 0, 0, 0)))
    ensures ParseDuration(Some("10M")) == Ok(Some(Time(0, 10, 0, 0)))
    ensures ParseDuration(Some("10s")) == Ok(Some(Time(0, 0, 10, 0)))
    ensures ParseDuration(Some("5s")) == Ok(Some(Time(0, 0, 5, 0)))
    ensures ParseDuration(Some("0s")) == Ok(Some(Time(0, 0, 0, 0)))
    ensures ParseDuration(Some("1q")) == Err(ValueError)
    ensures ParseDuration(Some("lala")) == Err(ValueError)
    ensures ParseDuration(Some("h")) == Err(ValueError)
    ensures ParseDuration(Some("24h")) == Err(ValueError)
    ensures ParseDuration(Some("60s")) == Err(ValueError)
    ensures ParseDuration(Some("")) == Err(IndexError)
  {
    assert "10h"[..2] == "10";
    assert "10M"[..2] == "10";
    assert "10s"[..2] == "10";
    assert "5s"[..1] == "5";
    assert "0s"[..1] == "0";
    assert "h"[..0] == "";
    assert "24h"[..2] == "24";
    assert "60s"[..2] == "60";
    assert DecimalValue("10") == 10 by { assert "10"[..1] == "1"; }
    assert DecimalValue("24") == 24 by { assert "24"[..1] == "2"; }
    assert DecimalValue("60") == 60 by { assert "60"[..1] == "6"; }
  }
}
