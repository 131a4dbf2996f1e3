/**
 * The part of Python's `datetime.strptime` / `strftime` the importers rely
 * on: reading `%Y-%m-%d %H:%M:%S`, `%Y%m%d` and `%H:%M:%S`, checking the
 * values the way the `datetime` constructor does, and writing the ISO 8601
 * extended forms `YYYY-MM-DD` (calendar date) and `hh:mm:ss` (time of day).
 */
module Calendar {
  import opened Wrappers
  import opened Text

  datatype Date = Date(year: nat, month: nat, day: nat)
  datatype Time = Time(hour: nat, minute: nat, second: nat)

  /** Gregorian leap years, as the `datetime` module counts them. */
  predicate IsLeapYear(y: nat)
  {
    y % 4 == 0 && (y % 100 != 0 || y % 400 == 0)
  }

  function DaysInMonth(y: nat, m: nat): nat
    requires 1 <= m <= 12
  {
    if m == 2 then (if IsLeapYear(y) then 29 else 28)
    else if m == 4 || m == 6 || m == 9 || m == 11 then 30
    else 31
  }

  /** What `datetime.date` accepts: years 1 to 9999 and a day that exists in its month. */
  predicate ValidDate(d: Date)
  {
    1 <= d.year <= 9999 && 1 <= d.month <= 12 && 1 <= d.day <= DaysInMonth(d.year, d.month)
  }

  /** What `datetime.time` accepts (no leap second). */
  predicate ValidTime(t: Time)
  {
    t.hour < 24 && t.minute < 60 && t.second < 60
  }

  predicate IsDigit(c: char)
  {
    '0' <= c <= '9'
  }

  predicate AllDigits(s: string)
  {
    forall k :: 0 <= k < |s| ==> IsDigit(s[k])
  }

  function DigitChar(k: nat): (c: char)
    requires k < 10
    ensures IsDigit(c)
  {
    ('0' as int + k) as char
  }

  /** The number an ASCII decimal string denotes. */
  function ValueOf(s: string): nat
    requires AllDigits(s)
  {
    if s == [] then 0 else ValueOf(s[..|s| - 1]) * 10 + (s[|s| - 1] as int - '0' as int)
  }

  function Pow10(w: nat): nat
  {
    if w == 0 then 1 else 10 * Pow10(w - 1)
  }

  /** `n` written with exactly `w` decimal digits, zero-padded on the left (strftime's `%Y`, `%m`, ...). */
  function Digits(n: nat, w: nat): (r: string)
    ensures |r| == w && AllDigits(r)
  {
    if w == 0 then [] else Digits(n / 10, w - 1) + [DigitChar(n % 10)]
  }

  /** Reading back a zero-padded rendering gives the number again. */
  lemma {:induction false} ValueOfDigits(n: nat, w: nat)
    requires n < Pow10(w)
    ensures ValueOf(Digits(n, w)) == n
  {
    if w > 0 {
      var r := Digits(n, w);
      assert r[..w - 1] == Digits(n / 10, w - 1);
      ValueOfDigits(n / 10, w - 1);
    }
  }

  /** Rendering a digit string's value in as many digits as it had gives the string back. */
  lemma {:induction false} DigitsOfValue(s: string)
    requires AllDigits(s)
    ensures Digits(ValueOf(s), |s|) == s
  {
    if s != [] {
      var init := s[..|s| - 1];
      var d := s[|s| - 1] as int - '0' as int;
      DigitsOfValue(init);
      var n := ValueOf(s);
      assert n == ValueOf(init) * 10 + d;
      assert n / 10 == ValueOf(init) && n % 10 == d;
      assert s == init + [s[|s| - 1]];
    }
  }

  /**
   * One numeric strptime directive: between `minLen` and `maxLen` ASCII
   * digits whose value lies in `lo..hi`.
   */
  function Field(f: string, minLen: nat, maxLen: nat, lo: nat, hi: nat): (r: Option<nat>)
    ensures r.Some? <==> minLen <= |f| <= maxLen && AllDigits(f) && lo <= ValueOf(f) <= hi
    ensures r.Some? ==> r.value == ValueOf(f)
  {
    if minLen <= |f| <= maxLen && AllDigits(f) && lo <= ValueOf(f) <= hi then Some(ValueOf(f)) else None
  }

  /**
   * strptime's `%Y-%m-%d`: a four-digit year, then a month and a day of one
   * or two digits each; the pattern admits days up to 31, and the date
   * constructor then rejects a day its month does not have.
   */
  function ParseDashedDate(s: string): (r: Option<Date>)
    ensures r.Some? ==> ValidDate(r.value)
  {
    var f := Split(s, '-');
    if |f| != 3 then None
    else match (Field(f[0], 4, 4, 1, 9999), Field(f[1], 1, 2, 1, 12), Field(f[2], 1, 2, 1, 31))
      case (Some(y), Some(m), Some(d)) =>
        if d <= DaysInMonth(y, m) then Some(Date(y, m, d)) else None
      case _ => None
  }

  /**
   * strptime's `%H:%M:%S`: three fields of one or two digits. The pattern
   * admits seconds 60 and 61, which the time constructor then rejects, so
   * the accepted seconds are 0..59.
   */
  function ParseClockTime(s: string): (r: Option<Time>)
    ensures r.Some? ==> ValidTime(r.value)
  {
    var f := Split(s, ':');
    if |f| != 3 then None
    else match (Field(f[0], 1, 2, 0, 23), Field(f[1], 1, 2, 0, 59), Field(f[2], 1, 2, 0, 59))
      case (Some(h), Some(mi), Some(se)) => Some(Time(h, mi, se))
      case _ => None
  }

  /** strptime's `%Y-%m-%d %H:%M:%S`, with one space between date and time. */
  function ParseDatetime(s: string): (r: Option<(Date, Time)>)
    ensures r.Some? ==> ValidDate(r.value.0) && ValidTime(r.value.1)
  {
    var halves := Split(s, ' ');
    if |halves| != 2 then None
    else match (ParseDashedDate(halves[0]), ParseClockTime(halves[1]))
      case (Some(d), Some(t)) => Some((d, t))
      case _ => None
  }

  /** strptime's `%Y%m%d` on eight ASCII digits. */
  function ParseCompactDate(s: string): (r: Option<Date>)
    ensures r.Some? ==> ValidDate(r.value)
  {
    if |s| != 8 then None
    else match (Field(s[..4], 4, 4, 1, 9999), Field(s[4..6], 2, 2, 1, 12), Field(s[6..], 2, 2, 1, 31))
      case (Some(y), Some(m), Some(d)) =>
        if d <= DaysInMonth(y, m) then Some(Date(y, m, d)) else None
      case _ => None
  }

  /** The shape of an ISO 8601 extended calendar date `YYYY-MM-DD`. */
  predicate IsIsoDate(x: string)
  {
    |x| == 10 && AllDigits(x[..4]) && x[4] == '-' && AllDigits(x[5..7]) && x[7] == '-' && AllDigits(x[8..])
  }

  /** The shape of an ISO 8601 extended time of day `hh:mm:ss`. */
  predicate IsIsoTime(x: string)
  {
    |x| == 8 && AllDigits(x[..2]) && x[2] == ':' && AllDigits(x[3..5]) && x[5] == ':' && AllDigits(x[6..])
  }

  /** strftime's `%Y-%m-%d`. */
  function FormatDate(d: Date): (x: string)
    ensures IsIsoDate(x)
  {
    var x := Digits(d.year, 4) + "-" + Digits(d.month, 2) + "-" + Digits(d.day, 2);
    assert x[..4] == Digits(d.year, 4) && x[5..7] == Digits(d.month, 2) && x[8..] == Digits(d.day, 2);
    x
  }

  /** strftime's `%H:%M:%S`. */
  function FormatTime(t: Time): (x: string)
    ensures IsIsoTime(x)
  {
    var x := Digits(t.hour, 2) + ":" + Digits(t.minute, 2) + ":" + Digits(t.second, 2);
    assert x[..2] == Digits(t.hour, 2) && x[3..5] == Digits(t.minute, 2) && x[6..] == Digits(t.second, 2);
    x
  }

  /**
   * `_expand_datetime` of the Alipay and WeChat importers: parse
   * `%Y-%m-%d %H:%M:%S`, then render the date and the time in their ISO
   * forms; `None` where strptime raises.
   */
  function ExpandDatetime(s: string): (r: Option<(string, string)>)
    ensures r.Some? <==> ParseDatetime(s).Some?
    ensures r.Some? ==> IsIsoDate(r.value.0) && IsIsoTime(r.value.1)
    ensures r.Some? ==> ParseDatetime(r.value.0 + " " + r.value.1) == ParseDatetime(s)
  {
    match ParseDatetime(s)
    case Some((d, t)) =>
      ParseRenderedDatetime(d, t);
      Some((FormatDate(d), FormatTime(t)))
    case None => None
  }

  /** `_expand_date` of the bank importer: `YYYYMMDD` to `YYYY-MM-DD`; `None` where strptime raises. */
  function ExpandDate(s: string): (r: Option<string>)
    ensures r.Some? <==> ParseCompactDate(s).Some?
    ensures r.Some? ==> IsIsoDate(r.value) && r.value == s[..4] + "-" + s[4..6] + "-" + s[6..]
    ensures r.Some? ==> ParseDashedDate(r.value) == ParseCompactDate(s)
  {
    match ParseCompactDate(s)
    case Some(d) =>
      ParseFormattedDate(d);
      DigitsOfValue(s[..4]);
      DigitsOfValue(s[4..6]);
      DigitsOfValue(s[6..]);
      Some(FormatDate(d))
    case None => None
  }

  /** `_expand_time` of the bank importer: re-render `%H:%M:%S` zero-padded; `None` where strptime raises. */
  function ExpandTime(s: string): (r: Option<string>)
    ensures r.Some? <==> ParseClockTime(s).Some?
    ensures r.Some? ==> IsIsoTime(r.value)
    ensures r.Some? ==> ParseClockTime(r.value) == ParseClockTime(s)
  {
    match ParseClockTime(s)
    case Some(t) =>
      ParseFormattedTime(t);
      Some(FormatTime(t))
    case None => None
  }

  /** A rendered field contains no separator character. */
  lemma DigitsHaveNoSeparator(n: nat, w: nat, sep: char)
    requires !IsDigit(sep)
    ensures sep !in Digits(n, w)
  {
  }

  /** Parsing the rendering of a valid date gives the date back. */
  lemma ParseFormattedDate(d: Date)
    requires ValidDate(d)
    ensures ParseDashedDate(FormatDate(d)) == Some(d)
  {
    PaddedFields(d.year, 4, 1, 9999);
    PaddedFields(d.month, 2, 1, 12);
    PaddedFields(d.day, 2, 1, 31);
    ParseDashedFields(Digits(d.year, 4), Digits(d.month, 2), Digits(d.day, 2), d);
  }

  /** Parsing the rendering of a valid time gives the time back. */
  lemma ParseFormattedTime(t: Time)
    requires ValidTime(t)
    ensures ParseClockTime(FormatTime(t)) == Some(t)
  {
    PaddedFields(t.hour, 2, 0, 23);
    PaddedFields(t.minute, 2, 0, 59);
    PaddedFields(t.second, 2, 0, 59);
    ParseClockFields(Digits(t.hour, 2), Digits(t.minute, 2), Digits(t.second, 2), t);
  }

  /** A zero-padded field reads back as its value and holds no separator. */
  lemma PaddedFields(n: nat, w: nat, lo: nat, hi: nat)
    requires lo <= n <= hi < Pow10(w) && 1 <= w <= 4
    ensures Field(Digits(n, w), w, w, lo, hi) == Some(n)
    ensures 1 <= w <= 2 ==> Field(Digits(n, w), 1, 2, lo, hi) == Some(n)
    ensures '-' !in Digits(n, w) && ':' !in Digits(n, w) && ' ' !in Digits(n, w)
  {
    ValueOfDigits(n, w);
  }

  /** Three dash-free fields that read as `d`'s year, month and day, joined by dashes, parse as `d`. */
  lemma ParseDashedFields(y: string, m: string, dd: string, d: Date)
    requires '-' !in y && '-' !in m && '-' !in dd
    requires Field(y, 4, 4, 1, 9999) == Some(d.year)
    requires Field(m, 1, 2, 1, 12) == Some(d.month)
    requires Field(dd, 1, 2, 1, 31) == Some(d.day)
    requires d.day <= DaysInMonth(d.year, d.month)
    ensures ParseDashedDate(y + "-" + m + "-" + dd) == Some(d)
  {
    var parts := [y, m, dd];
    Join3(parts, '-');
    SplitJoin(parts, '-');
  }

  /**
   * Round trip of `_expand_datetime`: a valid date and time written as
   * `%Y-%m-%d %H:%M:%S` come back as the two halves on either side of the space.
   */
  lemma ExpandDatetimeOfRendered(d: Date, t: Time)
    requires ValidDate(d) && ValidTime(t)
    ensures ExpandDatetime(FormatDate(d) + " " + FormatTime(t)) == Some((FormatDate(d), FormatTime(t)))
  {
    ParseRenderedDatetime(d, t);
  }

  /** A valid date and time written as `%Y-%m-%d %H:%M:%S` parse back as themselves. */
  lemma {:induction false} ParseRenderedDatetime(d: Date, t: Time)
    requires ValidDate(d) && ValidTime(t)
    ensures ParseDatetime(FormatDate(d) + " " + FormatTime(t)) == Some((d, t))
  {
    var x, y := FormatDate(d), FormatTime(t);
    DigitsHaveNoSeparator(d.year, 4, ' ');
    DigitsHaveNoSeparator(d.month, 2, ' ');
    DigitsHaveNoSeparator(d.day, 2, ' ');
    DigitsHaveNoSeparator(t.hour, 2, ' ');
    DigitsHaveNoSeparator(t.minute, 2, ' ');
    DigitsHaveNoSeparator(t.second, 2, ' ');
    Join2([x, y], ' ');
    SplitJoin([x, y], ' ');
    ParseFormattedDate(d);
    ParseFormattedTime(t);
  }

  /**
   * On zero-padded input (19 characters) `_expand_datetime` is exactly the
   * split at the space: whatever it accepts comes back unchanged.
   */
  lemma {:induction false} ExpandDatetimeOfPadded(s: string)
    requires ExpandDatetime(s).Some? && |s| == 19
    ensures ExpandDatetime(s).value == (s[..10], s[11..])
  {
    var halves := Split(s, ' ');
    SplitIsJoinInverse(s, ' ');
    Join2(halves, ' ');
    var f := Split(halves[0], '-');
    var g := Split(halves[1], ':');
    SplitIsJoinInverse(halves[0], '-');
    SplitIsJoinInverse(halves[1], ':');
    Join3(f, '-');
    Join3(g, ':');
    assert |f[1]| == 2 && |f[2]| == 2 && |g[0]| == 2 && |g[1]| == 2 && |g[2]| == 2;
    DigitsOfValue(f[0]);
    DigitsOfValue(f[1]);
    DigitsOfValue(f[2]);
    DigitsOfValue(g[0]);
    DigitsOfValue(g[1]);
    DigitsOfValue(g[2]);
    assert s[..10] == halves[0];
    assert s[11..] == halves[1];
  }

  /** `_expand_date` of a valid date's eight digits is that date's ISO rendering. */
  lemma {:induction false} ExpandDateOfRendered(d: Date)
    requires ValidDate(d)
    ensures ExpandDate(Digits(d.year, 4) + Digits(d.month, 2) + Digits(d.day, 2)) == Some(FormatDate(d))
  {
    var s := Digits(d.year, 4) + Digits(d.month, 2) + Digits(d.day, 2);
    assert s[..4] == Digits(d.year, 4) && s[4..6] == Digits(d.month, 2) && s[6..] == Digits(d.day, 2);
    ValueOfDigits(d.year, 4);
    ValueOfDigits(d.month, 2);
    ValueOfDigits(d.day, 2);
  }

  /** A time field written without a leading zero, as strptime also accepts it. */
  function Unpadded(n: nat): string
  {
    Digits(n, if n < 10 then 1 else 2)
  }

  /** `_expand_time` zero-pads a time written with one-digit fields. */
  lemma {:induction false} ExpandTimePads(t: Time)
    requires ValidTime(t)
    ensures ExpandTime(Unpadded(t.hour) + ":" + Unpadded(t.minute) + ":" + Unpadded(t.second)) == Some(FormatTime(t))
  {
    ParseUnpaddedTime(t);
  }

  /** strptime reads one-digit time fields as their values. */
  lemma ParseUnpaddedTime(t: Time)
    requires ValidTime(t)
    ensures ParseClockTime(Unpadded(t.hour) + ":" + Unpadded(t.minute) + ":" + Unpadded(t.second)) == Some(t)
  {
    UnpaddedFields(t);
    ParseClockFields(Unpadded(t.hour), Unpadded(t.minute), Unpadded(t.second), t);
  }

  /** The three fields of a time written without leading zeros read back as its values. */
  lemma UnpaddedFields(t: Time)
    requires ValidTime(t)
    ensures ':' !in Unpadded(t.hour) && Field(Unpadded(t.hour), 1, 2, 0, 23) == Some(t.hour)
    ensures ':' !in Unpadded(t.minute) && Field(Unpadded(t.minute), 1, 2, 0, 59) == Some(t.minute)
    ensures ':' !in Unpadded(t.second) && Field(Unpadded(t.second), 1, 2, 0, 59) == Some(t.second)
  {
    hide Unpadded;
    hide Field;
    UnpaddedField(t.hour, 23);
    UnpaddedField(t.minute, 59);
    UnpaddedField(t.second, 59);
  }

  /** Three colon-free fields that read as `t`'s hour, minute and second, joined by colons, parse as `t`. */
  lemma ParseClockFields(h: string, mi: string, se: string, t: Time)
    requires ':' !in h && ':' !in mi && ':' !in se
    requires Field(h, 1, 2, 0, 23) == Some(t.hour)
    requires Field(mi, 1, 2, 0, 59) == Some(t.minute)
    requires Field(se, 1, 2, 0, 59) == Some(t.second)
    ensures ParseClockTime(h + ":" + mi + ":" + se) == Some(t)
  {
    var parts := [h, mi, se];
    Join3(parts, ':');
    SplitJoin(parts, ':');
  }

  /** A field written without its leading zero reads back as its value and holds no colon. */
  lemma UnpaddedField(n: nat, hi: nat)
    requires n <= hi < 100
    ensures Field(Unpadded(n), 1, 2, 0, hi) == Some(n)
    ensures ':' !in Unpadded(n)
  {
    var w := if n < 10 then 1 else 2;
    assert Pow10(1) == 10 && Pow10(2) == 100;
    ValueOfDigits(n, w);
    DigitsHaveNoSeparator(n, w, ':');
  }

  /** On zero-padded input (eight characters) `_expand_time` gives its input back. */
  lemma {:induction false} ExpandTimeOfPadded(s: string)
    requires ExpandTime(s).Some? && |s| == 8
    ensures ExpandTime(s).value == s
  {
    var g := Split(s, ':');
    SplitIsJoinInverse(s, ':');
    Join3(g, ':');
    assert |g[0]| == 2 && |g[1]| == 2 && |g[2]| == 2;
    DigitsOfValue(g[0]);
    DigitsOfValue(g[1]);
    DigitsOfValue(g[2]);
  }
}
