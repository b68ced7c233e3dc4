/** The Alphapoc time broadcast: one message with the UTC time and one with
    the local time, each in the fixed Alphapoc date format. Time-zone
    conversion is done by the caller, who passes the calendar fields of the
    same instant in UTC and in its own zone. */
module AlphapocTimeMessageFactory {
  import opened Common
  import opened CoreMessages

  const UtcAddress := 216
  const LocalAddress := 224

  /** The quoted literal that opens `DATE_FORMATTER_ALPHAPOC`. */
  const Header := "YYYYMMDDHHMMSS"

  /** The calendar fields of a `ZonedDateTime` that the pattern prints. */
  datatype DateTime = DateTime(year: int, month: int, day: int, hour: int, minute: int)

  predicate ValidDateTime(d: DateTime)
  {
    1 <= d.month <= 12 && 1 <= d.day <= 31 && 0 <= d.hour < 24 && 0 <= d.minute < 60
  }

  /** Pattern letter `y` prints the year of era, which is never below 1. */
  function YearOfEra(year: int): (r: int)
    ensures r >= 1
    ensures year >= 1 ==> r == year
  {
    if year >= 1 then year else 1 - year
  }

  predicate IsDigit(c: char) { '0' <= c <= '9' }

  function DigitValue(c: char): int { c as int - '0' as int }

  /** Two-digit zero-padded decimal, as `yy`, `MM`, `dd`, `HH`, `mm` print. */
  function TwoDigits(n: int): (s: string)
    requires 0 <= n < 100
    ensures |s| == 2 && IsDigit(s[0]) && IsDigit(s[1])
    ensures DigitValue(s[0]) * 10 + DigitValue(s[1]) == n
  {
    [('0' as int + n / 10) as char, ('0' as int + n % 10) as char]
  }

  /** The value a two-digit field reads as. */
  function ReadTwoDigits(s: string, at: nat): int
    requires at + 2 <= |s|
  {
    DigitValue(s[at]) * 10 + DigitValue(s[at + 1])
  }

  /** `'YYYYMMDDHHMMSS'yyMMddHHmm'00'` applied to a date-time. */
  function Format(d: DateTime): (s: string)
    requires ValidDateTime(d)
    ensures |s| == 26
    ensures s[..14] == Header && s[24..] == "00"
    ensures forall i :: 14 <= i < 24 ==> IsDigit(s[i])
  {
    Header + TwoDigits(YearOfEra(d.year) % 100) + TwoDigits(d.month) + TwoDigits(d.day)
      + TwoDigits(d.hour) + TwoDigits(d.minute) + "00"
  }

  /** Reading the digit fields back out of the text gives the two-digit year,
      month, day, hour and minute that went in. */
  lemma ReadBack(d: DateTime)
    requires ValidDateTime(d)
    ensures var s := Format(d);
      ReadTwoDigits(s, 14) == YearOfEra(d.year) % 100 &&
      ReadTwoDigits(s, 16) == d.month && ReadTwoDigits(s, 18) == d.day &&
      ReadTwoDigits(s, 20) == d.hour && ReadTwoDigits(s, 22) == d.minute
  {
    var y, mo, da, h, mi := TwoDigits(YearOfEra(d.year) % 100), TwoDigits(d.month),
      TwoDigits(d.day), TwoDigits(d.hour), TwoDigits(d.minute);
    var s := Format(d);
    assert s == Header + y + mo + da + h + mi + "00";
    assert s[14] == y[0] && s[15] == y[1];
    assert s[16] == mo[0] && s[17] == mo[1];
    assert s[18] == da[0] && s[19] == da[1];
    assert s[20] == h[0] && s[21] == h[1];
    assert s[22] == mi[0] && s[23] == mi[1];
  }

  /** Two date-times print alike exactly when they agree on every printed
      field (the year only in its last two digits of era). */
  lemma FormatInjective(a: DateTime, b: DateTime)
    requires ValidDateTime(a) && ValidDateTime(b)
    ensures Format(a) == Format(b) <==>
      YearOfEra(a.year) % 100 == YearOfEra(b.year) % 100 && a.month == b.month &&
      a.day == b.day && a.hour == b.hour && a.minute == b.minute
  {
    ReadBack(a);
    ReadBack(b);
  }

  /** `createMessage`: the UTC message first, then the local-time one, both
      TIME priority, sub-address D, alphanumeric. */
  function CreateMessage(utc: DateTime, local: DateTime): (r: seq<PagerMessage>)
    requires ValidDateTime(utc) && ValidDateTime(local)
    ensures |r| == 2
    ensures r[0].address == UtcAddress && r[1].address == LocalAddress
    ensures forall k :: 0 <= k < 2 ==>
      r[k].priority == TIME && r[k].subAddress == ADDR_D && r[k].contentType == ALPHANUMERIC &&
      |r[k].text| == 26 && r[k].text[..14] == Header && r[k].text[24..] == "00"
    ensures r[0].text == Format(utc) && r[1].text == Format(local)
  {
    [PagerMessage(None, TIME, UtcAddress, ADDR_D, ALPHANUMERIC, Format(utc)),
     PagerMessage(None, TIME, LocalAddress, ADDR_D, ALPHANUMERIC, Format(local))]
  }

  /** The two texts share the header and the seconds suffix and can differ
      only in the ten date/time digits; when the zone is UTC itself they
      are equal. */
  lemma TextsDifferOnlyInDigits(utc: DateTime, local: DateTime)
    requires ValidDateTime(utc) && ValidDateTime(local)
    ensures var r := CreateMessage(utc, local);
      r[0].text[..14] == r[1].text[..14] && r[0].text[24..] == r[1].text[24..] &&
      (forall i :: 0 <= i < 26 && r[0].text[i] != r[1].text[i] ==> 14 <= i < 24) &&
      (utc == local ==> r[0].text == r[1].text)
  {
    var r := CreateMessage(utc, local);
    forall i | 0 <= i < 14 ensures r[0].text[i] == r[1].text[i] {
      assert r[0].text[i] == r[0].text[..14][i];
      assert r[1].text[i] == r[1].text[..14][i];
    }
    forall i | 24 <= i < 26 ensures r[0].text[i] == r[1].text[i] {
      assert r[0].text[i] == r[0].text[24..][i - 24];
      assert r[1].text[i] == r[1].text[24..][i - 24];
    }
  }

  /** A worked example: 2024-03-07 09:05 UTC, 10:05 at UTC+1. */
  lemma Example()
    ensures var r := CreateMessage(DateTime(2024, 3, 7, 9, 5), DateTime(2024, 3, 7, 10, 5));
      r[0].text == "YYYYMMDDHHMMSS2403070905" + "00" &&
      r[1].text == "YYYYMMDDHHMMSS2403071005" + "00"
  {
  }
}
