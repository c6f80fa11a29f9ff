/**
 * Names of new credentials: `<provider id>-<UTC timestamp>-<four hex digits>`. Splunk and Datadog
 * format the time to milliseconds, SonarQube and PagerDuty to seconds.
 */
module Names {
  import opened Collections

  datatype Resolution = Seconds | Millis

  /** A UTC time as the fields the layouts print. */
  datatype Civil = Civil(year: nat, month: nat, day: nat, hour: nat, minute: nat, second: nat, milli: nat) {
    /** Years 0 to 9999 are the ones the layouts print with a fixed width. */
    predicate Valid() {
      && year < 10000 && 1 <= month <= 12 && 1 <= day <= 31
      && hour < 24 && minute < 60 && second < 60 && milli < 1000
    }

    function Truncate(res: Resolution): Civil {
      if res == Seconds then this.(milli := 0) else this
    }
  }

  datatype Parts = Parts(providerId: string, time: Civil, r0: byte, r1: byte)

  // ---- Printing ----------------------------------------------------------------------------

  /** The last `width` decimal digits of n. */
  function Digits(n: nat, width: nat): (s: string)
    ensures |s| == width
  {
    if width == 0 then "" else Digits(n / 10, width - 1) + ["0123456789"[n % 10]]
  }

  function Hex(b: byte): string {
    ["0123456789abcdef"[b / 16], "0123456789abcdef"[b % 16]]
  }

  function Format(t: Civil, res: Resolution): (s: string)
    ensures |s| == Width(res)
  {
    Digits(t.year, 4) + Digits(t.month, 2) + Digits(t.day, 2) + "T"
    + Digits(t.hour, 2) + Digits(t.minute, 2) + Digits(t.second, 2)
    + (if res == Seconds then "" else "." + Digits(t.milli, 3)) + "Z"
  }

  function Width(res: Resolution): nat {
    if res == Seconds then 16 else 20
  }

  function Name(p: Parts, res: Resolution): string {
    p.providerId + "-" + Format(p.time, res) + "-" + (Hex(p.r0) + Hex(p.r1))
  }

  // ---- Reading back ------------------------------------------------------------------------

  function DigitValue(c: char): nat {
    if '0' <= c <= '9' then (c - '0') as nat
    else if 'a' <= c <= 'f' then (c - 'a') as nat + 10
    else 0
  }

  function Value(s: string): nat {
    if s == "" then 0 else 10 * Value(s[..|s| - 1]) + DigitValue(s[|s| - 1])
  }

  function HexValue(s: string): byte
    requires |s| == 2
  {
    var v := 16 * DigitValue(s[0]) + DigitValue(s[1]);
    if v < 256 then v else 0
  }

  function ReadTime(s: string, res: Resolution): Civil
    requires |s| == Width(res)
  {
    Civil(Value(s[0..4]), Value(s[4..6]), Value(s[6..8]), Value(s[9..11]), Value(s[11..13]), Value(s[13..15]),
          if res == Seconds then 0 else Value(s[16..19]))
  }

  /** Splits a name by position from its end, where every width is fixed. */
  function Read(name: string, res: Resolution): Option<Parts> {
    var w := Width(res);
    if |name| < w + 6 then None
    else
      var n := |name| - w - 6;
      Some(Parts(name[..n], ReadTime(name[n + 1..n + 1 + w], res),
                 HexValue(name[n + w + 2..n + w + 4]), HexValue(name[n + w + 4..])))
  }

  function Pow10(width: nat): nat {
    if width == 0 then 1 else 10 * Pow10(width - 1)
  }

  lemma {:induction false} DigitsRoundTrip(n: nat, width: nat)
    requires n < Pow10(width)
    ensures Value(Digits(n, width)) == n
  {
    if width > 0 {
      DigitsRoundTrip(n / 10, width - 1);
      var s := Digits(n, width);
      assert s[..|s| - 1] == Digits(n / 10, width - 1);
      assert "0123456789"[n % 10] == '0' + (n % 10) as char;
    }
  }

  lemma HexRoundTrip(b: byte)
    ensures |Hex(b)| == 2 && HexValue(Hex(b)) == b
  {
    var digits := "0123456789abcdef";
    assert forall i :: 0 <= i < 16 ==> DigitValue(digits[i]) == i;
  }

  lemma FieldsOfFormat(t: Civil, res: Resolution)
    ensures var s := Format(t, res);
      && s[0..4] == Digits(t.year, 4) && s[4..6] == Digits(t.month, 2) && s[6..8] == Digits(t.day, 2)
      && s[9..11] == Digits(t.hour, 2) && s[11..13] == Digits(t.minute, 2) && s[13..15] == Digits(t.second, 2)
      && (res == Millis ==> s[16..19] == Digits(t.milli, 3))
  {
  }

  lemma TimeRoundTrip(t: Civil, res: Resolution)
    requires t.Valid()
    ensures ReadTime(Format(t, res), res) == t.Truncate(res)
  {
    FieldsOfFormat(t, res);
    assert Pow10(2) == 100 && Pow10(3) == 1000 && Pow10(4) == 10000;
    DigitsRoundTrip(t.year, 4);
    DigitsRoundTrip(t.month, 2);
    DigitsRoundTrip(t.day, 2);
    DigitsRoundTrip(t.hour, 2);
    DigitsRoundTrip(t.minute, 2);
    DigitsRoundTrip(t.second, 2);
    DigitsRoundTrip(t.milli, 3);
  }

  // ---- The alphabets and the layout --------------------------------------------------------

  /** The digits are those of the ASCII table, in its order. */
  lemma DecimalAlphabet(n: nat)
    requires n < 10
    ensures Digits(n, 1) == ['0' + n as char] && DigitValue(Digits(n, 1)[0]) == n
  {
    assert Digits(n / 10, 0) == "";
    assert "0123456789"[n] == '0' + n as char;
  }

  /** Lower-case hexadecimal, high digit first: 16 symbols in the order of the ASCII table. */
  lemma HexAlphabet(b: byte, c: byte)
    ensures forall i :: 0 <= i < 2 ==> '0' <= Hex(b)[i] <= '9' || 'a' <= Hex(b)[i] <= 'f'
    ensures b / 16 < c / 16 ==> Hex(b)[0] < Hex(c)[0]
    ensures b % 16 < c % 16 ==> Hex(b)[1] < Hex(c)[1]
  {
    var digits := "0123456789abcdef";
    assert forall i :: 0 <= i < 16 ==> '0' <= digits[i] <= '9' || 'a' <= digits[i] <= 'f';
    assert forall i, j :: 0 <= i < j < 16 ==> digits[i] < digits[j];
  }

  lemma ValueSnoc(a: string, c: char)
    ensures Value(a + [c]) == 10 * Value(a) + DigitValue(c)
  {
    assert (a + [c])[..|a|] == a;
  }

  lemma AppendTwo(a: string, n: nat)
    requires n < 100
    ensures Value(a + Digits(n, 2)) == 100 * Value(a) + n
  {
    var s := Digits(n, 2);
    DecimalAlphabet(n / 10);
    DecimalAlphabet(n % 10);
    assert s == Digits(n / 10, 1) + ["0123456789"[n % 10]];
    assert s[0] == '0' + (n / 10) as char && s[1] == '0' + (n % 10) as char;
    ValueSnoc(a, s[0]);
    ValueSnoc(a + [s[0]], s[1]);
    assert a + s == a + [s[0]] + [s[1]];
  }

  lemma DateValue(t: Civil)
    requires t.Valid()
    ensures Value(Digits(t.year, 4) + Digits(t.month, 2) + Digits(t.day, 2)) == t.year * 10000 + t.month * 100 + t.day
  {
    assert Pow10(4) == 10000;
    DigitsRoundTrip(t.year, 4);
    AppendTwo(Digits(t.year, 4), t.month);
    AppendTwo(Digits(t.year, 4) + Digits(t.month, 2), t.day);
  }

  lemma ClockValue(t: Civil)
    requires t.Valid()
    ensures Value(Digits(t.hour, 2) + Digits(t.minute, 2) + Digits(t.second, 2))
            == t.hour * 10000 + t.minute * 100 + t.second
  {
    assert Pow10(2) == 100;
    DigitsRoundTrip(t.hour, 2);
    AppendTwo(Digits(t.hour, 2), t.minute);
    AppendTwo(Digits(t.hour, 2) + Digits(t.minute, 2), t.second);
  }

  lemma SlicesOfFormat(t: Civil, res: Resolution)
    ensures var s := Format(t, res);
      && s[..8] == Digits(t.year, 4) + Digits(t.month, 2) + Digits(t.day, 2) && s[8] == 'T'
      && s[9..15] == Digits(t.hour, 2) + Digits(t.minute, 2) + Digits(t.second, 2)
      && (res == Millis ==> s[15] == '.') && s[|s| - 1] == 'Z'
  {
  }

  /**
   * The layout, as numbers: eight digits that read yyyymmdd, a T, six that read hhmmss, with Millis a
   * dot and three digits of milliseconds, and a Z.
   */
  lemma LayoutOfTime(t: Civil, res: Resolution)
    requires t.Valid()
    ensures var s := Format(t, res);
      && |s| == (if res == Millis then 20 else 16)
      && Value(s[..8]) == t.year * 10000 + t.month * 100 + t.day
      && s[8] == 'T'
      && Value(s[9..15]) == t.hour * 10000 + t.minute * 100 + t.second
      && (res == Millis ==> s[15] == '.' && Value(s[16..19]) == t.milli)
      && s[|s| - 1] == 'Z'
  {
    assert Pow10(3) == 1000;
    DigitsRoundTrip(t.milli, 3);
    DateValue(t);
    ClockValue(t);
    SlicesOfFormat(t, res);
    FieldsOfFormat(t, res);
  }

  /** Where the parts of a name are. */
  lemma LayoutOfName(p: Parts, res: Resolution)
    ensures var name, n, w := Name(p, res), |p.providerId|, Width(res);
      && |name| == n + w + 6
      && name[..n] == p.providerId && name[n] == '-' && name[n + 1..n + 1 + w] == Format(p.time, res)
      && name[n + 1 + w] == '-' && name[n + w + 2..n + w + 4] == Hex(p.r0) && name[n + w + 4..] == Hex(p.r1)
  {
    var name, n, w := Name(p, res), |p.providerId|, Width(res);
    var front, back := p.providerId + "-" + Format(p.time, res), "-" + (Hex(p.r0) + Hex(p.r1));
    assert name == front + back && |front| == n + 1 + w && |back| == 5;
    assert name[n + w + 2..] == back[1..] == Hex(p.r0) + Hex(p.r1);
    assert name[n + w + 2..n + w + 4] == name[n + w + 2..][..2];
    assert name[n + w + 4..] == name[n + w + 2..][2..];
  }

  /** A name determines all its parts, even when the provider id contains dashes. */
  lemma NameRoundTrip(p: Parts, res: Resolution)
    requires p.time.Valid()
    ensures Read(Name(p, res), res) == Some(p.(time := p.time.Truncate(res)))
  {
    LayoutOfName(p, res);
    TimeRoundTrip(p.time, res);
    HexRoundTrip(p.r0);
    HexRoundTrip(p.r1);
  }

  lemma DigitsAreTruncated(t: Civil, res: Resolution)
    ensures Format(t, res) == Format(t.Truncate(res), res)
  {
  }

  /** Two rotations collide exactly when id, printed time and random bytes all coincide. */
  lemma NamesCollideExactly(p: Parts, q: Parts, res: Resolution)
    requires p.time.Valid() && q.time.Valid()
    ensures Name(p, res) == Name(q, res) <==>
              p.providerId == q.providerId && p.time.Truncate(res) == q.time.Truncate(res)
              && p.r0 == q.r0 && p.r1 == q.r1
  {
    NameRoundTrip(p, res);
    NameRoundTrip(q, res);
    DigitsAreTruncated(p.time, res);
    DigitsAreTruncated(q.time, res);
  }
}
