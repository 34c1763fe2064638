/** The zone serial: DNSZoneGenerateSerial of api/v1alpha1/dnszone_types.go. */
module Serial {
  import opened Text
  import opened ZoneFile

  /** A clock reading; Go's layout "0102150405" prints it without the year. */
  datatype Instant = Instant(year: nat, month: nat, day: nat, hour: nat, minute: nat, second: nat)

  predicate ValidInstant(t: Instant) {
    1 <= t.month <= 12 && 1 <= t.day <= 31 && t.hour < 24 && t.minute < 60 && t.second < 60
  }

  function TwoDigits(n: nat): string
    requires n < 100
  {
    ['0' + (n / 10) as char, '0' + (n % 10) as char]
  }

  function GenerateSerial(t: Instant): string
    requires ValidInstant(t)
  {
    TwoDigits(t.month) + (TwoDigits(t.day) + (TwoDigits(t.hour) + (TwoDigits(t.minute) + TwoDigits(t.second))))
  }

  /** The moment within its year. */
  function InYear(t: Instant): seq<nat> {
    [t.month, t.day, t.hour, t.minute, t.second]
  }

  predicate Earlier(a: seq<nat>, b: seq<nat>) {
    b != [] && (a == [] || a[0] < b[0] || (a[0] == b[0] && Earlier(a[1..], b[1..])))
  }

  predicate Sooner(t: Instant, u: Instant) {
    t.year < u.year || (t.year == u.year && Earlier(InYear(t), InYear(u)))
  }

  const HALF := 0x8000_0000

  /** Section 3.2 of RFC 1982: is serial a less than serial b, for 32-bit serials. */
  predicate SerialLess(a: nat, b: nat) {
    (a < b && b - a < HALF) || (a > b && a - b > HALF)
  }

  lemma TwoDigitsBefore(m: nat, n: nat, a: string, b: string)
    requires m < 100 && n < 100
    ensures Before(TwoDigits(m) + a, TwoDigits(n) + b) <==> m < n || (m == n && Before(a, b))
  {
    var s, t := TwoDigits(m) + a, TwoDigits(n) + b;
    assert s[1..][0] == s[1] && t[1..][0] == t[1];
    assert s[1..][1..] == a && t[1..][1..] == b;
  }

  /** As strings, serials are ordered by the moment within the year. */
  lemma SerialOrder(t: Instant, u: Instant)
    requires ValidInstant(t) && ValidInstant(u)
    ensures Before(GenerateSerial(t), GenerateSerial(u)) <==> Earlier(InYear(t), InYear(u))
  {
    hide TwoDigits;
    var t4, u4 := TwoDigits(t.second), TwoDigits(u.second);
    var t3, u3 := TwoDigits(t.minute) + t4, TwoDigits(u.minute) + u4;
    var t2, u2 := TwoDigits(t.hour) + t3, TwoDigits(u.hour) + u3;
    var t1, u1 := TwoDigits(t.day) + t2, TwoDigits(u.day) + u2;
    TwoDigitsBefore(t.month, u.month, t1, u1);
    TwoDigitsBefore(t.day, u.day, t2, u2);
    TwoDigitsBefore(t.hour, u.hour, t3, u3);
    TwoDigitsBefore(t.minute, u.minute, t4, u4);
    TwoDigitsBefore(t.second, u.second, "", "");
    assert t4 + "" == t4 && u4 + "" == u4;
    EarlierSteps(t, u);
  }

  lemma EarlierSteps(t: Instant, u: Instant)
    ensures Earlier(InYear(t), InYear(u)) <==>
      (t.month < u.month || (t.month == u.month && (t.day < u.day || (t.day == u.day && (t.hour < u.hour || (t.hour == u.hour &&
      (t.minute < u.minute || (t.minute == u.minute && t.second < u.second))))))))
  {
    EarlierStep(t.second, [], u.second, []);
    EarlierStep(t.minute, [t.second], u.minute, [u.second]);
    EarlierStep(t.hour, [t.minute, t.second], u.hour, [u.minute, u.second]);
    EarlierStep(t.day, [t.hour, t.minute, t.second], u.day, [u.hour, u.minute, u.second]);
    EarlierStep(t.month, [t.day, t.hour, t.minute, t.second], u.month, [u.day, u.hour, u.minute, u.second]);
  }

  lemma EarlierStep(m: nat, a: seq<nat>, n: nat, b: seq<nat>)
    ensures Earlier([m] + a, [n] + b) <==> m < n || (m == n && Earlier(a, b))
  {
    assert ([m] + a)[1..] == a && ([n] + b)[1..] == b;
  }

  lemma {:induction false} TwoDigitsValue(s: string, n: nat)
    requires n < 100 && forall c <- s :: IsDigit(c)
    ensures forall c <- s + TwoDigits(n) :: IsDigit(c)
    ensures ReadDecimal(s + TwoDigits(n)) == 100 * ReadDecimal(s) + n
  {
    var whole, ten, one := s + TwoDigits(n), '0' + (n / 10) as char, '0' + (n % 10) as char;
    assert IsDigit(ten) && IsDigit(one);
    assert whole[..|whole| - 1] == s + [ten] && (s + [ten])[..|s|] == s;
  }

  /** The number a serial stands for; it always fits in 31 bits. */
  lemma SerialValue(t: Instant)
    requires ValidInstant(t)
    ensures forall c <- GenerateSerial(t) :: IsDigit(c)
    ensures |GenerateSerial(t)| == 10
    ensures ReadDecimal(GenerateSerial(t)) ==
      (((t.month * 100 + t.day) * 100 + t.hour) * 100 + t.minute) * 100 + t.second
    ensures 0101000000 <= ReadDecimal(GenerateSerial(t)) <= 1231235959 < HALF
  {
    hide TwoDigits, ReadDecimal;
    var a := TwoDigits(t.month);
    var b := a + TwoDigits(t.day);
    var c := b + TwoDigits(t.hour);
    var d := c + TwoDigits(t.minute);
    TwoDigitsValue("", t.month);
    assert "" + a == a;
    EmptyIsZero();
    TwoDigitsValue(a, t.day);
    TwoDigitsValue(b, t.hour);
    TwoDigitsValue(c, t.minute);
    TwoDigitsValue(d, t.second);
    assert GenerateSerial(t) == d + TwoDigits(t.second);
    assert |GenerateSerial(t)| == 10 by { TenDigits(t); }
  }

  lemma EmptyIsZero()
    ensures ReadDecimal("") == 0
  {}

  lemma TenDigits(t: Instant)
    requires ValidInstant(t)
    ensures |GenerateSerial(t)| == 10
  {}

  /**
   * A later serial is the greater one, as a string, as a number and in the arithmetic of
   * RFC 1982, exactly when its moment lies later in the year: always within one calendar
   * year, and never from a December serial to the January after it.
   */
  lemma SerialGrowsIff(t: Instant, u: Instant)
    requires ValidInstant(t) && ValidInstant(u) && Sooner(t, u)
    ensures (forall c <- GenerateSerial(t) :: IsDigit(c)) && forall c <- GenerateSerial(u) :: IsDigit(c)
    ensures var a, b := ReadDecimal(GenerateSerial(t)), ReadDecimal(GenerateSerial(u));
      && (a < b <==> Earlier(InYear(t), InYear(u)))
      && (SerialLess(a, b) <==> a < b)
      && (Before(GenerateSerial(t), GenerateSerial(u)) <==> a < b)
      && (t.year == u.year ==> a < b)
      && (t.month == 12 && u.month == 1 ==> a > b)
  {
    hide GenerateSerial, ReadDecimal, Before, Earlier;
    SerialValue(t);
    SerialValue(u);
    SerialOrder(t, u);
    EarlierSteps(t, u);
  }
}
