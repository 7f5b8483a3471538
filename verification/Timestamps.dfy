/** The timestamps of the sample rows: read in the layout `1/2/06 15:04`, written back in the form of RFC 3339. */
module Timestamps {
  import opened Options

  // ---------- calendar ----------

  datatype Civil = Civil(year: nat, month: nat, day: nat, hour: nat, minute: nat)

  predicate Leap(y: nat) { y % 4 == 0 && (y % 100 != 0 || y % 400 == 0) }

  function MonthLength(y: nat, m: nat): nat {
    if m == 2 then (if Leap(y) then 29 else 28) else if m in {4, 6, 9, 11} then 30 else 31
  }

  /** A minute of the years that a two-digit year can mean. */
  predicate IsCivil(c: Civil) {
    1969 <= c.year <= 2068 && 1 <= c.month <= 12 && 1 <= c.day <= MonthLength(c.year, c.month) && c.hour < 24
      && c.minute < 60
  }

  function DaysBeforeMonth(y: nat, m: nat): nat {
    if m <= 1 then 0 else DaysBeforeMonth(y, m - 1) + MonthLength(y, m - 1)
  }

  function DaysBeforeYear(y: nat): nat { if y <= 1969 then 0 else DaysBeforeYear(y - 1) + DaysBeforeMonth(y - 1, 13) }

  /** Minutes since the beginning of 1970, counted out month by month and year by year. */
  function Instant(c: Civil): int {
    ((DaysBeforeYear(c.year) - 365 + DaysBeforeMonth(c.year, c.month) + c.day - 1) * 24 + c.hour) * 60 + c.minute
  }

  /** Field by field, from the year down. */
  predicate Earlier(a: Civil, b: Civil) {
    if a.year != b.year then a.year < b.year
    else if a.month != b.month then a.month < b.month
    else if a.day != b.day then a.day < b.day
    else if a.hour != b.hour then a.hour < b.hour
    else a.minute < b.minute
  }

  lemma {:induction false} MonthsAddUp(y: nat, m: nat, n: nat)
    requires 1 <= m < n
    ensures DaysBeforeMonth(y, m) + MonthLength(y, m) <= DaysBeforeMonth(y, n)
    decreases n
  {
    if m < n - 1 { MonthsAddUp(y, m, n - 1); }
  }

  lemma {:induction false} YearsAddUp(y: nat, z: nat)
    requires 1969 <= y < z
    ensures DaysBeforeYear(y) + DaysBeforeMonth(y, 13) <= DaysBeforeYear(z)
    decreases z
  {
    if y < z - 1 { YearsAddUp(y, z - 1); }
  }

  lemma EarlierIsSmaller(a: Civil, b: Civil)
    requires IsCivil(a) && IsCivil(b) && Earlier(a, b)
    ensures Instant(a) < Instant(b)
  {
    MonthsAddUp(a.year, a.month, 13);
    if a.year < b.year { YearsAddUp(a.year, b.year); }
    else if a.month < b.month { MonthsAddUp(a.year, a.month, b.month); }
  }

  /** The calendar order is the order of the instants, so different minutes are different instants. */
  lemma EarlierIffSmaller(a: Civil, b: Civil)
    requires IsCivil(a) && IsCivil(b)
    ensures Earlier(a, b) <==> Instant(a) < Instant(b)
    ensures a == b <==> Instant(a) == Instant(b)
  {
    if Earlier(a, b) { EarlierIsSmaller(a, b); }
    else if Earlier(b, a) { EarlierIsSmaller(b, a); }
    else { assert a == b; }
  }

  /** The years that a two-digit year can mean have a leap year every fourth year, and the lengths of the months follow
      a formula. */
  lemma CivilByFormula(c: Civil)
    ensures IsCivil(c) <==>
              && 1969 <= c.year <= 2068 && 1 <= c.month <= 12 && c.hour <= 23 && c.minute <= 59
              && 1 <= c.day <= if c.month == 2 then (if c.year % 4 == 0 then 29 else 28)
                               else 30 + (c.month + c.month / 8) % 2
  {
    assert c.month != 2 && 1 <= c.month <= 12 ==>
        c.month in {1, 3, 4, 5, 6, 7, 8, 9, 10, 11, 12};
  }

  /** The leap years up to `y`. */
  function Leaps(y: nat): int { y / 4 - y / 100 + y / 400 }

  lemma OneMoreLeap(y: nat)
    requires y > 0
    ensures Leaps(y) - Leaps(y - 1) == if Leap(y) then 1 else 0
  {
    Quotient(y, 4);
    Quotient(y, 100);
    Quotient(y, 400);
    Multiples(y);
  }

  lemma Multiples(y: nat)
    ensures (y % 400 == 0 ==> y % 100 == 0) && (y % 100 == 0 ==> y % 4 == 0)
  {
    if y % 400 == 0 { assert y == 100 * (4 * (y / 400)); }
    if y % 100 == 0 { assert y == 4 * (25 * (y / 100)); }
  }

  lemma Quotient(y: nat, k: nat)
    requires y > 0 && k in {4, 100, 400}
    ensures y / k - (y - 1) / k == if y % k == 0 then 1 else 0
  {
  }

  lemma {:induction false} YearsByFormula(y: nat)
    requires 1969 <= y
    ensures DaysBeforeYear(y) == 365 * (y - 1969) + Leaps(y - 1) - 477
  {
    if y > 1969 {
      YearsByFormula(y - 1);
      MonthsByFormula(y - 1, 13);
      OneMoreLeap(y - 1);
    }
  }

  lemma {:induction false} MonthsByFormula(y: nat, m: nat)
    requires 1 <= m <= 13
    ensures DaysBeforeMonth(y, m)
            == if m <= 2 then 31 * (m - 1) else (153 * (m - 3) + 2) / 5 + 59 + (if Leap(y) then 1 else 0)
  {
    if m > 1 { MonthsByFormula(y, m - 1); }
  }

  /** The counted minutes are those of the closed formula for the proleptic Gregorian calendar, in which the year begins
      in March and five months have 153 days. */
  lemma InstantByFormula(c: Civil)
    requires IsCivil(c)
    ensures var y, m := if c.month <= 2 then c.year - 1 else c.year, (c.month + 9) % 12;
            Instant(c) == ((365 * y + (y / 4 - y / 100 + y / 400) + (153 * m + 2) / 5 + c.day - 719469) * 24
              + c.hour) * 60
                          + c.minute
  {
    var y, m := if c.month <= 2 then c.year - 1 else c.year, (c.month + 9) % 12;
    DaysByFormula(c.year, c.month);
    assert y / 4 - y / 100 + y / 400 == Leaps(y);
  }

  lemma {:induction false} DaysByFormula(year: nat, month: nat)
    requires 1969 <= year && 1 <= month <= 12
    ensures var y, m := if month <= 2 then year - 1 else year, (month + 9) % 12;
            DaysBeforeYear(year) - 365 + DaysBeforeMonth(year, month)
            == 365 * y + Leaps(y) + (153 * m + 2) / 5 - 719468
  {
    YearsByFormula(year);
    MonthsByFormula(year, month);
    OneMoreLeap(year);
    FromMarch(year, month, DaysBeforeYear(year), DaysBeforeMonth(year, month), Leaps(year - 1), Leaps(year),
              if Leap(year) then 1 else 0);
  }

  lemma FromMarch(year: nat, month: nat, days: int, more: int, leapsBefore: int, leaps: int, leap: int)
    requires 1 <= month <= 12
    requires days == 365 * (year - 1969) + leapsBefore - 477 && leaps - leapsBefore == leap
    requires more == if month <= 2 then 31 * (month - 1) else (153 * (month - 3) + 2) / 5 + 59 + leap
    ensures var m := (month + 9) % 12;
            days - 365 + more
            == (if month <= 2 then 365 * (year - 1) + leapsBefore else 365 * year + leaps) + (153 * m + 2) / 5 - 719468
  {
    if month <= 2 {
      assert (month + 9) % 12 == month + 9 && (153 * (month + 9) + 2) / 5 == 31 * (month - 1) + 306;
    } else {
      assert (month + 9) % 12 == month - 3;
    }
  }

  // ---------- digits ----------

  function Digit(d: nat): char
    requires d < 10
  {
    ('0' as int + d) as char
  }

  lemma DigitsAreDecimal(d: nat)
    requires d < 10
    ensures Digit(d) == "0123456789"[d] && IsDigit(Digit(d)) && ValueOf(Digit(d)) == d
  {
    assert d in {0, 1, 2, 3, 4, 5, 6, 7, 8, 9};
  }

  predicate IsDigit(c: char) { '0' <= c <= '9' }

  function ValueOf(c: char): nat
    requires IsDigit(c)
  {
    c as int - '0' as int
  }

  function Two(n: nat): string
    requires n < 100
  {
    [Digit(n / 10), Digit(n % 10)]
  }

  function Four(n: nat): string
    requires n < 10000
  {
    Two(n / 100) + Two(n % 100)
  }

  // ---------- writing: the date-time of RFC 3339, section 5.6, in UTC and with whole minutes ----------

  function Format(c: Civil): string
    requires IsCivil(c)
  {
    Four(c.year)
    + ("-" + (Two(c.month) + ("-" + (Two(c.day) + ("T" + (Two(c.hour) + (":" + (Two(c.minute) + ":00Z"))))))))
  }

  predicate LexLess(a: string, b: string) {
    if |b| == 0 then false else if |a| == 0 then true else if a[0] != b[0] then a[0] < b[0] else LexLess(a[1..], b[1..])
  }

  /** Heads of the same length decide; tails count only behind equal heads. */
  lemma {:induction false} LexSplit(p: string, q: string, a: string, b: string)
    requires |p| == |q|
    ensures LexLess(p + a, q + b) <==> LexLess(p, q) || (p == q && LexLess(a, b))
  {
    if |p| == 0 {
      assert p + a == a && q + b == b;
    } else {
      assert (p + a)[1..] == p[1..] + a && (q + b)[1..] == q[1..] + b;
      assert p == [p[0]] + p[1..] && q == [q[0]] + q[1..];
      LexSplit(p[1..], q[1..], a, b);
    }
  }

  lemma {:induction false} LexSame(p: string, a: string, b: string)
    ensures LexLess(p + a, p + b) <==> LexLess(a, b)
  {
    LexSplit(p, p, a, b);
    LexIrreflexive(p);
  }

  lemma {:induction false} LexIrreflexive(p: string)
    ensures !LexLess(p, p)
  {
    if |p| > 0 { LexIrreflexive(p[1..]); }
  }

  lemma TwoInOrder(m: nat, n: nat)
    requires m < 100 && n < 100
    ensures LexLess(Two(m), Two(n)) <==> m < n
    ensures Two(m) == Two(n) <==> m == n
  {
    assert Two(m)[1..] == [Digit(m % 10)] && Two(n)[1..] == [Digit(n % 10)];
    assert [Digit(m % 10)][1..] == [] && [Digit(n % 10)][1..] == [];
    assert !LexLess([], []);
    assert Two(m)[0] == Digit(m / 10) && Two(n)[0] == Digit(n / 10) && Two(m)[1] == Digit(m % 10)
      && Two(n)[1] == Digit(n % 10);
  }

  lemma FourInOrder(m: nat, n: nat)
    requires m < 10000 && n < 10000
    ensures LexLess(Four(m), Four(n)) <==> m < n
    ensures Four(m) == Four(n) <==> m == n
  {
    LexSplit(Two(m / 100), Two(n / 100), Two(m % 100), Two(n % 100));
    TwoInOrder(m / 100, n / 100);
    TwoInOrder(m % 100, n % 100);
    assert Four(m)[..2] == Two(m / 100) && Four(m)[2..] == Two(m % 100);
    assert Four(n)[..2] == Two(n / 100) && Four(n)[2..] == Two(n % 100);
  }

  /** A field, a separator and the rest. */
  lemma {:induction false} FieldSplit(m: nat, n: nat, sep: string, a: string, b: string)
    requires m < 100 && n < 100
    ensures LexLess(Two(m) + (sep + a), Two(n) + (sep + b)) <==> m < n || (m == n && LexLess(a, b))
  {
    LexSplit(Two(m), Two(n), sep + a, sep + b);
    TwoInOrder(m, n);
    LexSame(sep, a, b);
  }

  /** Written timestamps compare as strings exactly as the instants do (section 5.1 of RFC 3339). */
  lemma StringOrderIsTimeOrder(a: Civil, b: Civil)
    requires IsCivil(a) && IsCivil(b)
    ensures LexLess(Format(a), Format(b)) <==> Instant(a) < Instant(b)
  {
    var ta, tb := Two(a.minute) + ":00Z", Two(b.minute) + ":00Z";
    LexSplit(Two(a.minute), Two(b.minute), ":00Z", ":00Z");
    LexIrreflexive(":00Z");
    TwoInOrder(a.minute, b.minute);
    var ha, hb := Two(a.hour) + (":" + ta), Two(b.hour) + (":" + tb);
    FieldSplit(a.hour, b.hour, ":", ta, tb);
    var da, db := Two(a.day) + ("T" + ha), Two(b.day) + ("T" + hb);
    FieldSplit(a.day, b.day, "T", ha, hb);
    var ma, mb := Two(a.month) + ("-" + da), Two(b.month) + ("-" + db);
    FieldSplit(a.month, b.month, "-", da, db);
    LexSplit(Four(a.year), Four(b.year), "-" + ma, "-" + mb);
    FourInOrder(a.year, b.year);
    LexSame("-", ma, mb);
    EarlierIffSmaller(a, b);
  }

  /** Digits and separators in their places. */
  predicate Shaped(t: string) {
    && |t| == 20 && (forall i :: i in {0, 1, 2, 3, 5, 6, 8, 9, 11, 12, 14, 15, 17, 18} ==> IsDigit(t[i]))
    && t[4] == '-' && t[7] == '-' && t[10] == 'T' && t[13] == ':' && t[16] == ':' && t[19] == 'Z'
  }

  /** A reader of that form: four-digit year, every field in its range. Gives the minute and the seconds. */
  function ReadRfc3339(t: string): Option<(Civil, nat)> {
    if Shaped(t) then
      var c := Civil(PairAt(t, 0) * 100 + PairAt(t, 2), PairAt(t, 5), PairAt(t, 8), PairAt(t, 11), PairAt(t, 14));
      if 1 <= c.month <= 12 && 1 <= c.day <= MonthLength(c.year, c.month) && c.hour < 24 && c.minute < 60
        && PairAt(t, 17) < 60
      then Some((c, PairAt(t, 17))) else None
    else None
  }

  function PairAt(t: string, i: nat): nat
    requires i + 1 < |t| && IsDigit(t[i]) && IsDigit(t[i + 1])
  {
    ValueOf(t[i]) * 10 + ValueOf(t[i + 1])
  }

  lemma FormatAt(c: Civil)
    requires IsCivil(c)
    ensures var t := Format(c);
            && |t| == 20 && t[..2] == Two(c.year / 100) && t[2..4] == Two(c.year % 100) && t[4] == '-'
            && t[5..7] == Two(c.month) && t[7] == '-' && t[8..10] == Two(c.day) && t[10] == 'T'
            && t[11..13] == Two(c.hour) && t[13] == ':' && t[14..16] == Two(c.minute)
            && t[16] == ':' && t[17..19] == Two(0) && t[19] == 'Z'
  {
    var rest := Two(c.month) + ("-" + (Two(c.day) + ("T" + (Two(c.hour) + (":" + (Two(c.minute) + ":00Z"))))));
    YearField(c.year, rest);
    OtherFields(Format(c), c.month, c.day, c.hour, c.minute);
  }

  lemma YearField(y: nat, rest: string)
    requires y < 10000
    ensures var t := Four(y) + ("-" + rest);
            t[..2] == Two(y / 100) && t[2..4] == Two(y % 100) && t[4] == '-' && t[5..] == rest
  {
  }

  lemma OtherFields(t: string, month: nat, day: nat, hour: nat, minute: nat)
    requires |t| >= 5 && month < 100 && day < 100 && hour < 100 && minute < 100
    requires t[5..] == Two(month) + ("-" + (Two(day) + ("T" + (Two(hour) + (":" + (Two(minute) + ":00Z"))))))
    ensures |t| == 20 && t[5..7] == Two(month) && t[7] == '-' && t[8..10] == Two(day) && t[10] == 'T'
    ensures t[11..13] == Two(hour) && t[13] == ':' && t[14..16] == Two(minute) && t[16] == ':'
    ensures t[17..19] == Two(0) && t[19] == 'Z'
  {
    var atMinute := Two(minute) + ":00Z";
    var atHour := Two(hour) + (":" + atMinute);
    var atDay := Two(day) + ("T" + atHour);
    Field(t, 5, month, '-', atDay);
    Field(t, 8, day, 'T', atHour);
    Field(t, 11, hour, ':', atMinute);
    assert ":00Z" == [':'] + "00Z";
    Field(t, 14, minute, ':', "00Z");
    assert t[17..] == Two(0) + (['Z'] + "");
    Field(t, 17, 0, 'Z', "");
  }

  /** Two digits and a separator at a place, and the rest behind them. */
  lemma Field(t: string, i: nat, n: nat, sep: char, rest: string)
    requires i <= |t| && n < 100 && t[i..] == Two(n) + ([sep] + rest)
    ensures i + 3 + |rest| == |t| && t[i..i + 2] == Two(n) && t[i + 2] == sep && t[i + 3..] == rest
  {
    assert t[i..][..2] == t[i..i + 2] && t[i..][2] == t[i + 2] && t[i..][3..] == t[i + 3..];
  }

  lemma PairOfTwo(t: string, i: nat, n: nat)
    requires i + 2 <= |t| && n < 100
    ensures t[i..i + 2] == Two(n) <==> IsDigit(t[i]) && IsDigit(t[i + 1]) && PairAt(t, i) == n
  {
  }

  /** What is written reads back as the same minute with no seconds, and nothing else does. */
  lemma ReadsBackExactly(t: string, c: Civil)
    requires IsCivil(c)
    ensures ReadRfc3339(t) == Some((c, 0)) <==> t == Format(c)
  {
    FormatAt(c);
    if |t| == 20 {
      FieldsAt(t, c);
      if ReadRfc3339(t) == Some((c, 0)) { Assembled(t, Format(c)); }
    }
  }

  lemma FieldsAt(t: string, c: Civil)
    requires |t| == 20 && IsCivil(c)
    ensures ReadRfc3339(t) == Some((c, 0)) <==>
              && t[..2] == Two(c.year / 100) && t[2..4] == Two(c.year % 100) && t[4] == '-' && t[5..7] == Two(c.month)
              && t[7] == '-' && t[8..10] == Two(c.day) && t[10] == 'T' && t[11..13] == Two(c.hour) && t[13] == ':'
              && t[14..16] == Two(c.minute) && t[16] == ':' && t[17..19] == Two(0) && t[19] == 'Z'
  {
    assert t[..2] == t[0..2];
    PairOfTwo(t, 0, c.year / 100);
    PairOfTwo(t, 2, c.year % 100);
    PairOfTwo(t, 5, c.month);
    PairOfTwo(t, 8, c.day);
    PairOfTwo(t, 11, c.hour);
    PairOfTwo(t, 14, c.minute);
    PairOfTwo(t, 17, 0);
    if Shaped(t) { YearParts(PairAt(t, 0), PairAt(t, 2), c.year); }
  }

  lemma YearParts(a: nat, b: nat, y: nat)
    requires b < 100
    ensures a * 100 + b == y <==> a == y / 100 && b == y % 100
  {
  }

  /** Two strings of twenty characters are equal when their fields and separators are. */
  lemma Assembled(t: string, u: string)
    requires |t| == |u| == 20
    requires t[..2] == u[..2] && t[2..4] == u[2..4] && t[4] == u[4] && t[5..7] == u[5..7] && t[7] == u[7]
    requires t[8..10] == u[8..10] && t[10] == u[10] && t[11..13] == u[11..13] && t[13] == u[13]
    requires t[14..16] == u[14..16] && t[16] == u[16] && t[17..19] == u[17..19] && t[19] == u[19]
    ensures t == u
  {
  }

  // ---------- reading the layout `1/2/06 15:04` ----------

  /** One or two digits. */
  function TakeNumber(s: string): Option<(nat, string)> {
    if |s| == 0 || !IsDigit(s[0]) then None
    else if |s| == 1 || !IsDigit(s[1]) then Some((ValueOf(s[0]), s[1..]))
    else Some((PairAt(s, 0), s[2..]))
  }

  /** Exactly two digits. */
  function TakePair(s: string): Option<(nat, string)> {
    if |s| >= 2 && IsDigit(s[0]) && IsDigit(s[1]) then Some((PairAt(s, 0), s[2..])) else None
  }

  function TakeChar(c: char, s: string): Option<string> { if |s| > 0 && s[0] == c then Some(s[1..]) else None }

  function CutSpaces(s: string): string { if |s| > 0 && s[0] == ' ' then CutSpaces(s[1..]) else s }

  /** A space in the layout stands for one or more. */
  function TakeSpaces(s: string): Option<string> { if |s| > 0 && s[0] != ' ' then None else Some(CutSpaces(s)) }

  function FullYear(yy: int): int { if yy >= 69 then 1900 + yy else 2000 + yy }

  /** Two characters that make a number; a sign and a digit do, too. */
  function TakeYear(s: string): Option<(nat, string)> {
    if |s| < 2 || !IsDigit(s[1]) then None
    else if IsDigit(s[0]) then Some((FullYear(PairAt(s, 0)), s[2..]))
    else if s[0] == '-' then Some((FullYear(-(ValueOf(s[1]) as int)), s[2..]))
    else if s[0] == '+' then Some((FullYear(ValueOf(s[1])), s[2..]))
    else None
  }

  /** `time.Parse`; the result is in UTC because the layout has no zone. */
  function Parse(s: string): Option<Civil> {
    var date :- ParseDate(s);
    var afterSpace :- TakeSpaces(date.1);
    var time :- ParseTime(afterSpace);
    var c := date.0.(hour := time.0, minute := time.1);
    if IsCivil(c) then Some(c) else None
  }

  function ParseDate(s: string): Option<(Civil, string)> {
    var month :- TakeNumber(s);
    var s1 :- TakeChar('/', month.1);
    var day :- TakeNumber(s1);
    var s2 :- TakeChar('/', day.1);
    var year :- TakeYear(s2);
    Some((Civil(year.0, month.0, day.0, 0, 0), year.1))
  }

  /** Nothing may follow the time. */
  function ParseTime(s: string): Option<(nat, nat)> {
    var hour :- TakeNumber(s);
    var s1 :- TakeChar(':', hour.1);
    var minute :- TakePair(s1);
    if minute.1 == "" then Some((hour.0, minute.0)) else None
  }

  /** A number as the sample file has it, without a leading zero. */
  function Short(n: nat): string
    requires n < 100
  {
    if n < 10 then [Digit(n)] else Two(n)
  }

  function Sample(c: Civil): string
    requires IsCivil(c)
  {
    SampleDate(c) + (" " + (Short(c.hour) + (":" + Two(c.minute))))
  }

  function SampleDate(c: Civil): string
    requires IsCivil(c)
  {
    Short(c.month) + ("/" + (Short(c.day) + ("/" + Two(c.year % 100))))
  }

  // ---------- which strings are read, and as what ----------

  /** How a row may spell its timestamp, but for the minute, which always has two digits. */
  datatype Spelling = Spelling(month: string, day: string, year: string, gap: string, hour: string)

  function Text(w: Spelling, minute: nat): string
    requires minute < 60
  {
    DateText(w) + (w.gap + (w.hour + (":" + Two(minute))))
  }

  function DateText(w: Spelling): string { w.month + ("/" + (w.day + ("/" + w.year))) }

  /** With or without a leading zero. */
  predicate Numeral(t: string, n: nat) { (n < 10 && t == [Digit(n)]) || (n < 100 && t == Two(n)) }

  /** Two digits, or one behind a sign: back from 2000 or on from it. */
  predicate YearNumeral(t: string, y: nat) {
    || (1969 <= y <= 2068 && t == Two(y % 100))
    || (1991 <= y <= 2000 && t == ['-', Digit(2000 - y)])
    || (2000 <= y <= 2009 && t == ['+', Digit(y - 2000)])
  }

  predicate Gap(t: string) { |t| > 0 && forall i :: 0 <= i < |t| ==> t[i] == ' ' }

  predicate Spells(w: Spelling, c: Civil) {
    Numeral(w.month, c.month) && Numeral(w.day, c.day) && YearNumeral(w.year, c.year) && Gap(w.gap)
    && Numeral(w.hour, c.hour)
  }

  lemma NumberIsTaken(t: string, n: nat, rest: string)
    requires Numeral(t, n) && (|rest| > 0 ==> !IsDigit(rest[0]))
    ensures TakeNumber(t + rest) == Some((n, rest))
  {
    assert (t + rest)[..|t|] == t && (t + rest)[|t|..] == rest;
    assert forall i :: 0 <= i < |t| ==> (t + rest)[i] == t[i];
  }

  lemma NumberTaken(s: string) returns (t: string)
    requires TakeNumber(s).Some?
    ensures Numeral(t, TakeNumber(s).value.0) && s == t + TakeNumber(s).value.1
  {
    t := s[..|s| - |TakeNumber(s).value.1|];
  }

  /** A number and the separator behind it. */
  lemma FieldTaken(s: string, sep: char) returns (t: string, rest: string)
    requires TakeNumber(s).Some? && TakeChar(sep, TakeNumber(s).value.1).Some?
    ensures rest == TakeChar(sep, TakeNumber(s).value.1).value
    ensures Numeral(t, TakeNumber(s).value.0) && s == t + ([sep] + rest)
  {
    t := NumberTaken(s);
    rest := TakeNumber(s).value.1[1..];
  }

  lemma YearIsTaken(t: string, y: nat, rest: string)
    requires YearNumeral(t, y)
    ensures TakeYear(t + rest) == Some((y, rest))
  {
    assert (t + rest)[0] == t[0] && (t + rest)[1] == t[1] && (t + rest)[2..] == rest;
  }

  lemma YearTaken(s: string) returns (t: string)
    requires TakeYear(s).Some?
    ensures YearNumeral(t, TakeYear(s).value.0) && s == t + TakeYear(s).value.1
  {
    t := s[..2];
    if IsDigit(s[0]) {
      PairOfTwo(s, 0, PairAt(s, 0));
      FullYearOf(PairAt(s, 0));
    } else {
      assert t == [s[0], Digit(ValueOf(s[1]))];
    }
  }

  lemma FullYearOf(yy: nat)
    requires yy < 100
    ensures 1969 <= FullYear(yy) <= 2068 && FullYear(yy) % 100 == yy
  {
  }

  lemma {:induction false} GapIsTaken(t: string, rest: string)
    requires forall i :: 0 <= i < |t| ==> t[i] == ' '
    requires |rest| > 0 && rest[0] != ' '
    ensures CutSpaces(t + rest) == rest
  {
    if |t| == 0 {
      assert t + rest == rest;
    } else {
      assert (t + rest)[1..] == t[1..] + rest;
      GapIsTaken(t[1..], rest);
    }
  }

  lemma {:induction false} GapTaken(s: string) returns (t: string)
    ensures s == t + CutSpaces(s) && forall i :: 0 <= i < |t| ==> t[i] == ' '
    ensures |s| > 0 && s[0] == ' ' ==> |t| > 0
  {
    t := "";
    if |s| > 0 && s[0] == ' ' {
      t := GapTaken(s[1..]);
      t := " " + t;
    }
  }

  lemma DateIsRead(w: Spelling, c: Civil, rest: string)
    requires Spells(w, c)
    ensures ParseDate(DateText(w) + rest) == Some((Civil(c.year, c.month, c.day, 0, 0), rest))
  {
    var s3 := w.year + rest;
    var s2 := w.day + ("/" + s3);
    DateTextAnd(w, rest);
    NumberIsTaken(w.month, c.month, "/" + s2);
    assert ("/" + s2)[1..] == s2;
    NumberIsTaken(w.day, c.day, "/" + s3);
    assert ("/" + s3)[1..] == s3;
    YearIsTaken(w.year, c.year, rest);
  }

  lemma TimeIsRead(t: string, hour: nat, minute: nat)
    requires Numeral(t, hour) && minute < 60
    ensures ParseTime(t + (":" + Two(minute))) == Some((hour, minute))
  {
    NumberIsTaken(t, hour, ":" + Two(minute));
    assert (":" + Two(minute))[1..] == Two(minute);
    PairOfTwo(Two(minute), 0, minute);
    assert Two(minute)[0..2] == Two(minute);
  }

  lemma SpelledIsRead(w: Spelling, c: Civil)
    requires IsCivil(c) && Spells(w, c)
    ensures Parse(Text(w, c.minute)) == Some(c)
  {
    var time := w.hour + (":" + Two(c.minute));
    DateIsRead(w, c, w.gap + time);
    assert time[0] == w.hour[0] && IsDigit(time[0]);
    GapIsTaken(w.gap, time);
    assert (w.gap + time)[0] == w.gap[0];
    TimeIsRead(w.hour, c.hour, c.minute);
  }

  lemma DateTaken(s: string) returns (w: Spelling)
    requires ParseDate(s).Some?
    ensures var (c, rest) := ParseDate(s).value;
            && s == DateText(w) + rest
            && Numeral(w.month, c.month) && Numeral(w.day, c.day) && YearNumeral(w.year, c.year)
  {
    var month, s1 := FieldTaken(s, '/');
    var day, s2 := FieldTaken(s1, '/');
    var year := YearTaken(s2);
    w := Spelling(month, day, year, "", "");
    DateTextAnd(w, TakeYear(s2).value.1);
  }

  lemma DateTextAnd(w: Spelling, rest: string)
    ensures DateText(w) + rest == w.month + ("/" + (w.day + ("/" + (w.year + rest))))
  {
  }

  lemma TimeTaken(s: string) returns (t: string)
    requires ParseTime(s).Some?
    ensures Numeral(t, ParseTime(s).value.0) && ParseTime(s).value.1 < 100
    ensures s == t + (":" + Two(ParseTime(s).value.1))
  {
    t := NumberTaken(s);
    var s1 := TakeNumber(s).value.1[1..];
    assert s1 == s1[0..2];
    PairOfTwo(s1, 0, PairAt(s1, 0));
  }

  lemma ReadIsSpelled(s: string) returns (w: Spelling)
    requires Parse(s).Some?
    ensures Spells(w, Parse(s).value) && s == Text(w, Parse(s).value.minute)
  {
    var date := DateTaken(s);
    var rest := ParseDate(s).value.1;
    var gap := GapTaken(rest);
    var hour := TimeTaken(CutSpaces(rest));
    w := date.(gap := gap, hour := hour);
  }

  /** Reading, exactly. A string is read as a minute iff that is a minute of the years 1969 to 2068 and the string
      spells it: month, day and hour with or without a leading zero, a year of two digits or of a sign and one, at
      least one space, and a minute of two digits, with nothing before, between or behind. */
  lemma ParsesExactly(s: string, c: Civil)
    ensures Parse(s) == Some(c) <==> IsCivil(c) && exists w :: Spells(w, c) && s == Text(w, c.minute)
  {
    if Parse(s) == Some(c) {
      var w := ReadIsSpelled(s);
    } else if IsCivil(c) && exists w :: Spells(w, c) && s == Text(w, c.minute) {
      var w :| Spells(w, c) && s == Text(w, c.minute);
      SpelledIsRead(w, c);
    }
  }

  /** Every minute from 1969 to 2068, written as in the sample file, is read as that minute. */
  lemma SampleReadsBack(c: Civil)
    requires IsCivil(c)
    ensures Parse(Sample(c)) == Some(c)
  {
    var w := Spelling(Short(c.month), Short(c.day), Two(c.year % 100), " ", Short(c.hour));
    SpelledIsRead(w, c);
  }

  /** What the producer puts in place of a readable timestamp. */
  function Rewrite(s: string): string
    requires Parse(s).Some?
  {
    Format(Parse(s).value)
  }

  /** A rewritten timestamp is not readable any more: a sequence cannot be sent twice from the same rows. */
  lemma RewrittenIsUnreadable(c: Civil)
    requires IsCivil(c)
    ensures Parse(Format(c)).None?
  {
  }

  /** The rewriting preserves order: whatever two readable rows say, their rewritten timestamps compare as strings
      exactly as the instants meant. */
  lemma RewritePreservesOrder(s1: string, s2: string)
    requires Parse(s1).Some? && Parse(s2).Some?
    ensures LexLess(Rewrite(s1), Rewrite(s2)) <==> Instant(Parse(s1).value) < Instant(Parse(s2).value)
    ensures ReadRfc3339(Rewrite(s1)) == Some((Parse(s1).value, 0))
  {
    StringOrderIsTimeOrder(Parse(s1).value, Parse(s2).value);
    ReadsBackExactly(Rewrite(s1), Parse(s1).value);
  }

  /** The rows themselves do not compare so: February comes before October, but not as a string. */
  lemma RawOrderIsNotTimeOrder(y: nat)
    requires 1969 <= y <= 2068
    ensures var feb, oct := Civil(y, 2, 1, 0, 0), Civil(y, 10, 1, 0, 0);
            Instant(feb) < Instant(oct) && !LexLess(Sample(feb), Sample(oct))
  {
    var feb, oct := Civil(y, 2, 1, 0, 0), Civil(y, 10, 1, 0, 0);
    EarlierIffSmaller(feb, oct);
    assert Sample(feb)[0] == '2' && Sample(oct)[0] == '1';
  }
}
