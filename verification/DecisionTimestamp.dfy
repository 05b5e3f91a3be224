/** The sort key of decision timestamps: RFC 3339 strings of any offset and precision, ordered by
    the instants they name (grammar of section 5.6 of RFC 3339). */
module DecisionTimestamp {
  import opened Collections
  import opened PathOrder
  import opened Calendar
  import opened Digits

  datatype Stamp = Stamp(date: Date, hour: int, minute: int, second: int, nano: int)

  /** A local time and its offset from UTC in minutes. */
  datatype Parsed = Rejected | Accepted(local: Stamp, offset: int)

  predicate ValidStamp(t: Stamp) {
    ValidDate(t.date) && 0 <= t.hour < 24 && 0 <= t.minute < 60 && 0 <= t.second < 60 && 0 <= t.nano < 1_000_000_000
  }

  predicate FourDigitYear(t: Stamp) {
    0 <= t.date.year <= 9999
  }

  /** Nanoseconds since the day before the first of January of year 0, on the stamp's own clock. */
  function Nanos(t: Stamp): int {
    (((DayNumber(t.date) * 24 + t.hour) * 60 + t.minute) * 60 + t.second) * 1_000_000_000 + t.nano
  }

  function Instant(p: Parsed): int
    requires p.Accepted?
  {
    Nanos(p.local) - p.offset * 60_000_000_000
  }

  /******* Normalisation to UTC *******/

  function UTC(t: Stamp, offset: int): (u: Stamp)
    requires ValidStamp(t) && -1440 < offset < 1440
    ensures ValidStamp(u)
  {
    var minutes := t.hour * 60 + t.minute - offset;
    if minutes < 0 then t.(date := PreviousDay(t.date), hour := (minutes + 1440) / 60, minute := (minutes + 1440) % 60)
    else if minutes >= 1440 then
      t.(date := NextDay(t.date), hour := (minutes - 1440) / 60, minute := (minutes - 1440) % 60)
    else t.(hour := minutes / 60, minute := minutes % 60)
  }

  lemma UTCKeepsTheInstant(t: Stamp, offset: int)
    requires ValidStamp(t) && -1440 < offset < 1440
    ensures Nanos(UTC(t, offset)) == Nanos(t) - offset * 60_000_000_000
  {
    var u := UTC(t, offset);
    NextDayCounts(t.date);
    PreviousDayCounts(t.date);
    assert (DayNumber(u.date) * 24 + u.hour) * 60 + u.minute ==
           (DayNumber(t.date) * 24 + t.hour) * 60 + t.minute - offset;
  }

  /******* The grammar *******/

  predicate DigitsAt(value: string, positions: seq<nat>) {
    forall i <- positions :: i < |value| && IsDigit(value[i])
  }

  const DIGIT_POSITIONS: seq<nat> := [0, 1, 2, 3, 5, 6, 8, 9, 11, 12, 14, 15, 17, 18]

  predicate Shaped(value: string) {
    && 20 <= |value| <= 35 && value[4] == '-' && value[7] == '-' && (value[10] == 'T' || value[10] == 't')
    && value[13] == ':' && value[16] == ':' && DigitsAt(value, DIGIT_POSITIONS)
  }

  function DigitsEnd(value: string, i: nat): (end: nat)
    requires i <= |value|
    ensures i <= end <= |value| && AllDigits(value[i..end])
    decreases |value| - i
  {
    if i < |value| && IsDigit(value[i]) then
      var end := DigitsEnd(value, i + 1);
      assert value[i..end] == [value[i]] + value[i + 1..end];
      end
    else i
  }

  function Zone(zone: string): (offset: Option<int>)
    ensures offset.Some? ==> -1440 < offset.value < 1440
  {
    if zone == "Z" || zone == "z" then Some(0)
    else if |zone| == 6 && (zone[0] == '+' || zone[0] == '-') && zone[3] == ':' && DigitsAt(zone, [1, 2, 4, 5]) then
      var hours, minutes := Pair(zone, 1), Pair(zone, 4);
      if hours > 23 || minutes > 59 then None
      else Some(if zone[0] == '+' then hours * 60 + minutes else -(hours * 60 + minutes))
    else None
  }

  function Pair(s: string, i: nat): (n: nat)
    requires i + 1 < |s| && IsDigit(s[i]) && IsDigit(s[i + 1])
    ensures n < 100
  {
    (s[i] as int - '0' as int) * 10 + (s[i + 1] as int - '0' as int)
  }

  /** What time.Parse makes of a string of the right shape. */
  function Fields(value: string, nano: nat, offset: int): (p: Parsed)
    requires Shaped(value) && nano < 1_000_000_000
    ensures p.Accepted? ==> ValidStamp(p.local) && p.offset == offset
  {
    assert forall i <- DIGIT_POSITIONS :: IsDigit(value[i]);
    var t := Stamp(Date(Pair(value, 0) * 100 + Pair(value, 2), Pair(value, 5), Pair(value, 8)),
                   Pair(value, 11), Pair(value, 14), Pair(value, 17), nano);
    if ValidStamp(t) then Accepted(t, offset) else Rejected
  }

  function Nano(fraction: string): (n: nat)
    requires AllDigits(fraction) && |fraction| <= 9
    ensures n < 1_000_000_000
  {
    var padded := fraction + seq(9 - |fraction|, _ => '0');
    NumeralOfNum(padded);
    assert Pow10(9) == 1_000_000_000;
    Num(padded)
  }

  function Parse(value: string): (p: Parsed)
    ensures p.Accepted? ==> ValidStamp(p.local) && -1440 < p.offset < 1440 && FourDigitYear(UTC(p.local, p.offset))
  {
    if !Shaped(value) then Rejected
    else if value[19] == '.' && !(1 <= DigitsEnd(value, 20) - 20 <= 9) then Rejected
    else
      var zoneStart := if value[19] == '.' then DigitsEnd(value, 20) else 19;
      var nano := if value[19] == '.' then Nano(value[20..zoneStart]) else 0;
      WithZone(value, nano, Zone(value[zoneStart..]))
  }

  /** The fields with their zone, if their year in UTC has four digits. */
  function WithZone(value: string, nano: nat, offset: Option<int>): (p: Parsed)
    requires Shaped(value) && nano < 1_000_000_000 && (offset.Some? ==> -1440 < offset.value < 1440)
    ensures p.Accepted? ==> ValidStamp(p.local) && -1440 < p.offset < 1440 && FourDigitYear(UTC(p.local, p.offset))
  {
    if offset.None? then Rejected
    else
      var p := Fields(value, nano, offset.value);
      if p.Accepted? && FourDigitYear(UTC(p.local, p.offset)) then p else Rejected
  }

  /******* The key *******/

  predicate Storable(u: Stamp) {
    ValidStamp(u) && FourDigitYear(u)
  }

  /** The date and the time of day to the second: always nineteen characters. */
  function Seconds(u: Stamp): (s: string)
    requires Storable(u)
    ensures |s| == 19
  {
    Numeral(u.date.year, 4) + ("-" + (Numeral(u.date.month, 2) + ("-" + (Numeral(u.date.day, 2) + ("T" + Clock(u))))))
  }

  function Clock(u: Stamp): (s: string)
    requires Storable(u)
    ensures |s| == 8
  {
    Numeral(u.hour, 2) + (":" + (Numeral(u.minute, 2) + (":" + Numeral(u.second, 2))))
  }

  function Format(u: Stamp): string
    requires Storable(u)
  {
    Seconds(u) + ("." + (Numeral(u.nano, 9) + "Z"))
  }

  function Key(value: string): Option<string> {
    var p := Parse(value);
    if p.Rejected? then None else Some(Format(UTC(p.local, p.offset)))
  }

  /******* String order is chronological order *******/

  lemma FieldThen(m: nat, n: nat, w: nat, sep: string, s: string, t: string)
    requires m < Pow10(w) && n < Pow10(w)
    ensures Less(Numeral(m, w) + (sep + s), Numeral(n, w) + (sep + t)) <==> m < n || (m == n && Less(s, t))
    ensures Numeral(m, w) + (sep + s) == Numeral(n, w) + (sep + t) <==> m == n && s == t
  {
    NumeralsInOrder(m, n, w);
    FieldDecides(Numeral(m, w), Numeral(n, w), sep + s, sep + t);
    SamePrefix(sep, s, t);
    assert (sep + s)[|sep|..] == s && (sep + t)[|sep|..] == t;
  }

  function SecondOfDay(u: Stamp): int {
    (u.hour * 60 + u.minute) * 60 + u.second
  }

  lemma Widths()
    ensures Pow10(2) == 100 && Pow10(4) == 10_000 && Pow10(9) == 1_000_000_000
  {
  }

  lemma ClockInOrder(a: Stamp, b: Stamp)
    requires Storable(a) && Storable(b)
    ensures Less(Clock(a), Clock(b)) <==> SecondOfDay(a) < SecondOfDay(b)
    ensures Clock(a) == Clock(b) <==> SecondOfDay(a) == SecondOfDay(b)
  {
    Widths();
    NumeralsInOrder(a.second, b.second, 2);
    FieldThen(a.minute, b.minute, 2, ":", Numeral(a.second, 2), Numeral(b.second, 2));
    FieldThen(a.hour, b.hour, 2, ":", Numeral(a.minute, 2) + (":" + Numeral(a.second, 2)),
              Numeral(b.minute, 2) + (":" + Numeral(b.second, 2)));
  }

  predicate SecondsBefore(a: Stamp, b: Stamp) {
    Earlier(a.date, b.date) || (a.date == b.date && SecondOfDay(a) < SecondOfDay(b))
  }

  lemma SecondsInOrder(a: Stamp, b: Stamp)
    requires Storable(a) && Storable(b)
    ensures Less(Seconds(a), Seconds(b)) <==> SecondsBefore(a, b)
    ensures Seconds(a) == Seconds(b) <==> a.date == b.date && SecondOfDay(a) == SecondOfDay(b)
  {
    Widths();
    ClockInOrder(a, b);
    FieldThen(a.date.day, b.date.day, 2, "T", Clock(a), Clock(b));
    FieldThen(a.date.month, b.date.month, 2, "-", Numeral(a.date.day, 2) + ("T" + Clock(a)),
              Numeral(b.date.day, 2) + ("T" + Clock(b)));
    FieldThen(a.date.year, b.date.year, 4, "-",
              Numeral(a.date.month, 2) + ("-" + (Numeral(a.date.day, 2) + ("T" + Clock(a)))),
              Numeral(b.date.month, 2) + ("-" + (Numeral(b.date.day, 2) + ("T" + Clock(b)))));
  }

  predicate Before(a: Stamp, b: Stamp) {
    SecondsBefore(a, b) || (a.date == b.date && SecondOfDay(a) == SecondOfDay(b) && a.nano < b.nano)
  }

  lemma NanosInOrder(a: Stamp, b: Stamp)
    requires ValidStamp(a) && ValidStamp(b)
    ensures Nanos(a) < Nanos(b) <==> Before(a, b)
    ensures Nanos(a) == Nanos(b) <==> a == b
  {
    DayNumberOrders(a.date, b.date);
    assert Nanos(a) == (DayNumber(a.date) * 86_400 + SecondOfDay(a)) * 1_000_000_000 + a.nano;
    assert Nanos(b) == (DayNumber(b.date) * 86_400 + SecondOfDay(b)) * 1_000_000_000 + b.nano;
    assert 0 <= SecondOfDay(a) < 86_400 && 0 <= SecondOfDay(b) < 86_400;
    assert SecondOfDay(a) == SecondOfDay(b) ==> a.hour == b.hour && a.minute == b.minute && a.second == b.second;
  }

  lemma FormatInOrder(a: Stamp, b: Stamp)
    requires Storable(a) && Storable(b)
    ensures Less(Format(a), Format(b)) <==> Before(a, b)
    ensures Format(a) == Format(b) <==> a == b
  {
    Widths();
    SecondsInOrder(a, b);
    FieldThen(a.nano, b.nano, 9, "", "Z", "Z");
    assert "" + "Z" == "Z";
    Irreflexive("Z");
    SamePrefix(".", Numeral(a.nano, 9) + "Z", Numeral(b.nano, 9) + "Z");
    FieldDecides(Seconds(a), Seconds(b), "." + (Numeral(a.nano, 9) + "Z"), "." + (Numeral(b.nano, 9) + "Z"));
    assert ("." + (Numeral(a.nano, 9) + "Z"))[1..] == Numeral(a.nano, 9) + "Z";
    assert ("." + (Numeral(b.nano, 9) + "Z"))[1..] == Numeral(b.nano, 9) + "Z";
    NanosInOrder(a, b);
  }

  /** For all accepted timestamps the order of the keys as strings is the order of the instants,
      and equal keys mean equal instants, whatever the offsets and precisions. */
  lemma KeysAreChronological(v: string, w: string)
    requires Key(v).Some? && Key(w).Some?
    ensures Less(Key(v).value, Key(w).value) <==> Instant(Parse(v)) < Instant(Parse(w))
    ensures Key(v).value == Key(w).value <==> Instant(Parse(v)) == Instant(Parse(w))
  {
    var p, q := Parse(v), Parse(w);
    var a, b := UTC(p.local, p.offset), UTC(q.local, q.offset);
    UTCKeepsTheInstant(p.local, p.offset);
    UTCKeepsTheInstant(q.local, q.offset);
    FormatInOrder(a, b);
    NanosInOrder(a, b);
  }

  /******* What is accepted *******/

  function Fraction(digits: string): string {
    if digits == "" then "" else "." + digits
  }

  /** A timestamp as section 5.6 of RFC 3339 writes it. */
  function Render(t: Stamp, sep: char, digits: string, zone: string): string
    requires Storable(t)
  {
    Seconds(t)[10 := sep] + (Fraction(digits) + zone)
  }

  ghost predicate Writes(t: Stamp, sep: char, digits: string, zone: string, value: string) {
    && Storable(t) && (sep == 'T' || sep == 't') && AllDigits(digits) && |digits| <= 9 && Nano(digits) == t.nano
    && Zone(zone).Some? && FourDigitYear(UTC(t, Zone(zone).value)) && value == Render(t, sep, digits, zone)
  }

  lemma {:induction false} DigitsEndIs(value: string, i: nat, digits: string)
    requires i + |digits| <= |value| && value[i..i + |digits|] == digits && AllDigits(digits)
    requires i + |digits| < |value| ==> !IsDigit(value[i + |digits|])
    ensures DigitsEnd(value, i) == i + |digits|
    decreases |digits|
  {
    if digits != "" {
      assert value[i] == digits[0] && digits[0] in digits;
      assert value[i + 1..i + 1 + |digits[1..]|] == digits[1..];
      DigitsEndIs(value, i + 1, digits[1..]);
    }
  }

  lemma PairIs(s: string, i: nat, n: nat)
    requires i + 2 <= |s| && s[i..i + 2] == Numeral(n, 2) && n < 100
    ensures IsDigit(s[i]) && IsDigit(s[i + 1]) && Pair(s, i) == n
  {
    assert Numeral(n, 2) == Numeral(n / 10, 1) + [('0' as int + n % 10) as char];
    assert Numeral(n / 10, 1) == Numeral(n / 100, 0) + [('0' as int + n / 10 % 10) as char];
    assert s[i] == s[i..i + 2][0] && s[i + 1] == s[i..i + 2][1];
  }

  lemma LowDigits(n: nat)
    ensures n % 100 % 10 == n % 10 && n % 100 / 10 % 10 == n / 10 % 10 && n / 10 / 10 == n / 100
  {
  }

  lemma FourDigits(n: nat)
    ensures Numeral(n, 4) == Numeral(n / 100, 2) + Numeral(n % 100, 2)
  {
    assert Numeral(n, 4) == Numeral(n / 10, 3) + [('0' as int + n % 10) as char];
    assert Numeral(n / 10, 3) == Numeral(n / 100, 2) + [('0' as int + n / 10 % 10) as char];
    assert Numeral(n % 100, 2) == Numeral(n % 100 / 10, 1) + [('0' as int + n % 10) as char];
    LowDigits(n);
    assert Numeral(n % 100 / 10, 1) == Numeral(n % 100 / 100, 0) + [('0' as int + n / 10 % 10) as char];
  }

  lemma YearIs(s: string, n: nat)
    requires 4 <= |s| && s[..4] == Numeral(n, 4) && n < 10_000
    ensures IsDigit(s[0]) && IsDigit(s[1]) && IsDigit(s[2]) && IsDigit(s[3]) && Pair(s, 0) * 100 + Pair(s, 2) == n
  {
    FourDigits(n);
    assert s[0..2] == s[..4][..2] && s[2..4] == s[..4][2..];
    PairIs(s, 0, n / 100);
    PairIs(s, 2, n % 100);
  }

  lemma DateParses(t: Stamp, value: string)
    requires Storable(t) && |value| >= 10 && value[..10] == DatePart(t)
    ensures forall i <- [0, 1, 2, 3, 5, 6, 8, 9] :: IsDigit(value[i])
    ensures value[4] == '-' && value[7] == '-'
    ensures Pair(value, 0) * 100 + Pair(value, 2) == t.date.year && Pair(value, 5) == t.date.month &&
            Pair(value, 8) == t.date.day
  {
    var d := value[..10];
    SliceOfSlice(value, 0, 10, 0, 4);
    SliceOfSlice(value, 0, 10, 5, 7);
    SliceOfSlice(value, 0, 10, 8, 10);
    assert value[0..10] == d;
    assert d[0..4] == Numeral(t.date.year, 4) && d[5..7] == Numeral(t.date.month, 2) &&
        d[8..10] == Numeral(t.date.day, 2);
    assert value[4] == d[4] == '-' && value[7] == d[7] == '-';
    YearIs(value, t.date.year);
    PairIs(value, 5, t.date.month);
    PairIs(value, 8, t.date.day);
  }

  function DatePart(u: Stamp): string
    requires Storable(u)
  {
    Numeral(u.date.year, 4) + ("-" + (Numeral(u.date.month, 2) + ("-" + Numeral(u.date.day, 2))))
  }

  lemma SecondsSplit(u: Stamp, sep: char)
    requires Storable(u)
    ensures |DatePart(u)| == 10 && Seconds(u)[10 := sep] == DatePart(u) + ([sep] + Clock(u))
  {
    assert Seconds(u) == DatePart(u) + ("T" + Clock(u));
  }

  lemma SecondsShaped(t: Stamp, sep: char, rest: string)
    requires Storable(t) && (sep == 'T' || sep == 't') && 1 <= |rest| <= 16
    ensures var value := Seconds(t)[10 := sep] + rest;
            Shaped(value) && value[..10] == DatePart(t) && value[11..19] == Clock(t)
  {
    var value := Seconds(t)[10 := sep] + rest;
    SecondsSplit(t, sep);
    assert value[..10] == DatePart(t) && value[10] == sep && value[11..19] == Clock(t);
    DateParses(t, value);
    ClockParses(t, value);
    DigitsTogether(value);
  }

  lemma SecondsParse(t: Stamp, sep: char, rest: string, nano: nat, offset: int)
    requires Storable(t) && (sep == 'T' || sep == 't') && 1 <= |rest| <= 16 && nano == t.nano
    ensures var value := Seconds(t)[10 := sep] + rest;
            Shaped(value) && Fields(value, nano, offset) == Accepted(t, offset)
  {
    var value := Seconds(t)[10 := sep] + rest;
    SecondsShaped(t, sep, rest);
    DateParses(t, value);
    ClockParses(t, value);
  }

  lemma DigitsTogether(value: string)
    requires |value| >= 19
    requires forall i <- [0, 1, 2, 3, 5, 6, 8, 9] :: IsDigit(value[i])
    requires forall i <- [11, 12, 14, 15, 17, 18] :: IsDigit(value[i])
    ensures DigitsAt(value, DIGIT_POSITIONS)
  {
  }

  lemma SliceOfSlice(s: string, a: nat, b: nat, c: nat, d: nat)
    requires a <= b <= |s| && c <= d <= b - a
    ensures s[a..b][c..d] == s[a + c..a + d]
  {
    forall k | 0 <= k < d - c ensures s[a..b][c..d][k] == s[a + c..a + d][k] {}
  }

  lemma ClockParses(t: Stamp, value: string)
    requires Storable(t) && |value| >= 19 && value[11..19] == Clock(t)
    ensures forall i <- [11, 12, 14, 15, 17, 18] :: IsDigit(value[i])
    ensures value[13] == ':' && value[16] == ':'
    ensures Pair(value, 11) == t.hour && Pair(value, 14) == t.minute && Pair(value, 17) == t.second
  {
    var c := value[11..19];
    assert c == Clock(t);
    SliceOfSlice(value, 11, 19, 0, 2);
    SliceOfSlice(value, 11, 19, 3, 5);
    SliceOfSlice(value, 11, 19, 6, 8);
    assert c[0..2] == Numeral(t.hour, 2) && c[3..5] == Numeral(t.minute, 2) && c[6..8] == Numeral(t.second, 2);
    assert value[13] == c[2] == ':' && value[16] == c[5] == ':';
    PairIs(value, 11, t.hour);
    PairIs(value, 14, t.minute);
    PairIs(value, 17, t.second);
  }

  /** Where the fraction ends and the zone begins, when there is a fraction. */
  lemma FractionFound(value: string, digits: string, zone: string)
    requires |value| >= 19 && value[19..] == "." + digits + zone && digits != "" && AllDigits(digits)
    requires zone != "" && !IsDigit(zone[0])
    ensures value[19] == '.' && DigitsEnd(value, 20) == 20 + |digits|
    ensures value[20..20 + |digits|] == digits && value[20 + |digits|..] == zone
  {
    var rest := value[19..];
    assert |value| == 20 + |digits| + |zone| && value[19] == rest[0];
    SliceOfSlice(value, 19, |value|, 1, 1 + |digits|);
    SliceOfSlice(value, 19, |value|, 1 + |digits|, |rest|);
    assert rest[1..1 + |digits|] == digits && rest[1 + |digits|..] == zone;
    assert value[20 + |digits|] == zone[0];
    DigitsEndIs(value, 20, digits);
  }

  lemma NoFraction()
    ensures Nano("") == 0
  {
    NumOfZeros(9);
    assert "" + seq(9, _ => '0') == seq(9, _ => '0');
  }

  lemma ZoneLetters(zone: string)
    requires Zone(zone).Some?
    ensures zone != "" && !IsDigit(zone[0]) && zone[0] != '.' && |zone| <= 6
  {
  }

  lemma WrittenIsAccepted(t: Stamp, sep: char, digits: string, zone: string, value: string)
    requires Writes(t, sep, digits, zone, value)
    ensures Parse(value) == Accepted(t, Zone(zone).value)
  {
    var rest := Fraction(digits) + zone;
    ZoneLetters(zone);
    SecondsParse(t, sep, rest, t.nano, Zone(zone).value);
    assert value[19..] == rest;
    if digits == "" {
      NoFraction();
      assert rest == zone && value[19] == rest[0];
    } else {
      FractionFound(value, digits, zone);
    }
  }

  lemma {:induction false} NumOfZeros(w: nat)
    ensures AllDigits(seq(w, _ => '0')) && Num(seq(w, _ => '0')) == 0
  {
    if w > 0 {
      NumOfZeros(w - 1);
      assert seq(w, _ => '0')[..w - 1] == seq(w - 1, _ => '0');
    }
  }

  lemma PairNumeral(s: string, i: nat)
    requires i + 2 <= |s| && IsDigit(s[i]) && IsDigit(s[i + 1])
    ensures s[i..i + 2] == Numeral(Pair(s, i), 2)
  {
    var n := Pair(s, i);
    assert Numeral(n, 2) == Numeral(n / 10, 1) + [('0' as int + n % 10) as char];
    assert Numeral(n / 10, 1) == Numeral(n / 100, 0) + [('0' as int + n / 10 % 10) as char];
  }

  lemma YearNumeral(s: string)
    requires 4 <= |s| && IsDigit(s[0]) && IsDigit(s[1]) && IsDigit(s[2]) && IsDigit(s[3])
    ensures s[..4] == Numeral(Pair(s, 0) * 100 + Pair(s, 2), 4)
  {
    var n := Pair(s, 0) * 100 + Pair(s, 2);
    PairNumeral(s, 0);
    PairNumeral(s, 2);
    assert n / 10 / 10 == Pair(s, 0) && n / 10 % 10 == Pair(s, 2) / 10 && n % 10 == Pair(s, 2) % 10;
    assert Numeral(n, 4) == Numeral(n / 10, 3) + [s[3]];
    assert Numeral(n / 10, 3) == Numeral(Pair(s, 0), 2) + [s[2]];
  }

  lemma AcceptedClock(value: string, t: Stamp)
    requires Storable(t) && |value| >= 19 && value[13] == ':' && value[16] == ':'
    requires forall i <- [11, 12, 14, 15, 17, 18] :: IsDigit(value[i])
    requires Pair(value, 11) == t.hour && Pair(value, 14) == t.minute && Pair(value, 17) == t.second
    ensures value[11..19] == Clock(t)
  {
    assert forall i <- [11, 12, 14, 15, 17, 18] :: IsDigit(value[i]);
    PairNumeral(value, 11);
    PairNumeral(value, 14);
    PairNumeral(value, 17);
    assert value[11..19] == value[11..13] + (":" + (value[14..16] + (":" + value[17..19])));
  }


  lemma DateWritten(value: string, t: Stamp)
    requires Storable(t) && |value| >= 10 && value[4] == '-' && value[7] == '-'
    requires IsDigit(value[0]) && IsDigit(value[1]) && IsDigit(value[2]) && IsDigit(value[3])
    requires IsDigit(value[5]) && IsDigit(value[6]) && IsDigit(value[8]) && IsDigit(value[9])
    requires Pair(value, 0) * 100 + Pair(value, 2) == t.date.year
    requires Pair(value, 5) == t.date.month && Pair(value, 8) == t.date.day
    ensures value[..10] == DatePart(t)
  {
    YearNumeral(value);
    PairNumeral(value, 5);
    PairNumeral(value, 8);
    assert value[..10] == value[..4] + ("-" + (value[5..7] + ("-" + value[8..10])));
  }

  lemma PartsWrite(value: string, t: Stamp)
    requires Storable(t) && |value| >= 19 && value[..10] == DatePart(t) && value[11..19] == Clock(t)
    ensures value[..19] == Seconds(t)[10 := value[10]]
  {
    SecondsSplit(t, value[10]);
    assert value[..19] == value[..10] + ([value[10]] + value[11..19]);
  }

  lemma DigitsApart(value: string)
    requires Shaped(value)
    ensures IsDigit(value[0]) && IsDigit(value[1]) && IsDigit(value[2]) && IsDigit(value[3])
    ensures IsDigit(value[5]) && IsDigit(value[6]) && IsDigit(value[8]) && IsDigit(value[9])
    ensures forall i <- [11, 12, 14, 15, 17, 18] :: IsDigit(value[i])
  {
    assert forall i <- DIGIT_POSITIONS :: IsDigit(value[i]);
  }

  lemma AcceptedSeconds(value: string, t: Stamp, nano: nat, offset: int)
    requires Shaped(value) && nano < 1_000_000_000 && Fields(value, nano, offset) == Accepted(t, offset)
    ensures Storable(t) && t.nano == nano && value[..19] == Seconds(t)[10 := value[10]]
  {
    DigitsApart(value);
    DateWritten(value, t);
    AcceptedClock(value, t);
    PartsWrite(value, t);
  }

  /** The fraction and the zone of an accepted timestamp. */
  function Pieces(value: string): (p: (string, string))
    requires |value| >= 20 && (value[19] == '.' ==> DigitsEnd(value, 20) <= 29)
    ensures AllDigits(p.0) && |p.0| <= 9
  {
    var zoneStart := if value[19] == '.' then DigitsEnd(value, 20) else 19;
    (if value[19] == '.' then value[20..zoneStart] else "", value[zoneStart..])
  }

  lemma SplitThree(s: string, a: nat, b: nat)
    requires a < b <= |s|
    ensures s[a..] == [s[a]] + s[a + 1..b] + s[b..]
  {
    var r := [s[a]] + s[a + 1..b] + s[b..];
    assert |s[a..]| == |r|;
    forall k | 0 <= k < |r| ensures s[a..][k] == r[k] {}
  }

  lemma PiecesSplit(value: string)
    requires |value| >= 20 && (value[19] == '.' ==> 20 < DigitsEnd(value, 20) <= 29)
    ensures var (digits, zone) := Pieces(value); value[19..] == Fraction(digits) + zone
  {
    if value[19] == '.' { FractionSplit(value, DigitsEnd(value, 20)); }
  }

  lemma FractionSplit(value: string, end: nat)
    requires 20 < end <= |value| && value[19] == '.'
    ensures value[19..] == Fraction(value[20..end]) + value[end..]
  {
    SplitThree(value, 19, end);
    assert [value[19]] == ".";
  }

  lemma AcceptedFields(value: string)
    requires Parse(value).Accepted?
    ensures Shaped(value) && (value[19] == '.' ==> 20 < DigitsEnd(value, 20) <= 29)
    ensures var (digits, zone) := Pieces(value);
      Zone(zone) == Some(Parse(value).offset) && Fields(value, Nano(digits), Parse(value).offset) == Parse(value)
  {
    NoFraction();
  }

  lemma WhatWasWritten(value: string)
    requires Parse(value).Accepted?
    ensures exists sep, digits, zone :: Writes(Parse(value).local, sep, digits, zone, value)
  {
    AcceptedFields(value);
    PiecesSplit(value);
    var (digits, zone) := Pieces(value);
    AcceptedSeconds(value, Parse(value).local, Nano(digits), Parse(value).offset);
    assert value == value[..19] + value[19..];
    assert Writes(Parse(value).local, value[10], digits, zone, value);
  }

  /** Exactly the strings of the grammar are accepted that name a real civil time and whose UTC year
      has four digits, and they are read as written. */
  lemma AcceptedIffWritten(value: string)
    ensures Parse(value).Accepted? <==> exists t, sep, digits, zone :: Writes(t, sep, digits, zone, value)
    ensures forall t, sep, digits, zone :: Writes(t, sep, digits, zone, value) ==>
            Parse(value) == Accepted(t, Zone(zone).value)
  {
    forall t, sep, digits, zone | Writes(t, sep, digits, zone, value)
      ensures Parse(value) == Accepted(t, Zone(zone).value)
    {
      WrittenIsAccepted(t, sep, digits, zone, value);
    }
    if Parse(value).Accepted? { WhatWasWritten(value); }
  }

  /******* Keys of keys, and the ordering of the history page *******/

  lemma NanoOfNumeral(nano: nat)
    requires nano < 1_000_000_000
    ensures Nano(Numeral(nano, 9)) == nano
  {
    Widths();
    assert Numeral(nano, 9) + seq(0, _ => '0') == Numeral(nano, 9);
    NumOfNumeral(nano, 9);
  }

  lemma UTCOfUTC(u: Stamp)
    requires ValidStamp(u)
    ensures UTC(u, 0) == u
  {
  }

  lemma FormatIsRendered(u: Stamp)
    requires Storable(u)
    ensures Format(u) == Render(u, 'T', Numeral(u.nano, 9), "Z")
  {
    assert Seconds(u)[10 := 'T'] == Seconds(u);
    assert Fraction(Numeral(u.nano, 9)) + "Z" == "." + (Numeral(u.nano, 9) + "Z");
  }

  /** The key of a key is that key. */
  lemma KeyIsIdempotent(value: string)
    requires Key(value).Some?
    ensures Key(Key(value).value) == Key(value)
  {
    var p := Parse(value);
    var u := UTC(p.local, p.offset);
    var key := Format(u);
    NanoOfNumeral(u.nano);
    UTCOfUTC(u);
    FormatIsRendered(u);
    WrittenIsAccepted(u, 'T', Numeral(u.nano, 9), "Z", key);
  }

  function TrimZeros(s: string): (r: string)
    ensures |r| <= |s| && r == s[..|r|] && forall i :: |r| <= i < |s| ==> s[i] == '0'
  {
    if s != "" && s[|s| - 1] == '0' then TrimZeros(s[..|s| - 1]) else s
  }

  /** What the writers store: time.RFC3339Nano in UTC. */
  function Canonical(u: Stamp): string
    requires Storable(u)
  {
    Render(u, 'T', TrimZeros(Numeral(u.nano, 9)), "Z")
  }

  function WithoutZ(s: string): string {
    if s == "" then "" else (if s[0] == 'Z' then "" else [s[0]]) + WithoutZ(s[1..])
  }

  /** The two columns the history page sorts by: the first nineteen characters, and the fraction
      padded with zeros to nine digits. */
  function PaddedColumns(value: string): (string, string)
    requires |value| >= 20
  {
    (value[..19], (WithoutZ(value[20..]) + "000000000")[..9])
  }

  predicate ColumnsLess(a: (string, string), b: (string, string)) {
    Less(a.0, b.0) || (a.0 == b.0 && Less(a.1, b.1))
  }

  lemma {:induction false} DigitsKeepNoZ(s: string)
    requires AllDigits(s)
    ensures WithoutZ(s + "Z") == s && WithoutZ(s) == s
  {
    if s == "" {
      assert "" + "Z" == "Z" && "Z"[1..] == "";
    } else {
      assert (s + "Z")[1..] == s[1..] + "Z" && s[0] in s;
      DigitsKeepNoZ(s[1..]);
    }
  }

  lemma CanonicalColumns(u: Stamp)
    requires Storable(u)
    ensures |Canonical(u)| >= 20 && PaddedColumns(Canonical(u)) == (Seconds(u), Numeral(u.nano, 9))
  {
    var digits := TrimZeros(Numeral(u.nano, 9));
    var value := Canonical(u);
    assert AllDigits(digits);
    assert Seconds(u)[10 := 'T'] == Seconds(u);
    assert value == Seconds(u) + (Fraction(digits) + "Z");
    assert value[..19] == Seconds(u);
    assert value[20..] == (Fraction(digits) + "Z")[1..];
    DigitsKeepNoZ(digits);
    assert WithoutZ(value[20..]) == digits by {
      if digits == "" { assert value[20..] == ""; } else { assert value[20..] == digits + "Z"; }
    }
    assert (digits + "000000000")[..9] == Numeral(u.nano, 9);
  }

  /** On canonical UTC strings the history page's order is the order of the keys. */
  lemma HistoryOrderAgrees(a: Stamp, b: Stamp)
    requires Storable(a) && Storable(b)
    ensures Key(Canonical(a)) == Some(Format(a)) && Key(Canonical(b)) == Some(Format(b))
    ensures |Canonical(a)| >= 20 && |Canonical(b)| >= 20
    ensures ColumnsLess(PaddedColumns(Canonical(a)), PaddedColumns(Canonical(b))) <==>
            Less(Key(Canonical(a)).value, Key(Canonical(b)).value)
  {
    CanonicalColumns(a);
    CanonicalColumns(b);
    CanonicalKey(a);
    CanonicalKey(b);
    Widths();
    SecondsInOrder(a, b);
    NumeralsInOrder(a.nano, b.nano, 9);
    FormatInOrder(a, b);
  }

  lemma CanonicalKey(u: Stamp)
    requires Storable(u)
    ensures Key(Canonical(u)) == Some(Format(u))
  {
    var digits := TrimZeros(Numeral(u.nano, 9));
    NanoOfNumeral(u.nano);
    assert digits + seq(9 - |digits|, _ => '0') == Numeral(u.nano, 9);
    assert Numeral(u.nano, 9) + seq(0, _ => '0') == Numeral(u.nano, 9);
    UTCOfUTC(u);
    assert AllDigits(digits);
    WrittenIsAccepted(u, 'T', digits, "Z", Canonical(u));
  }

  /******* The parser as the program writes it *******/

  method ScanDigits(value: string, start: nat) returns (end: nat)
    requires start <= |value|
    ensures end == DigitsEnd(value, start)
  {
    end := start;
    while end < |value| && IsDigit(value[end])
      invariant start <= end <= |value| && DigitsEnd(value, start) == DigitsEnd(value, end)
    {
      end := end + 1;
    }
  }

  /** The end of the parser: the zone, the fields, and the range of the year in UTC. */
  method ReadZone(value: string, zoneStart: nat, nano: nat) returns (p: Parsed)
    requires Shaped(value) && zoneStart <= |value| && nano < 1_000_000_000
    ensures p == WithZone(value, nano, Zone(value[zoneStart..]))
  {
    var offset := Zone(value[zoneStart..]);
    if offset.None? { return Rejected; }
    var instant := Fields(value, nano, offset.value);
    if instant.Rejected? { return Rejected; }
    var utc := UTC(instant.local, instant.offset);
    if utc.date.year < 0 || utc.date.year > 9999 { return Rejected; }
    return instant;
  }

  /** The separators and digits of the first nineteen bytes, and the length. */
  method HasShape(value: string) returns (ok: bool)
    ensures ok == Shaped(value)
  {
    if |value| < 20 || |value| > 35 || value[4] != '-' || value[7] != '-' ||
       (value[10] != 'T' && value[10] != 't') || value[13] != ':' || value[16] != ':' {
      return false;
    }
    for k := 0 to |DIGIT_POSITIONS|
      invariant forall j :: 0 <= j < k ==> IsDigit(value[DIGIT_POSITIONS[j]])
    {
      if !IsDigit(value[DIGIT_POSITIONS[k]]) {
        assert DIGIT_POSITIONS[k] in DIGIT_POSITIONS;
        return false;
      }
    }
    return true;
  }

  method ParseDecisionTimestamp(value: string) returns (p: Parsed)
    ensures p == Parse(value)
  {
    var shaped := HasShape(value);
    if !shaped { return Rejected; }
    var zoneStart, nano := 19, 0;
    if value[zoneStart] == '.' {
      zoneStart := ScanDigits(value, 20);
      var fractionDigits := zoneStart - 20;
      if fractionDigits < 1 || fractionDigits > 9 { return Rejected; }
      nano := Nano(value[20..zoneStart]);
    }
    p := ReadZone(value, zoneStart, nano);
  }
}
