// The clock of source/arm7/clock.c: the closed form that turns a date into seconds, the validity check,
// the BCD registers of the real-time clock, and the count of seconds that is kept in step with it.

module Clock {
  import opened Words

  // The fields of rtcTimeAndDate, each a byte. The year counts from 2000.
  datatype Date = Date(year: Byte, month: Byte, day: Byte, weekday: Byte, hours: Byte, minutes: Byte, seconds: Byte)

  const DAY := 86400

  // ----- the source's closed forms

  predicate Leap(y: int) { (y % 4 == 0 && y % 100 != 0) || y % 400 == 0 }

  function NLeap(y: int): int { (y - 1969) / 4 - (y - 1901) / 100 + (y - 1601) / 400 }

  const YDAYS: seq<nat> := [0, 31, 59, 90, 120, 151, 181, 212, 243, 273, 304, 334, 365]

  const NUMDAYS: seq<nat> := [31, 28, 31, 30, 31, 30, 31, 31, 30, 31, 30, 31]

  predicate IsValidTime(d: Date) { d.hours <= 23 && d.minutes <= 59 && d.seconds <= 59 }

  function MonthDays(y: int, month: int): nat
    requires 1 <= month <= 12
  {
    NUMDAYS[month - 1] + if month == 2 && Leap(y) then 1 else 0
  }

  predicate IsValidDate(d: Date) {
    d.year <= 99 && 1 <= d.month <= 12 && 1 <= d.day <= MonthDays(2000 + d.year, d.month) && IsValidTime(d)
  }

  // __mktime. It checks nothing: it needs a month of the table, and computes modulo 2^32.
  function Mktime(d: Date): (t: Word)
    requires 1 <= d.month <= 12
  {
    (DAY * Days(d) + 3600 * d.hours + (60 * d.minutes + d.seconds)) % TWO32
  }

  function Days(d: Date): int
    requires 1 <= d.month <= 12
  {
    var years, months := d.year + 2000, d.month - 1;
    var days := d.day - 1 + YDAYS[months] + if months > 1 && Leap(years) then 1 else 0;
    days + 365 * (years - 1970) + NLeap(years)
  }

  // The seconds of a valid date fit the 32 bits.
  lemma SecondsFit(days: int, d: Date)
    requires IsValidTime(d) && 0 <= days < 47849
    ensures 0 <= DAY * days + 3600 * d.hours + (60 * d.minutes + d.seconds) < TWO32
  {
  }

  lemma LeapsInRange(y: int)
    requires 2000 <= y <= 2099
    ensures 0 <= NLeap(y) <= 33
  {
  }

  // ----- the calendar, day by day

  // Leap years from 1970 on, before y.
  function LeapsBefore(y: int): nat
    requires y >= 1970
  {
    if y == 1970 then 0 else LeapsBefore(y - 1) + if Leap(y - 1) then 1 else 0
  }

  lemma DivStep(n: int)
    ensures (n + 1) / 4 == n / 4 + if (n + 1) % 4 == 0 then 1 else 0
    ensures (n + 1) / 100 == n / 100 + if (n + 1) % 100 == 0 then 1 else 0
    ensures (n + 1) / 400 == n / 400 + if (n + 1) % 400 == 0 then 1 else 0
  {
  }

  lemma {:induction false} NLeapCountsLeapYears(y: int)
    requires y >= 1970
    ensures NLeap(y) == LeapsBefore(y)
  {
    hide NLeap, Leap;
    if y > 1970 {
      NLeapCountsLeapYears(y - 1);
      NLeapStep(y - 1);
    } else {
      assert NLeap(1970) == 0 by {
        NLeapByYears(1970);
      }
    }
  }

  lemma Multiples(z: int)
    ensures z % 400 == 0 ==> z % 100 == 0
    ensures z % 100 == 0 ==> z % 4 == 0
  {
  }

  lemma NLeapStep(y: int)
    ensures NLeap(y + 1) == NLeap(y) + if Leap(y) then 1 else 0
  {
    NLeapByYears(y);
    NLeapByYears(y + 1);
    DivStep(y - 1);
    Multiples(y);
    OneMore(y / 4, y / 100, y / 400, (y - 1) / 4, (y - 1) / 100, (y - 1) / 400, y % 4 == 0, y % 100 == 0, y % 400 == 0);
  }

  lemma OneMore(a1: int, b1: int, c1: int, a: int, b: int, c: int, by4: bool, by100: bool, by400: bool)
    requires a1 == a + (if by4 then 1 else 0) && b1 == b + (if by100 then 1 else 0) &&
      c1 == c + (if by400 then 1 else 0)
    requires (by400 ==> by100) && (by100 ==> by4)
    ensures a1 - b1 + c1 == a - b + c + if (by4 && !by100) || by400 then 1 else 0
  {
  }

  lemma NLeapByYears(y: int)
    ensures NLeap(y) == (y - 1) / 4 - (y - 1) / 100 + (y - 1) / 400 - 477
  {
    Offsets(y - 1);
  }

  // 1968, 1900 and 1600 are multiples of 4, 100 and 400.
  lemma Offsets(z: int)
    ensures (z - 1968) / 4 == z / 4 - 492 && (z - 1900) / 100 == z / 100 - 19 && (z - 1600) / 400 == z / 400 - 4
  {
  }

  function YearDays(y: int): nat { if Leap(y) then 366 else 365 }

  function DaysBeforeYear(y: int): nat
    requires y >= 1970
  {
    if y == 1970 then 0 else DaysBeforeYear(y - 1) + YearDays(y - 1)
  }

  function DaysBeforeMonth(y: int, month: int): nat
    requires 1 <= month <= 12
    decreases month
  {
    if month == 1 then 0 else DaysBeforeMonth(y, month - 1) + MonthDays(y, month - 1)
  }

  lemma {:induction false} YearsAddUp(y: int)
    requires y >= 1970
    ensures DaysBeforeYear(y) == 365 * (y - 1970) + LeapsBefore(y)
  {
    if y > 1970 {
      YearsAddUp(y - 1);
    }
  }

  lemma {:induction false} MonthsAddUp(y: int, month: int)
    requires 1 <= month <= 12
    ensures DaysBeforeMonth(y, month) == YDAYS[month - 1] + if month > 2 && Leap(y) then 1 else 0
    ensures DaysBeforeMonth(y, month) + MonthDays(y, month) <= YearDays(y)
    ensures month == 12 ==> DaysBeforeMonth(y, month) + MonthDays(y, month) == YearDays(y)
  {
    if month > 1 {
      MonthsAddUp(y, month - 1);
    }
  }

  function DayNumber(d: Date): nat
    requires IsValidDate(d)
  {
    DaysBeforeYear(2000 + d.year) + DaysBeforeMonth(2000 + d.year, d.month) + (d.day - 1)
  }

  // The closed form is the count of all days since 1970, year by year and month by month.
  lemma MktimeCountsDays(d: Date)
    requires IsValidDate(d)
    ensures Mktime(d) == DAY * DayNumber(d) + 3600 * d.hours + 60 * d.minutes + d.seconds
  {
    hide Days, DayNumber, MonthDays;
    DaysAreCounted(d);
    SecondsFit(DayNumber(d), d);
  }

  lemma DaysAreCounted(d: Date)
    requires IsValidDate(d)
    ensures Days(d) == DayNumber(d) < 47849
  {
    hide Leap, NLeap, MonthDays, DaysBeforeYear, DaysBeforeMonth;
    var y := 2000 + d.year;
    NLeapCountsLeapYears(y);
    YearsAddUp(y);
    MonthsAddUp(y, d.month);
    LeapsInRange(y);
  }

  // ----- the next second

  const LAST := Date(99, 12, 31, 0, 23, 59, 59)

  predicate SameTime(d: Date, e: Date) { d.(weekday := 0) == e.(weekday := 0) }

  function NextDay(d: Date): Date
    requires IsValidDate(d) && !(d.year == 99 && d.month == 12 && d.day == 31)
  {
    var weekday := (d.weekday + 1) % 7;
    if d.day < MonthDays(2000 + d.year, d.month) then d.(day := d.day + 1, weekday := weekday)
    else if d.month < 12 then d.(day := 1, month := d.month + 1, weekday := weekday)
    else d.(day := 1, month := 1, year := d.year + 1, weekday := weekday)
  }

  // What the real-time clock does once a second, up to the end of its hundred years.
  function NextSecond(d: Date): Date
    requires IsValidDate(d) && !SameTime(d, LAST)
  {
    if d.seconds < 59 then d.(seconds := d.seconds + 1)
    else if d.minutes < 59 then d.(seconds := 0, minutes := d.minutes + 1)
    else if d.hours < 23 then d.(seconds := 0, minutes := 0, hours := d.hours + 1)
    else NextDay(d).(seconds := 0, minutes := 0, hours := 0)
  }

  lemma NextDayIsNext(d: Date)
    requires IsValidDate(d) && !(d.year == 99 && d.month == 12 && d.day == 31)
    ensures IsValidDate(NextDay(d)) && DayNumber(NextDay(d)) == DayNumber(d) + 1
  {
    hide Leap, MonthDays;
    var y, n := 2000 + d.year, NextDay(d);
    MonthsAddUp(y, d.month);
    MonthLengths(y, d.month);
    if d.day == MonthDays(y, d.month) {
      MonthLengths(y, if d.month < 12 then d.month + 1 else 1);
      MonthLengths(y + 1, 1);
      if d.month == 12 {
        assert n.year == d.year + 1 && n.month == 1;
        assert DaysBeforeYear(y + 1) == DaysBeforeYear(y) + YearDays(y);
        assert DaysBeforeMonth(y + 1, 1) == 0;
      }
    }
  }

  lemma MonthLengths(y: int, month: int)
    requires 1 <= month <= 12
    ensures 28 <= MonthDays(y, month) <= 31 && (month == 12 ==> MonthDays(y, month) == 31)
  {
  }

  lemma NextSecondIsNext(d: Date)
    requires IsValidDate(d) && !SameTime(d, LAST)
    ensures IsValidDate(NextSecond(d)) && Mktime(NextSecond(d)) == Mktime(d) + 1
  {
    hide Mktime, DayNumber, MonthDays;
    MktimeCountsDays(d);
    if d.seconds == 59 && d.minutes == 59 && d.hours == 23 {
      DecemberHas31(d.year);
      NextDayIsNext(d);
      SameDay(NextDay(d), NextSecond(d));
    } else {
      SameDay(d, NextSecond(d));
    }
    MktimeCountsDays(NextSecond(d));
  }

  lemma DecemberHas31(year: int)
    ensures MonthDays(2000 + year, 12) == 31
  {
  }

  lemma SameDay(d: Date, e: Date)
    requires IsValidDate(d) && IsValidTime(e) && e.year == d.year && e.month == d.month && e.day == d.day
    ensures IsValidDate(e) && DayNumber(e) == DayNumber(d)
  {
    hide MonthDays, DaysBeforeYear, DaysBeforeMonth;
  }

  // ----- order

  predicate Earlier(d: Date, e: Date) {
    d.year < e.year || (d.year == e.year && (
    d.month < e.month || (d.month == e.month && (
    d.day < e.day || (d.day == e.day && (
    d.hours < e.hours || (d.hours == e.hours && (
    d.minutes < e.minutes || (d.minutes == e.minutes && d.seconds < e.seconds)))))))))
  }

  lemma {:induction false} LaterMonth(y: int, m: int, n: int)
    requires 1 <= m < n <= 12
    ensures DaysBeforeMonth(y, m) + MonthDays(y, m) <= DaysBeforeMonth(y, n)
    decreases n
  {
    if m + 1 < n {
      LaterMonth(y, m, n - 1);
    }
  }

  lemma {:induction false} LaterYear(y: int, z: int)
    requires 1970 <= y < z
    ensures DaysBeforeYear(y) + YearDays(y) <= DaysBeforeYear(z)
    decreases z
  {
    if y + 1 < z {
      LaterYear(y, z - 1);
    }
  }

  lemma EarlierIsLess(d: Date, e: Date)
    requires IsValidDate(d) && IsValidDate(e) && Earlier(d, e)
    ensures Mktime(d) < Mktime(e)
  {
    hide Mktime, DaysBeforeYear, DaysBeforeMonth, MonthDays, YearDays;
    MktimeCountsDays(d);
    MktimeCountsDays(e);
    MonthsAddUp(2000 + d.year, d.month);
    if d.year < e.year {
      LaterYear(2000 + d.year, 2000 + e.year);
    } else if d.month < e.month {
      LaterMonth(2000 + d.year, d.month, e.month);
    }
  }

  // The order of dates is the order of their seconds; and only the day of the week does not count.
  lemma MktimeKeepsOrder(d: Date, e: Date)
    requires IsValidDate(d) && IsValidDate(e)
    ensures Mktime(d) < Mktime(e) <==> Earlier(d, e)
    ensures Mktime(d) == Mktime(e) <==> SameTime(d, e)
  {
    hide Mktime, IsValidDate;
    if Earlier(d, e) {
      EarlierIsLess(d, e);
    } else if Earlier(e, d) {
      EarlierIsLess(e, d);
    } else {
      assert SameTime(d, e);
      WeekdayDoesNotCount(d, e);
    }
  }

  lemma WeekdayDoesNotCount(d: Date, e: Date)
    requires IsValidDate(d) && IsValidDate(e) && SameTime(d, e)
    ensures Mktime(d) == Mktime(e)
  {
  }

  // ----- BCD

  function FromBcd(b: Byte): Byte { b % 16 + b / 16 * 10 }

  // (high << 4) | low, cut to a byte.
  function ToBcd(n: Byte): Byte { (n / 10 * 16 + n % 10) % 256 }

  lemma BcdRoundTrip(n: Byte)
    ensures FromBcd(ToBcd(n)) == n <==> n < 160
  {
    hide FromBcd, ToBcd;
    var high, low := n / 10, n % 10;
    assert n == 10 * high + low;
    ToBcdOf(high, low);
    if high < 16 {
      FromBcdOf(high, low);
    } else {
      FromBcdOf(high - 16, low);
    }
  }

  lemma BcdRoundTripBack(b: Byte)
    ensures ToBcd(FromBcd(b)) == b <==> b % 16 < 10
  {
    hide FromBcd, ToBcd;
    var high, low := b / 16, b % 16;
    assert b == 16 * high + low;
    FromBcdOf(high, low);
    if low < 10 {
      ToBcdOf(high, low);
    } else {
      ToBcdOf(high + 1, low - 10);
      assert 10 * (high + 1) + (low - 10) == 10 * high + low;
    }
  }

  lemma FromBcdOf(high: nat, low: nat)
    requires high < 16 && low < 16
    ensures FromBcd(16 * high + low) == 10 * high + low
  {
    NibblesOf(high, low);
  }

  lemma ToBcdOf(high: nat, low: nat)
    requires low < 10 && 10 * high + low < 256
    ensures ToBcd(10 * high + low) == 16 * (if high < 16 then high else high - 16) + low
  {
    DigitsOf(high, low);
    if high < 16 {
      NibblesOf(high, low);
    } else {
      NibblesOf(high - 16, low);
    }
  }

  lemma DigitsOf(high: nat, low: nat)
    requires low < 10
    ensures (10 * high + low) / 10 == high && (10 * high + low) % 10 == low
  {
  }

  lemma NibblesOf(high: nat, low: nat)
    requires high < 16 && low < 16
    ensures (16 * high + low) / 16 == high && (16 * high + low) % 16 == low &&
      (16 * high + low) % 256 == 16 * high + low
  {
  }

  method BcdToInteger(data: array<Byte>, from: nat, length: nat)
    requires from + length <= data.Length
    modifies data
    ensures forall i :: 0 <= i < data.Length ==>
      data[i] == if from <= i < from + length then FromBcd(old(data[i])) else old(data[i])
  {
    for i := 0 to length
      invariant forall k :: 0 <= k < data.Length ==>
        data[k] == if from <= k < from + i then FromBcd(old(data[k])) else old(data[k])
    {
      var b := data[from + i];
      data[from + i] := FromBcd(b);
    }
  }

  method IntegerToBcd(data: array<Byte>, from: nat, length: nat)
    requires from + length <= data.Length
    modifies data
    ensures forall i :: 0 <= i < data.Length ==>
      data[i] == if from <= i < from + length then ToBcd(old(data[i])) else old(data[i])
  {
    for i := 0 to length
      invariant forall k :: 0 <= k < data.Length ==>
        data[k] == if from <= k < from + i then ToBcd(old(data[k])) else old(data[k])
    {
      var high: int, low: int := data[from + i] / 10, data[from + i] % 10;
      data[from + i] := (high * 16 + low) % 256;
    }
  }

  // ----- the real-time clock and the count of seconds

  function Fields(d: Date): seq<Byte> { [d.year, d.month, d.day, d.weekday, d.hours, d.minutes, d.seconds] }

  function DateOf(f: seq<Byte>): Date
    requires |f| == 7
  {
    Date(f[0], f[1], f[2], f[3], f[4], f[5], f[6])
  }

  // What the registers say: in the 24-hour mode the flag beside the hours is masked off.
  function RegisteredDate(registers: seq<Byte>, hours24: bool): Date
    requires |registers| == 7
  {
    var f := seq(7, i requires 0 <= i < 7 => FromBcd(if i == 4 && hours24 then registers[i] % 64 else registers[i]));
    DateOf(f)
  }

  function Registers(d: Date): (r: seq<Byte>)
    ensures |r| == 7
  {
    seq(7, i requires 0 <= i < 7 => ToBcd(Fields(d)[i]))
  }

  // Fields that two digits hold, and an hour that leaves the flag beside it alone.
  predicate FitsRegisters(d: Date) {
    d.year < 160 && d.month < 160 && d.day < 160 && d.minutes < 160 && d.seconds < 160 && d.hours < 40
  }

  // Such a date comes back as it was written, exactly when its day of the week fits as well. (The check does
  // not look at that.)
  lemma DateRoundTrip(d: Date, hours24: bool)
    requires FitsRegisters(d)
    ensures SameTime(RegisteredDate(Registers(d), hours24), d)
    ensures RegisteredDate(Registers(d), hours24) == d <==> d.weekday < 160
  {
    hide ToBcd, FromBcd;
    var r := Registers(d);
    BcdRoundTrip(d.year);
    BcdRoundTrip(d.month);
    BcdRoundTrip(d.day);
    BcdRoundTrip(d.weekday);
    BcdRoundTrip(d.hours);
    BcdRoundTrip(d.minutes);
    BcdRoundTrip(d.seconds);
    HoursFit(d.hours);
    assert r[4] % 64 == r[4];
    var e := RegisteredDate(r, hours24);
    assert e == Date(d.year, d.month, d.day, FromBcd(ToBcd(d.weekday)), d.hours, d.minutes, d.seconds);
  }

  // Registers of any digits, with two more bits beside the hours: in the 24-hour mode these bits do not count,
  // and in the 12-hour mode they are read as tens of hours.
  lemma DigitsAreRead(tens: seq<nat>, units: seq<nat>, flags: nat, registers: seq<Byte>)
    requires |tens| == |units| == |registers| == 7 && flags < 4 && tens[4] < 4
    requires forall i {:trigger tens[i]} {:trigger units[i]} :: 0 <= i < 7 ==> tens[i] < 16 && units[i] < 16
    requires forall i {:trigger registers[i]} :: 0 <= i < 7 ==>
      registers[i] == 16 * tens[i] + units[i] + if i == 4 then 64 * flags else 0
    ensures var d := RegisteredDate(registers, true);
      && d.year == 10 * tens[0] + units[0] && d.month == 10 * tens[1] + units[1]
      && d.day == 10 * tens[2] + units[2] && d.weekday == 10 * tens[3] + units[3]
      && d.hours == 10 * tens[4] + units[4]
      && d.minutes == 10 * tens[5] + units[5] && d.seconds == 10 * tens[6] + units[6]
      && RegisteredDate(registers, false) == d.(hours := 10 * (tens[4] + 4 * flags) + units[4])
  {
    hide FromBcd;
    forall i | 0 <= i < 7 && i != 4 ensures FromBcd(registers[i]) == 10 * tens[i] + units[i] {
      FromBcdOf(tens[i], units[i]);
    }
    FromBcdOf(tens[4], units[4]);
    FromBcdOf(tens[4] + 4 * flags, units[4]);
    LowSix(16 * tens[4] + units[4], flags);
  }

  lemma LowSix(low: nat, flags: nat)
    requires low < 64
    ensures (low + 64 * flags) % 64 == low
  {
  }

  // A date comes back whatever the chip has put beside the hours.
  lemma FlagsAreMasked(d: Date, flags: nat)
    requires FitsRegisters(d) && flags < 4
    ensures Registers(d)[4] + 64 * flags < 256
    ensures var r := Registers(d)[4 := Registers(d)[4] + 64 * flags];
      SameTime(RegisteredDate(r, true), d) && (RegisteredDate(r, true) == d <==> d.weekday < 160)
  {
    hide ToBcd, FromBcd;
    HoursFit(d.hours);
    var r := Registers(d);
    LowSix(r[4], flags);
    LowSix(r[4], 0);
    assert RegisteredDate(r[4 := r[4] + 64 * flags], true) == RegisteredDate(r, true);
    DateRoundTrip(d, true);
  }

  lemma HoursFit(hours: Byte)
    requires hours < 40
    ensures ToBcd(hours) < 64
  {
  }

  // All dates that the check lets pass are such.
  lemma ValidDateFits(d: Date)
    requires IsValidDate(d)
    ensures FitsRegisters(d)
  {
  }

  class RealTimeClock {
    const registers: array<Byte>    // the chip
    var hours24: bool
    var unixTime: Word              // the shared count of seconds

    predicate Valid() reads this { registers.Length == 7 }

    function Now(): Date
      requires Valid()
      reads this, registers
    {
      RegisteredDate(registers[..], hours24)
    }

    // The count of seconds is that of the chip.
    predicate InStep()
      requires Valid()
      reads this, registers
    {
      IsValidDate(Now()) && unixTime == Mktime(Now())
    }

    constructor ()
      ensures Valid()
    {
      registers := new Byte[7](_ => 0);
      hours24, unixTime := true, 0;
    }

    method TimeAndDateGet() returns (d: Date)
      requires Valid()
      ensures d == Now()
    {
      var response := new Byte[7];
      forall i | 0 <= i < 7 {
        response[i] := registers[i];
      }
      if hours24 {
        response[4] := response[4] % 64;
      }
      BcdToInteger(response, 0, 7);
      d := Date(response[0], response[1], response[2], response[3], response[4], response[5], response[6]);
    }

    method TimeAndDateSet(d: Date) returns (result: int)
      requires Valid()
      modifies registers
      ensures result == if IsValidDate(d) then 0 else -1
      ensures IsValidDate(d) ==> registers[..] == Registers(d) && (Now() == d <==> d.weekday < 160)
      ensures !IsValidDate(d) ==> registers[..] == old(registers[..])
    {
      if !IsValidDate(d) {
        return -1;
      }
      var command := new Byte[8];
      command[0] := 0;
      command[1], command[2], command[3], command[4] := d.year, d.month, d.day, d.weekday;
      command[5], command[6], command[7] := d.hours, d.minutes, d.seconds;
      IntegerToBcd(command, 1, 7);
      forall i | 0 <= i < 7 {
        registers[i] := command[i + 1];
      }
      assert registers[..] == Registers(d);
      ValidDateFits(d);
      DateRoundTrip(d, hours24);
      return 0;
    }

    method Resync()
      requires Valid() && 1 <= Now().month <= 12
      modifies this
      ensures Valid() && Now() == old(Now()) && unixTime == Mktime(Now())
      ensures IsValidDate(Now()) ==> InStep()
    {
      var d := TimeAndDateGet();
      unixTime := Mktime(d);
    }

    // The interrupt, once a second.
    method SyncRtc()
      requires Valid()
      modifies this
      ensures unixTime == (old(unixTime) + 1) % TWO32 && hours24 == old(hours24)
    {
      unixTime := (unixTime + 1) % TWO32;
    }

    // One second: the chip goes on to its next date, and its interrupt counts. The count stays in step.
    method Second()
      requires Valid() && InStep() && !SameTime(Now(), LAST)
      modifies this, registers
      ensures Valid() && InStep() && SameTime(Now(), NextSecond(old(Now())))
      ensures old(Now()).weekday < 160 ==> Now() == NextSecond(old(Now()))
    {
      hide IsValidDate, Mktime, NextSecond, RegisteredDate, Registers;
      var d := TimeAndDateGet();
      NextSecondIsNext(d);
      KeepsWeekday(d);
      var next := Registers(NextSecond(d));
      ValidDateFits(NextSecond(d));
      DateRoundTrip(NextSecond(d), hours24);
      forall i | 0 <= i < 7 {
        registers[i] := next[i];
      }
      assert registers[..] == next;
      SameTimeIsValid(NextSecond(d), Now());
      WeekdayDoesNotCount(NextSecond(d), Now());
      SyncRtc();
    }
  }

  lemma KeepsWeekday(d: Date)
    requires IsValidDate(d) && !SameTime(d, LAST)
    ensures d.weekday < 160 ==> NextSecond(d).weekday < 160
  {
  }

  lemma SameTimeIsValid(d: Date, e: Date)
    requires IsValidDate(d) && SameTime(d, e)
    ensures IsValidDate(e)
  {
  }

  // ----- counting and reading agree

  // The date after some seconds, if the hundred years do not end before.
  ghost predicate Reaches(d: Date, seconds: nat, e: Date)
    requires IsValidDate(d)
    decreases seconds
  {
    if seconds == 0 then e == d
    else
      !SameTime(d, LAST) && IsValidDate(NextSecond(d)) && Reaches(NextSecond(d), seconds - 1, e)
  }

  // After any number of interrupts, one a second, the count is what a read of the chip would give.
  lemma {:induction false} TicksAgreeWithResync(d: Date, seconds: nat, e: Date)
    requires IsValidDate(d) && Reaches(d, seconds, e)
    ensures IsValidDate(e) && Mktime(e) == Mktime(d) + seconds
    decreases seconds
  {
    hide Mktime, NextSecond, IsValidDate;
    if seconds > 0 {
      NextSecondIsNext(d);
      TicksAgreeWithResync(NextSecond(d), seconds - 1, e);
    }
  }
}
