/** The calendar (src/bmd.cc:66-207) and the date a write is given
    (src/camsync.cc:453-488). */
module Civil {
  import opened Bytes


  datatype Date = Date(year: int, month: int, day: int)

  // ------------------------------------------------ the calendar, by the rules

  predicate Leap(y: int) {
    y % 4 == 0 && (y % 100 != 0 || y % 400 == 0)
  }

  function MonthLength(y: int, m: int): int {
    if m == 2 then (if Leap(y) then 29 else 28)
    else if m == 4 || m == 6 || m == 9 || m == 11 then 30
    else 31
  }

  predicate Valid(c: Date) {
    1 <= c.month <= 12 && 1 <= c.day <= MonthLength(c.year, c.month)
  }

  function NextDay(c: Date): Date {
    if c.day < MonthLength(c.year, c.month) then c.(day := c.day + 1)
    else if c.month < 12 then Date(c.year, c.month + 1, 1)
    else Date(c.year + 1, 1, 1)
  }

  // ------------------------------------------------------- the fast conversion

  /** Division as the source's language does it, towards zero. */
  function Trunc(a: int, b: int): int
    requires b > 0
  {
    if a >= 0 then a / b else -((-a) / b)
  }

  lemma TruncIsFloor(a: int, b: int)
    requires b > 0
    ensures Trunc(if a >= 0 then a else a - (b - 1), b) == a / b
  {
    if a < 0 {
      var q := a / b;
      var n := b - 1 - a;
      assert n == b * (-q) + (b - 1 - a % b);
      DivIs(n, b, -q, b - 1 - a % b);
    }
  }

  lemma DivIs(n: int, b: int, q: int, r: int)
    requires b > 0 && n == b * q + r && 0 <= r < b
    ensures n / b == q && n % b == r
  {
    var d := n / b - q;
    assert b * d == r - n % b;
    if d != 0 {
      FarFromZero(b, d);
    }
  }

  lemma FarFromZero(b: int, d: int)
    requires b > 0 && d != 0
    ensures b * d >= b || b * d <= -b
  {
  }

  function DayOfYear(m: int, d: int): int {
    (153 * (m + (if m > 2 then -3 else 9)) + 2) / 5 + d - 1
  }

  function DayOfEra(yoe: int, doy: int): int {
    yoe * 365 + yoe / 4 - yoe / 100 + doy
  }

  function DaysFromCivil(c: Date): int {
    var y := c.year - (if c.month <= 2 then 1 else 0);
    var era := Trunc(if y >= 0 then y else y - 399, 400);
    era * 146097 + DayOfEra(y - era * 400, DayOfYear(c.month, c.day)) - 719468
  }

  function YearOfEra(doe: int): int {
    (doe - doe / 1460 + doe / 36524 - doe / 146096) / 365
  }

  function FromDayOfYear(y: int, doy: int): Date {
    var mp := (5 * doy + 2) / 153;
    var m := mp + (if mp < 10 then 3 else -9);
    Date(y + (if m <= 2 then 1 else 0), m, doy - (153 * mp + 2) / 5 + 1)
  }

  function CivilFromDays(days: int): Date {
    var z := days + 719468;
    var era := Trunc(if z >= 0 then z else z - 146096, 146097);
    var doe := z - era * 146097;
    var yoe := YearOfEra(doe);
    FromDayOfYear(yoe + era * 400, doe - (365 * yoe + yoe / 4 - yoe / 100))
  }

  // -------------------------------------------------- years and eras, and back

  /** How long the year is that begins in March of a year of the era: a day
      longer if the February at its end is in a leap year. */
  function YearLength(yoe: int): int {
    if (yoe + 1) % 4 == 0 && ((yoe + 1) % 100 != 0 || yoe + 1 == 400) then 366 else 365
  }

  /** Taking a year of the era apart into centuries, groups of four and years. */
  lemma EraParts(c: int, q: int, r: int, doy: int)
    requires 0 <= c < 4 && 0 <= q < 25 && 0 <= r < 4 && 0 <= doy
    requires doy < 365 || (doy == 365 && r == 3 && (q < 24 || c == 3))
    ensures var doe := 36524 * c + 1461 * q + 365 * r + doy;
            0 <= doe < 146097 && YearOfEra(doe) == 100 * c + 4 * q + r
  {
    var doe := 36524 * c + 1461 * q + 365 * r + doy;
    var rest := 24 * c + q + 365 * r + doy;
    assert doe == 1460 * (25 * c + q) + rest;
    var b1 := if rest >= 1460 then 1 else 0;
    DivIs(doe, 1460, 25 * c + q + b1, rest - 1460 * b1);
    var whole := doe == 146096;
    DivIs(doe, 36524, if whole then 4 else c, if whole then 0 else doe - 36524 * c);
    DivIs(doe, 146096, if whole then 1 else 0, if whole then 0 else doe);
    DivIs(doe - doe / 1460 + doe / 36524 - doe / 146096, 365, 100 * c + 4 * q + r, doy - b1);
  }

  lemma YearOfEraBack(yoe: int, doy: int)
    requires 0 <= yoe < 400 && 0 <= doy < YearLength(yoe)
    ensures 0 <= DayOfEra(yoe, doy) < 146097 && YearOfEra(DayOfEra(yoe, doy)) == yoe
  {
    var c, q, r := yoe / 100, yoe % 100 / 4, yoe % 4;
    assert yoe == 100 * c + 4 * q + r;
    assert yoe / 4 == 25 * c + q;
    EraParts(c, q, r, doy);
  }

  /** And every day of an era is in one of its years. */
  lemma DayOfEraBack(doe: int)
    requires 0 <= doe < 146097
    ensures var yoe := YearOfEra(doe);
            var doy := doe - (365 * yoe + yoe / 4 - yoe / 100);
            0 <= yoe < 400 && 0 <= doy < YearLength(yoe) && DayOfEra(yoe, doy) == doe
  {
    var c := if doe == 146096 then 3 else doe / 36524;
    var inCentury := doe - 36524 * c;
    var q := if inCentury == 36524 then 24 else inCentury / 1461;
    var inFour := inCentury - 1461 * q;
    var r := if inFour == 1460 then 3 else inFour / 365;
    var doy := inFour - 365 * r;
    EraParts(c, q, r, doy);
    var yoe := 100 * c + 4 * q + r;
    assert yoe / 4 == 25 * c + q && yoe / 100 == c;
  }

  /** The months, counted from March. */
  lemma MonthBack(m: int, d: int)
    requires 1 <= m <= 12 && 1 <= d <= (if m == 2 then 29 else MonthLength(1, m))
    ensures var doy := DayOfYear(m, d);
            && 0 <= doy < 366 && (m != 2 || d < 29 ==> doy < 365)
            && forall y :: FromDayOfYear(y, doy) == Date(y + (if m <= 2 then 1 else 0), m, d)
  {
    var mp := m + (if m > 2 then -3 else 9);
    DivIs(5 * DayOfYear(m, d) + 2, 153, mp, 5 * DayOfYear(m, d) + 2 - 153 * mp);
  }

  lemma DayOfYearBack(doy: int)
    requires 0 <= doy < 366
    ensures var c := FromDayOfYear(0, doy);
            && 1 <= c.month <= 12 && 1 <= c.day <= (if c.month == 2 then 29 else MonthLength(1, c.month))
            && DayOfYear(c.month, c.day) == doy && (c.month == 2 && c.day == 29 <==> doy == 365)
  {
  }

  lemma EraOfDays(z: int)
    ensures Trunc(if z >= 0 then z else z - 146096, 146097) == z / 146097
  {
    TruncIsFloor(z, 146097);
  }

  lemma EraOfYear(y: int)
    ensures Trunc(if y >= 0 then y else y - 399, 400) == y / 400
  {
    TruncIsFloor(y, 400);
  }

  /** A year that begins in March is as long as the calendar says its February is. */
  lemma YearLengthIsLeap(y: int, yoe: int, era: int)
    requires y == yoe + 400 * era && 0 <= yoe < 400
    ensures YearLength(yoe) == 366 <==> Leap(y + 1)
  {
    var n := yoe + 1;
    assert y + 1 == n + 4 * (100 * era) && y + 1 == n + 100 * (4 * era);
    DivIs(y + 1, 4, n / 4 + 100 * era, n % 4);
    DivIs(y + 1, 100, n / 100 + 4 * era, n % 100);
    DivIs(y + 1, 400, n / 400 + era, n % 400);
  }

  lemma DaysIs(c: Date, era: int, yoe: int)
    requires 0 <= yoe < 400 && c.year - (if c.month <= 2 then 1 else 0) == yoe + 400 * era
    ensures DaysFromCivil(c) == era * 146097 + DayOfEra(yoe, DayOfYear(c.month, c.day)) - 719468
  {
    var y := yoe + 400 * era;
    EraOfYear(y);
    DivIs(y, 400, era, yoe);
  }

  lemma CivilIs(z: int, era: int, yoe: int, doy: int)
    requires 0 <= yoe < 400 && 0 <= doy < YearLength(yoe) && z + 719468 == era * 146097 + DayOfEra(yoe, doy)
    ensures CivilFromDays(z) == FromDayOfYear(yoe + era * 400, doy)
  {
    hide FromDayOfYear, YearOfEra;
    var doe := DayOfEra(yoe, doy);
    YearOfEraBack(yoe, doy);
    EraOfDays(z + 719468);
    DivIs(z + 719468, 146097, era, doe);
  }

  /** Every day has a date, a valid one, and is the day of that date. */
  lemma DateOfDay(z: int)
    ensures Valid(CivilFromDays(z)) && DaysFromCivil(CivilFromDays(z)) == z
  {
    var era, doe := (z + 719468) / 146097, (z + 719468) % 146097;
    DayOfEraBack(doe);
    var yoe := YearOfEra(doe);
    var doy := doe - (365 * yoe + yoe / 4 - yoe / 100);
    CivilIs(z, era, yoe, doy);
    var c := FromDayOfYear(yoe + era * 400, doy);
    InYear(yoe, era, doy);
    DaysIs(c, era, yoe);
  }

  /** A day of a year is a valid date, of the same year counted from March. */
  lemma InYear(yoe: int, era: int, doy: int)
    requires 0 <= yoe < 400 && 0 <= doy < YearLength(yoe)
    ensures var c := FromDayOfYear(yoe + era * 400, doy);
            Valid(c) && DayOfYear(c.month, c.day) == doy && c.year - (if c.month <= 2 then 1 else 0) == yoe + 400 * era
  {
    DayOfYearBack(doy);
    YearLengthIsLeap(yoe + era * 400, yoe, era);
  }

  /** Every valid date has a day, and is the date of that day. */
  lemma DayOfDate(c: Date)
    requires Valid(c)
    ensures CivilFromDays(DaysFromCivil(c)) == c
  {
    var y := c.year - (if c.month <= 2 then 1 else 0);
    var era, yoe := y / 400, y % 400;
    var doy := DayOfYear(c.month, c.day);
    MonthBack(c.month, c.day);
    YearLengthIsLeap(y, yoe, era);
    DaysIs(c, era, yoe);
    CivilIs(DaysFromCivil(c), era, yoe, doy);
  }

  // ------------------------------------- against the calendar, day after day

  lemma NextDayInYear(y: int, c: Date)
    requires Valid(c) && y == c.year - (if c.month <= 2 then 1 else 0)
    ensures var n := NextDay(c);
            if c.month == 2 && c.day == MonthLength(c.year, 2) then
              n == Date(c.year, 3, 1) && DayOfYear(c.month, c.day) == (if Leap(y + 1) then 365 else 364)
            else
              && n.year - (if n.month <= 2 then 1 else 0) == y
              && DayOfYear(n.month, n.day) == DayOfYear(c.month, c.day) + 1
  {
  }

  /** The years of an era follow one another without a gap, and so do the eras. */
  lemma NextYear(yoe: int)
    requires 0 <= yoe < 400
    ensures DayOfEra(yoe, YearLength(yoe)) == if yoe == 399 then 146097 else DayOfEra(yoe + 1, 0)
  {
  }

  /** The day after a date is the day of the next date: so the conversion counts
      days as the calendar does, and day 0 is 1 January 1970. */
  lemma DaysCountDates(c: Date)
    requires Valid(c)
    ensures Valid(NextDay(c)) && DaysFromCivil(NextDay(c)) == DaysFromCivil(c) + 1
    ensures DaysFromCivil(Date(1970, 1, 1)) == 0
  {
    hide DaysFromCivil;
    var y := c.year - (if c.month <= 2 then 1 else 0);
    var n := NextDay(c);
    var era, yoe := y / 400, y % 400;
    NextDayInYear(y, c);
    YearLengthIsLeap(y, yoe, era);
    DaysIs(c, era, yoe);
    if c.month == 2 && c.day == MonthLength(c.year, 2) {
      NextYear(yoe);
      DaysIs(n, if yoe == 399 then era + 1 else era, if yoe == 399 then 0 else yoe + 1);
    } else {
      DaysIs(n, era, yoe);
    }
    DaysIs(Date(1970, 1, 1), 4, 369);
  }

  /** The date n days after 1 January 1970, counted off one day at a time. */
  function CountedFromEpoch(n: nat): Date {
    if n == 0 then Date(1970, 1, 1) else NextDay(CountedFromEpoch(n - 1))
  }

  /** The fast conversion is that count. */
  lemma {:induction false} FastIsCounting(n: nat)
    ensures CivilFromDays(n) == CountedFromEpoch(n)
    ensures Valid(CountedFromEpoch(n)) && DaysFromCivil(CountedFromEpoch(n)) == n
  {
    hide DaysFromCivil, CivilFromDays, NextDay;
    if n == 0 {
      DaysCountDates(Date(1970, 1, 1));
    } else {
      FastIsCounting(n - 1);
      DaysCountDates(CountedFromEpoch(n - 1));
    }
    DayOfDate(CountedFromEpoch(n));
  }

  /** And no two dates are the same day. */
  lemma DatesAreDistinct(c: Date, d: Date)
    requires Valid(c) && Valid(d) && DaysFromCivil(c) == DaysFromCivil(d)
    ensures c == d
  {
    DayOfDate(c);
    DayOfDate(d);
  }

  // --------------------------------------------------------------- moving days

  function AddDays(c: Date, days: int): Date {
    if days == 0 then c else CivilFromDays(DaysFromCivil(c) + days)
  }

  lemma AddDaysMoves(c: Date, a: int)
    requires Valid(c)
    ensures Valid(AddDays(c, a)) && DaysFromCivil(AddDays(c, a)) == DaysFromCivil(c) + a
  {
    hide MonthLength, CivilFromDays;
    DateOfDay(DaysFromCivil(c) + a);
  }

  lemma AddDaysIs(c: Date, a: int, d: Date)
    requires Valid(c) && Valid(d) && DaysFromCivil(d) == DaysFromCivil(c) + a
    ensures AddDays(c, a) == d
  {
    AddDaysMoves(c, a);
    DatesAreDistinct(AddDays(c, a), d);
  }

  /** Moving by days adds up. */
  lemma AddDaysAdds(c: Date, a: int, b: int)
    requires Valid(c)
    ensures AddDays(AddDays(c, a), b) == AddDays(c, a + b)
  {
    hide AddDays, Valid, DaysFromCivil;
    AddDaysMoves(c, a);
    AddDaysMoves(AddDays(c, a), b);
    AddDaysIs(c, a + b, AddDays(AddDays(c, a), b));
  }

  /** And comes back. */
  lemma AddDaysBack(c: Date, a: int)
    requires Valid(c)
    ensures AddDays(AddDays(c, a), -a) == c
  {
    AddDaysMoves(c, a);
    AddDaysIs(AddDays(c, a), -a, c);
  }

  // --------------------------------------------------------- date and time of day

  datatype Moment = Moment(date: Date, hour: int, minute: int, second: int)

  predicate ValidTime(m: Moment) {
    0 <= m.hour < 24 && 0 <= m.minute < 60 && 0 <= m.second < 60
  }

  function SecondOfDay(m: Moment): int {
    m.hour * 3600 + m.minute * 60 + m.second
  }

  /** Seconds from 1 January 1970. */
  function Instant(m: Moment): int {
    DaysFromCivil(m.date) * 86400 + SecondOfDay(m)
  }

  /** The moment of an instant, as the C library breaks it down. */
  function UtcCivil(seconds: int): Moment {
    var sod := seconds % 86400;
    Moment(CivilFromDays(seconds / 86400), sod / 3600, sod % 3600 / 60, sod % 60)
  }

  lemma TimeParts(sod: int)
    requires 0 <= sod < 86400
    ensures 0 <= sod / 3600 < 24 && 0 <= sod % 3600 / 60 < 60 && 0 <= sod % 60 < 60
    ensures sod / 3600 * 3600 + sod % 3600 / 60 * 60 + sod % 60 == sod
  {
    var h, rest := sod / 3600, sod % 3600;
    DivIs(sod, 60, 60 * h + rest / 60, rest % 60);
  }

  lemma UtcCivilBack(seconds: int)
    ensures Instant(UtcCivil(seconds)) == seconds && ValidTime(UtcCivil(seconds)) && Valid(UtcCivil(seconds).date)
    ensures SecondOfDay(UtcCivil(seconds)) == seconds % 86400
  {
    TimeParts(seconds % 86400);
    DateOfDay(seconds / 86400);
    assert SecondOfDay(UtcCivil(seconds)) == seconds % 86400;
  }

  /** The value sent, dated from the camera: the camera's date with the time of
      day of the bench, moved by a day when midnight lies between the two. A
      negative second of day means the camera has not said. */
  method AlignedValueOnDate(send: real, offset: real, bias: real, cameraDate: Date, cameraSod: real)
    returns (out: Moment)
    ensures out == DatedFromCamera((send + offset + bias + 0.5).Floor, cameraDate, cameraSod)
  {
    var loose := UtcCivil((send + offset + bias + 0.5).Floor);
    out := Moment(cameraDate, loose.hour, loose.minute, loose.second);
    if cameraSod < 0.0 {
      return;
    }
    var gap := (out.hour * 3600 + out.minute * 60 + out.second) as real - cameraSod;
    if gap < -43200.0 {
      out := out.(date := AddDays(out.date, 1));
    } else if gap > 43200.0 {
      out := out.(date := AddDays(out.date, -1));
    }
  }

  function DatedFromCamera(second: int, cameraDate: Date, cameraSod: real): Moment {
    var loose := UtcCivil(second);
    var gap := SecondOfDay(loose) as real - cameraSod;
    var days := if cameraSod < 0.0 then 0 else if gap < -43200.0 then 1 else if gap > 43200.0 then -1 else 0;
    loose.(date := AddDays(cameraDate, days))
  }

  function AbsReal(x: real): real {
    if x < 0.0 then -x else x
  }

  /** The camera's own reading, as an instant. */
  function CameraInstant(cameraDate: Date, cameraSod: real): real {
    DaysFromCivil(cameraDate) as real * 86400.0 + cameraSod
  }

  /** What is sent has the bench's time of day and lies within half a day of the
      camera's own reading. */
  lemma DatedNearCamera(second: int, cameraDate: Date, cameraSod: real)
    requires Valid(cameraDate) && 0.0 <= cameraSod < 86400.0
    ensures var out := DatedFromCamera(second, cameraDate, cameraSod);
            && Valid(out.date) && ValidTime(out) && SecondOfDay(out) == second % 86400
            && AbsReal(Instant(out) as real - CameraInstant(cameraDate, cameraSod)) <= 43200.0
  {
    hide MonthLength, UtcCivil, DaysFromCivil;
    UtcCivilBack(second);
    AddDaysMoves(cameraDate, 1);
    AddDaysMoves(cameraDate, -1);
  }

  /** And it is the only such moment, but for a camera exactly half a day out: any
      other has the same time of day on another date, at least a day away. */
  lemma DatedUniquely(second: int, cameraDate: Date, cameraSod: real, other: Moment)
    requires Valid(cameraDate) && 0.0 <= cameraSod < 86400.0
    requires Valid(other.date) && ValidTime(other) && SecondOfDay(other) == second % 86400
    requires AbsReal(Instant(other) as real - CameraInstant(cameraDate, cameraSod)) < 43200.0
    ensures other == DatedFromCamera(second, cameraDate, cameraSod)
  {
    var out := DatedFromCamera(second, cameraDate, cameraSod);
    DatedNearCamera(second, cameraDate, cameraSod);
    SameTime(out, other);
    assert Instant(out) - Instant(other) == (DaysFromCivil(out.date) - DaysFromCivil(other.date)) * 86400;
    DatesAreDistinct(out.date, other.date);
  }

  lemma SameTime(m: Moment, n: Moment)
    requires ValidTime(m) && ValidTime(n) && SecondOfDay(m) == SecondOfDay(n)
    ensures m.hour == n.hour && m.minute == n.minute && m.second == n.second
  {
  }

  // ------------------------------------------------------------ what is sent

  /** Two decimal digits in a byte. */
  function Bcd2(n: int): byte {
    var k := (if n < 0 then 0 else n) % 100;
    k / 10 * 16 + k % 10
  }

  function Digits(b: byte): int {
    if b / 16 > 9 || b % 16 > 9 then -1 else b / 16 * 10 + b % 16
  }

  lemma Bcd2Back(n: int)
    ensures Digits(Bcd2(n)) == (if n < 0 then 0 else n) % 100
  {
  }

  /** The two words of a clock value, most significant byte first. */
  function EncodeTime(m: Moment, frames: int): seq<byte> {
    [Bcd2(m.hour), Bcd2(m.minute), Bcd2(m.second), Bcd2(frames)]
  }

  function EncodeDate(c: Date): seq<byte> {
    [Bcd2(Trunc(c.year, 100)), Bcd2(c.year - 100 * Trunc(c.year, 100)), Bcd2(c.month), Bcd2(c.day)]
  }

  datatype Reading = Unset | Reads(moment: Moment)

  function DecodeRtc(time: seq<byte>, date: seq<byte>): Reading
    requires |time| == 4 && |date| == 4
  {
    var y := Digits(date[0]) * 100 + Digits(date[1]);
    var mo, d, h, mi, s := Digits(date[2]), Digits(date[3]), Digits(time[0]), Digits(time[1]), Digits(time[2]);
    if Digits(date[0]) < 0 || Digits(date[1]) < 0 || mo < 0 || d < 0 then Unset
    else if y < 2000 || y > 2099 || mo < 1 || mo > 12 || d < 1 || d > 31 then Unset
    else if h < 0 || mi < 0 || s < 0 || Digits(time[3]) < 0 then Unset
    else if h > 23 || mi > 59 || s > 59 then Unset
    else Reads(Moment(Date(y, mo, d), h, mi, s))
  }

  lemma TimeDigits(m: Moment, frames: int)
    requires ValidTime(m)
    ensures var t := EncodeTime(m, frames);
            Digits(t[0]) == m.hour && Digits(t[1]) == m.minute && Digits(t[2]) == m.second && Digits(t[3]) >= 0
  {
    Bcd2Back(m.hour);
    Bcd2Back(m.minute);
    Bcd2Back(m.second);
    Bcd2Back(frames);
  }

  lemma DateDigits(c: Date)
    requires Valid(c)
    ensures var d := EncodeDate(c);
            && Digits(d[0]) >= 0 && Digits(d[1]) >= 0 && Digits(d[2]) == c.month && Digits(d[3]) == c.day
            && (0 <= c.year < 10000 ==> Digits(d[0]) * 100 + Digits(d[1]) == c.year)
  {
    hide Bcd2, Digits;
    Bcd2Back(Trunc(c.year, 100));
    Bcd2Back(c.year - 100 * Trunc(c.year, 100));
    Bcd2Back(c.month);
    Bcd2Back(c.day);
  }

  /** A camera that reports what it was sent is read as having been sent it,
      exactly when the year is in this century; any other year reads as unset or
      as another. */
  lemma RtcRoundTrip(m: Moment, frames: int)
    requires Valid(m.date) && ValidTime(m)
    ensures DecodeRtc(EncodeTime(m, frames), EncodeDate(m.date)) == Reads(m) <==> 2000 <= m.date.year <= 2099
  {
    TimeDigits(m, frames);
    DateDigits(m.date);
  }
}
