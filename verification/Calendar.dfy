/** UTC day counts and YYYYMMDD day keys: the integer conversion against the Gregorian calendar. */
module Calendar {
  import opened Basics

  datatype Date = Date(year: int, month: int, day: int)

  const SECONDS_PER_DAY: nat := 86_400

  // ----- the Gregorian calendar -----

  predicate Leap(year: int) {
    year % 4 == 0 && (year % 100 != 0 || year % 400 == 0)
  }

  function DaysIn(year: int, month: int): int
    requires 1 <= month <= 12
  {
    if month == 2 then (if Leap(year) then 29 else 28)
    else if month == 4 || month == 6 || month == 9 || month == 11 then 30
    else 31
  }

  predicate Valid(d: Date) {
    1 <= d.month <= 12 && 1 <= d.day <= DaysIn(d.year, d.month)
  }

  /** The day after. */
  function Next(d: Date): Date
    requires Valid(d)
  {
    if d.day < DaysIn(d.year, d.month) then d.(day := d.day + 1)
    else if d.month < 12 then Date(d.year, d.month + 1, 1)
    else Date(d.year + 1, 1, 1)
  }

  // ----- the conversion -----

  /** `civil_date_from_days` before it is packed into a key; years and months turn in March. */
  function Civil(days: nat): Date {
    var z := days + 719468;
    var era := z / 146097;
    var doe := z - era * 146097;
    var yoe := YearOfEra(doe);
    var doy := doe - (365 * yoe + yoe / 4 - yoe / 100);
    var mp := (5 * doy + 2) / 153;
    var d := doy - (153 * mp + 2) / 5 + 1;
    var m := if mp < 10 then mp + 3 else mp - 9;
    Date(yoe + era * 400 + (if m <= 2 then 1 else 0), m, d)
  }

  function YearOfEra(doe: int): int {
    (doe - doe / 1460 + doe / 36524 - doe / 146096) / 365
  }

  function Key(d: Date): int {
    d.year * 10000 + d.month * 100 + d.day
  }

  /** `civil_date_from_days`. */
  function DateKey(days: nat): int {
    Key(Civil(days))
  }

  // ----- days counted from 1 March of year 0 -----

  /** Days before 1 March of a March-based year. */
  function YearStart(year: nat): nat {
    365 * year + year / 4 - year / 100 + year / 400
  }

  /** Days before a March-based month: 0 is March, 11 is February. */
  function MonthStart(mp: nat): nat {
    (153 * mp + 2) / 5
  }

  function YearLength(year: nat): nat {
    if Leap(year + 1) then 366 else 365
  }

  lemma QuotientIs(a: int, n: int, q: int, rest: int)
    requires n > 0 && a == n * q + rest && 0 <= rest < n
    ensures a / n == q && a % n == rest
  {
    var diff := a / n - q;
    assert n * diff == rest - a % n;
    assert diff > 0 ==> n * diff >= n;
    assert diff < 0 ==> n * diff <= -n;
  }

  /** A quotient grows exactly at the multiples of its divisor. */
  lemma QuotientStep(a: nat, n: nat)
    requires n > 0
    ensures (a + 1) / n == a / n + (if (a + 1) % n == 0 then 1 else 0)
  {
    if a % n == n - 1 { QuotientIs(a + 1, n, a / n + 1, 0); } else { QuotientIs(a + 1, n, a / n, a % n + 1); }
  }

  lemma YearStep(year: nat)
    ensures YearStart(year + 1) == YearStart(year) + YearLength(year)
  {
    QuotientStep(year, 4);
    QuotientStep(year, 100);
    QuotientStep(year, 400);
    Multiples(year + 1);
  }

  lemma Multiples(year: nat)
    ensures year % 400 == 0 ==> year % 100 == 0
    ensures year % 100 == 0 ==> year % 4 == 0
  {
    if year % 400 == 0 { QuotientIs(year, 100, 4 * (year / 400), 0); }
    if year % 100 == 0 { QuotientIs(year, 4, 25 * (year / 100), 0); }
  }

  lemma EraStart(era: nat, yoe: nat)
    requires yoe < 400
    ensures YearStart(400 * era + yoe) == 146097 * era + 365 * yoe + yoe / 4 - yoe / 100
  {
    QuotientIs(400 * era + yoe, 4, 100 * era + yoe / 4, yoe % 4);
    QuotientIs(400 * era + yoe, 100, 4 * era + yoe / 100, yoe % 100);
    QuotientIs(400 * era + yoe, 400, era, yoe);
  }

  /** Days before the March-based year `yoe` of an era. */
  function EraDays(yoe: nat): nat
    requires yoe < 400
  {
    365 * yoe + yoe / 4 - yoe / 100
  }

  /** The year of the era is recovered from any day in it. */
  lemma YearRecovered(yoe: nat, doy: nat)
    requires yoe < 400 && doy < YearLength(yoe)
    ensures YearOfEra(EraDays(yoe) + doy) == yoe
    ensures EraDays(yoe) + doy < 146097
  {
    var c, k, r := yoe / 100, yoe % 100 / 4, yoe % 4;
    Digits(yoe);
    LastDay(yoe, doy);
    YearOfDigits(c, k, r, doy, yoe, EraDays(yoe) + doy);
  }

  lemma YearOfDigits(c: nat, k: nat, r: nat, doy: nat, yoe: nat, doe: nat)
    requires c < 4 && k < 25 && r < 4 && doy <= 365
    requires doy == 365 ==> r == 3 && (k == 24 ==> c == 3)
    requires yoe == 100 * c + 4 * k + r && doe == 36524 * c + 1461 * k + 365 * r + doy
    ensures YearOfEra(doe) == yoe && doe < 146097
  {
    var carry := if 24 * c + k + 365 * r + doy >= 1460 then 1 else 0;
    Quotients(c, k, r, doy, doe, carry);
    QuotientIs(doe - doe / 1460 + doe / 36524 - doe / 146096, 365, yoe, doy - carry);
  }

  /** The three corrections of the formula, for a day given by century, fourth year and year. */
  lemma Quotients(c: nat, k: nat, r: nat, doy: nat, doe: nat, carry: nat)
    requires c < 4 && k < 25 && r < 4 && doy <= 365
    requires doy == 365 ==> r == 3 && (k == 24 ==> c == 3)
    requires doe == 36524 * c + 1461 * k + 365 * r + doy
    requires carry == if 24 * c + k + 365 * r + doy >= 1460 then 1 else 0
    ensures doe / 1460 == 25 * c + k + carry
    ensures doe / 36524 == c + (if doe == 146096 then 1 else 0)
    ensures doe / 146096 == if doe == 146096 then 1 else 0
    ensures 0 <= doy - carry < 365 && doe < 146097
  {
    var last := if doe == 146096 then 1 else 0;
    QuotientIs(doe, 1460, 25 * c + k + carry, 24 * c + k + 365 * r + doy - 1460 * carry);
    QuotientIs(doe, 146096, last, doe - 146096 * last);
    QuotientIs(doe, 36524, c + last, doe - 36524 * (c + last));
  }

  lemma Digits(yoe: nat)
    requires yoe < 400
    ensures var c, k, r := yoe / 100, yoe % 100 / 4, yoe % 4;
            yoe == 100 * c + 4 * k + r && c < 4 && k < 25 && r < 4 && yoe / 4 == 25 * c + k
  {
    var c, k, r := yoe / 100, yoe % 100 / 4, yoe % 4;
    QuotientIs(yoe, 4, 25 * c + k, yoe % 100 % 4);
  }

  /** A 366th day exists only in a fourth year, and ends a century only in the era's last. */
  lemma LastDay(yoe: nat, doy: nat)
    requires yoe < 400 && doy < YearLength(yoe)
    ensures doy == 365 ==> yoe % 4 == 3 && (yoe % 100 == 99 ==> yoe == 399)
  {
    if doy == 365 {
      assert Leap(yoe + 1);
      assert (yoe + 1) % 4 == 0;
    }
  }

  /** Days of a March-based month; only February, the last one, depends on the year. */
  function MonthLength(year: nat, mp: nat): int
    requires mp < 12
  {
    if mp == 11 then YearLength(year) - MonthStart(11) else MonthStart(mp + 1) - MonthStart(mp)
  }

  lemma MonthLengths(year: nat, month: int)
    requires 1 <= month <= 12
    ensures month >= 3 ==> MonthLength(year, month - 3) == DaysIn(year, month)
    ensures month <= 2 ==> MonthLength(year, month + 9) == DaysIn(year + 1, month)
  {
    assert month == 1 || month == 2 || month == 3 || month == 4 || month == 5 || month == 6 ||
           month == 7 || month == 8 || month == 9 || month == 10 || month == 11 || month == 12;
  }

  /** The month is recovered from any day in it. */
  lemma MonthRecovered(mp: nat, dom: nat, year: nat)
    requires mp < 12 && dom < MonthLength(year, mp)
    ensures (5 * (MonthStart(mp) + dom) + 2) / 153 == mp
  {
    assert mp == 0 || mp == 1 || mp == 2 || mp == 3 || mp == 4 || mp == 5 || mp == 6 || mp == 7 || mp == 8 ||
           mp == 9 || mp == 10 || mp == 11;
    QuotientIs(5 * (MonthStart(mp) + dom) + 2, 153, mp, 5 * (MonthStart(mp) + dom) + 2 - 153 * mp);
  }

  /** Every day of an era lies in one of its years. */
  lemma FindYear(doe: nat) returns (yoe: nat, doy: nat)
    requires doe < 146097
    ensures yoe < 400 && doy < YearLength(yoe) && doe == EraDays(yoe) + doy
  {
    yoe := 0;
    while doe >= EraDays(yoe) + YearLength(yoe)
      invariant yoe < 400 && EraDays(yoe) <= doe
      decreases 400 - yoe
    {
      YearStep(yoe);
      EraStart(0, yoe);
      if yoe < 399 { EraStart(0, yoe + 1); }
      yoe := yoe + 1;
    }
    doy := doe - EraDays(yoe);
  }

  /** Every day of a year lies in one of its months. */
  lemma FindMonth(year: nat, doy: nat) returns (mp: nat, dom: nat)
    requires doy < YearLength(year)
    ensures mp < 12 && dom < MonthLength(year, mp) && doy == MonthStart(mp) + dom
  {
    mp := 0;
    while mp < 11 && doy >= MonthStart(mp + 1)
      invariant mp < 12 && MonthStart(mp) <= doy
      decreases 12 - mp
    {
      mp := mp + 1;
    }
    dom := doy - MonthStart(mp);
  }

  // ----- the day count of a date -----

  predicate MarchBased(d: Date) {
    Valid(d) && (d.year >= 1 || (d.year == 0 && d.month >= 3))
  }

  function MarchYear(d: Date): nat
    requires MarchBased(d)
  {
    if d.month <= 2 then d.year - 1 else d.year
  }

  function MarchMonth(d: Date): (mp: nat)
    requires MarchBased(d)
    ensures mp < 12
  {
    if d.month <= 2 then d.month + 9 else d.month - 3
  }

  /** Days since 1 January 1970, for any date on or after 1 March of year 0. */
  function DayCount(d: Date): int
    requires MarchBased(d)
  {
    YearStart(MarchYear(d)) + MonthStart(MarchMonth(d)) + d.day - 1 - 719468
  }

  function DateAt(year: nat, mp: nat, dom: nat): Date {
    var m := if mp < 10 then mp + 3 else mp - 9;
    Date(if m <= 2 then year + 1 else year, m, dom + 1)
  }

  /** Civil applied to any day given by March-based year, month and day. */
  lemma CivilAt(era: nat, yoe: nat, mp: nat, dom: nat, days: nat)
    requires yoe < 400 && mp < 12 && dom < MonthLength(yoe, mp)
    requires days + 719468 == 146097 * era + EraDays(yoe) + MonthStart(mp) + dom
    ensures Civil(days) == DateAt(400 * era + yoe, mp, dom)
  {
    var doy := MonthStart(mp) + dom;
    MonthInYear(yoe, mp, dom);
    YearRecovered(yoe, doy);
    QuotientIs(days + 719468, 146097, era, EraDays(yoe) + doy);
    MonthRecovered(mp, dom, yoe);
  }

  lemma MonthInYear(year: nat, mp: nat, dom: nat)
    requires mp < 12 && dom < MonthLength(year, mp)
    ensures MonthStart(mp) + dom < YearLength(year)
  {
    assert mp == 0 || mp == 1 || mp == 2 || mp == 3 || mp == 4 || mp == 5 || mp == 6 || mp == 7 || mp == 8 ||
           mp == 9 || mp == 10 || mp == 11;
  }

  lemma LeapInEra(era: nat, yoe: nat)
    requires yoe < 400
    ensures YearLength(400 * era + yoe) == YearLength(yoe)
  {
    var n := yoe + 1;
    QuotientIs(400 * era + n, 4, 100 * era + n / 4, n % 4);
    QuotientIs(400 * era + n, 100, 4 * era + n / 100, n % 100);
    QuotientIs(400 * era + n, 400, era + n / 400, n % 400);
  }

  /** Each day count gives a valid date, whose day count it is. */
  lemma CivilCounts(days: nat)
    ensures MarchBased(Civil(days)) && DayCount(Civil(days)) == days
  {
    hide Civil, Leap;
    var z := days + 719468;
    var era := z / 146097;
    var yoe, doy := FindYear(z - 146097 * era);
    var mp, dom := FindMonth(yoe, doy);
    CivilAt(era, yoe, mp, dom, days);
    LeapInEra(era, yoe);
    EraStart(era, yoe);
    var d := DateAt(400 * era + yoe, mp, dom);
    MonthLengths(400 * era + yoe, d.month);
  }

  /** Each date on or after 1 January 1970 is the date of its day count. */
  lemma CountIsCivil(d: Date)
    requires MarchBased(d) && DayCount(d) >= 0
    ensures Civil(DayCount(d)) == d
  {
    var year, mp := MarchYear(d), MarchMonth(d);
    var era, yoe := year / 400, year % 400;
    EraStart(era, yoe);
    LeapInEra(era, yoe);
    MonthLengths(year, d.month);
    CivilAt(era, yoe, mp, d.day - 1, DayCount(d));
  }

  /** The next day counts one more. */
  lemma CountNext(d: Date)
    requires MarchBased(d)
    ensures MarchBased(Next(d)) && DayCount(Next(d)) == DayCount(d) + 1
  {
    var year, mp := MarchYear(d), MarchMonth(d);
    MonthLengths(year, d.month);
    if d.day == DaysIn(d.year, d.month) {
      YearStep(year);
      assert MonthStart(mp) + MonthLength(year, mp) == if mp == 11 then YearLength(year) else MonthStart(mp + 1);
    }
  }

  // ----- what the conversion is for -----

  lemma DayZero()
    ensures Civil(0) == Date(1970, 1, 1) && DateKey(0) == 19700101
  {
  }

  /** The date of each day is valid, and the next day has the next date. */
  lemma CivilIsGregorian(days: nat)
    ensures Valid(Civil(days)) && Civil(days + 1) == Next(Civil(days))
  {
    CivilCounts(days);
    CountNext(Civil(days));
    CountIsCivil(Next(Civil(days)));
  }

  lemma NextKey(d: Date)
    requires Valid(d)
    ensures Key(d) < Key(Next(d))
  {
  }

  /** Keys order days as days follow each other. */
  lemma {:induction false} KeysIncrease(a: nat, b: nat)
    requires a < b
    ensures DateKey(a) < DateKey(b)
    decreases b
  {
    hide Civil, Key;
    CivilIsGregorian(b - 1);
    NextKey(Civil(b - 1));
    if a < b - 1 { KeysIncrease(a, b - 1); }
  }

  // ----- the other direction -----

  function DaysBeforeYear(year: nat): int
    requires year >= 1
  {
    365 * (year - 1) + (year - 1) / 4 - (year - 1) / 100 + (year - 1) / 400
  }

  function DaysBeforeMonth(year: int, month: int): int
    requires 1 <= month <= 12
    decreases month
  {
    if month == 1 then 0 else DaysBeforeMonth(year, month - 1) + DaysIn(year, month - 1)
  }

  /** The proleptic Gregorian ordinal: 1 January of year 1 is 1. */
  function Ordinal(d: Date): int
    requires Valid(d) && d.year >= 1
  {
    DaysBeforeYear(d.year) + DaysBeforeMonth(d.year, d.month) + d.day
  }

  /** `wwd_to_day_timestamp`: midnight UTC of a day key; `None` where the library refuses the date. */
  function DayTimestamp(wwd: nat): Option<int> {
    var d := Date(wwd / 10000, wwd / 100 % 100, wwd % 100);
    if 1 <= d.year <= 9999 && Valid(d) then Some(SECONDS_PER_DAY * (Ordinal(d) - 719163)) else None
  }

  /** `timestamp_to_utc_date_key` for a time that is not before the epoch. */
  function UtcDateKey(timestamp: nat): int {
    DateKey(timestamp / SECONDS_PER_DAY)
  }

  lemma MonthSums(year: int)
    ensures DaysBeforeMonth(year, 2) == 31
    ensures var l := if Leap(year) then 1 else 0;
            && DaysBeforeMonth(year, 3) == 59 + l && DaysBeforeMonth(year, 4) == 90 + l
            && DaysBeforeMonth(year, 5) == 120 + l
            && DaysBeforeMonth(year, 6) == 151 + l && DaysBeforeMonth(year, 7) == 181 + l
            && DaysBeforeMonth(year, 8) == 212 + l
            && DaysBeforeMonth(year, 9) == 243 + l && DaysBeforeMonth(year, 10) == 273 + l
            && DaysBeforeMonth(year, 11) == 304 + l
            && DaysBeforeMonth(year, 12) == 334 + l
  {
    assert DaysBeforeMonth(year, 1) == 0;
    var a := DaysBeforeMonth(year, 4);
    var b := DaysBeforeMonth(year, 8);
    assert a == DaysBeforeMonth(year, 3) + 31;
    assert DaysBeforeMonth(year, 6) == a + 61;
    assert b == DaysBeforeMonth(year, 7) + 31;
    assert DaysBeforeMonth(year, 10) == b + 61;
  }

  /** Both ways of counting days agree. */
  lemma OrdinalCounts(d: Date)
    requires Valid(d) && d.year >= 1
    ensures MarchBased(d) && Ordinal(d) - 719163 == DayCount(d)
  {
    MonthSums(d.year);
    YearStep(d.year - 1);
    var month := d.month;
    assert month == 1 || month == 2 || month == 3 || month == 4 || month == 5 || month == 6 ||
           month == 7 || month == 8 || month == 9 || month == 10 || month == 11 || month == 12;
  }

  lemma KeyDecodes(d: Date)
    requires Valid(d) && d.year >= 0
    ensures Key(d) >= 0 && Date(Key(d) / 10000, Key(d) / 100 % 100, Key(d) % 100) == d
  {
    QuotientIs(Key(d), 10000, d.year, 100 * d.month + d.day);
    QuotientIs(Key(d), 100, 100 * d.year + d.month, d.day);
    QuotientIs(100 * d.year + d.month, 100, d.year, d.month);
  }

  lemma LastDayOf9999()
    ensures Civil(2932896) == Date(9999, 12, 31)
  {
  }

  /** Day 2932896 is the last one whose year has four digits. */
  lemma FourDigitYears(days: nat)
    ensures Civil(days).year <= 9999 <==> days <= 2932896
    ensures Civil(days).year >= 1970
  {
    hide Civil;
    LastDayOf9999();
    DayZero();
    CivilCounts(days);
    if days < 2932896 { KeysIncrease(days, 2932896); }
    if days > 2932896 {
      CivilIsGregorian(2932896);
      if days > 2932897 { KeysIncrease(2932897, days); }
    }
    if days > 0 { KeysIncrease(0, days); }
  }

  /** A day key gives its day's midnight back, exactly for the days the library can represent. */
  lemma DayKeyRoundTrip(days: nat)
    ensures DateKey(days) >= 0
    ensures DayTimestamp(DateKey(days)) == if days <= 2932896 then Some(SECONDS_PER_DAY * days) else None
  {
    hide Civil, Ordinal, DayCount, Valid;
    FourDigitYears(days);
    CivilCounts(days);
    var d := Civil(days);
    MarchIsValid(d);
    KeyDecodes(d);
    OrdinalCounts(d);
  }

  lemma MarchIsValid(d: Date)
    requires MarchBased(d)
    ensures Valid(d)
  {
  }

  /** The day key of a time leads back to that day's midnight, exactly up to the last day of the year 9999. */
  lemma TimestampRoundTrip(timestamp: nat)
    ensures UtcDateKey(timestamp) >= 0
    ensures DayTimestamp(UtcDateKey(timestamp)) ==
              if timestamp / SECONDS_PER_DAY <= 2932896 then Some(timestamp - timestamp % SECONDS_PER_DAY) else None
  {
    hide DayTimestamp, DateKey;
    DayKeyRoundTrip(timestamp / SECONDS_PER_DAY);
  }
}
