/** The birthday calculator `getUserBDInfo` of bot.go: how many whole days are
    left until a member's next birthday, from the 4-character `DDMM` token
    kept in the profile's Skype field. */
module Birthday {
  import opened Wrappers
  import opened Calendar

  /** 23:59:59.999, the offset added to the parsed birthday. */
  const LastMilliOfDay: int := 23 * MillisPerHour + 59 * MillisPerMinute + 59 * MillisPerSecond + 999

  /** `getUserBDInfo`'s two results: days left (-1 on error) and the error. */
  datatype DaysLeft = DaysLeft(days: int, err: Option<string>)

  predicate IsDigit(c: char) { '0' <= c <= '9' }

  function DigitValue(c: char): (v: int)
    requires IsDigit(c)
    ensures 0 <= v <= 9
  {
    c as int - '0' as int
  }

  /** The zero-padded two-digit rendering of 0..99 (Go's `02` and `01` layout elements). */
  function TwoDigits(n: int): (s: string)
    requires 0 <= n < 100
    ensures |s| == 2 && IsDigit(s[0]) && IsDigit(s[1])
    ensures DigitValue(s[0]) * 10 + DigitValue(s[1]) == n
  {
    [('0' as int + n / 10) as char, ('0' as int + n % 10) as char]
  }

  /** The `DDMM` token of a date. */
  function DayMonthToken(d: Date): string
    requires ValidDate(d)
  {
    TwoDigits(d.day) + TwoDigits(d.month)
  }

  /** A birthday that exists in every year: a valid date other than February 29. */
  predicate RecursAnnually(d: Date) {
    ValidDate(d) && !(d.month == 2 && d.day == 29)
  }

  /** `time.Parse("02012006", tok + "1900")`: two digits of day, two of month, and
      the day must exist in 1900, which is not a leap year. */
  function ParseDDMM1900(tok: string): (r: Option<Date>)
    requires |tok| == 4
    ensures r.Some? ==> r.value.year == 1900 && RecursAnnually(r.value)
    ensures r.Some? ==> DayMonthToken(r.value) == tok
  {
    if !(IsDigit(tok[0]) && IsDigit(tok[1]) && IsDigit(tok[2]) && IsDigit(tok[3])) then None
    else
      var day := DigitValue(tok[0]) * 10 + DigitValue(tok[1]);
      var month := DigitValue(tok[2]) * 10 + DigitValue(tok[3]);
      if month < 1 || month > 12 then None
      else if day < 1 || day > DaysInMonth(1900, month) then None
      else Some(Date(1900, month, day))
  }

  lemma DigitsDetermineChar(c: char, d: char)
    requires IsDigit(c) && IsDigit(d) && DigitValue(c) == DigitValue(d)
    ensures c == d
  {
  }

  /** Every date that exists in 1900 is accepted back from its own token. */
  lemma ParseToken(d: Date)
    requires d.year == 1900 && ValidDate(d)
    ensures ParseDDMM1900(DayMonthToken(d)) == Some(d)
  {
  }

  /** The `k`-th anniversary of `birth`, as a day number. */
  function Anniversary(birth: Date, k: int): int
    requires RecursAnnually(birth)
  {
    DayNumber(Date(birth.year + k, birth.month, birth.day))
  }

  /** The `k`-th anniversary lies inside year `birth.year + k`. */
  lemma AnniversaryInYear(birth: Date, k: int)
    requires RecursAnnually(birth)
    ensures DaysBeforeYear(birth.year + k) <= Anniversary(birth, k) < DaysBeforeYear(birth.year + k + 1)
  {
    DayNumberInYear(Date(birth.year + k, birth.month, birth.day));
  }

  lemma AnniversariesIncrease(birth: Date, j: int, k: int)
    requires RecursAnnually(birth) && j < k
    ensures Anniversary(birth, j) < Anniversary(birth, k)
  {
    AnniversaryInYear(birth, j);
    AnniversaryInYear(birth, k);
    if birth.year + j + 1 < birth.year + k {
      YearsIncrease(birth.year + j + 1, birth.year + k);
    }
  }

  /** `goage.Age(birth)` evaluated at `now`: the number of the last anniversary
      falling on or before the day of `now` (time of day is not compared). */
  function Age(birth: Date, now: int): (age: int)
    requires RecursAnnually(birth)
    ensures Anniversary(birth, age) <= DayOf(now) < Anniversary(birth, age + 1)
  {
    var today := DayOf(now);
    var y := YearOfDay(today);
    AnniversaryInYear(birth, y - birth.year);
    AnniversaryInYear(birth, y - birth.year + 1);
    AnniversaryInYear(birth, y - birth.year - 1);
    if Anniversary(birth, y - birth.year) <= today then y - birth.year else y - birth.year - 1
  }

  /** The number of the soonest anniversary on or after `today`: the reference
      definition of "the next birthday". */
  function NextAnniversary(birth: Date, today: int): (k: int)
    requires RecursAnnually(birth)
    ensures Anniversary(birth, k) >= today
    ensures forall j :: Anniversary(birth, j) >= today ==> j >= k
  {
    var y := YearOfDay(today);
    var k0 := y - birth.year;
    AnniversaryInYear(birth, k0);
    AnniversaryInYear(birth, k0 - 1);
    AnniversaryInYear(birth, k0 + 1);
    var k := if Anniversary(birth, k0) >= today then k0 else k0 + 1;
    assert Anniversary(birth, k - 1) < today;
    forall j | Anniversary(birth, j) >= today ensures j >= k {
      if j < k - 1 { AnniversariesIncrease(birth, j, k - 1); }
    }
    k
  }

  function AddYears(d: Date, n: int): Date { Date(d.year + n, d.month, d.day) }

  /** The instant 23:59:59.999 on date `d`. */
  function EndOfDay(d: Date): int
    requires 1 <= d.month <= 12
  {
    DayNumber(d) * MillisPerDay + LastMilliOfDay
  }

  /** Go's integer division, which truncates toward zero (also Go's `int(float64)` conversion). */
  function Quot(a: int, b: int): int
    requires b > 0
  {
    if a >= 0 then a / b else -((-a) / b)
  }

  /** `getUserBDInfo(now, userBD)` with `now` a UTC instant in milliseconds. */
  function GetUserBDInfo(now: int, userBD: string): (r: DaysLeft)
    ensures r.err.Some? <==> |userBD| != 4 || ParseDDMM1900(userBD).None?
    ensures r.err.Some? ==> r.days == -1
    ensures r.err.None? ==> 0 <= r.days <= 365
    ensures r.err.None? ==>
      var bd := ParseDDMM1900(userBD).value;
      r.days == Anniversary(bd, NextAnniversary(bd, DayOf(now))) - DayOf(now)
  {
    if |userBD| != 4 then DaysLeft(-1, Some("Skype field has wrong amount of symbols"))
    else match ParseDDMM1900(userBD)
      case None => DaysLeft(-1, Some("unable to parse birthday"))
      case Some(bd) =>
        var ageBD := AddYears(bd, Age(bd, now));
        var next := if now > EndOfDay(ageBD) then AddYears(ageBD, 1) else ageBD;
        var days := Quot(Quot(EndOfDay(next) - now, MillisPerHour), 24);
        NextBirthdayDays(now, bd);
        DaysLeft(days, None)
  }

  /** Whole hours, then whole days, of `q` days plus less than one day. */
  lemma WholeDays(q: int, r: int)
    requires q >= 0 && 0 <= r < MillisPerDay
    ensures Quot(Quot(q * MillisPerDay + r, MillisPerHour), 24) == q
  {
    var h := r / MillisPerHour;
    assert 0 <= h < 24;
    assert q * MillisPerDay + r == (q * 24 + h) * MillisPerHour + r % MillisPerHour;
    assert (q * MillisPerDay + r) / MillisPerHour == q * 24 + h;
  }

  /** Consecutive anniversaries are 365 or 366 days apart. */
  lemma AnniversaryStep(birth: Date, k: int)
    requires RecursAnnually(birth)
    ensures 365 <= Anniversary(birth, k + 1) - Anniversary(birth, k) <= 366
  {
    YearStep(birth.year + k);
  }

  /** The one-year bump of `getUserBDInfo` lands on the next birthday: the
      anniversary of the current age if that is today, the following one otherwise. */
  lemma BumpedAnniversary(now: int, bd: Date)
    requires RecursAnnually(bd)
    ensures var age := Age(bd, now);
            (if now > EndOfDay(AddYears(bd, age)) then age + 1 else age) == NextAnniversary(bd, DayOf(now))
  {
    var today := DayOf(now);
    var age := Age(bd, now);
    var n := NextAnniversary(bd, today);
    var tod := MillisOfDay(now);
    assert now > EndOfDay(AddYears(bd, age)) <==> today > Anniversary(bd, age);
    var g := if today > Anniversary(bd, age) then age + 1 else age;
    assert Anniversary(bd, g) >= today;
    assert Anniversary(bd, g - 1) < today by {
      if g == age { AnniversariesIncrease(bd, age - 1, age); }
    }
    if g > n {
      if n < g - 1 { AnniversariesIncrease(bd, n, g - 1); }
      assert false;
    }
  }

  /** The next birthday is at most 365 days away. */
  lemma NextWithinYear(bd: Date, today: int)
    requires RecursAnnually(bd)
    ensures 0 <= Anniversary(bd, NextAnniversary(bd, today)) - today <= 365
  {
    var n := NextAnniversary(bd, today);
    AnniversaryStep(bd, n - 1);
  }

  /** The computation in `getUserBDInfo` (age, anniversary, one-year bump,
      hours / 24) counts the days from today to the next birthday. */
  lemma NextBirthdayDays(now: int, bd: Date)
    requires RecursAnnually(bd)
    ensures var ageBD := AddYears(bd, Age(bd, now));
            var next := if now > EndOfDay(ageBD) then AddYears(ageBD, 1) else ageBD;
            && next == AddYears(bd, NextAnniversary(bd, DayOf(now)))
            && Quot(Quot(EndOfDay(next) - now, MillisPerHour), 24)
               == Anniversary(bd, NextAnniversary(bd, DayOf(now))) - DayOf(now)
            && 0 <= Anniversary(bd, NextAnniversary(bd, DayOf(now))) - DayOf(now) <= 365
  {
    var today := DayOf(now);
    var n := NextAnniversary(bd, today);
    BumpedAnniversary(now, bd);
    NextWithinYear(bd, today);
    var tod := MillisOfDay(now);
    assert EndOfDay(AddYears(bd, n)) - now == (Anniversary(bd, n) - today) * MillisPerDay + (LastMilliOfDay - tod);
    WholeDays(Anniversary(bd, n) - today, LastMilliOfDay - tod);
  }

  /** The birthday counted is this calendar year's unless `now` is already
      past its last millisecond, in which case it is next year's. */
  lemma ThisYearOrNext(now: int, bd: Date)
    requires RecursAnnually(bd)
    ensures var k := YearOfDay(DayOf(now)) - bd.year;
            NextAnniversary(bd, DayOf(now)) == if now > EndOfDay(AddYears(bd, k)) then k + 1 else k
  {
    var today := DayOf(now);
    var k := YearOfDay(today) - bd.year;
    var n := NextAnniversary(bd, today);
    var tod := MillisOfDay(now);
    AnniversaryInYear(bd, k - 1);
    assert now > EndOfDay(AddYears(bd, k)) <==> today > Anniversary(bd, k);
    if today > Anniversary(bd, k) {
      if n < k { AnniversariesIncrease(bd, n, k); }
      assert n != k;
    } else {
      if n < k - 1 { AnniversariesIncrease(bd, n, k - 1); }
    }
  }

  /** Zero days are left exactly when today is the birthday. */
  lemma ZeroDaysOnBirthday(now: int, userBD: string)
    requires GetUserBDInfo(now, userBD).err.None?
    ensures var bd := ParseDDMM1900(userBD).value;
            GetUserBDInfo(now, userBD).days == 0 <==> exists k :: Anniversary(bd, k) == DayOf(now)
  {
    var bd := ParseDDMM1900(userBD).value;
    var today := DayOf(now);
    var n := NextAnniversary(bd, today);
    if k :| Anniversary(bd, k) == today {
      if n < k { AnniversariesIncrease(bd, n, k); }
      if k < n { AnniversariesIncrease(bd, k, n); }
    }
  }

  /** Tokens that are not `DDMM` dates of 1900 are refused with days = -1:
      February 29 (1900 is not a leap year), April 32, a thirteenth month, and the
      month-first `MMDD` spelling of January 15. */
  lemma RejectedTokens(now: int)
    ensures GetUserBDInfo(now, "2902") == DaysLeft(-1, Some("unable to parse birthday"))
    ensures GetUserBDInfo(now, "3204") == DaysLeft(-1, Some("unable to parse birthday"))
    ensures GetUserBDInfo(now, "0113") == DaysLeft(-1, Some("unable to parse birthday"))
    ensures GetUserBDInfo(now, "0115") == DaysLeft(-1, Some("unable to parse birthday"))
    ensures GetUserBDInfo(now, "150") == DaysLeft(-1, Some("Skype field has wrong amount of symbols"))
  {
  }

  /** January 15 (`"1501"`): five days ahead at noon on January 10, 2023. */
  lemma JanuaryFifteenthAhead()
    ensures GetUserBDInfo(DayNumber(Date(2023, 1, 10)) * MillisPerDay + 12 * MillisPerHour, "1501").days == 5
  {
    var bd := Date(1900, 1, 15);
    assert ParseDDMM1900("1501") == Some(bd);
    var t := DayNumber(Date(2023, 1, 10)) * MillisPerDay + 12 * MillisPerHour;
    assert DayOf(t) == DayNumber(Date(2023, 1, 10));
    YearOfDate(Date(2023, 1, 10));
    ThisYearOrNext(t, bd);
  }

  /** January 15 (`"1501"`): 364 days ahead on January 16, 2023, when the
      next one is in 2024. */
  lemma JanuaryFifteenthPassed()
    ensures GetUserBDInfo(DayNumber(Date(2023, 1, 16)) * MillisPerDay, "1501").days == 364
  {
    var bd := Date(1900, 1, 15);
    assert ParseDDMM1900("1501") == Some(bd);
    var today := DayNumber(Date(2023, 1, 16));
    var t := today * MillisPerDay;
    assert DayOf(t) == today;
    YearOfDate(Date(2023, 1, 16));
    ThisYearOrNext(t, bd);
    assert DayNumber(AddYears(bd, 123)) == today - 1;
    assert t > EndOfDay(AddYears(bd, 123));
    YearStep(2023);
    assert Anniversary(bd, 124) == today + 364;
  }
}
