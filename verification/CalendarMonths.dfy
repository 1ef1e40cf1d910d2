/** Calendar months on dates written as `YYYY-MM-DD`, added by way of the runtime's `Date.UTC`. */
module CalendarMonths {
  import opened Options

  datatype Date = Date(y: int, m: int, d: int)

  predicate IsLeap(y: int) {
    y % 4 == 0 && (y % 100 != 0 || y % 400 == 0)
  }

  function LastDay(y: int, m: int): (d: int)
    ensures 28 <= d <= 31
  {
    if m == 2 then (if IsLeap(y) then 29 else 28) else if m in {4, 6, 9, 11} then 30 else 31
  }

  predicate Valid(a: Date) {
    1 <= a.m <= 12 && 1 <= a.d <= LastDay(a.y, a.m)
  }

  predicate Before(a: Date, b: Date) {
    a.y < b.y || (a.y == b.y && (a.m < b.m || (a.m == b.m && a.d < b.d)))
  }

  predicate NotAfter(a: Date, b: Date) {
    a == b || Before(a, b)
  }

  /** Months counted from the start of year 0. */
  function MonthIndex(a: Date): int {
    12 * a.y + a.m - 1
  }

  function Min(a: int, b: int): int {
    if a < b then a else b
  }

  /** What is meant: the same day `n` months later, or the last day of a shorter month. */
  function MonthsLater(a: Date, n: int): Date {
    var index := MonthIndex(a) + n;
    Date(index / 12, index % 12 + 1, Min(a.d, LastDay(index / 12, index % 12 + 1)))
  }

  // What the code computes

  /** `Date.UTC` takes a year from 0 to 99 for one of the 1900s. */
  function FixedYear(y: int): int {
    if 0 <= y <= 99 then 1900 + y else y
  }

  /** The first of a month, `Date.UTC(y, month, 1)`: months outside 0 to 11 carry into the year. */
  function FirstOf(y: int, month: int): Date {
    Date(FixedYear(y) + month / 12, month % 12 + 1, 1)
  }

  /** `Date.UTC(y, month + 1, 0)`: the last day of the month. */
  function DayZeroOfNext(y: int, month: int): Date {
    var next := FirstOf(y, month + 1);
    if next.m == 1 then Date(next.y - 1, 12, LastDay(next.y - 1, 12))
    else Date(next.y, next.m - 1, LastDay(next.y, next.m - 1))
  }

  function AddCalendarMonths(a: Date, months: int): Date {
    var target := FirstOf(a.y, a.m - 1 + months);
    target.(d := Min(a.d, DayZeroOfNext(target.y, target.m - 1).d))
  }

  lemma {:induction false} DayZeroIsLastDay(y: int, month: int)
    requires FixedYear(y) == y && 0 <= month < 12
    ensures DayZeroOfNext(y, month) == Date(y, month + 1, LastDay(y, month + 1))
  {
  }

  lemma {:induction false} EarlyDayZero(y: int, month: int)
    requires 0 <= y < 100 && 0 <= month < 12
    ensures DayZeroOfNext(y, month) == DayZeroOfNext(1900 + y, month)
  {
    assert FirstOf(y, month + 1) == FirstOf(1900 + y, month + 1);
  }

  lemma {:induction false} LeapAsLater(y: int)
    requires 0 <= y < 100
    ensures IsLeap(1900 + y) ==> IsLeap(y)
  {
    assert (1900 + y) % 4 == y % 4;
  }

  /** In the first century it is that of a month 1900 years later, which is no longer. */
  lemma {:induction false} DayZeroWithin(y: int, month: int)
    requires 0 <= month < 12
    ensures 28 <= DayZeroOfNext(y, month).d <= LastDay(y, month + 1)
  {
    if FixedYear(y) == y {
      DayZeroIsLastDay(y, month);
    } else {
      EarlyDayZero(y, month);
      DayZeroIsLastDay(1900 + y, month);
      LeapAsLater(y);
    }
  }

  /** The result is a date of the calendar, whatever the months; even in the first century, where the last day is that
      of another year. */
  lemma AddGivesADate(a: Date, months: int)
    requires Valid(a)
    ensures Valid(AddCalendarMonths(a, months)) && Valid(MonthsLater(a, months))
  {
    var target := FirstOf(a.y, a.m - 1 + months);
    DayZeroWithin(target.y, target.m - 1);
  }

  lemma {:induction false} YearsAndMonths(y: int, month: nat)
    ensures (12 * y + month) / 12 == y + month / 12 && (12 * y + month) % 12 == month % 12
  {
  }

  /** The number of the month that is aimed at. */
  function TargetMonth(a: Date, months: int): int {
    12 * FixedYear(a.y) + (a.m - 1 + months)
  }

  lemma {:induction false} FirstOfIndex(y: int, month: nat)
    ensures var index := 12 * FixedYear(y) + month;
      FirstOf(y, month) == Date(index / 12, index % 12 + 1, 1)
  {
    YearsAndMonths(FixedYear(y), month);
  }

  lemma {:induction false} LastDayOfIndex(index: int)
    requires index >= 12 * 100
    ensures DayZeroOfNext(index / 12, index % 12).d == LastDay(index / 12, index % 12 + 1)
  {
    DayZeroIsLastDay(index / 12, index % 12);
  }

  /** The code adds the months that are meant to the date in the year it takes for the date's own. */
  lemma {:induction false} AddIsFixedMonthsLater(a: Date, months: nat)
    requires 1 <= a.m <= 12 && a.y >= 0
    ensures AddCalendarMonths(a, months) == MonthsLater(a.(y := FixedYear(a.y)), months)
  {
    var index := TargetMonth(a, months);
    FirstOfIndex(a.y, a.m - 1 + months);
    LastDayOfIndex(index);
    assert MonthIndex(a.(y := FixedYear(a.y))) + months == index;
  }

  /** Forward from a year of at least 100 the code adds the months that are meant; from an earlier year never. */
  lemma {:induction false} AddIsMonthsLater(a: Date, months: nat)
    requires Valid(a) && a.y >= 0
    ensures AddCalendarMonths(a, months) == MonthsLater(a, months) <==> a.y >= 100
  {
    AddIsFixedMonthsLater(a, months);
    if a.y < 100 {
      var index := MonthIndex(a) + months;
      assert (index + 12 * 1900) / 12 == index / 12 + 1900;
    }
  }

  // What holds of the dates the code gives

  /** A later date stays later or level, whatever the months, exactly when both years are on the same side of 100 or the
      earlier date still is the earlier one as a date of the 1900s. */
  lemma MonotoneInDate(a: Date, b: Date)
    requires Valid(a) && Valid(b) && a.y >= 0 && NotAfter(a, b)
    ensures (forall n: nat :: NotAfter(AddCalendarMonths(a, n), AddCalendarMonths(b, n)))
      <==> a.y >= 100 || b.y < 100 || NotAfter(a.(y := 1900 + a.y), b)
  {
    if a.y >= 100 || b.y < 100 || NotAfter(a.(y := 1900 + a.y), b) {
      forall n: nat
        ensures NotAfter(AddCalendarMonths(a, n), AddCalendarMonths(b, n))
      {
        StaysInOrder(a, b, n);
      }
    } else {
      LandsLater(a, b);
    }
  }

  lemma StaysInOrder(a: Date, b: Date, n: nat)
    requires Valid(a) && Valid(b) && a.y >= 0 && NotAfter(a, b)
    requires a.y >= 100 || b.y < 100 || NotAfter(a.(y := 1900 + a.y), b)
    ensures NotAfter(AddCalendarMonths(a, n), AddCalendarMonths(b, n))
  {
    AddIsFixedMonthsLater(a, n);
    AddIsFixedMonthsLater(b, n);
    MeantStaysInOrder(a.(y := FixedYear(a.y)), b.(y := FixedYear(b.y)), n);
  }

  lemma {:induction false} MeantStaysInOrder(a: Date, b: Date, n: nat)
    requires 1 <= a.m <= 12 && 1 <= b.m <= 12 && NotAfter(a, b)
    ensures NotAfter(MonthsLater(a, n), MonthsLater(b, n))
  {
    assert MonthIndex(a) <= MonthIndex(b);
  }

  /** Moved to a month of 31 days, no day is cut short. */
  lemma LandsLater(a: Date, b: Date)
    requires Valid(a) && Valid(b) && 0 <= a.y < 100 <= b.y && !NotAfter(a.(y := 1900 + a.y), b)
    ensures !NotAfter(AddCalendarMonths(a, 13 - a.m), AddCalendarMonths(b, 13 - a.m))
  {
  }

  /** Three months from 31 December 99 are later than three months from the next day. */
  lemma CenturyTurnsBack()
    ensures var a, b := Date(99, 12, 31), Date(100, 1, 1);
      Valid(a) && Valid(b) && Before(a, b) && Before(AddCalendarMonths(b, 3), AddCalendarMonths(a, 3))
  {
  }

  /** More months are strictly later. */
  lemma StrictInMonths(a: Date, n: nat, k: nat)
    requires Valid(a) && a.y >= 0 && n < k
    ensures Before(AddCalendarMonths(a, n), AddCalendarMonths(a, k))
  {
  }

  /** Two steps never land later than one of both lengths: the first may cut the day short. */
  lemma TwoStepsNotLater(a: Date, n: nat, k: nat)
    requires Valid(a) && a.y >= 0
    ensures NotAfter(AddCalendarMonths(AddCalendarMonths(a, n), k), AddCalendarMonths(a, n + k))
  {
  }

  // Dates as text

  /** The order of strings, by code unit. */
  predicate LessText(a: seq<int>, b: seq<int>) {
    b != [] && (a == [] || a[0] < b[0] || (a[0] == b[0] && LessText(a[1..], b[1..])))
  }

  function Pad2(n: int): seq<int> {
    [48 + n / 10 % 10, 48 + n % 10]
  }

  /** `toISOString().slice(0, 10)`: four digits of the year, or a sign and six. */
  function IsoDate(a: Date): seq<int> {
    if 0 <= a.y <= 9999 then Pad2(a.y / 100) + (Pad2(a.y % 100) + ([45] + (Pad2(a.m) + ([45] + Pad2(a.d)))))
    else
      var y := if a.y < 0 then -a.y else a.y;
      [if a.y < 0 then 45 else 43] + (Pad2(y / 10000) + (Pad2(y / 100 % 100) + (Pad2(y % 100) + ([45] + Pad2(a.m)))))
  }

  /** The text of a date, as callers pass dates and expect them. */
  ghost predicate IsDateText(t: seq<int>) {
    exists a :: Valid(a) && 0 <= a.y <= 9999 && IsoDate(a) == t
  }

  /** The days a `Date` can hold, 100 million on each side of the epoch. */
  predicate Representable(a: Date) {
    NotAfter(Date(-271821, 4, 20), a) && NotAfter(a, Date(275760, 9, 13))
  }

  /** Both dates the code makes of a month are ones a `Date` can hold. */
  predicate MonthFits(first: Date) {
    Representable(first) && Representable(DayZeroOfNext(first.y, first.m - 1))
  }

  predicate FirstFits(y: int, month: int) {
    MonthFits(FirstOf(y, month))
  }

  /** No date on the way is invalid. */
  predicate AddFits(a: Date, months: int) {
    FirstFits(a.y, a.m - 1 + months)
  }

  /** `toUtcDate` of the result; an invalid date on the way makes it throw. */
  function AddedText(a: Date, months: int): Option<seq<int>> {
    if AddFits(a, months) then Some(IsoDate(AddCalendarMonths(a, months))) else None
  }

  /** The year decides about the first unit: a digit or a sign. */
  lemma {:induction false} DateTextIsDigit(a: Date)
    requires Valid(a) && -999999 <= a.y <= 999999
    ensures IsDateText(IsoDate(a)) <==> 0 <= a.y <= 9999
  {
    if !(0 <= a.y <= 9999) {
      forall b | Valid(b) && 0 <= b.y <= 9999
        ensures IsoDate(b) != IsoDate(a)
      {
        assert IsoDate(b)[0] >= 48 && IsoDate(a)[0] < 48;
      }
    }
  }

  /** May -271821 to August 275760, by their numbers. */
  predicate MonthInReach(index: int) {
    12 * -271821 + 4 <= index <= 12 * 275760 + 7
  }

  lemma {:induction false} DayZeroNearby(first: Date)
    requires 1 <= first.m <= 12 && 0 <= first.y < 100
    ensures 1900 <= DayZeroOfNext(first.y, first.m - 1).y < 2000
  {
  }

  lemma LastDayInReach(y: int, m: int)
    requires 1 <= m <= 12
    ensures Representable(Date(y, m, 1)) && Representable(Date(y, m, LastDay(y, m))) <==> MonthInReach(12 * y + m - 1)
  {
    if y < -271821 || y > 275760 {
      assert !Representable(Date(y, m, 1));
    } else if -271821 < y < 275760 {
      assert Representable(Date(y, m, 1)) && Representable(Date(y, m, LastDay(y, m)));
    }
  }

  /** September 275760 does not fit: its first days do, its last one does not. */
  lemma {:induction false} MonthsThatFit(first: Date)
    requires 1 <= first.m <= 12 && first.d == 1
    ensures MonthFits(first) <==> MonthInReach(MonthIndex(first))
  {
    if 0 <= first.y < 100 {
      DayZeroNearby(first);
    } else {
      DayZeroIsLastDay(first.y, first.m - 1);
      LastDayInReach(first.y, first.m);
      assert first == Date(first.y, first.m, 1);
    }
  }

  lemma {:induction false} FirstFitsExactly(y: int, month: int)
    ensures FirstFits(y, month) <==> MonthInReach(12 * FixedYear(y) + month)
  {
    var first := FirstOf(y, month);
    assert 12 * (month / 12) + month % 12 == month;
    assert MonthIndex(first) == 12 * FixedYear(y) + month;
    MonthsThatFit(first);
  }

  lemma {:induction false} AddFitsExactly(a: Date, months: int)
    ensures AddFits(a, months) <==> MonthInReach(TargetMonth(a, months))
  {
    var y, month := a.y, a.m - 1 + months;
    FirstFitsExactly(y, month);
    assert AddFits(a, months) == FirstFits(y, month);
    assert TargetMonth(a, months) == 12 * FixedYear(y) + month;
  }

  lemma {:induction false} AddedMonth(a: Date, months: int)
    ensures MonthIndex(AddCalendarMonths(a, months)) == TargetMonth(a, months)
  {
    var month := a.m - 1 + months;
    assert 12 * (month / 12) + month % 12 == month;
  }

  lemma {:induction false} TextInReach(a: Date)
    requires Valid(a)
    ensures MonthInReach(MonthIndex(a)) && IsDateText(IsoDate(a)) <==> 0 <= a.y <= 9999
  {
    if MonthInReach(MonthIndex(a)) {
      DateTextIsDigit(a);
    }
  }

  lemma {:induction false} AddedInReach(a: Date, months: int)
    requires Valid(a)
    ensures var added := AddCalendarMonths(a, months);
      MonthInReach(TargetMonth(a, months)) && IsDateText(IsoDate(added)) <==> 0 <= added.y <= 9999
  {
    AddGivesADate(a, months);
    AddedMonth(a, months);
    TextInReach(AddCalendarMonths(a, months));
  }

  /** The text that comes back is a date exactly when the result has a year of four digits; past that a sign and six
      digits push the day out. Every month beyond August 275760 throws, September with its first days in reach too. */
  lemma {:induction false} AddedTextIsADate(a: Date, months: int)
    requires Valid(a) && 0 <= a.y <= 9999
    ensures var r := AddedText(a, months); var added := AddCalendarMonths(a, months);
      && (r.Some? && IsDateText(r.value) <==> 0 <= added.y <= 9999)
      && (r.Some? ==> r.value == IsoDate(added))
      && (r.Some? <==> MonthInReach(TargetMonth(a, months)))
  {
    AddFitsExactly(a, months);
    AddedInReach(a, months);
  }

  lemma {:induction false} LessAfter1(u: int, x: seq<int>, y: seq<int>)
    ensures LessText([u] + x, [u] + y) <==> LessText(x, y)
  {
  }

  /** Two digits compare as the number they write. */
  lemma {:induction false} LessAfterPad(m: int, n: int, x: seq<int>, y: seq<int>)
    requires 0 <= m < 100 && 0 <= n < 100
    ensures LessText(Pad2(m) + x, Pad2(n) + y) <==> m < n || (m == n && LessText(x, y))
  {
    var a, b := [48 + m % 10] + x, [48 + n % 10] + y;
    assert m == 10 * (m / 10) + m % 10 && n == 10 * (n / 10) + n % 10;
    assert m / 10 % 10 == m / 10 && n / 10 % 10 == n / 10;
    assert (Pad2(m) + x)[1..] == a && (Pad2(n) + y)[1..] == b;
    assert a[1..] == x && b[1..] == y;
  }

  /** With years of four digits the strings compare as the dates do. */
  lemma {:induction false} TextOrderIsDateOrder(a: Date, b: Date)
    requires Valid(a) && Valid(b) && 0 <= a.y <= 9999 && 0 <= b.y <= 9999
    ensures LessText(IsoDate(a), IsoDate(b)) <==> Before(a, b)
  {
    var da, db := Pad2(a.d), Pad2(b.d);
    var ma, mb := Pad2(a.m) + ([45] + da), Pad2(b.m) + ([45] + db);
    var ya, yb := Pad2(a.y % 100) + ([45] + ma), Pad2(b.y % 100) + ([45] + mb);
    assert da + [] == da && db + [] == db;
    LessAfterPad(a.d, b.d, [], []);
    LessAfter1(45, da, db);
    LessAfterPad(a.m, b.m, [45] + da, [45] + db);
    LessAfter1(45, ma, mb);
    LessAfterPad(a.y % 100, b.y % 100, [45] + ma, [45] + mb);
    LessAfterPad(a.y / 100, b.y / 100, ya, yb);
    assert a.y == 100 * (a.y / 100) + a.y % 100 && b.y == 100 * (b.y / 100) + b.y % 100;
  }

  lemma {:induction false} TextIsDate(a: Date, b: Date)
    requires Valid(a) && Valid(b) && 0 <= a.y <= 9999 && 0 <= b.y <= 9999
    ensures IsoDate(a) == IsoDate(b) <==> a == b
  {
    TextOrderIsDateOrder(a, b);
    TextOrderIsDateOrder(b, a);
    NotLessThanItself(IsoDate(a));
  }

  lemma {:induction false} LessIsTransitive(a: seq<int>, b: seq<int>, c: seq<int>)
    requires LessText(a, b) && LessText(b, c)
    ensures LessText(a, c)
    decreases |a|
  {
    if a != [] && a[0] == b[0] == c[0] {
      LessIsTransitive(a[1..], b[1..], c[1..]);
    }
  }

  lemma {:induction false} NotLessThanItself(s: seq<int>)
    ensures !LessText(s, s)
  {
    if s != [] {
      NotLessThanItself(s[1..]);
    }
  }

  // Reading a date string

  function NumberAt(t: seq<int>, i: nat, n: nat): int
    requires i + n <= |t|
  {
    if n == 0 then 0 else 10 * NumberAt(t, i, n - 1) + (t[i + n - 1] - 48)
  }

  lemma {:induction false} TwoDigits(t: seq<int>, i: nat, n: int)
    requires 0 <= n <= 99 && i + 2 <= |t| && t[i] == 48 + n / 10 && t[i + 1] == 48 + n % 10
    ensures NumberAt(t, i, 2) == n
  {
    assert NumberAt(t, i, 1) == t[i] - 48;
  }

  lemma FourDigits(t: seq<int>, i: nat)
    requires i + 4 <= |t|
    ensures NumberAt(t, i, 4) == 100 * NumberAt(t, i, 2) + NumberAt(t, i + 2, 2)
  {
    assert NumberAt(t, i, 4) == 10 * NumberAt(t, i, 3) + (t[i + 3] - 48);
    assert NumberAt(t, i + 2, 2) == 10 * NumberAt(t, i + 2, 1) + (t[i + 3] - 48);
  }

  lemma SixDigits(t: seq<int>, i: nat)
    requires i + 6 <= |t|
    ensures NumberAt(t, i, 6) == 100 * NumberAt(t, i, 4) + NumberAt(t, i + 4, 2)
  {
    assert NumberAt(t, i, 6) == 10 * NumberAt(t, i, 5) + (t[i + 5] - 48);
    assert NumberAt(t, i + 4, 2) == 10 * NumberAt(t, i + 4, 1) + (t[i + 5] - 48);
  }

  predicate PairAt(t: seq<int>, i: nat, n: int) {
    0 <= n <= 99 && i + 2 <= |t| && t[i] == 48 + n / 10 && t[i + 1] == 48 + n % 10
  }

  lemma YearOfFour(t: seq<int>, i: nat, y: int)
    requires 0 <= y <= 9999 && PairAt(t, i, y / 100) && PairAt(t, i + 2, y % 100)
    ensures NumberAt(t, i, 4) == y
  {
    TwoDigits(t, i, y / 100);
    TwoDigits(t, i + 2, y % 100);
    FourDigits(t, i);
  }

  lemma YearOfSix(t: seq<int>, i: nat, y: int)
    requires 0 <= y <= 999999 && PairAt(t, i, y / 10000) && PairAt(t, i + 2, y / 100 % 100) && PairAt(t, i + 4, y % 100)
    ensures NumberAt(t, i, 6) == y
  {
    assert y / 10000 == y / 100 / 100;
    YearOfFour(t, i, y / 100);
    TwoDigits(t, i + 4, y % 100);
    SixDigits(t, i);
  }

  lemma PairIs(t: seq<int>, i: nat, n: int)
    requires 0 <= n <= 99 && i + 2 <= |t| && t[i] == Pad2(n)[0] && t[i + 1] == Pad2(n)[1]
    ensures PairAt(t, i, n)
  {
  }

  lemma ShortText(a: Date)
    requires Valid(a) && 0 <= a.y <= 9999
    ensures var t := IsoDate(a);
      && |t| == 10 && t[4] == 45 && t[7] == 45
      && PairAt(t, 0, a.y / 100) && PairAt(t, 2, a.y % 100) && PairAt(t, 5, a.m) && PairAt(t, 8, a.d)
  {
    var t := IsoDate(a);
    PairIs(t, 0, a.y / 100);
    PairIs(t, 2, a.y % 100);
    PairIs(t, 5, a.m);
    PairIs(t, 8, a.d);
  }

  lemma LongText(a: Date, y: int)
    requires Valid(a) && 0 <= y <= 999999 && !(0 <= a.y <= 9999) && (a.y == y || a.y == -y)
    ensures var t := IsoDate(a);
      && |t| == 10 && t[0] == (if a.y < 0 then 45 else 43) && t[7] == 45
      && PairAt(t, 1, y / 10000) && PairAt(t, 3, y / 100 % 100) && PairAt(t, 5, y % 100) && PairAt(t, 8, a.m)
  {
    var t := IsoDate(a);
    PairIs(t, 1, y / 10000);
    PairIs(t, 3, y / 100 % 100);
    PairIs(t, 5, y % 100);
    PairIs(t, 8, a.m);
  }

  /** The code's date strings can be read back: year, month and day of a year of four digits, and sign, year and month of
      any other, whose ten units have no room for the day. */
  lemma {:induction false} TextReadsBack(a: Date)
    requires Valid(a) && -999999 <= a.y <= 999999
    ensures |IsoDate(a)| == 10
    ensures var t := IsoDate(a);
      if 0 <= a.y <= 9999 then NumberAt(t, 0, 4) == a.y && NumberAt(t, 5, 2) == a.m && NumberAt(t, 8, 2) == a.d
      else t[0] == (if a.y < 0 then 45 else 43) && NumberAt(t, 1, 6) == (if a.y < 0 then -a.y else a.y)
           && NumberAt(t, 8, 2) == a.m
  {
    var t := IsoDate(a);
    if 0 <= a.y <= 9999 {
      ShortText(a);
      YearOfFour(t, 0, a.y);
      TwoDigits(t, 5, a.m);
      TwoDigits(t, 8, a.d);
    } else {
      var y := if a.y < 0 then -a.y else a.y;
      LongText(a, y);
      YearOfSix(t, 1, y);
      TwoDigits(t, 8, a.m);
    }
  }
}
