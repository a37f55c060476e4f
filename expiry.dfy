/** Choosing an expiry date: from the contracts listed in the instrument
    master when it has suitable ones, otherwise by the calendar rule
    (next Tuesday for index names, last Thursday of the month for stocks). */
module Expiry {
  import opened Wrappers
  import opened Calendar
  import opened Instruments
  import opened KeyResolver

  /** The expiry_type argument: "weekly", "monthly", or any other string. */
  datatype ExpiryType = Weekly | Monthly | Unspecified

  /** The instrument_category argument: "options", "futures", or any other string. */
  datatype InstrumentCategory = OptionsCategory | FuturesCategory | OtherCategory

  /** Days from today to the next Tuesday; a Tuesday counts as its own
      expiry until 15:00. */
  function DaysUntilTuesday(today: Date, hour: int): (n: nat)
    requires ValidDate(today)
    ensures n <= 7
    ensures n == 0 <==> Weekday(today) == 1 && hour < 15
    ensures n == 7 <==> Weekday(today) == 1 && hour >= 15
  {
    var n := (1 - Weekday(today) + 7) % 7;
    if n == 0 && hour >= 15 then 7 else n
  }

  lemma TuesdayArith(w: int, n: int, j: int)
    requires 0 <= w < 7 && (n == (1 - w + 7) % 7 || (n == 7 && w == 1))
    ensures (w + n) % 7 == 1
    ensures 0 < j < n ==> (w + j) % 7 != 1
  {
    if w == 0 {} else if w == 1 {} else if w == 2 {} else if w == 3 {}
    else if w == 4 {} else if w == 5 {} else {}
  }

  /** The next Tuesday is a Tuesday, and no day before it (today excepted
      after 15:00) is one. */
  lemma TuesdayIsNext(today: Date, hour: int)
    requires ValidDate(today)
    ensures Weekday(AddDays(today, DaysUntilTuesday(today, hour))) == 1
    ensures Ordinal(AddDays(today, DaysUntilTuesday(today, hour))) == Ordinal(today) + DaysUntilTuesday(today, hour)
    ensures forall j: nat :: 0 < j < DaysUntilTuesday(today, hour) ==> Weekday(AddDays(today, j)) != 1
  {
    var n := DaysUntilTuesday(today, hour);
    assert n == (1 - Weekday(today) + 7) % 7 || (n == 7 && Weekday(today) == 1);
    TuesdayAhead(today, n);
  }

  /** TuesdayIsNext for a given count of days ahead. */
  lemma TuesdayAhead(today: Date, n: nat)
    requires ValidDate(today)
    requires n == (1 - Weekday(today) + 7) % 7 || (n == 7 && Weekday(today) == 1)
    ensures Weekday(AddDays(today, n)) == 1
    ensures Ordinal(AddDays(today, n)) == Ordinal(today) + n
    ensures forall j: nat :: 0 < j < n ==> Weekday(AddDays(today, j)) != 1
  {
    TuesdayLands(today, n);
    AddDaysOrdinal(today, n);
    NoTuesdayBefore(today, n);
  }

  /** The n-th day ahead is a Tuesday. */
  lemma TuesdayLands(today: Date, n: nat)
    requires ValidDate(today)
    requires n == (1 - Weekday(today) + 7) % 7 || (n == 7 && Weekday(today) == 1)
    ensures Weekday(AddDays(today, n)) == 1
  {
    TuesdayArith(Weekday(today), n, 0);
    WeekdayAfter(today, n);
  }

  /** No day strictly between today and the n-th day ahead is a Tuesday. */
  lemma NoTuesdayBefore(today: Date, n: nat)
    requires ValidDate(today)
    requires n == (1 - Weekday(today) + 7) % 7 || (n == 7 && Weekday(today) == 1)
    ensures forall j: nat :: 0 < j < n ==> Weekday(AddDays(today, j)) != 1
  {
    var w := Weekday(today);
    forall j: nat | 0 < j < n ensures Weekday(AddDays(today, j)) != 1 {
      WeekdayAfter(today, j);
      TuesdayArith(w, n, j);
    }
  }

  /** True when this month's last Thursday is already over: before today,
      or today from 15:00 on. */
  predicate MonthlyExpiryPassed(today: Date, hour: int)
    requires ValidDate(today)
  {
    var lt := LastThursday(today.year, today.month);
    Before(lt, today) || (lt == today && hour >= 15)
  }

  /** _get_fallback_expiry. */
  function FallbackExpiry(symbol: string, today: Date, hour: int): (d: Date)
    requires ValidDate(today)
    ensures ValidDate(d)
    ensures IsIndexName(symbol) ==> d == AddDays(today, DaysUntilTuesday(today, hour))
    ensures !IsIndexName(symbol) ==> Weekday(d) == 3 && d.day > DaysInMonth(d.year, d.month) - 7
    ensures !IsIndexName(symbol) && !MonthlyExpiryPassed(today, hour) ==>
      d == LastThursday(today.year, today.month)
    ensures !IsIndexName(symbol) && MonthlyExpiryPassed(today, hour) ==>
      d == (if today.month == 12 then LastThursday(today.year + 1, 1) else LastThursday(today.year, today.month + 1))
  {
    if IsIndexName(symbol) then AddDays(today, DaysUntilTuesday(today, hour))
    else if !MonthlyExpiryPassed(today, hour) then LastThursday(today.year, today.month)
    else if today.month == 12 then LastThursday(today.year + 1, 1)
    else LastThursday(today.year, today.month + 1)
  }

  /** The fallback date is never in the past, and is today only before 15:00. */
  lemma FallbackNotPast(symbol: string, today: Date, hour: int)
    requires ValidDate(today)
    ensures !Before(FallbackExpiry(symbol, today, hour), today)
    ensures FallbackExpiry(symbol, today, hour) == today ==> hour < 15
  {
    var d := FallbackExpiry(symbol, today, hour);
    if IsIndexName(symbol) {
      TuesdayIsNext(today, hour);
      BeforeIffOrdinal(d, today);
    }
  }

  // --------------------------------------------------- from the master

  /** The list the source reads: index lists for names containing "Nifty". */
  function ListKey(symbol: string, category: InstrumentCategory): (c: Option<Category>)
    ensures c.Some? ==> (c.value.IsOption() <==> category == OptionsCategory)
    ensures c.None? <==> category == OtherCategory
    ensures c.Some? ==> (c.value == OptIdx || c.value == FutIdx <==> IsIndexName(symbol))
  {
    match category
    case OptionsCategory => Some(if IsIndexName(symbol) then OptIdx else OptStk)
    case FuturesCategory => Some(if IsIndexName(symbol) then FutIdx else FutStk)
    case OtherCategory => None
  }

  /** The contract list to choose from, or None where the source falls
      back: unknown normalised symbol, no list for the category, or an
      entry without that list. A listless entry is such an entry whether
      or not the source sees it as empty. */
  function ExpiryList(master: Master, symbol: string, category: InstrumentCategory): (l: Option<seq<Contract>>)
    ensures l.Some? <==> (NormalizeSymbol(symbol) in master && ListKey(symbol, category).Some? &&
                          ListKey(symbol, category).value in master[NormalizeSymbol(symbol)].lists)
    ensures l.Some? ==> l.value == master[NormalizeSymbol(symbol)].lists[ListKey(symbol, category).value]
  {
    var n := NormalizeSymbol(symbol);
    var c := ListKey(symbol, category);
    if n in master && c.Some? && c.value in master[n].lists then Some(master[n].lists[c.value]) else None
  }

  ghost predicate StrictlyAscending(s: seq<Date>) {
    forall i, j :: 0 <= i < j < |s| ==> Before(s[i], s[j])
  }

  /** Adds d to an ascending list of distinct dates. */
  function InsertDate(d: Date, s: seq<Date>): (r: seq<Date>)
    requires StrictlyAscending(s)
    ensures StrictlyAscending(r)
    ensures forall x :: x in r <==> x == d || x in s
  {
    if s == [] then [d]
    else if d == s[0] then s
    else if Before(d, s[0]) then [d] + s
    else
      var t := InsertDate(d, s[1..]);
      assert forall x :: x in s <==> x == s[0] || x in s[1..];
      assert forall j :: 0 <= j < |t| ==> Before(s[0], t[j]) by {
        forall j | 0 <= j < |t| ensures Before(s[0], t[j]) {
          assert t[j] in t;
          if t[j] != d {
            var k :| 0 <= k < |s[1..]| && s[1..][k] == t[j];
            assert s[k + 1] == t[j];
          }
        }
      }
      [s[0]] + t
  }

  predicate ListsExpiry(list: seq<Contract>, d: Date) {
    exists i :: 0 <= i < |list| && list[i].expiry == d
  }

  /** sorted(set(expiry for item in list if expiry >= today)). */
  function UpcomingDates(list: seq<Contract>, today: Date): (r: seq<Date>)
    ensures StrictlyAscending(r)
    ensures forall d :: d in r <==> ListsExpiry(list, d) && !Before(d, today)
  {
    if list == [] then []
    else
      var rest := UpcomingDates(list[1..], today);
      assert forall d :: ListsExpiry(list, d) <==> list[0].expiry == d || ListsExpiry(list[1..], d) by {
        forall d ensures ListsExpiry(list, d) <==> list[0].expiry == d || ListsExpiry(list[1..], d) {
          if ListsExpiry(list, d) && list[0].expiry != d {
            var i :| 0 <= i < |list| && list[i].expiry == d;
            assert list[1..][i - 1].expiry == d;
          }
          if ListsExpiry(list[1..], d) {
            var i :| 0 <= i < |list[1..]| && list[1..][i].expiry == d;
            assert list[i + 1].expiry == d;
          }
        }
      }
      if Before(list[0].expiry, today) then rest else InsertDate(list[0].expiry, rest)
  }

  /** Every expiry in the master parses as a date. */
  ghost predicate WellFormedMaster(master: Master) {
    forall s, c, i :: s in master && c in master[s].lists && 0 <= i < |master[s].lists[c]| ==>
      ValidDate(master[s].lists[c][i].expiry)
  }

  predicate MarkedWeekly(list: seq<Contract>, d: Date) {
    exists i :: 0 <= i < |list| && list[i].expiry == d && list[i].weekly
  }

  predicate MarkedMonthly(list: seq<Contract>, d: Date) {
    exists i :: 0 <= i < |list| && list[i].expiry == d && list[i].monthly
  }

  /** A weekly futures date that is a Thursday after the 20th is taken to
      be the monthly expiry and skipped. */
  predicate LooksMonthlyFutures(d: Date, category: InstrumentCategory) {
    d.day > 20 && ValidDate(d) && Weekday(d) == 3 && category == FuturesCategory
  }

  /** Whether an upcoming date passes the expiry_type filter. */
  predicate Eligible(list: seq<Contract>, d: Date, etype: ExpiryType, category: InstrumentCategory) {
    match etype
    case Weekly => MarkedWeekly(list, d) && !LooksMonthlyFutures(d, category)
    case Monthly => MarkedMonthly(list, d)
    case Unspecified => true
  }

  ghost predicate FirstEligible(up: seq<Date>, k: int, list: seq<Contract>, etype: ExpiryType, category: InstrumentCategory) {
    0 <= k < |up| && Eligible(list, up[k], etype, category) &&
    forall j :: 0 <= j < k ==> !Eligible(list, up[j], etype, category)
  }

  /** What _get_next_expiry returns: the earliest upcoming listed date that
      passes the filter; for weekly requests with none, the earliest
      upcoming date; in every other case the calendar rule on the caller's
      symbol. */
  ghost predicate IsNextExpiry(master: Master, symbol: string, category: InstrumentCategory, etype: ExpiryType,
                               today: Date, hour: int, r: Date)
    requires ValidDate(today)
  {
    (ExpiryList(master, symbol, category).None? ==> r == FallbackExpiry(symbol, today, hour)) &&
    (ExpiryList(master, symbol, category).Some? ==>
      var list := ExpiryList(master, symbol, category).value;
      var up := UpcomingDates(list, today);
      (forall k :: FirstEligible(up, k, list, etype, category) ==> r == up[k]) &&
      ((forall k :: 0 <= k < |up| ==> !Eligible(list, up[k], etype, category)) ==>
         r == if etype == Weekly && up != [] then up[0] else FallbackExpiry(symbol, today, hour)))
  }

  /** _get_next_expiry: the earliest upcoming listed date that passes the
      filter; for weekly requests with none, the earliest upcoming date; in
      every other case the calendar rule on the caller's symbol. */
  method NextExpiry(master: Master, symbol: string, category: InstrumentCategory, etype: ExpiryType,
                    today: Date, hour: int) returns (r: Date)
    requires ValidDate(today) && WellFormedMaster(master)
    ensures ValidDate(r)
    ensures IsNextExpiry(master, symbol, category, etype, today, hour, r)
  {
    var list := ExpiryList(master, symbol, category);
    if list.None? {
      return FallbackExpiry(symbol, today, hour);
    }
    var items := list.value;
    var up := UpcomingDates(items, today);
    UpcomingValid(master, symbol, category, today);
    if up == [] {
      return FallbackExpiry(symbol, today, hour);
    }
    var first := FirstEligibleDate(items, up, etype, category);
    if first.Some? {
      FirstEligibleUnique(up, first.value, items, etype, category);
      return up[first.value];
    }
    if etype == Weekly {
      return up[0];
    }
    return FallbackExpiry(symbol, today, hour);
  }

  /** The list comprehension over the upcoming dates and its first element,
      given by its position: the first date passing the filter, if any. */
  method FirstEligibleDate(items: seq<Contract>, up: seq<Date>, etype: ExpiryType, category: InstrumentCategory)
    returns (first: Option<nat>)
    ensures first.None? <==> forall j :: 0 <= j < |up| ==> !Eligible(items, up[j], etype, category)
    ensures first.Some? ==> FirstEligible(up, first.value, items, etype, category)
  {
    var filtered: seq<Date> := [];
    var k := 0;
    for i := 0 to |up|
      invariant filtered == [] ==> forall j :: 0 <= j < i ==> !Eligible(items, up[j], etype, category)
      invariant filtered != [] ==> 0 <= k < i && FirstEligible(up, k, items, etype, category) && filtered[0] == up[k]
    {
      var d := up[i];
      if Eligible(items, d, etype, category) {
        if filtered == [] {
          k := i;
        }
        filtered := filtered + [d];
      }
    }
    if filtered == [] {
      return None;
    }
    return Some(k);
  }

  /** At most one position is the first eligible one. */
  lemma FirstEligibleUnique(up: seq<Date>, k: int, items: seq<Contract>, etype: ExpiryType, category: InstrumentCategory)
    requires FirstEligible(up, k, items, etype, category)
    ensures forall k' :: FirstEligible(up, k', items, etype, category) ==> k' == k
  {
  }

  lemma UpcomingValid(master: Master, symbol: string, category: InstrumentCategory, today: Date)
    requires WellFormedMaster(master) && ExpiryList(master, symbol, category).Some?
    ensures var up := UpcomingDates(ExpiryList(master, symbol, category).value, today);
      forall k :: 0 <= k < |up| ==> ValidDate(up[k])
  {
    var list := ExpiryList(master, symbol, category).value;
    var up := UpcomingDates(list, today);
    forall k | 0 <= k < |up| ensures ValidDate(up[k]) {
      assert up[k] in up;
      var i :| 0 <= i < |list| && list[i].expiry == up[k];
    }
  }

  /** A chosen expiry is never in the past: dates from the master are
      upcoming by construction, and the calendar rule is lemma
      FallbackNotPast. */
  lemma ChosenFromMasterUpcoming(list: seq<Contract>, today: Date, k: int)
    requires 0 <= k < |UpcomingDates(list, today)|
    ensures !Before(UpcomingDates(list, today)[k], today)
    ensures ListsExpiry(list, UpcomingDates(list, today)[k])
  {
    var up := UpcomingDates(list, today);
    assert up[k] in up;
  }
}
