/**
 * The sales list: a search over three text fields, status, platform and
 * date-range filters, a sort by one column, and the total of the shown
 * amounts.
 */
module Sales {
  import opened Text
  import opened Seqs
  import opened Sorting
  import opened Calendar
  import opened ListView

  /** One sale; `amount` is in cents. */
  datatype Sale = Sale(
    id: string,
    orderId: string,
    product: string,
    platform: string,
    customer: string,
    date: Date,
    amount: int,
    status: string)

  /** The search matches the product, the order id or the customer, ignoring case. */
  predicate MatchesSearch(s: Sale, query: string)
  {
    var q := ToLower(query);
    Includes(ToLower(s.product), q) || Includes(ToLower(s.orderId), q) || Includes(ToLower(s.customer), q)
  }

  /** Milliseconds in a day. */
  const DayMs := 86400000

  /** The first day of the week containing `now` (the Sunday on or before it), as a day number. */
  function WeekStart(now: Date): int
  {
    DayNumber(now) - Weekday(now)
  }

  /**
   * The date-range filter against the current day `now`; any other value
   * than the five named ranges lets every sale through.
   */
  predicate MatchesDate(d: Date, dateFilter: string, now: Date)
  {
    if dateFilter == "today" then d == now
    else if dateFilter == "yesterday" then d == PrevDay(now)
    else if dateFilter == "thisWeek" then DayNumber(d) >= WeekStart(now)
    else if dateFilter == "thisMonth" then d.month == now.month && d.year == now.year
    else if dateFilter == "lastMonth" then (d.year, d.month) == PrevMonth(now)
    else true
  }

  /**
   * "thisWeek" as the page computes it: the sale's midnight against the
   * week's first day at the current time of day (`timeOfDay` milliseconds
   * after midnight).
   */
  predicate ThisWeekAsWritten(d: Date, now: Date, timeOfDay: int)
  {
    DayNumber(d) * DayMs >= WeekStart(now) * DayMs + timeOfDay
  }

  /** "lastMonth" as the page computes it, through `setMonth(getMonth() - 1)`. */
  predicate LastMonthAsWritten(d: Date, now: Date)
    requires IsValid(now)
  {
    var back := SetMonthBack(now);
    d.month == back.month && d.year == back.year
  }

  predicate Matches(s: Sale, query: string, status: string, platform: string, dateFilter: string, now: Date)
  {
    MatchesSearch(s, query)
    && (status == "all" || s.status == status)
    && (platform == "all" || s.platform == platform)
    && MatchesDate(s.date, dateFilter, now)
  }

  function RowFilter(query: string, status: string, platform: string, dateFilter: string, now: Date): Sale -> bool
  {
    (s: Sale) => Matches(s, query, status, platform, dateFilter, now)
  }

  /** The comparator: product, amount or order id, and the date for any other field. */
  function SaleOrder(sort: SortState): (Sale, Sale) -> int
  {
    if sort.field == "product" then ByText((s: Sale) => s.product, sort.direction)
    else if sort.field == "amount" then ByNumber((s: Sale) => s.amount, sort.direction)
    else if sort.field == "orderId" then ByText((s: Sale) => s.orderId, sort.direction)
    else ByNumber((s: Sale) => DayNumber(s.date), sort.direction)
  }

  /** `filteredSales`. */
  function Displayed(sales: seq<Sale>, query: string, status: string, platform: string, dateFilter: string, now: Date, sort: SortState): seq<Sale>
  {
    Sort(Filter(sales, RowFilter(query, status, platform, dateFilter, now)), SaleOrder(sort))
  }

  /** `totalSalesAmount`, in cents. */
  function Total(shown: seq<Sale>): int
  {
    Sum(shown, Amount)
  }

  function Amount(s: Sale): int
  {
    s.amount
  }

  /** A sale's amount when it passes `p`, and nothing otherwise. */
  function AmountIf(p: Sale -> bool): Sale -> int
  {
    (s: Sale) => if p(s) then s.amount else 0
  }

  // ------------------------------------------------------------ lemmas

  lemma SaleOrderIsComparator(sort: SortState)
    ensures IsComparator(SaleOrder(sort))
  {
    if sort.field == "product" {
      ByTextIsComparator((s: Sale) => s.product, sort.direction);
    } else if sort.field == "amount" {
      ByNumberIsComparator((s: Sale) => s.amount, sort.direction);
    } else if sort.field == "orderId" {
      ByTextIsComparator((s: Sale) => s.orderId, sort.direction);
    } else {
      ByNumberIsComparator((s: Sale) => DayNumber(s.date), sort.direction);
    }
  }

  /** A sale is shown exactly when it is loaded and meets every criterion. */
  lemma ShownIff(sales: seq<Sale>, query: string, status: string, platform: string, dateFilter: string, now: Date, sort: SortState, s: Sale)
    ensures s in Displayed(sales, query, status, platform, dateFilter, now, sort)
      <==> s in sales && Matches(s, query, status, platform, dateFilter, now)
  {
    var passing := Filter(sales, RowFilter(query, status, platform, dateFilter, now));
    var shown := Displayed(sales, query, status, platform, dateFilter, now, sort);
    SortPermutation(passing, SaleOrder(sort));
    assert s in shown <==> s in multiset(shown);
    assert s in passing <==> s in multiset(passing);
    if s in passing {
      var i :| 0 <= i < |passing| && passing[i] == s;
    }
    if s in sales && Matches(s, query, status, platform, dateFilter, now) {
      var i :| 0 <= i < |sales| && sales[i] == s;
    }
  }

  /** The shown list is sorted, a permutation of the passing sales, and keeps ties in load order. */
  lemma DisplayedIsSortedPassing(sales: seq<Sale>, query: string, status: string, platform: string, dateFilter: string, now: Date, sort: SortState)
    ensures var passing := Filter(sales, RowFilter(query, status, platform, dateFilter, now));
      var shown := Displayed(sales, query, status, platform, dateFilter, now, sort);
      Sorted(shown, SaleOrder(sort))
      && multiset(shown) == multiset(passing)
      && (forall k :: RankOf(shown, SaleOrder(sort), k) == RankOf(passing, SaleOrder(sort), k))
  {
    var passing := Filter(sales, RowFilter(query, status, platform, dateFilter, now));
    SaleOrderIsComparator(sort);
    SortSorted(passing, SaleOrder(sort));
    SortPermutation(passing, SaleOrder(sort));
    forall k ensures RankOf(Sort(passing, SaleOrder(sort)), SaleOrder(sort), k) == RankOf(passing, SaleOrder(sort), k) {
      SortStable(passing, SaleOrder(sort), k);
    }
  }

  /**
   * The total is the sum of the amounts of the sales meeting the criteria,
   * whatever the sort: each loaded sale contributes its amount or nothing.
   */
  lemma TotalOfShown(sales: seq<Sale>, query: string, status: string, platform: string, dateFilter: string, now: Date, sort: SortState)
    ensures Total(Displayed(sales, query, status, platform, dateFilter, now, sort))
      == Sum(sales, AmountIf(RowFilter(query, status, platform, dateFilter, now)))
  {
    var p := RowFilter(query, status, platform, dateFilter, now);
    SumSort(Filter(sales, p), SaleOrder(sort), Amount);
    SumFilter(sales, p, Amount, AmountIf(p));
  }

  /** With no criteria every sale is counted. */
  lemma NoCriteriaTotalsAll(sales: seq<Sale>, now: Date, sort: SortState)
    ensures Total(Displayed(sales, "", "all", "all", "all", now, sort)) == Total(sales)
  {
    var p := RowFilter("", "all", "all", "all", now);
    forall i | 0 <= i < |sales| ensures p(sales[i]) {
      IncludesEmpty(ToLower(sales[i].product));
    }
    FilterAllPass(sales, p);
    SumSort(sales, SaleOrder(sort), Amount);
  }

  /** "yesterday" is the day number one below today's. */
  lemma YesterdayIsPreviousDayNumber(d: Date, now: Date)
    requires IsValid(d) && IsValid(now)
    ensures MatchesDate(d, "yesterday", now) <==> DayNumber(d) == DayNumber(now) - 1
  {
    PrevDayNumber(now);
    if DayNumber(d) == DayNumber(now) - 1 {
      DayNumberInjective(d, PrevDay(now));
    }
  }

  /** "thisWeek" starts on a Sunday at most six days back, and today is always in it. */
  lemma WeekStartIsSunday(now: Date)
    ensures DayNumber(now) - 6 <= WeekStart(now) <= DayNumber(now)
    ensures (WeekStart(now) + 4) % 7 == 0
    ensures MatchesDate(now, "thisWeek", now)
  {
    var n := DayNumber(now);
    assert Weekday(now) == (n + 4) % 7;
    BackToMultiple(n + 4);
  }

  /** Going back by the remainder modulo 7 lands on a multiple of 7. */
  lemma BackToMultiple(m: int)
    ensures (m - m % 7) % 7 == 0
  {
    var q := m / 7;
    assert m - m % 7 == 7 * q;
  }

  /** In January "lastMonth" is December of the year before. */
  lemma LastMonthWrapsInJanuary(d: Date, now: Date)
    requires now.month == 0
    ensures MatchesDate(d, "lastMonth", now) <==> d.year == now.year - 1 && d.month == 11
  {
  }

  /**
   * The page's "thisWeek" agrees with the day comparison at midnight and
   * never admits more; after midnight it drops exactly the sales dated on
   * the week's first day.
   */
  lemma ThisWeekAsWrittenDropsFirstDay(d: Date, now: Date, timeOfDay: int)
    requires 0 <= timeOfDay < DayMs
    ensures ThisWeekAsWritten(d, now, timeOfDay) ==> MatchesDate(d, "thisWeek", now)
    ensures timeOfDay == 0 ==> (ThisWeekAsWritten(d, now, timeOfDay) <==> MatchesDate(d, "thisWeek", now))
    ensures DayNumber(d) > WeekStart(now) ==> ThisWeekAsWritten(d, now, timeOfDay)
    ensures timeOfDay > 0 && DayNumber(d) == WeekStart(now) ==> !ThisWeekAsWritten(d, now, timeOfDay) && MatchesDate(d, "thisWeek", now)
  {
    var n, w := DayNumber(d), WeekStart(now);
    if n > w {
      assert n * DayMs >= (w + 1) * DayMs;
    } else if n < w {
      assert n * DayMs <= (w - 1) * DayMs;
    }
  }

  /** On Sunday 2023-04-23 at 10:00 a sale made that day is not "thisWeek". */
  lemma ThisWeekSundayExample()
    ensures var sunday := Date(2023, 3, 23);
      MatchesDate(sunday, "thisWeek", sunday) && !ThisWeekAsWritten(sunday, sunday, 36000000)
  {
    var sunday := Date(2023, 3, 23);
    SeedDateWeekday();
    PrevDayWeekday(sunday);
    assert Weekday(sunday) == 0;
    ThisWeekAsWrittenDropsFirstDay(sunday, sunday, 36000000);
  }

  /**
   * The page's "lastMonth" agrees with the previous calendar month while
   * today's day number fits in that month, and otherwise selects the
   * current month.
   */
  lemma LastMonthAsWrittenRollsOver(d: Date, now: Date)
    requires IsValid(now)
    ensures var (y, m) := PrevMonth(now);
      (now.day <= DaysInMonth(y, m) ==> (LastMonthAsWritten(d, now) <==> MatchesDate(d, "lastMonth", now)))
      && (now.day > DaysInMonth(y, m) ==> (LastMonthAsWritten(d, now) <==> d.year == now.year && d.month == now.month))
  {
  }

  /** On 2023-03-31 the page's "lastMonth" shows March (rolling over from "February 31"), not February. */
  lemma LastMonthMarch31Example()
    ensures LastMonthAsWritten(Date(2023, 2, 10), Date(2023, 2, 31))
    ensures !MatchesDate(Date(2023, 2, 10), "lastMonth", Date(2023, 2, 31))
    ensures MatchesDate(Date(2023, 1, 10), "lastMonth", Date(2023, 2, 31))
  {
  }

  // ------------------------------------------------------------ the page

  class SalesPage {
    var sales: seq<Sale>
    var searchQuery: string
    var statusFilter: string
    var platformFilter: string
    var dateFilter: string
    var sort: SortState

    /** The state after the sales are loaded: no criteria, newest first. */
    constructor (loaded: seq<Sale>)
      ensures sales == loaded && searchQuery == ""
      ensures statusFilter == "all" && platformFilter == "all" && dateFilter == "all"
      ensures sort == SortState("date", Desc)
    {
      sales := loaded;
      searchQuery := "";
      statusFilter := "all";
      platformFilter := "all";
      dateFilter := "all";
      sort := SortState("date", Desc);
    }

    /** `filteredSales` on the day `now`. */
    function FilteredSales(now: Date): seq<Sale>
      reads this
    {
      Displayed(sales, searchQuery, statusFilter, platformFilter, dateFilter, now, sort)
    }

    function TotalSalesAmount(now: Date): int
      reads this
    {
      Total(FilteredSales(now))
    }

    method SetSearchQuery(q: string)
      modifies this
      ensures searchQuery == q
      ensures sales == old(sales) && statusFilter == old(statusFilter) && platformFilter == old(platformFilter)
      ensures dateFilter == old(dateFilter) && sort == old(sort)
    {
      searchQuery := q;
    }

    method SetStatusFilter(s: string)
      modifies this
      ensures statusFilter == s
      ensures sales == old(sales) && searchQuery == old(searchQuery) && platformFilter == old(platformFilter)
      ensures dateFilter == old(dateFilter) && sort == old(sort)
    {
      statusFilter := s;
    }

    method SetPlatformFilter(pl: string)
      modifies this
      ensures platformFilter == pl
      ensures sales == old(sales) && searchQuery == old(searchQuery) && statusFilter == old(statusFilter)
      ensures dateFilter == old(dateFilter) && sort == old(sort)
    {
      platformFilter := pl;
    }

    method SetDateFilter(df: string)
      modifies this
      ensures dateFilter == df
      ensures sales == old(sales) && searchQuery == old(searchQuery) && statusFilter == old(statusFilter)
      ensures platformFilter == old(platformFilter) && sort == old(sort)
    {
      dateFilter := df;
    }

    /** Re-sorting never changes the total. */
    method HandleSort(field: string)
      modifies this
      ensures sort == NextSort(old(sort), field)
      ensures forall now :: TotalSalesAmount(now) == old(TotalSalesAmount(now))
      ensures sales == old(sales) && searchQuery == old(searchQuery) && statusFilter == old(statusFilter)
      ensures platformFilter == old(platformFilter) && dateFilter == old(dateFilter)
    {
      ghost var before := sort;
      if sort.field == field {
        sort := SortState(field, Flip(sort.direction));
      } else {
        sort := SortState(field, Asc);
      }
      forall now ensures TotalSalesAmount(now) == old(TotalSalesAmount(now)) {
        TotalOfShown(sales, searchQuery, statusFilter, platformFilter, dateFilter, now, sort);
        TotalOfShown(sales, searchQuery, statusFilter, platformFilter, dateFilter, now, before);
      }
    }
  }
}
