/** The budget analytics engine of src/lib/utils/calculations.ts: totals,
    one day's spending, point-in-time statistics and the day-by-day
    breakdown of a period. */
module Calculations {
  import opened Wrappers
  import opened Models
  import opened DateUtils
  import Seqs

  /** `calculateTotalSpent`: the `reduce` over every transaction's amount,
      with no filtering by date. With no negative amounts, the total is not
      negative. */
  function TotalSpent(txs: seq<Transaction>): (r: real)
    ensures (forall i :: 0 <= i < |txs| ==> txs[i].amount >= 0.0) ==> r >= 0.0
  {
    if txs == [] then 0.0 else TotalSpent(txs[..|txs| - 1]) + txs[|txs| - 1].amount
  }

  lemma {:induction false} TotalSpentAppend(a: seq<Transaction>, b: seq<Transaction>)
    ensures TotalSpent(a + b) == TotalSpent(a) + TotalSpent(b)
    decreases |b|
  {
    if b != [] {
      var init := b[..|b| - 1];
      assert (a + b)[..|a + b| - 1] == a + init;
      TotalSpentAppend(a, init);
    } else {
      assert a + b == a;
    }
  }

  /** The total does not depend on the order of the transactions. */
  lemma {:induction false} TotalSpentOfPermutation(a: seq<Transaction>, b: seq<Transaction>)
    requires multiset(a) == multiset(b)
    ensures TotalSpent(a) == TotalSpent(b)
    decreases |a|
  {
    if a == [] {
      assert |b| == |multiset(b)| == 0;
    } else {
      var init, x := a[..|a| - 1], a[|a| - 1];
      assert a == init + [x];
      assert multiset(a) == multiset(init) + multiset{x};
      assert x in b by { assert x in multiset(b); }
      var i :| 0 <= i < |b| && b[i] == x;
      var b1, b2 := b[..i], b[i + 1..];
      assert b == b1 + [x] + b2;
      assert multiset(b) == multiset(b1 + b2) + multiset{x};
      assert multiset(init) == multiset(a) - multiset{x};
      assert multiset(b1 + b2) == multiset(b) - multiset{x};
      TotalSpentOfPermutation(init, b1 + b2);
      TotalSpentMovesLast(init, b1, b2, x);
    }
  }

  /** Appending the same transaction on one side and inserting it anywhere
      on the other side keeps two equal totals equal. */
  lemma {:induction false} TotalSpentMovesLast(init: seq<Transaction>, b1: seq<Transaction>, b2: seq<Transaction>, x: Transaction)
    requires TotalSpent(init) == TotalSpent(b1 + b2)
    ensures TotalSpent(init + [x]) == TotalSpent(b1 + [x] + b2)
  {
    TotalSpentAppend(init, [x]);
    TotalSpentAppend(b1, b2);
    TotalSpentAppend(b1 + [x], b2);
    TotalSpentAppend(b1, [x]);
    assert TotalSpent([x]) == x.amount by { assert [x][..0] == []; }
  }

  /** The complement of a criterion. */
  function Negate(p: Transaction -> bool): (q: Transaction -> bool)
    ensures forall t :: q(t) == !p(t)
  {
    t => !p(t)
  }

  /** Every transaction counts, whichever side of any criterion it falls:
      the total of a list is the total of the part satisfying `p` plus the
      total of the rest. */
  lemma {:induction false} TotalSpentSplits(txs: seq<Transaction>, p: Transaction -> bool)
    ensures TotalSpent(txs) == TotalSpent(Seqs.Filter(txs, p)) + TotalSpent(Seqs.Filter(txs, Negate(p)))
    decreases |txs|
  {
    if txs != [] {
      var init, x := txs[..|txs| - 1], txs[|txs| - 1];
      var q := Negate(p);
      assert txs == init + [x];
      Seqs.FilterAppend(init, x, p);
      Seqs.FilterAppend(init, x, q);
      TotalSpentSplits(init, p);
      assert TotalSpent([x]) == x.amount by { assert [x][..0] == []; }
      if p(x) {
        assert Seqs.Filter(txs, q) == Seqs.Filter(init, q);
        TotalSpentAppend(Seqs.Filter(init, p), [x]);
      } else {
        assert Seqs.Filter(txs, p) == Seqs.Filter(init, p);
        TotalSpentAppend(Seqs.Filter(init, q), [x]);
      }
    }
  }

  /** The closed window `calculateDailySpending` uses for `date`'s day: from
      its midnight through the next midnight, both included. */
  predicate InDayWindow(t: Transaction, date: Instant) {
    StartOfDay(date) <= t.timestamp <= StartOfDay(date) + DAY
  }

  /** The next midnight is one day after the day's own midnight. */
  lemma NextMidnight(dayStart: Instant)
    requires dayStart % DAY == 0
    ensures StartOfDay(dayStart + DAY) == dayStart + DAY
  {
    assert (dayStart + DAY) % DAY == 0;
  }

  /** The filter criterion of `calculateDailySpending`: a timestamp from
      `dayStart` through `dayEnd`, both included. */
  function Between(dayStart: Instant, dayEnd: Instant): Transaction -> bool {
    (t: Transaction) => dayStart <= t.timestamp <= dayEnd
  }

  /** The `filter` of `calculateDailySpending`: the transactions from
      `date`'s midnight through the midnight that follows it. */
  function DayTransactions(txs: seq<Transaction>, date: Instant): seq<Transaction> {
    var dayStart := StartOfDay(date);
    var dayEnd := StartOfDay(dayStart + DAY);
    Seqs.Filter(txs, Between(dayStart, dayEnd))
  }

  /** `calculateDailySpending`: the transactions inside `date`'s window,
      with their total and their count. */
  function DailySpendingOf(txs: seq<Transaction>, date: Instant): (r: DailySpending)
    ensures r.date == date
    ensures r.amount == TotalSpent(r.transactions) && r.transactionsCount == |r.transactions|
  {
    var dayTransactions := DayTransactions(txs, date);
    DailySpending(date, TotalSpent(dayTransactions), |dayTransactions|, dayTransactions)
  }

  /** The day's filter is the window from its midnight up to the next one. */
  lemma DayTransactionsFiltered(txs: seq<Transaction>, date: Instant)
    ensures DayTransactions(txs, date) == Seqs.Filter(txs, Between(StartOfDay(date), StartOfDay(date) + DAY))
  {
    NextMidnight(StartOfDay(date));
  }

  /** The transactions of a day are exactly those of the list inside the
      day's window, in the order of the list and with their multiplicity. */
  lemma {:induction false} DailySpendingSelectsDay(txs: seq<Transaction>, date: Instant)
    ensures var r := DailySpendingOf(txs, date);
            && Seqs.IsSubsequence(r.transactions, txs)
            && (forall t :: t in r.transactions <==> t in txs && InDayWindow(t, date))
            && (forall t :: multiset(r.transactions)[t] == if InDayWindow(t, date) then multiset(txs)[t] else 0)
  {
    var inDay := Between(StartOfDay(date), StartOfDay(date) + DAY);
    DayTransactionsFiltered(txs, date);
    assert forall t :: inDay(t) == InDayWindow(t, date);
    Seqs.FilterCounts(txs, inDay);
    Seqs.FilterMembers(txs, inDay);
    Seqs.FilterIsSubsequence(txs, inDay);
  }

  /** Because the window is closed at both ends, a transaction made exactly
      at midnight belongs to the day before and to the day after. */
  lemma {:induction false} MidnightCountsTwice(txs: seq<Transaction>, t: Transaction)
    requires t in txs && t.timestamp % DAY == 0
    ensures t in DailySpendingOf(txs, t.timestamp - DAY).transactions
    ensures t in DailySpendingOf(txs, t.timestamp).transactions
  {
    assert StartOfDay(t.timestamp) == t.timestamp;
    assert (t.timestamp - DAY) % DAY == 0;
    assert StartOfDay(t.timestamp - DAY) == t.timestamp - DAY;
    DailySpendingSelectsDay(txs, t.timestamp - DAY);
    DailySpendingSelectsDay(txs, t.timestamp);
  }

  /** `calculateRemainingBudget`: the budget minus everything spent, never
      below zero. */
  function RemainingBudget(budget: Budget, txs: seq<Transaction>): (r: real)
    ensures r >= 0.0 && r >= budget.totalAmount - TotalSpent(txs)
    ensures r == 0.0 || r == budget.totalAmount - TotalSpent(txs)
  {
    var totalSpent := TotalSpent(txs);
    if budget.totalAmount - totalSpent > 0.0 then budget.totalAmount - totalSpent else 0.0
  }

  /** A total spread evenly over a number of days; 0 when there are none
      (the `averageDaily` of both the statistics and the analytics). */
  function AverageOver(total: real, days: int): (r: real)
    ensures days <= 0 ==> r == 0.0
    ensures days > 0 ==> r * days as real == total
  {
    if days > 0 then total / days as real else 0.0
  }

  /** `part` as a percentage of `whole`. */
  function PercentageOf(part: real, whole: real): (r: real)
    requires whole != 0.0
    ensures r * whole == part * 100.0
    ensures whole > 0.0 ==> (r > 100.0 <==> part > whole)
  {
    (part / whole) * 100.0
  }

  /** `calculateBudgetStats` at the moment `now`. `percentageUsed` divides
      by the budget amount, so the amount must not be zero. */
  function BudgetStatsOf(budget: Budget, txs: seq<Transaction>, now: Instant): (r: BudgetStats)
    requires budget.totalAmount != 0.0
    ensures r.budgetId == budget.id && r.totalBudget == budget.totalAmount
    ensures r.totalSpent == TotalSpent(txs)
    ensures r.remaining == RemainingBudget(budget, txs)
    ensures r.daysTotal == TotalDays(budget.startDate, budget.endDate)
    ensures r.daysElapsed == DaysElapsed(budget.startDate, budget.endDate, now) && r.daysElapsed <= r.daysTotal
    ensures r.daysRemaining == DaysRemaining(budget.startDate, budget.endDate, now)
    ensures r.dailyBudget == DailyBudget(r.totalBudget, r.totalSpent, r.daysRemaining)
    ensures r.averageDaily == AverageOver(r.totalSpent, r.daysElapsed)
    ensures r.projectedTotal == ProjectAcross(r.averageDaily, r.daysTotal)
    ensures r.percentageUsed == PercentageOf(r.totalSpent, r.totalBudget)
    ensures r.isOverBudget <==> r.totalSpent > r.totalBudget
  {
    var totalSpent := TotalSpent(txs);
    var remaining := if budget.totalAmount - totalSpent > 0.0 then budget.totalAmount - totalSpent else 0.0;
    var daysTotal := TotalDays(budget.startDate, budget.endDate);
    var daysElapsed := DaysElapsed(budget.startDate, budget.endDate, now);
    var daysRemaining := DaysRemaining(budget.startDate, budget.endDate, now);
    var dailyBudget := DailyBudget(budget.totalAmount, totalSpent, daysRemaining);
    var averageDaily := AverageOver(totalSpent, daysElapsed);
    var projectedTotal := ProjectAcross(averageDaily, daysTotal);
    var percentageUsed := PercentageOf(totalSpent, budget.totalAmount);
    var isOverBudget := totalSpent > budget.totalAmount;
    BudgetStats(budget.id, budget.totalAmount, totalSpent, remaining, daysTotal, daysElapsed,
                daysRemaining, dailyBudget, averageDaily, isOverBudget, projectedTotal, percentageUsed)
  }

  /** The spending per elapsed day, carried over `days` days, scaled back
      by the elapsed days gives `spent` scaled by `days`; before any day
      has elapsed the projection is 0. */
  predicate ExtrapolatesPace(projected: real, spent: real, elapsed: int, days: int) {
    && (elapsed <= 0 ==> projected == 0.0)
    && (elapsed > 0 ==> projected * elapsed as real == spent * days as real)
  }

  /** A daily amount carried over a number of days. */
  function ProjectAcross(averageDaily: real, days: int): real {
    averageDaily * days as real
  }

  lemma PaceProjection(spent: real, elapsed: int, days: int)
    ensures ExtrapolatesPace(ProjectAcross(AverageOver(spent, elapsed), days), spent, elapsed, days)
  {
    if elapsed > 0 {
      var average := AverageOver(spent, elapsed);
      calc {
        (average * days as real) * elapsed as real;
        (average * elapsed as real) * days as real;
        spent * days as real;
      }
    }
  }

  /** `projectedTotal` continues the pace so far over the whole period. */
  lemma {:induction false} ProjectedTotalAtPace(budget: Budget, txs: seq<Transaction>, now: Instant)
    requires budget.totalAmount != 0.0
    ensures var s := BudgetStatsOf(budget, txs, now);
            ExtrapolatesPace(s.projectedTotal, s.totalSpent, s.daysElapsed, s.daysTotal)
  {
    var s := BudgetStatsOf(budget, txs, now);
    PaceProjection(s.totalSpent, s.daysElapsed, s.daysTotal);
  }

  /** Whether the budget is exceeded depends on the amounts alone, not on
      the moment the statistics are taken. */
  lemma OverBudgetIgnoresDates(budget: Budget, txs: seq<Transaction>, now1: Instant, now2: Instant)
    requires budget.totalAmount != 0.0
    ensures BudgetStatsOf(budget, txs, now1).isOverBudget == BudgetStatsOf(budget, txs, now2).isOverBudget
  {
  }

  /** Ten-day budget of 3000 from 1 to 10 January 2024 (UTC), viewed at
      noon on 5 January after spending 1000. */
  lemma {:induction false} ScenarioMidPeriod(txs: seq<Transaction>)
    requires TotalSpent(txs) == 1000.0
    ensures var b := Budget("b", 3000.0, 1704067200000, 1704844800000, "INR", 1, 0, 0);
            var s := BudgetStatsOf(b, txs, 1704456000000);
            s.daysTotal == 10 && s.daysElapsed == 5 && s.daysRemaining == 6
            && s.remaining == 2000.0 && s.dailyBudget == 2000.0 / 6.0
  {
    var start, end, now := 1704067200000, 1704844800000, 1704456000000;
    assert DayNumber(start) == 19723 && DayNumber(end) == 19732 && DayNumber(now) == 19727;
    TotalDaysOfMidnights(start, end);
    DaysRemainingUntilEnd(start, end, now);
    assert DaysElapsed(start, end, now) == 5;
  }

  /** A one-day budget of 100 with 40 spent that day leaves 60 for today. */
  lemma {:induction false} ScenarioSingleDay(day: Instant, t: Transaction)
    requires day % DAY == 0 && t.amount == 40.0
    ensures var b := Budget("b", 100.0, day, day, "INR", 1, 0, 0);
            var s := BudgetStatsOf(b, [t], day + 1);
            s.daysTotal == 1 && s.daysRemaining == 1 && s.dailyBudget == 60.0
  {
    assert TotalSpent([t]) == 40.0 by { assert [t][..0] == []; }
    assert StartOfDay(day + 1) == day;
    DaysRemainingUntilEnd(day, day, day + 1);
  }

  /** With no transactions nothing is spent, nothing is projected and the
      whole budget remains. */
  lemma ScenarioNoTransactions(budget: Budget, now: Instant)
    requires budget.totalAmount > 0.0
    ensures var s := BudgetStatsOf(budget, [], now);
            s.totalSpent == 0.0 && s.remaining == budget.totalAmount
            && s.averageDaily == 0.0 && s.projectedTotal == 0.0 && !s.isOverBudget
  {
  }

  /** The spending of each of `dates`, in order. */
  function Breakdown(txs: seq<Transaction>, dates: seq<Instant>): (r: seq<DailySpending>)
    ensures |r| == |dates|
  {
    if dates == [] then [] else Breakdown(txs, dates[..|dates| - 1]) + [DailySpendingOf(txs, dates[|dates| - 1])]
  }

  /** Entry `k` of a breakdown is the spending of the `k`-th date. */
  lemma {:induction false} BreakdownAt(txs: seq<Transaction>, dates: seq<Instant>, k: int)
    requires 0 <= k < |dates|
    ensures Breakdown(txs, dates)[k] == DailySpendingOf(txs, dates[k])
  {
    if k < |dates| - 1 {
      BreakdownAt(txs, dates[..|dates| - 1], k);
    }
  }

  /** The sum of the day amounts of a breakdown, accumulated in order. */
  function SumDays(days: seq<DailySpending>): real {
    if days == [] then 0.0 else SumDays(days[..|days| - 1]) + days[|days| - 1].amount
  }

  /** The number of days of a breakdown with a positive amount. */
  function CountSpendingDays(days: seq<DailySpending>): (r: nat)
    ensures r <= |days|
  {
    if days == [] then 0
    else CountSpendingDays(days[..|days| - 1]) + (if days[|days| - 1].amount > 0.0 then 1 else 0)
  }

  /** Day `i` has the largest amount, that amount is positive, and every
      earlier day has strictly less (the first such day wins a tie). */
  ghost predicate HighestAt(days: seq<DailySpending>, i: int) {
    && 0 <= i < |days|
    && days[i].amount > 0.0
    && (forall j :: 0 <= j < |days| ==> days[j].amount <= days[i].amount)
    && (forall j :: 0 <= j < i ==> days[j].amount < days[i].amount)
  }

  /** Day `i` has the smallest positive amount, and every earlier day with
      a positive amount has strictly more. */
  ghost predicate LowestAt(days: seq<DailySpending>, i: int) {
    && 0 <= i < |days|
    && days[i].amount > 0.0
    && (forall j :: 0 <= j < |days| && days[j].amount > 0.0 ==> days[i].amount <= days[j].amount)
    && (forall j :: 0 <= j < i && days[j].amount > 0.0 ==> days[i].amount < days[j].amount)
  }

  /** `highestDay`: null when no day has spending, otherwise the first day
      with the largest amount. */
  ghost predicate IsHighestDay(days: seq<DailySpending>, h: Option<DailySpending>) {
    match h
    case None => forall j :: 0 <= j < |days| ==> days[j].amount <= 0.0
    case Some(d) => exists i :: HighestAt(days, i) && days[i] == d
  }

  /** `lowestDay`: null when no day has spending, otherwise the first day
      with the smallest positive amount. */
  ghost predicate IsLowestDay(days: seq<DailySpending>, l: Option<DailySpending>) {
    match l
    case None => forall j :: 0 <= j < |days| ==> days[j].amount <= 0.0
    case Some(d) => exists i :: LowestAt(days, i) && days[i] == d
  }

  /** What the loop of `calculatePeriodAnalytics` knows about `highestDay`
      after the days so far: null while no day had spending, otherwise the
      day at index `hi`, which is the highest. */
  ghost predicate HighestTracked(days: seq<DailySpending>, h: Option<DailySpending>, hi: int) {
    match h
    case None => forall j :: 0 <= j < |days| ==> days[j].amount <= 0.0
    case Some(d) => HighestAt(days, hi) && days[hi] == d
  }

  /** The same for `lowestDay` and the index `lo`. */
  ghost predicate LowestTracked(days: seq<DailySpending>, l: Option<DailySpending>, lo: int) {
    match l
    case None => forall j :: 0 <= j < |days| ==> days[j].amount <= 0.0
    case Some(d) => LowestAt(days, lo) && days[lo] == d
  }

  /** One step of the loop keeps `highestDay` tracked: a new day replaces it
      only when it has spending and strictly more than the current one. */
  lemma HighestStep(days: seq<DailySpending>, d: DailySpending, h: Option<DailySpending>, hi: int)
    requires HighestTracked(days, h, hi)
    ensures var replace := d.amount > 0.0 && (h.None? || d.amount > h.value.amount);
            HighestTracked(days + [d], if replace then Some(d) else h, if replace then |days| else hi)
  {
    var days' := days + [d];
    assert forall j :: 0 <= j < |days| ==> days'[j] == days[j];
  }

  /** One step of the loop keeps `lowestDay` tracked: a new day replaces it
      only when it has spending and strictly less than the current one. */
  lemma LowestStep(days: seq<DailySpending>, d: DailySpending, l: Option<DailySpending>, lo: int)
    requires LowestTracked(days, l, lo)
    ensures var replace := d.amount > 0.0 && (l.None? || d.amount < l.value.amount);
            LowestTracked(days + [d], if replace then Some(d) else l, if replace then |days| else lo)
  {
    var days' := days + [d];
    assert forall j :: 0 <= j < |days| ==> days'[j] == days[j];
  }

  /** The running figures of the loop of `calculatePeriodAnalytics`. */
  datatype Tally = Tally(
    totalSpent: real,
    highestDay: Option<DailySpending>,
    lowestDay: Option<DailySpending>,
    daysWithoutSpending: nat,
    daysWithSpending: nat)

  /** What the loop body does with one day: add its amount, and count it as
      a day with or without spending; a day with spending replaces the
      highest day when strictly higher and the lowest day when strictly
      lower (or when there is none yet). */
  function RecordDay(t: Tally, d: DailySpending): Tally {
    if d.amount > 0.0 then
      Tally(t.totalSpent + d.amount,
            if t.highestDay.None? || d.amount > t.highestDay.value.amount then Some(d) else t.highestDay,
            if t.lowestDay.None? || d.amount < t.lowestDay.value.amount then Some(d) else t.lowestDay,
            t.daysWithoutSpending, t.daysWithSpending + 1)
    else
      Tally(t.totalSpent + d.amount, t.highestDay, t.lowestDay, t.daysWithoutSpending + 1, t.daysWithSpending)
  }

  /** The figures after the loop has run over `days`, in order. */
  function TallyDays(days: seq<DailySpending>): Tally {
    if days == [] then Tally(0.0, None, None, 0, 0)
    else RecordDay(TallyDays(days[..|days| - 1]), days[|days| - 1])
  }

  /** The body of the `forEach` callback of `calculatePeriodAnalytics`
      after the day's entry is pushed: it updates the running figures as
      `RecordDay` says. */
  method AccumulateDay(dailySpending: DailySpending, totalSpent: real, highestDay: Option<DailySpending>,
                       lowestDay: Option<DailySpending>, daysWithoutSpending: nat, daysWithSpending: nat)
    returns (totalSpent': real, highestDay': Option<DailySpending>, lowestDay': Option<DailySpending>,
             daysWithoutSpending': nat, daysWithSpending': nat)
    ensures Tally(totalSpent', highestDay', lowestDay', daysWithoutSpending', daysWithSpending')
            == RecordDay(Tally(totalSpent, highestDay, lowestDay, daysWithoutSpending, daysWithSpending), dailySpending)
  {
    totalSpent', highestDay', lowestDay' := totalSpent + dailySpending.amount, highestDay, lowestDay;
    daysWithoutSpending', daysWithSpending' := daysWithoutSpending, daysWithSpending;

    if dailySpending.amount > 0.0 {
      daysWithSpending' := daysWithSpending' + 1;
      if highestDay'.None? || dailySpending.amount > highestDay'.value.amount {
        highestDay' := Some(dailySpending);
      }
      if lowestDay'.None? || dailySpending.amount < lowestDay'.value.amount {
        lowestDay' := Some(dailySpending);
      }
    } else {
      daysWithoutSpending' := daysWithoutSpending' + 1;
    }
  }

  /** `calculatePeriodAnalytics` at the moment `now`: one entry per day from
      the budget's start date through today, the figures the loop
      accumulates over them, and the average over the days with spending.
      The date range needs a start no later than `now`. */
  method CalculatePeriodAnalytics(budget: Budget, txs: seq<Transaction>, now: Instant) returns (r: PeriodAnalytics)
    requires budget.startDate <= now
    ensures r.budgetId == budget.id && r.startDate == budget.startDate && r.endDate == budget.endDate
    ensures r.dailyBreakdown == Breakdown(txs, DateRange(budget.startDate, now))
    ensures Tally(r.totalSpent, r.highestDay, r.lowestDay, r.daysWithoutSpending, r.daysWithSpending)
            == TallyDays(r.dailyBreakdown)
    ensures r.averageDaily == AverageOver(r.totalSpent, r.daysWithSpending)
  {
    var dailyBreakdown: seq<DailySpending> := [];
    var dateRange := DateRange(budget.startDate, now);
    var highestDay: Option<DailySpending> := None;
    var lowestDay: Option<DailySpending> := None;
    var daysWithoutSpending := 0;
    var daysWithSpending := 0;
    var totalSpent := 0.0;

    for i := 0 to |dateRange|
      invariant dailyBreakdown == Breakdown(txs, dateRange[..i])
      invariant Tally(totalSpent, highestDay, lowestDay, daysWithoutSpending, daysWithSpending)
                == TallyDays(dailyBreakdown)
    {
      var dailySpending := DailySpendingOf(txs, dateRange[i]);
      ghost var before := dailyBreakdown;
      dailyBreakdown := dailyBreakdown + [dailySpending];
      assert dailyBreakdown[..|dailyBreakdown| - 1] == before;
      assert dateRange[..i + 1][..i] == dateRange[..i];
      totalSpent, highestDay, lowestDay, daysWithoutSpending, daysWithSpending :=
        AccumulateDay(dailySpending, totalSpent, highestDay, lowestDay, daysWithoutSpending, daysWithSpending);
    }

    assert dateRange[..|dateRange|] == dateRange;
    var averageDaily := AverageOver(totalSpent, daysWithSpending);
    r := PeriodAnalytics(budget.id, budget.startDate, budget.endDate, dailyBreakdown, totalSpent,
                         averageDaily, highestDay, lowestDay, daysWithoutSpending, daysWithSpending);
  }

  /** The loop's total is the sum of the day amounts, its count of days
      with spending is the number of days with a positive amount, and the
      two counts cover every day. */
  lemma {:induction false} TallyCounts(days: seq<DailySpending>)
    ensures TallyDays(days).totalSpent == SumDays(days)
    ensures TallyDays(days).daysWithSpending == CountSpendingDays(days)
    ensures TallyDays(days).daysWithSpending + TallyDays(days).daysWithoutSpending == |days|
  {
    if days != [] {
      TallyCounts(days[..|days| - 1]);
    }
  }

  lemma {:induction false} TallyTracksHighest(days: seq<DailySpending>) returns (hi: int)
    ensures HighestTracked(days, TallyDays(days).highestDay, hi)
  {
    if days == [] {
      hi := 0;
    } else {
      var init, d := days[..|days| - 1], days[|days| - 1];
      assert days == init + [d];
      var h := TallyTracksHighest(init);
      var prev := TallyDays(init).highestDay;
      HighestStep(init, d, prev, h);
      hi := if d.amount > 0.0 && (prev.None? || d.amount > prev.value.amount) then |init| else h;
    }
  }

  lemma {:induction false} TallyTracksLowest(days: seq<DailySpending>) returns (lo: int)
    ensures LowestTracked(days, TallyDays(days).lowestDay, lo)
  {
    if days == [] {
      lo := 0;
    } else {
      var init, d := days[..|days| - 1], days[|days| - 1];
      assert days == init + [d];
      var l := TallyTracksLowest(init);
      var prev := TallyDays(init).lowestDay;
      LowestStep(init, d, prev, l);
      lo := if d.amount > 0.0 && (prev.None? || d.amount < prev.value.amount) then |init| else l;
    }
  }

  /** The loop leaves in `highestDay` the first day with the largest
      positive amount and in `lowestDay` the first day with the smallest
      positive amount, or null in both when no day has spending. */
  lemma {:induction false} TallyExtremes(days: seq<DailySpending>)
    ensures IsHighestDay(days, TallyDays(days).highestDay)
    ensures IsLowestDay(days, TallyDays(days).lowestDay)
  {
    var hi := TallyTracksHighest(days);
    var lo := TallyTracksLowest(days);
  }

  /** The highest day is determined uniquely by the breakdown. */
  lemma HighestDayUnique(days: seq<DailySpending>, h1: Option<DailySpending>, h2: Option<DailySpending>)
    requires IsHighestDay(days, h1) && IsHighestDay(days, h2)
    ensures h1 == h2
  {
    if h1.Some? && h2.Some? {
      var i :| HighestAt(days, i) && days[i] == h1.value;
      var j :| HighestAt(days, j) && days[j] == h2.value;
      assert i == j;
    }
  }

  /** The lowest day is determined uniquely by the breakdown. */
  lemma LowestDayUnique(days: seq<DailySpending>, l1: Option<DailySpending>, l2: Option<DailySpending>)
    requires IsLowestDay(days, l1) && IsLowestDay(days, l2)
    ensures l1 == l2
  {
    if l1.Some? && l2.Some? {
      var i :| LowestAt(days, i) && days[i] == l1.value;
      var j :| LowestAt(days, j) && days[j] == l2.value;
      assert i == j;
    }
  }

  lemma HighestNoneIff(days: seq<DailySpending>, h: Option<DailySpending>)
    requires IsHighestDay(days, h)
    ensures h.None? <==> forall j :: 0 <= j < |days| ==> days[j].amount <= 0.0
  {
    if h.Some? {
      var i :| HighestAt(days, i) && days[i] == h.value;
      assert days[i].amount > 0.0;
    }
  }

  lemma LowestNoneIff(days: seq<DailySpending>, l: Option<DailySpending>)
    requires IsLowestDay(days, l)
    ensures l.None? <==> forall j :: 0 <= j < |days| ==> days[j].amount <= 0.0
  {
    if l.Some? {
      var i :| LowestAt(days, i) && days[i] == l.value;
      assert days[i].amount > 0.0;
    }
  }

  /** Both extremes are null together, exactly when no day has spending;
      otherwise the highest amount is at least the lowest, which is
      positive. */
  lemma {:induction false} HighestAndLowestAgree(days: seq<DailySpending>, h: Option<DailySpending>, l: Option<DailySpending>)
    requires IsHighestDay(days, h) && IsLowestDay(days, l)
    ensures h.None? <==> l.None?
    ensures h.None? <==> CountSpendingDays(days) == 0
    ensures h.Some? && l.Some? ==> h.value.amount >= l.value.amount > 0.0
  {
    NoSpendingDays(days);
    HighestNoneIff(days, h);
    LowestNoneIff(days, l);
    if h.Some? && l.Some? {
      var i :| HighestAt(days, i) && days[i] == h.value;
      var j :| LowestAt(days, j) && days[j] == l.value;
      assert days[j].amount <= days[i].amount;
    }
  }

  /** No day has spending exactly when the count of spending days is 0. */
  lemma {:induction false} NoSpendingDays(days: seq<DailySpending>)
    ensures CountSpendingDays(days) == 0 <==> forall j :: 0 <= j < |days| ==> days[j].amount <= 0.0
  {
    if days != [] {
      var init := days[..|days| - 1];
      NoSpendingDays(init);
      assert forall j :: 0 <= j < |init| ==> init[j] == days[j];
    }
  }

  /** With no transactions, every day of the breakdown is a day without
      spending, and both extremes are null. */
  lemma {:induction false} NoTransactionsNoExtremes(days: seq<DailySpending>, dates: seq<Instant>,
                                                     h: Option<DailySpending>, l: Option<DailySpending>)
    requires |days| == |dates| && forall k :: 0 <= k < |dates| ==> days[k] == DailySpendingOf([], dates[k])
    requires IsHighestDay(days, h) && IsLowestDay(days, l)
    ensures CountSpendingDays(days) == 0 && SumDays(days) == 0.0
    ensures h == None && l == None
  {
    NoSpendingDays(days);
    ZeroDaysSumToZero(days);
  }

  lemma {:induction false} ZeroDaysSumToZero(days: seq<DailySpending>)
    requires forall j :: 0 <= j < |days| ==> days[j].amount == 0.0
    ensures SumDays(days) == 0.0
  {
    if days != [] {
      ZeroDaysSumToZero(days[..|days| - 1]);
    }
  }
}
