/** `analyzeSpendingContext`: the week-to-date statistics computed from the
    expense list. The reference instant is split into the two values the
    code derives from it: `weekStart`, the instant of the week's first
    midnight, and `weekday`, the reference day's `getDay()` index. */
module Aggregation {
  import opened Expenses

  /** A `getDay()` result: 0 for Sunday up to 6 for Saturday. */
  type Weekday = d: int | 0 <= d < 7

  /** `a` is `b` with some elements left out, the rest in their order. */
  predicate IsSubsequence<T(==)>(a: seq<T>, b: seq<T>)
    decreases |b|
  {
    || a == []
    || (b != [] && ((a[0] == b[0] && IsSubsequence(a[1..], b[1..])) || IsSubsequence(a, b[1..])))
  }

  /** The expenses dated on or after `weekStart`, in list order. */
  function OnOrAfter(es: seq<Expense>, weekStart: int): (r: seq<Expense>)
    ensures |r| <= |es|
    ensures forall i :: 0 <= i < |r| ==> r[i].timestamp >= weekStart
    ensures forall e :: e in r ==> e in es
  {
    if es == [] then []
    else if es[0].timestamp >= weekStart then [es[0]] + OnOrAfter(es[1..], weekStart)
    else OnOrAfter(es[1..], weekStart)
  }

  /** The expenses of category `category`, in list order. */
  function OfCategory(es: seq<Expense>, category: string): (r: seq<Expense>)
    ensures |r| <= |es|
    ensures forall i :: 0 <= i < |r| ==> r[i].category == category
    ensures forall e :: e in r ==> e in es
  {
    if es == [] then []
    else if es[0].category == category then [es[0]] + OfCategory(es[1..], category)
    else OfCategory(es[1..], category)
  }

  /** The sum of the amounts, as `reduce((sum, e) => sum + e.amount, 0)`. */
  function Total(es: seq<Expense>): (t: int)
    ensures AllPositive(es) ==> t >= |es|
  {
    if es == [] then 0 else es[0].amount + Total(es[1..])
  }

  /** The divisor `now.getDay() || 7`: Sunday counts as day 7 of the week,
      so the projection never divides by zero. */
  function Divisor(weekday: Weekday): (d: int)
    ensures 1 <= d <= 7
    ensures weekday != 0 ==> d == weekday
    ensures weekday == 0 ==> d == 7
  {
    if weekday == 0 then 7 else weekday
  }

  /** The projection as app.js computes it, `(weekTotal / (now.getDay() ||
      7)) * 30`. The week it averages over starts on Sunday, but the divisor
      counts Sunday as the seventh day, so it is never the number of days
      the week has run (see `ProjectionAsWrittenMisses`). */
  function ProjectionAsWritten(weekTotal: int, weekday: Weekday): real {
    weekTotal as real / Divisor(weekday) as real * 30.0
  }

  /** The days from the Sunday that starts the week through the reference
      day, both included: 1 on Sunday, 7 on Saturday. */
  function DaysElapsed(weekday: Weekday): (n: int)
    ensures 1 <= n <= 7
  {
    weekday + 1
  }

  /** The projection the code evidently intends: the week's spending per
      elapsed day, times thirty. */
  function MonthlyProjection(weekTotal: int, weekday: Weekday): real {
    weekTotal as real / DaysElapsed(weekday) as real * 30.0
  }

  /** What `analyzeSpendingContext` returns. */
  datatype Context = Context(
    categoryCount: nat,
    coffeeCount: nat,
    weekTotal: int,
    categoryTotal: int,
    monthlyProjection: real,
    transactionCount: nat)

  /** The week-to-date statistics for an expense of category `category`:
      counts and totals over this week's expenses, and the linear monthly
      projection `weekTotal / (getDay() || 7) * 30` exactly as the code
      computes it. */
  function AnalyzeSpendingContext(es: seq<Expense>, category: string, weekStart: int, weekday: Weekday)
    : (c: Context)
    ensures c.transactionCount == |OnOrAfter(es, weekStart)| <= |es|
    ensures c.weekTotal == Total(OnOrAfter(es, weekStart))
    ensures c.categoryCount <= c.transactionCount && c.coffeeCount <= c.transactionCount
    ensures category == Coffee ==> c.categoryCount == c.coffeeCount
    ensures AllPositive(es) ==> 0 <= c.categoryTotal <= c.weekTotal
    ensures AllPositive(es) ==> (c.weekTotal == 0 <==> c.transactionCount == 0)
    ensures c.monthlyProjection == c.weekTotal as real / Divisor(weekday) as real * 30.0
  {
    var week := OnOrAfter(es, weekStart);
    var inCategory := OfCategory(week, category);
    OfCategoryIsSubsequence(week, category);
    assert AllPositive(es) ==>
      && 0 <= Total(inCategory) <= Total(week)
      && (Total(week) == 0 <==> week == [])
    by {
      if AllPositive(es) {
        SubsequenceTotal(inCategory, week);
        TotalPositive(week);
        TotalPositive(inCategory);
      }
    }
    Context(
      |inCategory|,
      |OfCategory(week, Coffee)|,
      Total(week),
      Total(inCategory),
      ProjectionAsWritten(Total(week), weekday),
      |week|)
  }

  /** With positive amounts a total is positive unless the list is empty. */
  lemma {:induction false} TotalPositive(es: seq<Expense>)
    requires AllPositive(es)
    ensures Total(es) >= 0
    ensures Total(es) == 0 <==> es == []
  {
    if es != [] {
      assert es[0] in es;
      assert AllPositive(es[1..]) by {
        forall e | e in es[1..] ensures e in es { }
      }
      TotalPositive(es[1..]);
    }
  }

  /** Leaving expenses out never raises a total of positive amounts. */
  lemma {:induction false} SubsequenceTotal(a: seq<Expense>, b: seq<Expense>)
    requires IsSubsequence(a, b) && AllPositive(b)
    ensures Total(a) <= Total(b)
    decreases |b|
  {
    if a == [] {
      TotalPositive(b);
    } else {
      assert b[0] in b;
      assert AllPositive(b[1..]) by {
        forall e | e in b[1..] ensures e in b { }
      }
      if a[0] == b[0] && IsSubsequence(a[1..], b[1..]) {
        SubsequenceTotal(a[1..], b[1..]);
      } else {
        SubsequenceTotal(a, b[1..]);
      }
    }
  }

  /** The week's expenses are a subsequence of the list. */
  lemma {:induction false} OnOrAfterIsSubsequence(es: seq<Expense>, weekStart: int)
    ensures IsSubsequence(OnOrAfter(es, weekStart), es)
  {
    if es != [] {
      OnOrAfterIsSubsequence(es[1..], weekStart);
      var r := OnOrAfter(es, weekStart);
      if es[0].timestamp >= weekStart {
        assert r[0] == es[0] && r[1..] == OnOrAfter(es[1..], weekStart);
      }
    }
  }

  /** The expenses of one category are a subsequence of the list. */
  lemma {:induction false} OfCategoryIsSubsequence(es: seq<Expense>, category: string)
    ensures IsSubsequence(OfCategory(es, category), es)
  {
    if es != [] {
      OfCategoryIsSubsequence(es[1..], category);
      var r := OfCategory(es, category);
      if es[0].category == category {
        assert r[0] == es[0] && r[1..] == OfCategory(es[1..], category);
      }
    }
  }

  /** The week's expenses are exactly those dated on or after `weekStart`:
      each such record occurs as often as in the whole list, every other
      record not at all. */
  lemma {:induction false} OnOrAfterOccurrences(es: seq<Expense>, weekStart: int, x: Expense)
    ensures multiset(OnOrAfter(es, weekStart))[x]
         == if x.timestamp >= weekStart then multiset(es)[x] else 0
  {
    if es != [] {
      OnOrAfterOccurrences(es[1..], weekStart, x);
      assert es == [es[0]] + es[1..];
      assert multiset(es) == multiset([es[0]]) + multiset(es[1..]);
    }
  }

  /** The category filter keeps exactly the records of that category: each
      occurs as often as in the whole list, every other record not at all. */
  lemma {:induction false} OfCategoryOccurrences(es: seq<Expense>, category: string, x: Expense)
    ensures multiset(OfCategory(es, category))[x]
         == if x.category == category then multiset(es)[x] else 0
  {
    if es != [] {
      OfCategoryOccurrences(es[1..], category, x);
      assert es == [es[0]] + es[1..];
      assert multiset(es) == multiset([es[0]]) + multiset(es[1..]);
    }
  }

  /** On a newest-first list the week's expenses are a prefix of it: the
      records older than `weekStart` all come after them. */
  lemma {:induction false} NewestFirstWeekIsPrefix(es: seq<Expense>, weekStart: int)
    requires NewestFirst(es)
    ensures OnOrAfter(es, weekStart) == es[..|OnOrAfter(es, weekStart)|]
  {
    if es != [] {
      assert NewestFirst(es[1..]) by {
        forall i, j | 0 <= i < j < |es[1..]| ensures es[1..][i].timestamp >= es[1..][j].timestamp {
          assert es[1..][i] == es[i + 1] && es[1..][j] == es[j + 1];
        }
      }
      NewestFirstWeekIsPrefix(es[1..], weekStart);
      if es[0].timestamp < weekStart {
        OnOrAfterNone(es[1..], weekStart);
      }
    }
  }

  /** On a newest-first list whose head predates `weekStart`, no record is
      in the week. */
  lemma {:induction false} OnOrAfterNone(es: seq<Expense>, weekStart: int)
    requires forall i :: 0 <= i < |es| ==> es[i].timestamp < weekStart
    ensures OnOrAfter(es, weekStart) == []
  {
    if es != [] {
      OnOrAfterNone(es[1..], weekStart);
    }
  }

  /** Logging an expense dated in the current week adds one transaction and
      its amount to the week, one to the coffee count when it is coffee, and
      one and its amount to its own category; an older record changes
      nothing. */
  lemma PrependedExpense(e: Expense, es: seq<Expense>, category: string, weekStart: int, weekday: Weekday)
    ensures var before := AnalyzeSpendingContext(es, category, weekStart, weekday);
      var after := AnalyzeSpendingContext([e] + es, category, weekStart, weekday);
      if e.timestamp >= weekStart then
        && after.transactionCount == before.transactionCount + 1
        && after.weekTotal == before.weekTotal + e.amount
        && after.coffeeCount == before.coffeeCount + (if e.category == Coffee then 1 else 0)
        && after.categoryCount == before.categoryCount + (if e.category == category then 1 else 0)
        && after.categoryTotal == before.categoryTotal + (if e.category == category then e.amount else 0)
      else after == before
  {
    var es' := [e] + es;
    assert es'[0] == e && es'[1..] == es;
    var week := OnOrAfter(es, weekStart);
    if e.timestamp >= weekStart {
      var week' := [e] + week;
      assert OnOrAfter(es', weekStart) == week';
      assert week'[0] == e && week'[1..] == week;
    }
  }

  /** The projection is the week's daily average times thirty: multiplied
      back by the days elapsed it gives thirty times the total. For a
      non-negative total it lies between thirty sevenths of the total (on
      Saturday, a full week) and thirty times the total (on Sunday, one
      day). */
  lemma ProjectionBounds(weekTotal: int, weekday: Weekday)
    ensures var p := MonthlyProjection(weekTotal, weekday);
      && p * DaysElapsed(weekday) as real == weekTotal as real * 30.0
      && (weekTotal >= 0 ==> weekTotal as real * 30.0 / 7.0 <= p <= weekTotal as real * 30.0)
      && (weekday == 0 ==> p == weekTotal as real * 30.0)
      && (weekday == 6 ==> p == weekTotal as real * 30.0 / 7.0)
  {
    var t := weekTotal as real;
    var p := MonthlyProjection(weekTotal, weekday);
    if weekday == 0 {
      assert p == t / 1.0 * 30.0;
    } else if weekday == 1 {
      assert p == t / 2.0 * 30.0;
    } else if weekday == 2 {
      assert p == t / 3.0 * 30.0;
    } else if weekday == 3 {
      assert p == t / 4.0 * 30.0;
    } else if weekday == 4 {
      assert p == t / 5.0 * 30.0;
    } else if weekday == 5 {
      assert p == t / 6.0 * 30.0;
    } else {
      assert p == t / 7.0 * 30.0;
    }
  }

  /** The projection as written, which the statistics carry: multiplied
      back by the divisor it gives thirty times the total, and for a
      non-negative total it lies between thirty sevenths of the total (on
      Sunday, divisor 7) and thirty times the total (on Monday, divisor 1). */
  lemma ProjectionAsWrittenBounds(weekTotal: int, weekday: Weekday)
    ensures var p := ProjectionAsWritten(weekTotal, weekday);
      && p * Divisor(weekday) as real == weekTotal as real * 30.0
      && (weekTotal >= 0 ==> weekTotal as real * 30.0 / 7.0 <= p <= weekTotal as real * 30.0)
      && (weekday == 0 ==> p == weekTotal as real * 30.0 / 7.0)
      && (weekday == 1 ==> p == weekTotal as real * 30.0)
  {
    var t := weekTotal as real;
    var p := ProjectionAsWritten(weekTotal, weekday);
    if weekday == 0 {
      assert p == t / 7.0 * 30.0;
    } else if weekday == 1 {
      assert p == t / 1.0 * 30.0;
    } else if weekday == 2 {
      assert p == t / 2.0 * 30.0;
    } else if weekday == 3 {
      assert p == t / 3.0 * 30.0;
    } else if weekday == 4 {
      assert p == t / 4.0 * 30.0;
    } else if weekday == 5 {
      assert p == t / 5.0 * 30.0;
    } else {
      assert p == t / 6.0 * 30.0;
    }
  }

  /** The projection as written agrees with the daily rate only for an
      empty week: on no day is `getDay() || 7` the number of days since
      Sunday's `weekStart`. */
  lemma ProjectionAsWrittenMisses(weekTotal: int, weekday: Weekday)
    ensures ProjectionAsWritten(weekTotal, weekday) == MonthlyProjection(weekTotal, weekday) <==> weekTotal == 0
  {
    var t := weekTotal as real;
    var w := ProjectionAsWritten(weekTotal, weekday);
    var p := MonthlyProjection(weekTotal, weekday);
    if weekday == 0 {
      assert w == t / 7.0 * 30.0 && p == t / 1.0 * 30.0;
    } else if weekday == 1 {
      assert w == t / 1.0 * 30.0 && p == t / 2.0 * 30.0;
    } else if weekday == 2 {
      assert w == t / 2.0 * 30.0 && p == t / 3.0 * 30.0;
    } else if weekday == 3 {
      assert w == t / 3.0 * 30.0 && p == t / 4.0 * 30.0;
    } else if weekday == 4 {
      assert w == t / 4.0 * 30.0 && p == t / 5.0 * 30.0;
    } else if weekday == 5 {
      assert w == t / 5.0 * 30.0 && p == t / 6.0 * 30.0;
    } else {
      assert w == t / 6.0 * 30.0 && p == t / 7.0 * 30.0;
    }
  }

  /** On Sunday a day's 700 projects to 3000 instead of 21000; on Monday
      two days' 200 project to 6000 instead of 3000. */
  lemma ProjectionAsWrittenExamples()
    ensures ProjectionAsWritten(700, 0) == 3000.0 && MonthlyProjection(700, 0) == 21000.0
    ensures ProjectionAsWritten(200, 1) == 6000.0 && MonthlyProjection(200, 1) == 3000.0
  {
    assert ProjectionAsWritten(700, 0) == 700.0 / 7.0 * 30.0;
    assert MonthlyProjection(700, 0) == 700.0 / 1.0 * 30.0;
    assert ProjectionAsWritten(200, 1) == 200.0 / 1.0 * 30.0;
    assert MonthlyProjection(200, 1) == 200.0 / 2.0 * 30.0;
  }
}
