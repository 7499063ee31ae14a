/** The expense-history panel (`updateExpenseHistory`) and the relative-age
    text of each entry (`getTimeAgo`). The current instant is a parameter. */
module History {
  import opened Text
  import opened Expenses

  const MinuteMs: int := 60000
  const HourMs: int := 3600000
  const DayMs: int := 86400000

  /** The panel shows at most this many entries. */
  const HistoryLimit: nat := 20

  /** How long ago an instant was, in the units `getTimeAgo` reports. */
  datatype Age = JustNow | Minutes(count: nat) | Hours(count: nat) | Days(count: nat) | OnDate

  /** The bucketing of `getTimeAgo`: the elapsed milliseconds floored to
      whole minutes, hours and days (for a positive divisor Dafny's `/` is
      `Math.floor` of the quotient). Under a minute, and any instant in the
      future, is "just now"; a week or more falls back to the date. A count
      is always the whole number of units elapsed. */
  function AgeOf(nowMs: int, thenMs: int): (a: Age)
    ensures a.JustNow? <==> nowMs - thenMs < MinuteMs
    ensures a.Minutes? <==> MinuteMs <= nowMs - thenMs < HourMs
    ensures a.Hours? <==> HourMs <= nowMs - thenMs < DayMs
    ensures a.Days? <==> DayMs <= nowMs - thenMs < 7 * DayMs
    ensures a.OnDate? <==> 7 * DayMs <= nowMs - thenMs
    ensures a.Minutes? ==> 1 <= a.count < 60 && a.count * MinuteMs <= nowMs - thenMs < (a.count + 1) * MinuteMs
    ensures a.Hours? ==> 1 <= a.count < 24 && a.count * HourMs <= nowMs - thenMs < (a.count + 1) * HourMs
    ensures a.Days? ==> 1 <= a.count < 7 && a.count * DayMs <= nowMs - thenMs < (a.count + 1) * DayMs
  {
    var diff := nowMs - thenMs;
    var mins := diff / MinuteMs;
    var hours := diff / HourMs;
    var days := diff / DayMs;
    if mins < 1 then JustNow
    else if mins < 60 then Minutes(mins)
    else if hours < 24 then Hours(hours)
    else if days < 7 then Days(days)
    else OnDate
  }

  function Plural(n: nat): string {
    if n > 1 then "s" else ""
  }

  /** `getTimeAgo(date)`, where `dateText` is the date's locale text. */
  function TimeAgo(nowMs: int, thenMs: int, dateText: string): (r: string)
    ensures AgeOf(nowMs, thenMs).JustNow? ==> r == "Just now"
    ensures AgeOf(nowMs, thenMs).OnDate? ==> r == dateText
    ensures AgeOf(nowMs, thenMs).Minutes? ==> StartsWith(r, NatToString(AgeOf(nowMs, thenMs).count) + " min")
    ensures AgeOf(nowMs, thenMs).Hours? ==> StartsWith(r, NatToString(AgeOf(nowMs, thenMs).count) + " hour")
    ensures AgeOf(nowMs, thenMs).Days? ==> StartsWith(r, NatToString(AgeOf(nowMs, thenMs).count) + " day")
  {
    match AgeOf(nowMs, thenMs)
    case JustNow => "Just now"
    case Minutes(n) => NatToString(n) + " min" + Plural(n) + " ago"
    case Hours(n) => NatToString(n) + " hour" + Plural(n) + " ago"
    case Days(n) => NatToString(n) + " day" + Plural(n) + " ago"
    case OnDate => dateText
  }

  /** A minute, hour or day count is written before its unit, and the unit
      takes a plural "s" exactly when the count is above one. */
  lemma TimeAgoPlural(nowMs: int, thenMs: int, dateText: string)
    requires AgeOf(nowMs, thenMs).Minutes? || AgeOf(nowMs, thenMs).Hours? || AgeOf(nowMs, thenMs).Days?
    ensures var n := AgeOf(nowMs, thenMs).count;
      var r := TimeAgo(nowMs, thenMs, dateText);
      && StartsWith(r, NatToString(n) + " ")
      && |r| >= 5
      && (r[|r| - 5..] == "s ago" <==> n > 1)
  {
    var a := AgeOf(nowMs, thenMs);
    var unit := if a.Minutes? then " min" else if a.Hours? then " hour" else " day";
    CountedText(NatToString(a.count), unit, a.count);
  }

  lemma CountedText(digits: string, unit: string, n: nat)
    requires |unit| >= 2 && unit[0] == ' ' && unit[|unit| - 1] != 's'
    ensures var r := digits + unit + Plural(n) + " ago";
      && StartsWith(r, digits + " ")
      && |r| >= 5
      && (r[|r| - 5..] == "s ago" <==> n > 1)
  {
    var r := digits + unit + Plural(n) + " ago";
    assert r == (digits + " ") + (unit[1..] + Plural(n) + " ago");
    if n > 1 {
      assert r[|r| - 5..] == "s ago";
    } else {
      assert r[|r| - 5] == unit[|unit| - 1];
    }
  }

  /** `expenses.slice(0, 20)`: the first twenty records, or all of them
      when there are fewer. */
  function Recent(es: seq<Expense>): (r: seq<Expense>)
    ensures |r| == if |es| < HistoryLimit then |es| else HistoryLimit
    ensures r == es[..|r|]
  {
    if |es| < HistoryLimit then es else es[..HistoryLimit]
  }

  /** Cutting a newest-first list keeps it newest first, and every entry
      shown is at least as recent as every entry left out. */
  lemma RecentNewestFirst(es: seq<Expense>)
    requires NewestFirst(es)
    ensures NewestFirst(Recent(es))
    ensures forall i, j :: 0 <= i < |Recent(es)| <= j < |es| ==> Recent(es)[i].timestamp >= es[j].timestamp
  {
    var r := Recent(es);
    forall i, j | 0 <= i < |r| <= j < |es| ensures r[i].timestamp >= es[j].timestamp {
      assert r[i] == es[i];
    }
  }

  /** One entry of the panel. The locale date text of the fallback is the
      record's own `date`. */
  datatype Row = Row(category: string, description: string, timeAgo: string, amount: int)

  function RowOf(e: Expense, nowMs: int): Row {
    Row(e.category, e.description, TimeAgo(nowMs, e.timestamp, e.date), e.amount)
  }

  /** The panel: a placeholder when nothing was logged, otherwise a row per
      record. */
  datatype HistoryView = EmptyState | Rows(rows: seq<Row>)

  /** `updateExpenseHistory`: the placeholder exactly when the list is
      empty; otherwise between one and twenty rows, the i-th describing the
      list's i-th record. */
  function ExpenseHistory(es: seq<Expense>, nowMs: int): (v: HistoryView)
    ensures v.EmptyState? <==> es == []
    ensures v.Rows? ==> 1 <= |v.rows| <= HistoryLimit
    ensures v.Rows? ==> |v.rows| == |Recent(es)|
    ensures v.Rows? ==> forall i :: 0 <= i < |v.rows| ==> v.rows[i] == RowOf(es[i], nowMs)
  {
    if |es| == 0 then EmptyState
    else
      var recent := Recent(es);
      Rows(seq(|recent|, i requires 0 <= i < |recent| => RowOf(recent[i], nowMs)))
  }
}
