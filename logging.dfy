/** `logExpense`: validate the form, prepend the new record to the stored
    list, save it, and build the coaching prompt from the updated list. The
    clock (`Date.now()`, the ISO timestamp and its locale date) and the
    week the statistics are computed for are parameters. */
module Logging {
  import opened Wrappers
  import opened Text
  import opened Expenses
  import opened Storage
  import opened Aggregation
  import opened Prompt

  const DescriptionAlert: string := "Please enter a description"
  const AmountAlert: string := "Please enter a valid amount"

  /** A validated description and amount. */
  datatype Entry = Entry(description: string, amount: int)

  /** The form checks, in order: the trimmed description must be non-empty,
      then the amount as `parseFloat` read it (`None` for NaN) must be above
      zero (`!amount || amount <= 0`: `None` is NaN, and zero falls under
      `<= 0`). An error carries the alert shown. */
  function CheckExpense(descriptionInput: string, amountInput: Option<int>): (r: Result<Entry, string>)
    ensures r.Ok? <==> !AllWhitespace(descriptionInput) && amountInput.Some? && amountInput.value > 0
    ensures r.Ok? ==> r.value == Entry(Trim(descriptionInput), amountInput.value) && r.value.description != ""
    ensures r == Err(DescriptionAlert) <==> AllWhitespace(descriptionInput)
    ensures r == Err(AmountAlert) <==> !AllWhitespace(descriptionInput) && !(amountInput.Some? && amountInput.value > 0)
  {
    TrimEmptyIff(descriptionInput);
    var description := Trim(descriptionInput);
    if description == "" then Err(DescriptionAlert)
    else if amountInput.None? || amountInput.value <= 0 then Err(AmountAlert)
    else Ok(Entry(description, amountInput.value))
  }

  /** What one submission of the expense form leads to: an alert, or the
      stored record and the prompt sent to the coach. */
  datatype LogOutcome = Rejected(alert: string) | Logged(expense: Expense, prompt: string)

  /** The save `logExpense` issues: the list with `e` at its head, key and
      budget untouched. */
  method SaveWithNewExpense(store: Store, e: Expense)
    modifies store
    ensures store.entries == Merge(old(store.entries), Entries(None, None, Some([e] + old(store.Load().expenses))))
    ensures store.Load() == old(store.Load()).(expenses := [e] + old(store.Load().expenses))
  {
    var expenses := [e] + store.Load().expenses;
    store.Save(Entries(None, None, Some(expenses)));
  }

  /** `logExpense`. A rejected form leaves the store as it was. An accepted
      one puts the new record at the head of the stored list, keeps the old
      list as its tail and the key and budget as they were, and builds the
      prompt from the statistics of the updated list and the stored budget.
      A list that was newest first stays so when the clock has not gone
      back, and amounts stay positive. */
  method LogExpense(
    store: Store, descriptionInput: string, amountInput: Option<int>, category: string,
    nowMs: int, dateText: string, weekStart: int, weekday: Weekday)
    returns (outcome: LogOutcome)
    modifies store
    ensures var checked := CheckExpense(descriptionInput, amountInput);
      && (outcome.Rejected? <==> checked.Err?)
      && (outcome.Rejected? ==> outcome.alert == checked.error && store.entries == old(store.entries))
    ensures outcome.Logged? ==>
      var e := outcome.expense;
      var entry := CheckExpense(descriptionInput, amountInput).value;
      && e == Expense(nowMs, entry.description, entry.amount, category, nowMs, dateText)
      && store.entries == Merge(old(store.entries), Entries(None, None, Some([e] + old(store.Load().expenses))))
      && store.Load() == old(store.Load()).(expenses := [e] + old(store.Load().expenses))
      && outcome.prompt == BuildCoachPrompt(
           e,
           AnalyzeSpendingContext(store.Load().expenses, category, weekStart, weekday),
           old(store.Load().monthlyBudget))
    ensures outcome.Logged? && AllPositive(old(store.Load().expenses)) ==> AllPositive(store.Load().expenses)
    ensures outcome.Logged? && NewestFirst(old(store.Load().expenses))
              && (old(store.Load().expenses) == [] || nowMs >= old(store.Load().expenses)[0].timestamp)
            ==> NewestFirst(store.Load().expenses)
  {
    var checked := CheckExpense(descriptionInput, amountInput);
    if checked.Err? {
      return Rejected(checked.error);
    }
    var expense := Expense(nowMs, checked.value.description, checked.value.amount, category, nowMs, dateText);
    var data := store.Load();
    PrependKeepsOrder(expense, data.expenses);
    SaveWithNewExpense(store, expense);
    var context := AnalyzeSpendingContext(store.Load().expenses, category, weekStart, weekday);
    outcome := Logged(expense, BuildCoachPrompt(expense, context, data.monthlyBudget));
  }

  /** Prepending a positive record newer than the head keeps the list's
      invariants. */
  lemma PrependKeepsOrder(e: Expense, es: seq<Expense>)
    ensures e.amount > 0 && AllPositive(es) ==> AllPositive([e] + es)
    ensures NewestFirst(es) && (es == [] || e.timestamp >= es[0].timestamp) ==> NewestFirst([e] + es)
  {
    if NewestFirst(es) && (es == [] || e.timestamp >= es[0].timestamp) {
      PrependKeepsNewestFirst(e, es);
    }
  }

  /** The statistics sent with a new expense already count it, since they
      are computed after it was prepended: when it falls in the current week
      its category has at least one purchase and its amount, the week its
      amount on top of the earlier records, and a coffee always brings the
      coffee line into the prompt. */
  lemma NewExpenseCounted(e: Expense, es: seq<Expense>, budget: int, weekStart: int, weekday: Weekday)
    requires e.timestamp >= weekStart
    ensures var before := AnalyzeSpendingContext(es, e.category, weekStart, weekday);
      var c := AnalyzeSpendingContext([e] + es, e.category, weekStart, weekday);
      && c.categoryCount >= 1
      && c.transactionCount == before.transactionCount + 1
      && c.weekTotal == before.weekTotal + e.amount
      && c.categoryTotal == before.categoryTotal + e.amount
      && (e.category == Coffee ==>
            c.coffeeCount == before.coffeeCount + 1 && CoffeeCount(c.coffeeCount) in PromptLines(e, c, budget))
  {
    PrependedExpense(e, es, e.category, weekStart, weekday);
    var c := AnalyzeSpendingContext([e] + es, e.category, weekStart, weekday);
    PromptLayout(e, c, budget);
  }
}
