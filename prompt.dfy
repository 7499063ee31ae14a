/** `buildCoachPrompt`: the text sent to the coaching model for a new
    expense. The prompt is a fixed sequence of lines with one optional
    coffee line; `PromptLines` gives that structure, `Render` the text of
    each line, and `BuildCoachPrompt` the string the code assembles by
    appending. */
module Prompt {
  import opened Text
  import opened Expenses
  import opened Aggregation

  /** `Math.round`: the nearest integer, halves rounded up. */
  function Round(x: real): (r: int)
    ensures r as real - 0.5 <= x < r as real + 0.5
  {
    (x + 0.5).Floor
  }

  /** The lines of the prompt, in the order they are appended. */
  datatype Line =
    | UserEntry(description: string, amount: int)
    | CategoryName(category: string)
    | MonthlyBudget(budget: int)
    | WeekHeading
    | TotalSpent(total: int)
    | CategoryPurchases(category: string, count: nat)
    | CategorySpending(category: string, total: int)
    | CoffeeCount(count: nat)
    | MonthlyProjection(rounded: int)
    | Instruction

  /** When the coffee line is included. */
  predicate MentionsCoffee(category: string, coffeeCount: nat) {
    category == Coffee || coffeeCount > 0
  }

  /** The prompt's lines: the new expense, its category, the budget, the
      week heading, three week figures, the coffee count when coffee is
      involved, the rounded projection and the closing instruction. Each
      line is added on its own, as each `prompt +=` adds one. */
  function PromptLines(expense: Expense, context: Context, monthlyBudget: int): seq<Line> {
    var category := expense.category;
    var opening :=
      [UserEntry(expense.description, expense.amount)]
      + [CategoryName(category)]
      + [MonthlyBudget(monthlyBudget)]
      + [WeekHeading]
      + [TotalSpent(context.weekTotal)]
      + [CategoryPurchases(category, context.categoryCount)]
      + [CategorySpending(category, context.categoryTotal)];
    var figures :=
      if MentionsCoffee(category, context.coffeeCount) then opening + [CoffeeCount(context.coffeeCount)]
      else opening;
    figures + [MonthlyProjection(Round(context.monthlyProjection))] + [Instruction]
  }

  /** The layout of the prompt: the coffee line is present exactly when the
      category is coffee or a coffee was bought this week, and then right
      after the category figures and with this week's coffee count; every
      prompt opens with the user's entry and closes with the rounded
      projection and the instruction. */
  lemma PromptLayout(expense: Expense, context: Context, monthlyBudget: int)
    ensures var lines := PromptLines(expense, context, monthlyBudget);
      && (MentionsCoffee(expense.category, context.coffeeCount) <==> CoffeeCount(context.coffeeCount) in lines)
      && (forall i :: 0 <= i < |lines| && lines[i].CoffeeCount? ==> i == 7 && lines[i].count == context.coffeeCount)
      && |lines| == (if MentionsCoffee(expense.category, context.coffeeCount) then 10 else 9)
      && lines[0] == UserEntry(expense.description, expense.amount)
      && lines[|lines| - 2] == MonthlyProjection(Round(context.monthlyProjection))
      && lines[|lines| - 1] == Instruction
  {
  }

  const InstructionText: string := "Respond with a witty, warm, and insightful message (2-3 sentences max)."

  /** The text of one line; every line but the instruction ends with a
      newline. */
  function Render(line: Line): (text: string)
    ensures line != Instruction ==> |text| > 0 && text[|text| - 1] == '\n'
    ensures line == Instruction ==> text == InstructionText
  {
    match line
    case UserEntry(d, a) => "User entry: \"" + d + " ₹" + IntToString(a) + "\"\n"
    case CategoryName(c) => "Category: " + c + "\n"
    case MonthlyBudget(b) => "Monthly budget: ₹" + IntToString(b) + "\n"
    case WeekHeading => "This week so far:\n"
    case TotalSpent(t) => "- Total spent: ₹" + IntToString(t) + "\n"
    case CategoryPurchases(c, n) => "- Number of " + c + " purchases: " + NatToString(n) + "\n"
    case CategorySpending(c, t) => "- Total " + c + " spending: ₹" + IntToString(t) + "\n"
    case CoffeeCount(n) => "- Coffee/drinks count this week: " + NatToString(n) + "\n"
    case MonthlyProjection(r) => "- Monthly projection: ₹" + IntToString(r) + "\n\n"
    case Instruction => InstructionText
  }

  /** The lines' texts, one after another. */
  function Join(lines: seq<Line>): string {
    if lines == [] then "" else Join(lines[..|lines| - 1]) + Render(lines[|lines| - 1])
  }

  /** One `prompt +=` step: appending a line appends its text. */
  lemma JoinSnoc(lines: seq<Line>, line: Line)
    ensures Join(lines + [line]) == Join(lines) + Render(line)
  {
    assert (lines + [line])[..|lines|] == lines;
  }

  /** The joined text opens with the first line's text. */
  lemma {:induction false} JoinStartsWith(lines: seq<Line>)
    requires lines != []
    ensures StartsWith(Join(lines), Render(lines[0]))
  {
    var init := lines[..|lines| - 1];
    if init == [] {
      assert Join(lines) == "" + Render(lines[0]);
    } else {
      JoinStartsWith(init);
      assert init[0] == lines[0];
      assert Join(lines) == Join(init) + Render(lines[|lines| - 1]);
      PrefixOfAppend(Join(init), Render(lines[|lines| - 1]), Render(lines[0]));
    }
  }

  lemma PrefixOfAppend(a: string, b: string, p: string)
    requires StartsWith(a, p)
    ensures StartsWith(a + b, p)
  {
    assert (a + b)[..|p|] == a[..|p|];
  }

  /** How the user-entry line opens, before the amount. */
  function EntryHead(description: string): string {
    "User entry: \"" + description + " ₹"
  }

  /** `buildCoachPrompt(expense, context, monthlyBudget)`: the texts of
      the prompt's lines, appended in order. The prompt opens with the
      user's entry and ends with the instruction. */
  function BuildCoachPrompt(expense: Expense, context: Context, monthlyBudget: int): (prompt: string)
    ensures StartsWith(prompt, EntryHead(expense.description))
    ensures EndsWith(prompt, InstructionText)
  {
    var lines := PromptLines(expense, context, monthlyBudget);
    PromptLayout(expense, context, monthlyBudget);
    JoinStartsWith(lines);
    var head := EntryHead(expense.description);
    var first := Render(lines[0]);
    assert first == head + (IntToString(expense.amount) + "\"\n");
    assert first[..|head|] == head;
    Join(lines)
  }
}
