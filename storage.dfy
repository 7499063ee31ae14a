/** The persistence layer: the three browser-storage entries the app owns,
    how `loadData` reads them and how `saveData` writes them. */
module Storage {
  import opened Wrappers
  import opened Expenses

  /** The stored entries 'moneyCoach_apiKey', 'moneyCoach_budget' and
      'moneyCoach_expenses', each `None` when the key is absent. The same
      shape is `saveData`'s argument, where `None` is a property left
      undefined. */
  datatype Entries = Entries(
    apiKey: Option<string>,
    budget: Option<int>,
    expenses: Option<seq<Expense>>)

  /** An origin with nothing stored, as after `localStorage.clear()`. */
  const NoEntries := Entries(None, None, None)

  /** What `loadData` hands its callers. */
  datatype Data = Data(apiKey: string, monthlyBudget: int, expenses: seq<Expense>)

  const Defaults := Data("", 0, [])

  /** `loadData`: each missing entry is replaced by its default (an empty
      key, a zero budget, no expenses); a present entry is returned as
      stored. */
  function Decode(s: Entries): (d: Data)
    ensures s == NoEntries ==> d == Defaults
    ensures s.apiKey.Some? ==> d.apiKey == s.apiKey.value
    ensures s.budget.Some? ==> d.monthlyBudget == s.budget.value
    ensures s.expenses.Some? ==> d.expenses == s.expenses.value
    ensures s.apiKey.None? ==> d.apiKey == ""
    ensures s.budget.None? ==> d.monthlyBudget == 0
    ensures s.expenses.None? ==> d.expenses == []
  {
    Data(
      match s.apiKey case Some(k) => k case None => "",
      match s.budget case Some(b) => b case None => 0,
      match s.expenses case Some(es) => es case None => [])
  }

  function Pick<T>(present: Option<T>, previous: Option<T>): Option<T> {
    if present.Some? then present else previous
  }

  /** `saveData(u)`: writes exactly the entries present in `u`. Saving
      nothing changes nothing, and saving the same update twice is the same
      as saving it once. */
  function Merge(s: Entries, u: Entries): (r: Entries)
    ensures u == NoEntries ==> r == s
    ensures u.apiKey.Some? ==> r.apiKey == u.apiKey
    ensures u.budget.Some? ==> r.budget == u.budget
    ensures u.expenses.Some? ==> r.expenses == u.expenses
    ensures u.apiKey.None? ==> r.apiKey == s.apiKey
    ensures u.budget.None? ==> r.budget == s.budget
    ensures u.expenses.None? ==> r.expenses == s.expenses
  {
    Entries(Pick(u.apiKey, s.apiKey), Pick(u.budget, s.budget), Pick(u.expenses, s.expenses))
  }

  /** Saving the same update twice is the same as saving it once. */
  lemma MergeIdempotent(s: Entries, u: Entries)
    ensures Merge(Merge(s, u), u) == Merge(s, u)
  {
  }

  /** Two saves in a row amount to one save of the later update laid over
      the earlier one. */
  lemma MergeTwice(s: Entries, u: Entries, v: Entries)
    ensures Merge(Merge(s, u), v) == Merge(s, Merge(u, v))
  {
  }

  /** The browser storage of the app's origin. */
  class Store {
    var entries: Entries

    /** A store for an origin that has never saved anything. */
    constructor ()
      ensures entries == NoEntries
    {
      entries := NoEntries;
    }

    /** `loadData()`. */
    function Load(): Data
      reads this
    {
      Decode(entries)
    }

    /** `saveData(u)`: the entries present in `u` are written, the others
        keep their previous value. */
    method Save(u: Entries)
      modifies this
      ensures entries == Merge(old(entries), u)
    {
      if u.apiKey.Some? {
        entries := entries.(apiKey := u.apiKey);
      }
      if u.budget.Some? {
        entries := entries.(budget := u.budget);
      }
      if u.expenses.Some? {
        entries := entries.(expenses := u.expenses);
      }
    }

    /** `localStorage.clear()`: every entry is removed, so the next load
        yields the defaults. */
    method Clear()
      modifies this
      ensures entries == NoEntries
      ensures Load() == Defaults
    {
      entries := NoEntries;
    }
  }
}
