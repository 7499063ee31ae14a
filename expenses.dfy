/** The expense record and the ordering the expense list keeps. */
module Expenses {

  /** One logged expense. `id` (`Date.now()`) and `timestamp` (the ISO
      instant) are both the creation instant in milliseconds since the epoch;
      `date` is that instant's locale date text. `amount` is in whole rupees. */
  datatype Expense = Expense(
    id: int,
    description: string,
    amount: int,
    category: string,
    timestamp: int,
    date: string)

  /** The category the app singles out for its coffee counter. */
  const Coffee: string := "coffee"

  /** Newest first: timestamps never increase along the list. */
  predicate NewestFirst(es: seq<Expense>) {
    forall i, j :: 0 <= i < j < |es| ==> es[i].timestamp >= es[j].timestamp
  }

  /** Every amount is positive, as the logging validation guarantees. */
  predicate AllPositive(es: seq<Expense>) {
    forall e :: e in es ==> e.amount > 0
  }

  /** Prepending a record no older than the current head keeps the list
      newest first (the clock does not run backwards between two logs). */
  lemma PrependKeepsNewestFirst(e: Expense, es: seq<Expense>)
    requires NewestFirst(es)
    requires es == [] || e.timestamp >= es[0].timestamp
    ensures NewestFirst([e] + es)
  {
    var r := [e] + es;
    forall i, j | 0 <= i < j < |r| ensures r[i].timestamp >= r[j].timestamp {
      if i == 0 {
        assert r[j] == es[j - 1];
        assert es[0].timestamp >= es[j - 1].timestamp || j == 1;
      } else {
        assert r[i] == es[i - 1] && r[j] == es[j - 1];
      }
    }
  }
}
