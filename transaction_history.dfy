/**
 * The history screen's list logic in src/components/banking/transaction-history.tsx:
 * the search-and-type filter and the grouping of the kept transactions by calendar day.
 * `toLowerCase` and the pt-BR date key (`new Date(date).toLocaleDateString('pt-BR')`)
 * are passed in as functions.
 */
module TransactionHistory {
  import opened Text

  datatype TransactionType = Income | Expense

  /** The type filter buttons: 'all', 'income', 'expense'. */
  datatype FilterType = All | OnlyIncome | OnlyExpense

  datatype HistoryEntry = HistoryEntry(
    id: string,
    kind: TransactionType,
    description: string,
    amount: real,
    date: string,
    category: string)

  /** The description or the category contains the search term, both lower-cased. */
  predicate MatchesSearch(t: HistoryEntry, searchTerm: string, lower: string -> string)
  {
    Contains(lower(t.description), lower(searchTerm)) || Contains(lower(t.category), lower(searchTerm))
  }

  /** `filterType === 'all' || transaction.type === filterType`. */
  predicate MatchesFilter(t: HistoryEntry, filterType: FilterType)
  {
    match filterType
    case All => true
    case OnlyIncome => t.kind == Income
    case OnlyExpense => t.kind == Expense
  }

  predicate Kept(t: HistoryEntry, searchTerm: string, filterType: FilterType, lower: string -> string)
  {
    MatchesSearch(t, searchTerm, lower) && MatchesFilter(t, filterType)
  }

  /** `a` is `b` with some elements left out, the rest in their original order. */
  predicate IsSubsequence<T(==)>(a: seq<T>, b: seq<T>)
    decreases |b|
  {
    a == [] || (b != [] && ((a[0] == b[0] && IsSubsequence(a[1..], b[1..])) || IsSubsequence(a, b[1..])))
  }

  /** `filteredTransactions`: the transactions that match both the search and the type filter. */
  function FilterTransactions(transactions: seq<HistoryEntry>, searchTerm: string, filterType: FilterType,
                              lower: string -> string): (r: seq<HistoryEntry>)
    ensures IsSubsequence(r, transactions)
    ensures forall t :: t in r <==> t in transactions && Kept(t, searchTerm, filterType, lower)
  {
    if transactions == [] then []
    else
      var rest := FilterTransactions(transactions[1..], searchTerm, filterType, lower);
      if Kept(transactions[0], searchTerm, filterType, lower) then [transactions[0]] + rest
      else
        assert rest == [] || IsSubsequence(rest, transactions[1..]);
        rest
  }

  /**
   * The filter works entry by entry: filtering a concatenation concatenates the filtered
   * parts, so every kept entry appears as often, and in the same order, as in the input.
   */
  lemma {:induction false} FilterTransactionsAppend(a: seq<HistoryEntry>, b: seq<HistoryEntry>, searchTerm: string,
                                                    filterType: FilterType, lower: string -> string)
    ensures FilterTransactions(a + b, searchTerm, filterType, lower)
      == FilterTransactions(a, searchTerm, filterType, lower) + FilterTransactions(b, searchTerm, filterType, lower)
  {
    if a != [] {
      assert (a + b)[1..] == a[1..] + b;
      FilterTransactionsAppend(a[1..], b, searchTerm, filterType, lower);
    } else {
      assert a + b == b;
    }
  }

  /** With an empty search and the 'all' filter, nothing is hidden. */
  lemma {:induction false} EmptySearchKeepsAll(transactions: seq<HistoryEntry>, lower: string -> string)
    requires lower("") == ""
    ensures FilterTransactions(transactions, "", All, lower) == transactions
  {
    if transactions != [] {
      ContainsEmpty(lower(transactions[0].description));
      EmptySearchKeepsAll(transactions[1..], lower);
    }
  }

  /** The entries of one type, in order. */
  function OfType(transactions: seq<HistoryEntry>, kind: TransactionType): seq<HistoryEntry>
  {
    if transactions == [] then []
    else if transactions[0].kind == kind then [transactions[0]] + OfType(transactions[1..], kind)
    else OfType(transactions[1..], kind)
  }

  /**
   * For a fixed search, the 'income' and 'expense' results are the income and expense
   * entries of the 'all' result, so together they hold exactly its entries.
   */
  lemma {:induction false} TypeFiltersPartitionAll(transactions: seq<HistoryEntry>, searchTerm: string,
                                                   lower: string -> string)
    ensures var all := FilterTransactions(transactions, searchTerm, All, lower);
      && FilterTransactions(transactions, searchTerm, OnlyIncome, lower) == OfType(all, Income)
      && FilterTransactions(transactions, searchTerm, OnlyExpense, lower) == OfType(all, Expense)
      && |OfType(all, Income)| + |OfType(all, Expense)| == |all|
  {
    if transactions != [] {
      TypeFiltersPartitionAll(transactions[1..], searchTerm, lower);
    }
  }

  /** The entries of `transactions` whose date key is `day`, in order. */
  function OnDay(transactions: seq<HistoryEntry>, dateKey: HistoryEntry -> string, day: string): (r: seq<HistoryEntry>)
    ensures forall t :: t in r <==> t in transactions && dateKey(t) == day
    ensures |transactions| == 1 && dateKey(transactions[0]) == day ==> r == transactions
  {
    if transactions == [] then []
    else
      var last := transactions[|transactions| - 1];
      OnDay(transactions[..|transactions| - 1], dateKey, day) + (if dateKey(last) == day then [last] else [])
  }

  /**
   * A day's group is built entry by entry: the group of a concatenation concatenates the
   * groups of the parts, so it keeps the filtered order and every copy of each entry.
   */
  lemma {:induction false} OnDayAppend(a: seq<HistoryEntry>, b: seq<HistoryEntry>,
                                       dateKey: HistoryEntry -> string, day: string)
    ensures OnDay(a + b, dateKey, day) == OnDay(a, dateKey, day) + OnDay(b, dateKey, day)
    decreases |b|
  {
    if b != [] {
      assert (a + b)[..|a + b| - 1] == a + b[..|b| - 1];
      OnDayAppend(a, b[..|b| - 1], dateKey, day);
    } else {
      assert a + b == a;
    }
  }

  /**
   * `groupedByDate`: one group per date key that occurs, each holding the filtered
   * transactions of that day in filtered order; so each transaction is in exactly the
   * group of its day.
   */
  method GroupByDate(filtered: seq<HistoryEntry>, dateKey: HistoryEntry -> string)
    returns (groups: map<string, seq<HistoryEntry>>)
    ensures forall day :: day in groups <==> OnDay(filtered, dateKey, day) != []
    ensures forall day :: day in groups ==> groups[day] == OnDay(filtered, dateKey, day)
    ensures forall t :: t in filtered ==> dateKey(t) in groups && t in groups[dateKey(t)]
    ensures forall day, t :: day in groups && t in groups[day] ==> t in filtered && dateKey(t) == day
  {
    groups := map[];
    var i := 0;
    while i < |filtered|
      invariant 0 <= i <= |filtered|
      invariant forall day :: day in groups ==> groups[day] == OnDay(filtered[..i], dateKey, day) && groups[day] != []
      invariant forall day :: day !in groups ==> OnDay(filtered[..i], dateKey, day) == []
    {
      var transaction := filtered[i];
      var date := dateKey(transaction);
      ghost var seen := filtered[..i];
      assert filtered[..i + 1][..i] == seen;
      if date !in groups {
        groups := groups[date := []];
      }
      groups := groups[date := groups[date] + [transaction]];
      i := i + 1;
    }
    assert filtered[..i] == filtered;
    forall t | t in filtered
      ensures dateKey(t) in groups && t in groups[dateKey(t)]
    {
      assert t in OnDay(filtered, dateKey, dateKey(t));
    }
  }
}
