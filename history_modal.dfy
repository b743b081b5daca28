/** src/components/transactions/TransactionHistoryModal.tsx: the searched
    and sorted list of a budget's transactions, the sort toggles and the
    footer totals. `amountText` stands for `Number.prototype.toString` on
    an amount. */
module HistoryModal {
  import opened Wrappers
  import opened Models
  import Seqs
  import Text
  import Sorting
  import Calculations
  import TransactionStore

  datatype SortBy = ByDate | ByAmount

  /** The search criterion for a non-blank query: the lowercased comment,
      or the amount's text, contains the lowercased query. The query itself
      is lowercased but not trimmed. */
  function QueryMatch(query: string, amountText: real -> string): Transaction -> bool {
    var q := Text.ToLower(query);
    (t: Transaction) =>
      (t.comment.Some? && Text.Includes(Text.ToLower(t.comment.value), q)) || Text.Includes(amountText(t.amount), q)
  }

  /** The list after the search: unfiltered for a blank query, otherwise
      exactly the matching transactions. */
  function SearchFiltered(transactions: seq<Transaction>, query: string, amountText: real -> string): (r: seq<Transaction>)
    ensures forall t :: t in r <==> t in transactions && (Text.Trim(query) == "" || QueryMatch(query, amountText)(t))
  {
    if Text.Trim(query) == "" then transactions
    else
      Seqs.FilterMembers(transactions, QueryMatch(query, amountText));
      Seqs.Filter(transactions, QueryMatch(query, amountText))
  }

  /** The comparator's `diff` before the direction is applied. */
  function Difference(sortBy: SortBy, a: Transaction, b: Transaction): real {
    if sortBy == ByDate then (a.timestamp - b.timestamp) as real else a.amount - b.amount
  }

  /** The comparator: `diff` ascending, `-diff` descending. */
  function Compare(sortBy: SortBy, sortOrder: SortDirection, a: Transaction, b: Transaction): real {
    var diff := Difference(sortBy, a, b);
    if sortOrder == Asc then diff else -diff
  }

  /** "`a` may stay before `b`": the comparator is not positive. */
  function Order(sortBy: SortBy, sortOrder: SortDirection): (Transaction, Transaction) -> bool {
    (a: Transaction, b: Transaction) => Compare(sortBy, sortOrder, a, b) <= 0.0
  }

  /** What the four sort settings ask for. */
  predicate InOrder(sortBy: SortBy, sortOrder: SortDirection, a: Transaction, b: Transaction) {
    match (sortBy, sortOrder)
    case (ByDate, Asc) => a.timestamp <= b.timestamp
    case (ByDate, Desc) => a.timestamp >= b.timestamp
    case (ByAmount, Asc) => a.amount <= b.amount
    case (ByAmount, Desc) => a.amount >= b.amount
  }

  lemma OrderMeaning(sortBy: SortBy, sortOrder: SortDirection, a: Transaction, b: Transaction)
    ensures Order(sortBy, sortOrder)(a, b) <==> InOrder(sortBy, sortOrder, a, b)
  {
  }

  /** The comparator orders any list consistently. */
  lemma OrderConsistent(sortBy: SortBy, sortOrder: SortDirection, s: seq<Transaction>)
    ensures Sorting.ConsistentOn(Order(sortBy, sortOrder), s)
  {
    var le := Order(sortBy, sortOrder);
    forall a, b, c | le(a, b) && le(b, c)
      ensures le(a, c)
    {
      OrderMeaning(sortBy, sortOrder, a, b);
      OrderMeaning(sortBy, sortOrder, b, c);
      OrderMeaning(sortBy, sortOrder, a, c);
    }
  }

  /** `filteredAndSortedTransactions`: a sorted copy of the searched list. */
  function Displayed(transactions: seq<Transaction>, query: string, sortBy: SortBy, sortOrder: SortDirection,
                     amountText: real -> string): (r: seq<Transaction>)
    ensures multiset(r) == multiset(SearchFiltered(transactions, query, amountText))
  {
    Sorting.InsertionSort(SearchFiltered(transactions, query, amountText), Order(sortBy, sortOrder))
  }

  /** A blank query shows every transaction; otherwise exactly the matching
      ones, each as often as it occurs. */
  lemma DisplayedContents(transactions: seq<Transaction>, query: string, sortBy: SortBy, sortOrder: SortDirection,
                          amountText: real -> string)
    ensures Text.Trim(query) == "" ==> multiset(Displayed(transactions, query, sortBy, sortOrder, amountText)) == multiset(transactions)
    ensures Text.Trim(query) != "" ==>
              forall t: Transaction :: multiset(Displayed(transactions, query, sortBy, sortOrder, amountText))[t]
                                       == if QueryMatch(query, amountText)(t) then multiset(transactions)[t] else 0
  {
    if Text.Trim(query) != "" {
      Seqs.FilterCounts(transactions, QueryMatch(query, amountText));
    }
  }

  /** The displayed list is in the order the sort settings ask for. */
  lemma DisplayedSorted(transactions: seq<Transaction>, query: string, sortBy: SortBy, sortOrder: SortDirection,
                        amountText: real -> string)
    ensures var r := Displayed(transactions, query, sortBy, sortOrder, amountText);
            forall i, j :: 0 <= i < j < |r| ==> InOrder(sortBy, sortOrder, r[i], r[j])
  {
    var s := SearchFiltered(transactions, query, amountText);
    var r := Displayed(transactions, query, sortBy, sortOrder, amountText);
    OrderConsistent(sortBy, sortOrder, s);
    Sorting.InsertionSortSorted(s, Order(sortBy, sortOrder));
    forall i, j | 0 <= i < j < |r|
      ensures InOrder(sortBy, sortOrder, r[i], r[j])
    {
      OrderMeaning(sortBy, sortOrder, r[i], r[j]);
    }
  }

  /** The footer's count and total are those of the searched list, whatever
      the sort. */
  lemma {:induction false} FooterTotals(transactions: seq<Transaction>, query: string, sortBy: SortBy, sortOrder: SortDirection,
                                         amountText: real -> string)
    ensures var r := Displayed(transactions, query, sortBy, sortOrder, amountText);
            && |r| == |SearchFiltered(transactions, query, amountText)|
            && Calculations.TotalSpent(r) == Calculations.TotalSpent(SearchFiltered(transactions, query, amountText))
  {
    var r := Displayed(transactions, query, sortBy, sortOrder, amountText);
    var s := SearchFiltered(transactions, query, amountText);
    assert |r| == |multiset(r)| == |multiset(s)| == |s|;
    Calculations.TotalSpentOfPermutation(r, s);
  }

  /** The sort settings after `toggleSort(field)`: the field is sorted on;
      the same field flips the direction, another one starts descending. */
  function Toggled(sortBy: SortBy, sortOrder: SortDirection, field: SortBy): (r: (SortBy, SortDirection))
    ensures r.0 == field
    ensures sortBy == field ==> r.1 != sortOrder
    ensures sortBy != field ==> r.1 == Desc
  {
    if sortBy == field then (sortBy, if sortOrder == Asc then Desc else Asc) else (field, Desc)
  }

  /** Toggling the same field twice restores the order. */
  lemma ToggleLaws(sortBy: SortBy, sortOrder: SortDirection)
    ensures var (b, o) := Toggled(sortBy, sortOrder, sortBy); Toggled(b, o, sortBy) == (sortBy, sortOrder)
  {
  }

  /** The dialog's own state. */
  class View {
    var searchQuery: string
    var sortBy: SortBy
    var sortOrder: SortDirection

    constructor()
      ensures searchQuery == "" && sortBy == ByDate && sortOrder == Desc
    {
      searchQuery := "";
      sortBy := ByDate;
      sortOrder := Desc;
    }

    /** The search box's `onChange`. */
    method SetSearchQuery(query: string)
      modifies this
      ensures searchQuery == query && sortBy == old(sortBy) && sortOrder == old(sortOrder)
    {
      searchQuery := query;
    }

    /** `toggleSort`. */
    method ToggleSort(field: SortBy)
      modifies this
      ensures (sortBy, sortOrder) == Toggled(old(sortBy), old(sortOrder), field)
      ensures searchQuery == old(searchQuery)
    {
      if sortBy == field {
        sortOrder := if sortOrder == Asc then Desc else Asc;
      } else {
        sortBy := field;
        sortOrder := Desc;
      }
    }
  }

  /** `handleDelete`: the store deletes the transaction only when the user
      confirms; `deleted` is the data layer's answer. */
  method HandleDelete(store: TransactionStore.Store, id: string, confirmed: bool, deleted: Outcome) returns (r: Outcome)
    modifies store
    ensures !confirmed ==> r == Pass && unchanged(store)
    ensures confirmed ==> r == deleted && !store.isLoading
    ensures confirmed && deleted.Pass? ==> store.transactions == TransactionStore.WithoutId(old(store.transactions), id)
    ensures confirmed && deleted.Fail? ==> store.transactions == old(store.transactions)
  {
    r := Pass;
    if confirmed {
      r := store.DeleteTransaction(id, deleted);
    }
  }
}
