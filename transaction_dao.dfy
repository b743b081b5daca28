/** src/lib/db/dao/transactionDao.ts over the transaction table. The clock
    reading `new Date()` and the fresh id of `generateId()` are
    parameters. */
module TransactionDao {
  import opened Wrappers
  import opened Models
  import opened Db
  import Seqs
  import Text
  import Sorting

  /** The record `create` stores: the input, its timestamp or else `now`,
      and both stamps `now`. */
  function NewTransaction(input: CreateTransactionInput, id: string, now: Instant): (r: Transaction)
    ensures r.id == id && r.budgetId == input.budgetId && r.amount == input.amount && r.comment == input.comment
    ensures r.createdAt == now && r.updatedAt == now
    ensures input.timestamp.None? ==> r.timestamp == now
    ensures input.timestamp.Some? ==> r.timestamp == input.timestamp.value
  {
    Transaction(id, input.budgetId, input.amount, input.comment, input.timestamp.GetOr(now), now, now)
  }

  /** `create`: add the new record; an add that finds the id taken is
      rejected. */
  method Create(db: Database, input: CreateTransactionInput, id: string, now: Instant) returns (r: Result<Transaction>)
    requires db.Valid()
    modifies db
    ensures db.Valid() && db.budgets == old(db.budgets)
    ensures r.Success? <==> id !in old(db.transactions)
    ensures r.Success? ==> r.value == NewTransaction(input, id, now)
                           && db.transactions == old(db.transactions)[id := r.value]
    ensures r.Failure? ==> db.transactions == old(db.transactions)
  {
    var transaction := NewTransaction(input, id, now);
    var added := db.AddTransaction(transaction);
    if added.Pass? {
      r := Success(transaction);
    } else {
      r := Failure(added.error);
    }
  }

  /** `update`: the supplied fields and a fresh `updatedAt` are merged into
      the row; a missing id changes nothing. */
  method Update(db: Database, id: string, updates: TransactionChanges, now: Instant)
    requires db.Valid()
    modifies db
    ensures db.Valid() && db.budgets == old(db.budgets)
    ensures db.transactions == if id in old(db.transactions)
                               then old(db.transactions)[id := ApplyTransactionChanges(old(db.transactions)[id], updates.(updatedAt := Some(now)))]
                               else old(db.transactions)
    ensures id in old(db.transactions) ==> db.transactions[id].updatedAt == now && db.transactions[id].id == id
  {
    db.UpdateTransaction(id, updates.(updatedAt := Some(now)));
  }

  /** `delete`. */
  method Delete(db: Database, id: string)
    requires db.Valid()
    modifies db
    ensures db.Valid() && db.budgets == old(db.budgets)
    ensures db.transactions == old(db.transactions) - {id}
  {
    db.DeleteTransaction(id);
  }

  // Sorting

  /** A sort key as JavaScript compares it: a number, a string, or
      `undefined` for a missing comment. */
  datatype SortValue = Num(n: real) | Str(s: string) | Undefined

  function FieldValue(t: Transaction, field: SortField): SortValue {
    match field
    case TimestampField => Num(t.timestamp as real)
    case AmountField => Num(t.amount)
    case CommentField => if t.comment.Some? then Str(t.comment.value) else Undefined
  }

  /** JavaScript's `<` on two sort keys; `undefined` is below nothing and
      nothing is below it. */
  predicate ValueLess(a: SortValue, b: SortValue) {
    match (a, b)
    case (Num(x), Num(y)) => x < y
    case (Str(x), Str(y)) => Text.LexLess(x, y)
    case _ => false
  }

  /** The comparator `getFiltered` hands to `sort`. */
  function Compare(sort: TransactionSort, a: Transaction, b: Transaction): (r: int)
    ensures -1 <= r <= 1
  {
    var aValue := FieldValue(a, sort.field);
    var bValue := FieldValue(b, sort.field);
    if ValueLess(aValue, bValue) then (if sort.direction == Asc then -1 else 1)
    else if ValueLess(bValue, aValue) then (if sort.direction == Asc then 1 else -1)
    else 0
  }

  /** The order the sorted array respects: `a` may precede `b`. */
  function SortOrder(sort: TransactionSort): (Transaction, Transaction) -> bool {
    (a: Transaction, b: Transaction) => Compare(sort, a, b) <= 0
  }

  /** The default sort: by timestamp, newest first. */
  const DEFAULT_SORT: TransactionSort := TransactionSort(TimestampField, Desc)

  /** What the order means for each field and direction. */
  lemma SortOrderMeaning(sort: TransactionSort, a: Transaction, b: Transaction)
    ensures sort.field == TimestampField ==>
              (SortOrder(sort)(a, b) <==> if sort.direction == Asc then a.timestamp <= b.timestamp else a.timestamp >= b.timestamp)
    ensures sort.field == AmountField ==>
              (SortOrder(sort)(a, b) <==> if sort.direction == Asc then a.amount <= b.amount else a.amount >= b.amount)
    ensures sort.field == CommentField && a.comment.Some? && b.comment.Some? ==>
              (SortOrder(sort)(a, b) <==> if sort.direction == Asc then !Text.LexLess(b.comment.value, a.comment.value)
                                          else !Text.LexLess(a.comment.value, b.comment.value))
  {
    if sort.field == CommentField && a.comment.Some? && b.comment.Some? && Text.LexLess(a.comment.value, b.comment.value) {
      Text.LexLessAsymmetric(a.comment.value, b.comment.value);
    }
  }

  /** A missing comment compares equal to every transaction, so the order
      may put it anywhere: the comparator is only consistent when every
      transaction has a comment. */
  lemma UndefinedCommentComparesEqual(sort: TransactionSort, a: Transaction, b: Transaction)
    requires sort.field == CommentField && a.comment.None?
    ensures Compare(sort, a, b) == 0 && Compare(sort, b, a) == 0
  {
  }

  /** Sorting by timestamp or amount, or by comment when every transaction
      has one, uses a consistent order. */
  lemma {:induction false} SortOrderConsistent(sort: TransactionSort, s: seq<Transaction>)
    requires sort.field == CommentField ==> forall t :: t in s ==> t.comment.Some?
    ensures Sorting.ConsistentOn(SortOrder(sort), s)
  {
    var le := SortOrder(sort);
    forall a, b | a in s && b in s
      ensures le(a, b) || le(b, a)
    {
      SortOrderMeaning(sort, a, b);
      SortOrderMeaning(sort, b, a);
      if sort.field == CommentField && Text.LexLess(a.comment.value, b.comment.value) {
        Text.LexLessAsymmetric(a.comment.value, b.comment.value);
      }
    }
    forall a, b, c | a in s && b in s && c in s && le(a, b) && le(b, c)
      ensures le(a, c)
    {
      SortOrderMeaning(sort, a, b);
      SortOrderMeaning(sort, b, c);
      SortOrderMeaning(sort, a, c);
      if sort.field == CommentField {
        StringOrderTransitive(a.comment.value, b.comment.value, c.comment.value);
      }
    }
  }

  /** "Not after" on strings is transitive. */
  lemma StringOrderTransitive(x: string, y: string, z: string)
    ensures !Text.LexLess(y, x) && !Text.LexLess(z, y) ==> !Text.LexLess(z, x)
    ensures !Text.LexLess(x, y) && !Text.LexLess(y, z) ==> !Text.LexLess(x, z)
  {
    if !Text.LexLess(y, x) && !Text.LexLess(z, y) && Text.LexLess(z, x) {
      if x != y {
        Text.LexLessTotal(x, y);
        Text.LexLessTransitive(z, x, y);
      }
    }
    if !Text.LexLess(x, y) && !Text.LexLess(y, z) && Text.LexLess(x, z) {
      if y != z {
        Text.LexLessTotal(y, z);
        Text.LexLessTransitive(x, z, y);
      }
    }
  }

  // Queries

  /** `getByBudgetId`: the budget's transactions, newest first. */
  method GetByBudgetId(db: Database, budgetId: string) returns (r: seq<Transaction>)
    requires db.Valid()
    ensures forall x :: multiset(r)[x] == if x in db.transactions.Values && x.budgetId == budgetId then 1 else 0
    ensures Sorting.SortedBy(r, SortOrder(DEFAULT_SORT))
  {
    var rows := db.TransactionsOfBudget(budgetId);
    Seqs.DistinctCountsOne(rows);
    SortOrderConsistent(DEFAULT_SORT, rows);
    Sorting.InsertionSortSorted(rows, SortOrder(DEFAULT_SORT));
    r := Sorting.InsertionSort(rows, SortOrder(DEFAULT_SORT));
  }

  /** The number of items `slice(0, limit)` keeps from a list of `length`
      items: a negative limit counts back from the end. */
  function SliceEnd(length: nat, limit: int): (r: nat)
    ensures r <= length
    ensures limit >= 0 ==> r == if limit < length then limit else length
    ensures limit < 0 ==> r == if length + limit > 0 then length + limit else 0
  {
    if limit >= 0 then (if limit < length then limit else length)
    else if length + limit > 0 then length + limit else 0
  }

  /** The stored transactions of a budget. */
  function RowsOf(transactions: map<string, Transaction>, budgetId: string): set<Transaction> {
    set t | t in transactions.Values && t.budgetId == budgetId
  }

  /** `getRecentByBudgetId`: the first `limit` of the budget's
      transactions, newest first; any transaction of the budget left out is
      no newer than every one returned. */
  method GetRecentByBudgetId(db: Database, budgetId: string, limit: int) returns (r: seq<Transaction>)
    requires db.Valid()
    ensures |r| == SliceEnd(|RowsOf(db.transactions, budgetId)|, limit)
    ensures forall x :: multiset(r)[x] <= 1
    ensures limit >= 0 ==> |r| <= limit
    ensures limit >= 0 ==> |r| == limit || forall t :: t in db.transactions.Values && t.budgetId == budgetId ==> t in r
    ensures forall t :: t in r ==> t in db.transactions.Values && t.budgetId == budgetId
    ensures forall i, j :: 0 <= i < j < |r| ==> r[i].timestamp >= r[j].timestamp
    ensures forall t, u :: t in db.transactions.Values && t.budgetId == budgetId && t !in r && u in r ==>
              u.timestamp >= t.timestamp
  {
    var all := GetByBudgetId(db, budgetId);
    Seqs.CountsOneSize(all, RowsOf(db.transactions, budgetId));
    r := all[..SliceEnd(|all|, limit)];
    Seqs.PrefixCountsAtMostOne(all, |r|);
    if limit >= 0 && |r| != limit {
      assert r == all;
      forall t | t in db.transactions.Values && t.budgetId == budgetId
        ensures t in r
      {
        assert multiset(all)[t] == 1;
      }
    }
    forall i, j | 0 <= i < j < |r|
      ensures r[i].timestamp >= r[j].timestamp
    {
      SortOrderMeaning(DEFAULT_SORT, all[i], all[j]);
    }
    forall t, u | t in db.transactions.Values && t.budgetId == budgetId && t !in r && u in r
      ensures u.timestamp >= t.timestamp
    {
      assert multiset(all)[t] == 1;
      assert t in multiset(all);
      var j :| 0 <= j < |all| && all[j] == t;
      var i :| 0 <= i < |r| && r[i] == u;
      assert j >= |r|;
      SortOrderMeaning(DEFAULT_SORT, all[i], all[j]);
    }
    forall t | t in r
      ensures t in db.transactions.Values && t.budgetId == budgetId
    {
      assert t in multiset(all);
    }
  }

  // Filtering

  /** The search filter is on when the query is present and non-empty. */
  predicate SearchActive(filters: TransactionFilters) {
    filters.searchQuery.Some? && filters.searchQuery.value != ""
  }

  /** The lowercased comment contains the lowercased query; a transaction
      without a comment never matches. */
  predicate CommentMatches(t: Transaction, query: string) {
    t.comment.Some? && Text.Includes(Text.ToLower(t.comment.value), query)
  }

  /** A transaction passes every supplied filter; an absent filter passes
      everything, so with no filters every transaction passes. */
  predicate MatchesFilters(filters: TransactionFilters, t: Transaction)
    ensures filters == NO_FILTERS ==> MatchesFilters(filters, t)
  {
    && (filters.startDate.Some? ==> t.timestamp >= filters.startDate.value)
    && (filters.endDate.Some? ==> t.timestamp <= filters.endDate.value)
    && (filters.minAmount.Some? ==> t.amount >= filters.minAmount.value)
    && (filters.maxAmount.Some? ==> t.amount <= filters.maxAmount.value)
    && (SearchActive(filters) ==> CommentMatches(t, Text.ToLower(filters.searchQuery.value)))
  }

  const NO_FILTERS: TransactionFilters := TransactionFilters(None, None, None, None, None)

  /** The filter criteria of `getFiltered`, one per supplied filter. */
  function AtOrAfter(start: Instant): Transaction -> bool {
    (t: Transaction) => t.timestamp >= start
  }

  function AtOrBefore(end: Instant): Transaction -> bool {
    (t: Transaction) => t.timestamp <= end
  }

  function AmountAtLeast(minAmount: real): Transaction -> bool {
    (t: Transaction) => t.amount >= minAmount
  }

  function AmountAtMost(maxAmount: real): Transaction -> bool {
    (t: Transaction) => t.amount <= maxAmount
  }

  function CommentIncludes(query: string): Transaction -> bool {
    (t: Transaction) => CommentMatches(t, query)
  }

  /** Each stage of the chain: filter when the filter is supplied; a
      transaction stays exactly when it was there and passes the filter. */
  function StartStage(s: seq<Transaction>, filters: TransactionFilters): (r: seq<Transaction>)
    ensures forall t :: t in r <==> t in s && (filters.startDate.Some? ==> t.timestamp >= filters.startDate.value)
  {
    if filters.startDate.Some? then Seqs.FilterMembers(s, AtOrAfter(filters.startDate.value)); Seqs.Filter(s, AtOrAfter(filters.startDate.value)) else s
  }

  function EndStage(s: seq<Transaction>, filters: TransactionFilters): (r: seq<Transaction>)
    ensures forall t :: t in r <==> t in s && (filters.endDate.Some? ==> t.timestamp <= filters.endDate.value)
  {
    if filters.endDate.Some? then Seqs.FilterMembers(s, AtOrBefore(filters.endDate.value)); Seqs.Filter(s, AtOrBefore(filters.endDate.value)) else s
  }

  function MinStage(s: seq<Transaction>, filters: TransactionFilters): (r: seq<Transaction>)
    ensures forall t :: t in r <==> t in s && (filters.minAmount.Some? ==> t.amount >= filters.minAmount.value)
  {
    if filters.minAmount.Some? then Seqs.FilterMembers(s, AmountAtLeast(filters.minAmount.value)); Seqs.Filter(s, AmountAtLeast(filters.minAmount.value)) else s
  }

  function MaxStage(s: seq<Transaction>, filters: TransactionFilters): (r: seq<Transaction>)
    ensures forall t :: t in r <==> t in s && (filters.maxAmount.Some? ==> t.amount <= filters.maxAmount.value)
  {
    if filters.maxAmount.Some? then Seqs.FilterMembers(s, AmountAtMost(filters.maxAmount.value)); Seqs.Filter(s, AmountAtMost(filters.maxAmount.value)) else s
  }

  function SearchStage(s: seq<Transaction>, filters: TransactionFilters): (r: seq<Transaction>)
    ensures forall t :: t in r <==> t in s && (SearchActive(filters) ==> CommentMatches(t, Text.ToLower(filters.searchQuery.value)))
  {
    if SearchActive(filters) then Seqs.FilterMembers(s, CommentIncludes(Text.ToLower(filters.searchQuery.value))); Seqs.Filter(s, CommentIncludes(Text.ToLower(filters.searchQuery.value))) else s
  }

  /** The five filters of `getFiltered`, applied in the source's order:
      what is left is exactly what passes every supplied filter. */
  function FilterChain(s: seq<Transaction>, filters: TransactionFilters): (r: seq<Transaction>)
    ensures forall t :: t in r <==> t in s && MatchesFilters(filters, t)
  {
    SearchStage(MaxStage(MinStage(EndStage(StartStage(s, filters), filters), filters), filters), filters)
  }

  /** The chain keeps every occurrence of a transaction that passes all
      supplied filters and drops every other one. */
  lemma {:induction false} FilterChainCounts(s: seq<Transaction>, filters: TransactionFilters)
    ensures forall x :: multiset(FilterChain(s, filters))[x] == if MatchesFilters(filters, x) then multiset(s)[x] else 0
  {
    var s1 := StartStage(s, filters);
    var s2 := EndStage(s1, filters);
    var s3 := MinStage(s2, filters);
    var s4 := MaxStage(s3, filters);
    var s5 := SearchStage(s4, filters);
    if filters.startDate.Some? { Seqs.FilterCounts(s, AtOrAfter(filters.startDate.value)); }
    if filters.endDate.Some? { Seqs.FilterCounts(s1, AtOrBefore(filters.endDate.value)); }
    if filters.minAmount.Some? { Seqs.FilterCounts(s2, AmountAtLeast(filters.minAmount.value)); }
    if filters.maxAmount.Some? { Seqs.FilterCounts(s3, AmountAtMost(filters.maxAmount.value)); }
    if SearchActive(filters) { Seqs.FilterCounts(s4, CommentIncludes(Text.ToLower(filters.searchQuery.value))); }
    forall x
      ensures multiset(s5)[x] == if MatchesFilters(filters, x) then multiset(s)[x] else 0
    {
      assert multiset(s1)[x] == if filters.startDate.Some? ==> x.timestamp >= filters.startDate.value then multiset(s)[x] else 0;
      assert multiset(s2)[x] == if filters.endDate.Some? ==> x.timestamp <= filters.endDate.value then multiset(s1)[x] else 0;
      assert multiset(s3)[x] == if filters.minAmount.Some? ==> x.amount >= filters.minAmount.value then multiset(s2)[x] else 0;
      assert multiset(s4)[x] == if filters.maxAmount.Some? ==> x.amount <= filters.maxAmount.value then multiset(s3)[x] else 0;
    }
  }

  /** `getFiltered`: the budget's transactions, narrowed by each supplied
      filter in turn and sorted by the requested field and direction. The
      result holds each matching stored transaction exactly once, and it is
      in order unless it sorts by comment and some comment is missing. */
  method GetFiltered(db: Database, budgetId: string, filters: TransactionFilters, sort: TransactionSort)
    returns (r: seq<Transaction>)
    requires db.Valid()
    ensures forall x :: multiset(r)[x] ==
              if x in db.transactions.Values && x.budgetId == budgetId && MatchesFilters(filters, x) then 1 else 0
    ensures (sort.field == CommentField ==> forall t :: t in r ==> t.comment.Some?) ==>
              Sorting.SortedBy(r, SortOrder(sort))
  {
    var transactions := db.TransactionsOfBudget(budgetId);
    ghost var rows := transactions;

    if filters.startDate.Some? {
      transactions := Seqs.Filter(transactions, AtOrAfter(filters.startDate.value));
    }
    assert transactions == StartStage(rows, filters);
    ghost var stage := transactions;
    if filters.endDate.Some? {
      transactions := Seqs.Filter(transactions, AtOrBefore(filters.endDate.value));
    }
    assert transactions == EndStage(stage, filters);
    stage := transactions;
    if filters.minAmount.Some? {
      transactions := Seqs.Filter(transactions, AmountAtLeast(filters.minAmount.value));
    }
    assert transactions == MinStage(stage, filters);
    stage := transactions;
    if filters.maxAmount.Some? {
      transactions := Seqs.Filter(transactions, AmountAtMost(filters.maxAmount.value));
    }
    assert transactions == MaxStage(stage, filters);
    stage := transactions;
    if SearchActive(filters) {
      var query := Text.ToLower(filters.searchQuery.value);
      transactions := Seqs.Filter(transactions, CommentIncludes(query));
    }
    assert transactions == SearchStage(stage, filters);
    assert transactions == FilterChain(rows, filters);

    r := Sorting.InsertionSort(transactions, SortOrder(sort));
    FilteredCounts(db, budgetId, filters, rows, transactions, r);
    SortedUnlessCommentMissing(sort, transactions);
  }

  /** The sort puts the list in order, unless it sorts by comment and some
      comment is missing. */
  lemma SortedUnlessCommentMissing(sort: TransactionSort, s: seq<Transaction>)
    ensures var r := Sorting.InsertionSort(s, SortOrder(sort));
            (sort.field == CommentField ==> forall t :: t in r ==> t.comment.Some?) ==> Sorting.SortedBy(r, SortOrder(sort))
  {
    var r := Sorting.InsertionSort(s, SortOrder(sort));
    if sort.field != CommentField || forall t :: t in r ==> t.comment.Some? {
      Sorting.SortedMembers(s, SortOrder(sort));
      SortOrderConsistent(sort, s);
      Sorting.InsertionSortSorted(s, SortOrder(sort));
    }
  }

  /** The counting step of `getFiltered`: the query lists each row of the
      budget once, the chain keeps the matching ones and sorting keeps the
      counts. */
  lemma FilteredCounts(db: Database, budgetId: string, filters: TransactionFilters,
                       rows: seq<Transaction>, filtered: seq<Transaction>, r: seq<Transaction>)
    requires forall t :: t in rows <==> t in db.transactions.Values && t.budgetId == budgetId
    requires forall i, j :: 0 <= i < j < |rows| ==> rows[i].id != rows[j].id
    requires filtered == FilterChain(rows, filters)
    requires multiset(r) == multiset(filtered)
    ensures forall x :: multiset(r)[x] ==
              if x in db.transactions.Values && x.budgetId == budgetId && MatchesFilters(filters, x) then 1 else 0
  {
    Seqs.DistinctCountsOne(rows);
    FilterChainCounts(rows, filters);
  }
}
