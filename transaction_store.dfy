/** src/lib/stores/transactionStore.ts: the in-memory list of the current
    budget's transactions. Each action receives the answer of the data
    layer call it awaits (a value, or the error it rejects with) and, for
    updates, the clock reading `new Date()`. */
module TransactionStore {
  import opened Wrappers
  import opened Models
  import Seqs
  import Calculations

  const LOAD_ERROR: string := "Failed to load transactions"
  const ADD_ERROR: string := "Failed to add transaction"
  const UPDATE_ERROR: string := "Failed to update transaction"
  const DELETE_ERROR: string := "Failed to delete transaction"

  /** `{ ...t, ...data, updatedAt: now }`: every property the patch carries
      replaces the transaction's, and the update time is `now`. */
  function ApplyPatch(t: Transaction, data: TransactionPatch, now: Instant): (r: Transaction)
    ensures r.updatedAt == now
    ensures data.id.Some? ==> r.id == data.id.value
    ensures data.id.None? ==> r.id == t.id
    ensures data.budgetId.Some? ==> r.budgetId == data.budgetId.value
    ensures data.budgetId.None? ==> r.budgetId == t.budgetId
    ensures data.amount.Some? ==> r.amount == data.amount.value
    ensures data.amount.None? ==> r.amount == t.amount
    ensures data.comment.Some? ==> r.comment == data.comment.value
    ensures data.comment.None? ==> r.comment == t.comment
    ensures data.timestamp.Some? ==> r.timestamp == data.timestamp.value
    ensures data.timestamp.None? ==> r.timestamp == t.timestamp
    ensures data.createdAt.Some? ==> r.createdAt == data.createdAt.value
    ensures data.createdAt.None? ==> r.createdAt == t.createdAt
    ensures data == TransactionPatch(None, None, None, None, None, None) ==> r == t.(updatedAt := now)
  {
    Transaction(data.id.GetOr(t.id), data.budgetId.GetOr(t.budgetId), data.amount.GetOr(t.amount),
                data.comment.GetOr(t.comment), data.timestamp.GetOr(t.timestamp), data.createdAt.GetOr(t.createdAt), now)
  }

  /** The `map` of `updateTransaction`: entries with the id are patched,
      the others kept, in place. */
  function Patched(transactions: seq<Transaction>, id: string, data: TransactionPatch, now: Instant): (r: seq<Transaction>)
    ensures |r| == |transactions|
    ensures forall i :: 0 <= i < |r| && transactions[i].id != id ==> r[i] == transactions[i]
    ensures forall i :: 0 <= i < |r| && transactions[i].id == id ==> r[i] == ApplyPatch(transactions[i], data, now)
  {
    seq(|transactions|, i requires 0 <= i < |transactions| =>
      if transactions[i].id == id then ApplyPatch(transactions[i], data, now) else transactions[i])
  }

  /** The criterion of `deleteTransaction`'s `filter`. */
  function OtherThan(id: string): Transaction -> bool {
    (t: Transaction) => t.id != id
  }

  /** The `filter` of `deleteTransaction`. */
  function WithoutId(transactions: seq<Transaction>, id: string): seq<Transaction> {
    Seqs.Filter(transactions, OtherThan(id))
  }

  /** Deleting removes every entry with the id and keeps every other entry,
      as often as it occurred and in the same order. */
  lemma WithoutIdKeepsOthers(transactions: seq<Transaction>, id: string)
    ensures forall t: Transaction :: t in WithoutId(transactions, id) <==> t in transactions && t.id != id
    ensures forall t: Transaction :: t.id != id ==> multiset(WithoutId(transactions, id))[t] == multiset(transactions)[t]
    ensures Seqs.IsSubsequence(WithoutId(transactions, id), transactions)
  {
    Seqs.FilterMembers(transactions, OtherThan(id));
    Seqs.FilterCounts(transactions, OtherThan(id));
    Seqs.FilterIsSubsequence(transactions, OtherThan(id));
  }

  /** Patching entries that keep their id and then deleting that id is the
      same as deleting it straight away. */
  lemma {:induction false} DeleteAfterPatch(transactions: seq<Transaction>, id: string, data: TransactionPatch, now: Instant)
    requires data.id.None?
    ensures WithoutId(Patched(transactions, id, data, now), id) == WithoutId(transactions, id)
  {
    if transactions != [] {
      var init, last := transactions[..|transactions| - 1], transactions[|transactions| - 1];
      var patched := Patched(transactions, id, data, now);
      assert transactions == init + [last];
      assert patched == Patched(init, id, data, now) + [patched[|patched| - 1]];
      DeleteAfterPatch(init, id, data, now);
      Seqs.FilterAppend(init, last, OtherThan(id));
      Seqs.FilterAppend(Patched(init, id, data, now), patched[|patched| - 1], OtherThan(id));
    }
  }

  /** What deleting removes from the total spent is the amount of the
      entries with that id. */
  lemma DeleteLowersTotal(transactions: seq<Transaction>, id: string)
    ensures Calculations.TotalSpent(transactions)
            == Calculations.TotalSpent(WithoutId(transactions, id))
               + Calculations.TotalSpent(Seqs.Filter(transactions, Calculations.Negate(OtherThan(id))))
  {
    Calculations.TotalSpentSplits(transactions, OtherThan(id));
  }

  class Store {
    var transactions: seq<Transaction>
    var isLoading: bool
    var error: Option<string>

    constructor()
      ensures transactions == [] && !isLoading && error == None
    {
      transactions := [];
      isLoading := false;
      error := None;
    }

    /** `loadTransactions`: the list becomes the fetched one; a failure
        keeps the list and records the error without rethrowing. */
    method LoadTransactions(fetched: Result<seq<Transaction>>)
      modifies this
      ensures !isLoading
      ensures fetched.Success? ==> transactions == fetched.value && error == None
      ensures fetched.Failure? ==> transactions == old(transactions) && error == Some(LOAD_ERROR)
    {
      isLoading, error := true, None;
      if fetched.Success? {
        transactions, isLoading := fetched.value, false;
      } else {
        error, isLoading := Some(LOAD_ERROR), false;
      }
    }

    /** `loadFilteredTransactions`: as `loadTransactions`, with the list the
        filtered query returns. */
    method LoadFilteredTransactions(fetched: Result<seq<Transaction>>)
      modifies this
      ensures !isLoading
      ensures fetched.Success? ==> transactions == fetched.value && error == None
      ensures fetched.Failure? ==> transactions == old(transactions) && error == Some(LOAD_ERROR)
    {
      isLoading, error := true, None;
      if fetched.Success? {
        transactions, isLoading := fetched.value, false;
      } else {
        error, isLoading := Some(LOAD_ERROR), false;
      }
    }

    /** `addTransaction`: the created transaction goes first and is
        returned; a failure keeps the list, records the error and rethrows. */
    method AddTransaction(created: Result<Transaction>) returns (r: Result<Transaction>)
      modifies this
      ensures !isLoading && r == created
      ensures created.Success? ==> transactions == [created.value] + old(transactions) && error == None
      ensures created.Failure? ==> transactions == old(transactions) && error == Some(ADD_ERROR)
    {
      isLoading, error := true, None;
      if created.Success? {
        transactions, isLoading := [created.value] + transactions, false;
        r := created;
      } else {
        error, isLoading := Some(ADD_ERROR), false;
        r := created;
      }
    }

    /** `updateTransaction`: after the stored row is updated, the entries
        with the id are patched in place with a fresh update time. */
    method UpdateTransaction(id: string, data: TransactionPatch, updated: Outcome, now: Instant) returns (r: Outcome)
      modifies this
      ensures !isLoading && r == updated
      ensures updated.Pass? ==> transactions == Patched(old(transactions), id, data, now) && error == None
      ensures updated.Fail? ==> transactions == old(transactions) && error == Some(UPDATE_ERROR)
    {
      isLoading, error := true, None;
      if updated.Pass? {
        transactions, isLoading := Patched(transactions, id, data, now), false;
        r := Pass;
      } else {
        error, isLoading := Some(UPDATE_ERROR), false;
        r := updated;
      }
    }

    /** `deleteTransaction`: after the stored row is deleted, every entry
        with the id leaves the list. */
    method DeleteTransaction(id: string, deleted: Outcome) returns (r: Outcome)
      modifies this
      ensures !isLoading && r == deleted
      ensures deleted.Pass? ==> transactions == WithoutId(old(transactions), id) && error == None
      ensures deleted.Fail? ==> transactions == old(transactions) && error == Some(DELETE_ERROR)
    {
      isLoading, error := true, None;
      if deleted.Pass? {
        transactions, isLoading := WithoutId(transactions, id), false;
        r := Pass;
      } else {
        error, isLoading := Some(DELETE_ERROR), false;
        r := deleted;
      }
    }

    /** `clearError`. */
    method ClearError()
      modifies this
      ensures error == None && transactions == old(transactions) && isLoading == old(isLoading)
    {
      error := None;
    }
  }
}
