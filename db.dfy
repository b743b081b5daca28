/** The two tables of src/lib/db/schema.ts, keyed by id, and the storage
    operations the data layer uses on them: `get`, `add`, `update`,
    `delete` and the index queries `where(...).equals(...).toArray()`. */
module Db {
  import opened Wrappers
  import opened Models

  /** `update(id, changes)` on a budget row: the supplied fields replace
      the stored ones; `id` and `createdAt` cannot be changed. */
  function ApplyBudgetChanges(b: Budget, c: BudgetChanges): (r: Budget)
    ensures r.id == b.id && r.createdAt == b.createdAt
    ensures c.totalAmount.Some? ==> r.totalAmount == c.totalAmount.value
    ensures c.totalAmount.None? ==> r.totalAmount == b.totalAmount
    ensures c.startDate.Some? ==> r.startDate == c.startDate.value
    ensures c.startDate.None? ==> r.startDate == b.startDate
    ensures c.endDate.Some? ==> r.endDate == c.endDate.value
    ensures c.endDate.None? ==> r.endDate == b.endDate
    ensures c.currency.Some? ==> r.currency == c.currency.value
    ensures c.currency.None? ==> r.currency == b.currency
    ensures c.isActive.Some? ==> r.isActive == c.isActive.value
    ensures c.isActive.None? ==> r.isActive == b.isActive
    ensures c.updatedAt.Some? ==> r.updatedAt == c.updatedAt.value
    ensures c.updatedAt.None? ==> r.updatedAt == b.updatedAt
    ensures c == BudgetChanges(None, None, None, None, None, None) ==> r == b
  {
    Budget(b.id, c.totalAmount.GetOr(b.totalAmount), c.startDate.GetOr(b.startDate),
           c.endDate.GetOr(b.endDate), c.currency.GetOr(b.currency), c.isActive.GetOr(b.isActive),
           b.createdAt, c.updatedAt.GetOr(b.updatedAt))
  }

  /** Writing the same changes twice is the same as writing them once. */
  lemma ApplyBudgetChangesIdempotent(b: Budget, c: BudgetChanges)
    ensures ApplyBudgetChanges(ApplyBudgetChanges(b, c), c) == ApplyBudgetChanges(b, c)
  {
  }

  /** `update(id, changes)` on a transaction row: the supplied fields
      replace the stored ones; `id` and `createdAt` cannot be changed. */
  function ApplyTransactionChanges(t: Transaction, c: TransactionChanges): (r: Transaction)
    ensures r.id == t.id && r.createdAt == t.createdAt
    ensures c.budgetId.Some? ==> r.budgetId == c.budgetId.value
    ensures c.budgetId.None? ==> r.budgetId == t.budgetId
    ensures c.amount.Some? ==> r.amount == c.amount.value
    ensures c.amount.None? ==> r.amount == t.amount
    ensures c.comment.Some? ==> r.comment == c.comment.value
    ensures c.comment.None? ==> r.comment == t.comment
    ensures c.timestamp.Some? ==> r.timestamp == c.timestamp.value
    ensures c.timestamp.None? ==> r.timestamp == t.timestamp
    ensures c.updatedAt.Some? ==> r.updatedAt == c.updatedAt.value
    ensures c.updatedAt.None? ==> r.updatedAt == t.updatedAt
    ensures c == TransactionChanges(None, None, None, None, None) ==> r == t
  {
    Transaction(t.id, c.budgetId.GetOr(t.budgetId), c.amount.GetOr(t.amount), c.comment.GetOr(t.comment),
                c.timestamp.GetOr(t.timestamp), t.createdAt, c.updatedAt.GetOr(t.updatedAt))
  }

  class Database {
    var budgets: map<string, Budget>
    var transactions: map<string, Transaction>

    /** Every row is stored under its own id, the primary key. */
    predicate Valid()
      reads this
    {
      && (forall k :: k in budgets ==> budgets[k].id == k)
      && (forall k :: k in transactions ==> transactions[k].id == k)
    }

    constructor()
      ensures Valid() && budgets == map[] && transactions == map[]
    {
      budgets := map[];
      transactions := map[];
    }

    /** `budgets.get(id)`. */
    function GetBudget(id: string): (r: Option<Budget>)
      reads this
      ensures r.Some? <==> id in budgets
      ensures r.Some? ==> r.value == budgets[id]
    {
      if id in budgets then Some(budgets[id]) else None
    }

    /** `budgets.add(b)`: rejected when the key is taken. */
    method AddBudget(b: Budget) returns (o: Outcome)
      requires Valid()
      modifies this
      ensures Valid() && transactions == old(transactions)
      ensures o.Pass? <==> b.id !in old(budgets)
      ensures budgets == if o.Pass? then old(budgets)[b.id := b] else old(budgets)
    {
      if b.id in budgets {
        o := Fail("ConstraintError");
      } else {
        budgets := budgets[b.id := b];
        o := Pass;
      }
    }

    /** `budgets.update(id, changes)`: nothing happens for a missing key. */
    method UpdateBudget(id: string, c: BudgetChanges)
      requires Valid()
      modifies this
      ensures Valid() && transactions == old(transactions)
      ensures budgets == if id in old(budgets) then old(budgets)[id := ApplyBudgetChanges(old(budgets)[id], c)]
                         else old(budgets)
    {
      if id in budgets {
        budgets := budgets[id := ApplyBudgetChanges(budgets[id], c)];
      }
    }

    /** `budgets.delete(id)`. */
    method DeleteBudget(id: string)
      requires Valid()
      modifies this
      ensures Valid() && transactions == old(transactions)
      ensures budgets == old(budgets) - {id}
    {
      budgets := budgets - {id};
    }

    /** `budgets.where("isActive").equals(1).toArray()`: every stored row
        whose flag is 1, each once. The index order is not modelled. */
    method ActiveBudgets() returns (rows: seq<Budget>)
      requires Valid()
      ensures forall b :: b in rows <==> b in budgets.Values && b.isActive == 1
      ensures forall i, j :: 0 <= i < j < |rows| ==> rows[i].id != rows[j].id
    {
      var keys := budgets.Keys;
      rows := [];
      while keys != {}
        invariant keys <= budgets.Keys
        invariant forall i :: 0 <= i < |rows| ==>
                    rows[i].id in budgets && rows[i].id !in keys && budgets[rows[i].id] == rows[i] && rows[i].isActive == 1
        invariant forall i, j :: 0 <= i < j < |rows| ==> rows[i].id != rows[j].id
        invariant forall k :: k in budgets && k !in keys && budgets[k].isActive == 1 ==> budgets[k] in rows
        decreases keys
      {
        var k :| k in keys;
        if budgets[k].isActive == 1 {
          rows := rows + [budgets[k]];
        }
        keys := keys - {k};
      }
    }

    /** `transactions.get(id)`. */
    function GetTransaction(id: string): (r: Option<Transaction>)
      reads this
      ensures r.Some? <==> id in transactions
      ensures r.Some? ==> r.value == transactions[id]
    {
      if id in transactions then Some(transactions[id]) else None
    }

    /** `transactions.add(t)`: rejected when the key is taken. */
    method AddTransaction(t: Transaction) returns (o: Outcome)
      requires Valid()
      modifies this
      ensures Valid() && budgets == old(budgets)
      ensures o.Pass? <==> t.id !in old(transactions)
      ensures transactions == if o.Pass? then old(transactions)[t.id := t] else old(transactions)
    {
      if t.id in transactions {
        o := Fail("ConstraintError");
      } else {
        transactions := transactions[t.id := t];
        o := Pass;
      }
    }

    /** `transactions.update(id, changes)`: nothing happens for a missing
        key. */
    method UpdateTransaction(id: string, c: TransactionChanges)
      requires Valid()
      modifies this
      ensures Valid() && budgets == old(budgets)
      ensures transactions == if id in old(transactions)
                              then old(transactions)[id := ApplyTransactionChanges(old(transactions)[id], c)]
                              else old(transactions)
    {
      if id in transactions {
        transactions := transactions[id := ApplyTransactionChanges(transactions[id], c)];
      }
    }

    /** `transactions.delete(id)`. */
    method DeleteTransaction(id: string)
      requires Valid()
      modifies this
      ensures Valid() && budgets == old(budgets)
      ensures transactions == old(transactions) - {id}
    {
      transactions := transactions - {id};
    }

    /** `transactions.where("budgetId").equals(budgetId).toArray()`: every
        stored transaction of the budget, each once. The index order is not
        modelled. */
    method TransactionsOfBudget(budgetId: string) returns (rows: seq<Transaction>)
      requires Valid()
      ensures forall t :: t in rows <==> t in transactions.Values && t.budgetId == budgetId
      ensures forall i, j :: 0 <= i < j < |rows| ==> rows[i].id != rows[j].id
    {
      var keys := transactions.Keys;
      rows := [];
      while keys != {}
        invariant keys <= transactions.Keys
        invariant forall i :: 0 <= i < |rows| ==>
                    rows[i].id in transactions && rows[i].id !in keys && transactions[rows[i].id] == rows[i]
                    && rows[i].budgetId == budgetId
        invariant forall i, j :: 0 <= i < j < |rows| ==> rows[i].id != rows[j].id
        invariant forall k :: k in transactions && k !in keys && transactions[k].budgetId == budgetId ==>
                    transactions[k] in rows
        decreases keys
      {
        var k :| k in keys;
        if transactions[k].budgetId == budgetId {
          rows := rows + [transactions[k]];
        }
        keys := keys - {k};
      }
    }
  }
}
