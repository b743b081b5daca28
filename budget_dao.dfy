/** src/lib/db/dao/budgetDao.ts over the budget table. The clock reading
    `new Date()` and the fresh id of `generateId()` are parameters. */
module BudgetDao {
  import opened Wrappers
  import opened Models
  import opened Db

  /** The changes `{ isActive: 0 }` written to every active row. */
  const DEACTIVATE: BudgetChanges := BudgetChanges(None, None, None, None, Some(0), None)

  /** At most one stored budget has its flag at 1. */
  predicate AtMostOneActive(budgets: map<string, Budget>) {
    forall j, k :: j in budgets && k in budgets && budgets[j].isActive == 1 && budgets[k].isActive == 1 ==> j == k
  }

  /** The table after every row with flag 1 received `{ isActive: 0 }`. */
  function Deactivated(budgets: map<string, Budget>): (r: map<string, Budget>)
    ensures r.Keys == budgets.Keys
    ensures forall k :: k in r ==> r[k].isActive != 1
    ensures forall k :: k in r && budgets[k].isActive == 1 ==> r[k].isActive == 0
    ensures forall k :: k in r ==> r[k].(isActive := budgets[k].isActive) == budgets[k]
    ensures forall k :: k in r && budgets[k].isActive != 1 ==> r[k] == budgets[k]
  {
    map k | k in budgets :: if budgets[k].isActive == 1 then ApplyBudgetChanges(budgets[k], DEACTIVATE) else budgets[k]
  }

  /** The record `create` stores: the input, flag 1, both stamps `now`. */
  function NewBudget(input: CreateBudgetInput, id: string, now: Instant): (r: Budget)
    ensures r.id == id && r.isActive == 1 && r.createdAt == now && r.updatedAt == now
    ensures r.totalAmount == input.totalAmount && r.startDate == input.startDate
            && r.endDate == input.endDate && r.currency == input.currency
  {
    Budget(id, input.totalAmount, input.startDate, input.endDate, input.currency, 1, now, now)
  }

  /** After `create`, the new row is the one active budget and every other
      row differs from before at most in its flag. */
  lemma {:induction false} CreateLeavesOneActive(budgets: map<string, Budget>, b: Budget)
    requires b.isActive == 1
    ensures var r := Deactivated(budgets)[b.id := b];
            && AtMostOneActive(r)
            && (forall k :: k in r ==> (r[k].isActive == 1 <==> k == b.id))
            && (forall k :: k in budgets && k != b.id ==> r[k].(isActive := budgets[k].isActive) == budgets[k])
  {
    var d := Deactivated(budgets);
    var r := d[b.id := b];
    forall k | k in r
      ensures r[k].isActive == 1 <==> k == b.id
    {
      if k != b.id {
        assert r[k] == d[k];
      }
    }
  }

  /** `deactivateAll`: every active row is given `{ isActive: 0 }`. */
  method DeactivateAll(db: Database)
    requires db.Valid()
    modifies db
    ensures db.Valid() && db.transactions == old(db.transactions)
    ensures db.budgets == Deactivated(old(db.budgets))
  {
    var activeBudgets := db.ActiveBudgets();
    for i := 0 to |activeBudgets|
      invariant db.Valid() && db.transactions == old(db.transactions)
      invariant db.budgets.Keys == old(db.budgets).Keys
      invariant forall k :: k in db.budgets ==>
                  db.budgets[k] == if old(db.budgets)[k] in activeBudgets[..i]
                                   then ApplyBudgetChanges(old(db.budgets)[k], DEACTIVATE)
                                   else old(db.budgets)[k]
    {
      var id := activeBudgets[i].id;
      assert activeBudgets[i] in old(db.budgets).Values;
      assert id in db.budgets && old(db.budgets)[id] == activeBudgets[i];
      assert old(db.budgets)[id] !in activeBudgets[..i];
      assert activeBudgets[..i + 1] == activeBudgets[..i] + [activeBudgets[i]];
      db.UpdateBudget(id, DEACTIVATE);
    }
    assert activeBudgets[..|activeBudgets|] == activeBudgets;
  }

  /** `create`: deactivate every active budget, then add the new one. An
      add that finds the id taken is rejected, after the deactivation. */
  method Create(db: Database, input: CreateBudgetInput, id: string, now: Instant) returns (r: Result<Budget>)
    requires db.Valid()
    modifies db
    ensures db.Valid() && db.transactions == old(db.transactions)
    ensures r.Success? <==> id !in old(db.budgets)
    ensures r.Success? ==> r.value == NewBudget(input, id, now)
                           && db.budgets == Deactivated(old(db.budgets))[id := r.value]
    ensures r.Failure? ==> db.budgets == Deactivated(old(db.budgets))
  {
    var budget := NewBudget(input, id, now);
    DeactivateAll(db);
    var added := db.AddBudget(budget);
    if added.Pass? {
      r := Success(budget);
    } else {
      r := Failure(added.error);
    }
  }

  /** `getActive`: some row with flag 1, or None when there is none; the
      only one when at most one is active. */
  method GetActive(db: Database) returns (r: Option<Budget>)
    ensures r.Some? ==> r.value in db.budgets.Values && r.value.isActive == 1
    ensures r.None? <==> forall k :: k in db.budgets ==> db.budgets[k].isActive != 1
    ensures AtMostOneActive(db.budgets) ==>
              forall k :: k in db.budgets && db.budgets[k].isActive == 1 ==> r == Some(db.budgets[k])
  {
    if exists k :: k in db.budgets && db.budgets[k].isActive == 1 {
      var k :| k in db.budgets && db.budgets[k].isActive == 1;
      r := Some(db.budgets[k]);
    } else {
      r := None;
    }
  }

  /** `update`: the supplied fields and a fresh `updatedAt` are merged into
      the row; a missing id changes nothing. */
  method Update(db: Database, id: string, updates: BudgetChanges, now: Instant)
    requires db.Valid()
    modifies db
    ensures db.Valid() && db.transactions == old(db.transactions)
    ensures db.budgets == if id in old(db.budgets)
                          then old(db.budgets)[id := ApplyBudgetChanges(old(db.budgets)[id], updates.(updatedAt := Some(now)))]
                          else old(db.budgets)
    ensures id in old(db.budgets) ==> db.budgets[id].updatedAt == now && db.budgets[id].id == id
  {
    db.UpdateBudget(id, updates.(updatedAt := Some(now)));
  }

  /** The merged row keeps its id and creation time, takes every supplied
      field and carries the update time. */
  lemma UpdatedRow(b: Budget, updates: BudgetChanges, now: Instant)
    ensures var r := ApplyBudgetChanges(b, updates.(updatedAt := Some(now)));
            && r.id == b.id && r.createdAt == b.createdAt && r.updatedAt == now
            && (updates.totalAmount.Some? ==> r.totalAmount == updates.totalAmount.value)
            && (updates.totalAmount.None? ==> r.totalAmount == b.totalAmount)
            && (updates.startDate.Some? ==> r.startDate == updates.startDate.value)
            && (updates.startDate.None? ==> r.startDate == b.startDate)
            && (updates.endDate.Some? ==> r.endDate == updates.endDate.value)
            && (updates.endDate.None? ==> r.endDate == b.endDate)
            && (updates.currency.Some? ==> r.currency == updates.currency.value)
            && (updates.currency.None? ==> r.currency == b.currency)
            && (updates.isActive.Some? ==> r.isActive == updates.isActive.value)
            && (updates.isActive.None? ==> r.isActive == b.isActive)
  {
  }

  /** `delete`: the budget row goes; its transactions stay in their table. */
  method Delete(db: Database, id: string)
    requires db.Valid()
    modifies db
    ensures db.Valid() && db.transactions == old(db.transactions)
    ensures db.budgets == old(db.budgets) - {id}
  {
    db.DeleteBudget(id);
  }
}
