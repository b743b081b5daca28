/** src/lib/stores/budgetStore.ts: the budget the application shows. Each
    action receives the answers of the data layer calls it awaits. */
module BudgetStore {
  import opened Wrappers
  import opened Models

  const LOAD_ERROR: string := "Failed to load current budget"
  const CREATE_ERROR: string := "Failed to create budget"
  const UPDATE_ERROR: string := "Failed to update budget"
  const DELETE_ERROR: string := "Failed to delete budget"

  /** The guard `currentBudget && currentBudget.id === id`. */
  predicate IsCurrent(current: Option<Budget>, id: string) {
    current.Some? && current.value.id == id
  }

  /** `updateBudget` resolves: the update went through and, when the shown
      budget was the one updated, so did reading it again. */
  predicate UpdateSucceeds(current: Option<Budget>, id: string, updated: Outcome, refetched: Result<Option<Budget>>) {
    updated.Pass? && (!IsCurrent(current, id) || refetched.Success?)
  }

  /** The current budget after the budget `id` was deleted. */
  function AfterDelete(current: Option<Budget>, id: string): (r: Option<Budget>)
    ensures r.None? <==> current.None? || current.value.id == id
    ensures r.Some? ==> r == current
  {
    if IsCurrent(current, id) then None else current
  }

  /** Once no budget is shown, or another one, deleting changes nothing;
      deleting the shown one twice is deleting it once. */
  lemma AfterDeleteIdempotent(current: Option<Budget>, id: string, other: string)
    ensures AfterDelete(AfterDelete(current, id), id) == AfterDelete(current, id)
    ensures AfterDelete(AfterDelete(current, id), other) == AfterDelete(AfterDelete(current, other), id)
  {
  }

  class Store {
    var currentBudget: Option<Budget>
    var isLoading: bool
    var error: Option<string>

    constructor()
      ensures currentBudget == None && !isLoading && error == None
    {
      currentBudget := None;
      isLoading := false;
      error := None;
    }

    /** `loadCurrentBudget`: shows the active budget, or none; a failure
        keeps the shown budget and records the error without rethrowing. */
    method LoadCurrentBudget(active: Result<Option<Budget>>)
      modifies this
      ensures !isLoading
      ensures active.Success? ==> currentBudget == active.value && error == None
      ensures active.Failure? ==> currentBudget == old(currentBudget) && error == Some(LOAD_ERROR)
    {
      isLoading, error := true, None;
      if active.Success? {
        currentBudget, isLoading := active.value, false;
      } else {
        error, isLoading := Some(LOAD_ERROR), false;
      }
    }

    /** `createBudget`: the created budget is shown and returned; a failure
        records the error and rethrows. */
    method CreateBudget(created: Result<Budget>) returns (r: Result<Budget>)
      modifies this
      ensures !isLoading && r == created
      ensures created.Success? ==> currentBudget == Some(created.value) && error == None
      ensures created.Failure? ==> currentBudget == old(currentBudget) && error == Some(CREATE_ERROR)
    {
      isLoading, error := true, None;
      if created.Success? {
        currentBudget, isLoading := Some(created.value), false;
        r := created;
      } else {
        error, isLoading := Some(CREATE_ERROR), false;
        r := created;
      }
    }

    /** `updateBudget`: after the stored row is updated, the shown budget is
        read again when it is the one updated (`refetched` is the answer of
        that read, which is not made otherwise). A rejection of either call
        records the error and is rethrown. */
    method UpdateBudget(id: string, updated: Outcome, refetched: Result<Option<Budget>>) returns (r: Outcome)
      modifies this
      ensures !isLoading
      ensures r.Pass? <==> UpdateSucceeds(old(currentBudget), id, updated, refetched)
      ensures updated.Fail? ==> r == updated && currentBudget == old(currentBudget) && error == Some(UPDATE_ERROR)
      ensures updated.Pass? && !IsCurrent(old(currentBudget), id) ==>
                r == Pass && currentBudget == old(currentBudget) && error == None
      ensures updated.Pass? && IsCurrent(old(currentBudget), id) && refetched.Success? ==>
                r == Pass && currentBudget == refetched.value && error == None
      ensures updated.Pass? && IsCurrent(old(currentBudget), id) && refetched.Failure? ==>
                r == Fail(refetched.error) && currentBudget == old(currentBudget) && error == Some(UPDATE_ERROR)
    {
      isLoading, error := true, None;
      if updated.Fail? {
        error, isLoading := Some(UPDATE_ERROR), false;
        r := updated;
        return;
      }
      if IsCurrent(currentBudget, id) {
        if refetched.Failure? {
          error, isLoading := Some(UPDATE_ERROR), false;
          r := Fail(refetched.error);
          return;
        }
        currentBudget := refetched.value;
      }
      isLoading := false;
      r := Pass;
    }

    /** `deleteBudget`: after the stored row is deleted, the shown budget is
        cleared exactly when it is the one deleted. */
    method DeleteBudget(id: string, deleted: Outcome) returns (r: Outcome)
      modifies this
      ensures !isLoading && r == deleted
      ensures deleted.Pass? ==> currentBudget == AfterDelete(old(currentBudget), id) && error == None
      ensures deleted.Fail? ==> currentBudget == old(currentBudget) && error == Some(DELETE_ERROR)
    {
      isLoading, error := true, None;
      if deleted.Fail? {
        error, isLoading := Some(DELETE_ERROR), false;
        r := deleted;
        return;
      }
      if IsCurrent(currentBudget, id) {
        currentBudget := None;
      }
      isLoading := false;
      r := Pass;
    }

    /** `clearError`. */
    method ClearError()
      modifies this
      ensures error == None && currentBudget == old(currentBudget) && isLoading == old(isLoading)
    {
      error := None;
    }
  }
}
