/** src/components/settings/SettingsModal.tsx (the component in use, from
    line 348): editing and deleting the current budget. `parseFloat`,
    `new Date(text)`, `Number.prototype.toString` and the date formatting
    are parameters; the user's answer to `confirm` is a parameter too. */
module SettingsModal {
  import opened Wrappers
  import opened Models
  import DateUtils
  import Calculations
  import Currencies
  import BudgetStore
  import UIStore
  import BudgetSetupModal

  /** The currency code of this dialog's preview: the matching entry's
      code, or "INR" when the code is not in the table. */
  function PreviewCurrencyCode(currency: string): (r: string)
    ensures (exists c :: c in Currencies.CURRENCIES && c.code == currency) ==> r == currency
    ensures (forall c :: c in Currencies.CURRENCIES ==> c.code != currency) ==> r == "INR"
  {
    match Currencies.FindByCode(Currencies.CURRENCIES, currency)
    case Some(c) => c.code
    case None => "INR"
  }

  /** The fallback "INR" is the default currency's code, so this preview
      names the same currency as the one of the budget setup dialog. */
  lemma PreviewCurrencyAgrees(currency: string)
    ensures PreviewCurrencyCode(currency) == Currencies.GetCurrencyByCode(currency).code
  {
    Currencies.DefaultIsRupee();
  }

  /** `calculateDailyBudget` of this dialog. */
  function SettingsPreview(totalAmount: string, startDate: string, endDate: string, currency: string,
                           parseFloat: string -> real, parseDate: string -> Instant): (r: BudgetSetupModal.Preview)
    ensures r.NoPreview? <==> totalAmount == "" || startDate == "" || endDate == ""
    ensures r.Daily? ==> r.currencyCode == PreviewCurrencyCode(currency)
    ensures r.Daily? ==> BudgetSetupModal.Spreads(r.amount, parseFloat(totalAmount),
                                                  BudgetSetupModal.PreviewDays(parseDate(startDate), parseDate(endDate)))
  {
    if totalAmount == "" || startDate == "" || endDate == "" then BudgetSetupModal.NoPreview
    else
      var days := BudgetSetupModal.PreviewDays(parseDate(startDate), parseDate(endDate));
      BudgetSetupModal.AverageSpreads(parseFloat(totalAmount), days);
      BudgetSetupModal.Daily(Calculations.AverageOver(parseFloat(totalAmount), days), PreviewCurrencyCode(currency))
  }

  /** Both dialogs show the same preview for the same form. */
  lemma PreviewsAgree(totalAmount: string, startDate: string, endDate: string, currency: string,
                      parseFloat: string -> real, parseDate: string -> Instant)
    ensures SettingsPreview(totalAmount, startDate, endDate, currency, parseFloat, parseDate)
            == BudgetSetupModal.SetupPreview(totalAmount, startDate, endDate, currency, parseFloat, parseDate)
  {
    PreviewCurrencyAgrees(currency);
  }

  /** The changes `handleUpdateBudget` sends: the four edited fields. */
  function EditedChanges(totalAmount: string, startDate: string, endDate: string, currency: string,
                         parseFloat: string -> real, parseDate: string -> Instant): (r: BudgetChanges)
    ensures r.totalAmount == Some(parseFloat(totalAmount)) && r.currency == Some(currency)
    ensures r.startDate == Some(parseDate(startDate)) && r.endDate == Some(parseDate(endDate))
    ensures r.isActive.None? && r.updatedAt.None?
  {
    BudgetChanges(Some(parseFloat(totalAmount)), Some(parseDate(startDate)), Some(parseDate(endDate)), Some(currency), None, None)
  }

  /** The settings after an update: the default currency changes only to a
      listed currency. */
  function SettingsAfterUpdate(settings: AppSettings, currency: string): (r: AppSettings)
    ensures r.locale == settings.locale && r.theme == settings.theme && r.firstLaunch == settings.firstLaunch
    ensures (forall c :: c in Currencies.CURRENCIES ==> c.code != currency) ==> r == settings
    ensures (exists c :: c in Currencies.CURRENCIES && c.code == currency) ==>
              r.defaultCurrency in Currencies.CURRENCIES && r.defaultCurrency.code == currency
  {
    match Currencies.FindByCode(Currencies.CURRENCIES, currency)
    case Some(selected) => UIStore.MergeSettings(settings, SettingsPatch(Some(selected), None, None, None))
    case None => settings
  }

  class Form {
    var totalAmount: string
    var startDate: string
    var endDate: string
    var currency: string
    var isSubmitting: bool

    constructor()
      ensures totalAmount == "" && startDate == "" && endDate == "" && currency == "" && !isSubmitting
    {
      totalAmount, startDate, endDate, currency := "", "", "", "";
      isSubmitting := false;
    }

    /** The effect on `[budget]`: a shown budget fills the form with its
        amount, its days and its currency; without one the form stays. */
    method LoadBudget(budget: Option<Budget>, amountText: real -> string, dayText: Instant -> string)
      modifies this
      ensures isSubmitting == old(isSubmitting)
      ensures budget.None? ==> totalAmount == old(totalAmount) && startDate == old(startDate)
                               && endDate == old(endDate) && currency == old(currency)
      ensures budget.Some? ==> totalAmount == amountText(budget.value.totalAmount) && currency == budget.value.currency
                               && startDate == dayText(DateUtils.StartOfDay(budget.value.startDate))
                               && endDate == dayText(DateUtils.StartOfDay(budget.value.endDate))
    {
      if budget.Some? {
        totalAmount := amountText(budget.value.totalAmount);
        startDate := dayText(DateUtils.StartOfDay(budget.value.startDate));
        endDate := dayText(DateUtils.StartOfDay(budget.value.endDate));
        currency := budget.value.currency;
      }
    }

    /** `handleUpdateBudget`: without a budget, or with an empty or
        non-positive amount, nothing happens. Otherwise the edited fields
        are returned as `changes` and the budget store runs its update on
        the data layer's answers `updated` and `refetched`: the shown
        budget is replaced by the refetched one only when the update
        succeeds and it is the budget edited, and a success makes a listed
        currency the default. */
    method HandleUpdateBudget(budget: Option<Budget>, budgetStore: BudgetStore.Store, ui: UIStore.Store,
                              parseFloat: string -> real, parseDate: string -> Instant,
                              updated: Outcome, refetched: Result<Option<Budget>>)
      returns (changes: Option<BudgetChanges>)
      modifies this, budgetStore, ui
      ensures budget.None? || old(totalAmount) == "" || parseFloat(old(totalAmount)) <= 0.0 ==>
                changes.None? && unchanged(this) && unchanged(budgetStore) && unchanged(ui)
      ensures budget.Some? && old(totalAmount) != "" && parseFloat(old(totalAmount)) > 0.0 ==>
                && changes == Some(EditedChanges(totalAmount, startDate, endDate, currency, parseFloat, parseDate))
                && totalAmount == old(totalAmount) && currency == old(currency)
                && startDate == old(startDate) && endDate == old(endDate) && !isSubmitting
      ensures budget.Some? && old(totalAmount) != "" && parseFloat(old(totalAmount)) > 0.0 ==>
                && (BudgetStore.UpdateSucceeds(old(budgetStore.currentBudget), budget.value.id, updated, refetched) ==>
                      budgetStore.error.None? && ui.settings == SettingsAfterUpdate(old(ui.settings), currency))
                && (!BudgetStore.UpdateSucceeds(old(budgetStore.currentBudget), budget.value.id, updated, refetched) ==>
                      ui.settings == old(ui.settings) && budgetStore.error == Some(BudgetStore.UPDATE_ERROR))
      ensures budget.Some? && old(totalAmount) != "" && parseFloat(old(totalAmount)) > 0.0 ==>
                && !budgetStore.isLoading
                && (BudgetStore.UpdateSucceeds(old(budgetStore.currentBudget), budget.value.id, updated, refetched)
                    && BudgetStore.IsCurrent(old(budgetStore.currentBudget), budget.value.id) ==>
                      budgetStore.currentBudget == refetched.value)
                && (!BudgetStore.UpdateSucceeds(old(budgetStore.currentBudget), budget.value.id, updated, refetched)
                    || !BudgetStore.IsCurrent(old(budgetStore.currentBudget), budget.value.id) ==>
                      budgetStore.currentBudget == old(budgetStore.currentBudget))
    {
      if budget.None? || totalAmount == "" || parseFloat(totalAmount) <= 0.0 {
        return None;
      }
      isSubmitting := true;
      var edited := EditedChanges(totalAmount, startDate, endDate, currency, parseFloat, parseDate);
      var outcome := budgetStore.UpdateBudget(budget.value.id, updated, refetched);
      if outcome.Pass? {
        var selectedCurrency := Currencies.FindByCode(Currencies.CURRENCIES, currency);
        if selectedCurrency.Some? {
          ui.UpdateSettings(SettingsPatch(Some(selectedCurrency.value), None, None, None));
        }
      }
      isSubmitting := false;
      changes := Some(edited);
    }
  }

  /** `handleDeleteBudget`: the shown budget is deleted only when there is
      one and the user confirms (`deleted` is the data layer's answer). */
  method HandleDeleteBudget(budget: Option<Budget>, confirmed: bool, budgetStore: BudgetStore.Store, deleted: Outcome)
    returns (r: Outcome)
    modifies budgetStore
    ensures budget.None? || !confirmed ==> r == Pass && unchanged(budgetStore)
    ensures budget.Some? && confirmed ==> r == deleted && !budgetStore.isLoading
    ensures budget.Some? && confirmed && deleted.Pass? ==>
              budgetStore.currentBudget == BudgetStore.AfterDelete(old(budgetStore.currentBudget), budget.value.id)
    ensures budget.Some? && confirmed && deleted.Fail? ==>
              budgetStore.currentBudget == old(budgetStore.currentBudget) && budgetStore.error == Some(BudgetStore.DELETE_ERROR)
  {
    r := Pass;
    if budget.None? {
      return;
    }
    if confirmed {
      r := budgetStore.DeleteBudget(budget.value.id, deleted);
    }
  }
}
