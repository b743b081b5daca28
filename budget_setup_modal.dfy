/** src/components/budget/BudgetSetupModal.tsx: the first-budget form and
    its daily preview. `parseFloat`, `new Date(text)` and the formatted
    dates of today and of today plus 30 days are parameters. */
module BudgetSetupModal {
  import opened Wrappers
  import opened Models
  import DateUtils
  import Calculations
  import Currencies
  import BudgetStore
  import UIStore

  /** The preview's day count, `max(1, ceil((end - start) / DAY) + 1)`:
      at least 1, and one more than the number of started days between the
      dates. */
  function PreviewDays(start: Instant, end: Instant): (r: int)
    ensures r >= 1
    ensures end <= start ==> r == 1
    ensures end > start ==> (r - 2) * DateUtils.DAY < end - start <= (r - 1) * DateUtils.DAY
  {
    var ceiling := -((start - end) / DateUtils.DAY);
    if ceiling + 1 > 1 then ceiling + 1 else 1
  }

  /** For whole-day dates in order, the preview counts the days of the
      period as `getTotalDays` does. */
  lemma {:induction false} PreviewDaysOfMidnights(start: Instant, end: Instant)
    requires start % DateUtils.DAY == 0 && end % DateUtils.DAY == 0 && end >= start
    ensures PreviewDays(start, end) == DateUtils.TotalDays(start, end)
  {
    var k := (end - start) / DateUtils.DAY;
    assert end - start == k * DateUtils.DAY;
    DateUtils.DivDay(k, 0);
    DateUtils.DivDay(-k, 0);
  }

  /** Between dates that are not whole days the two counts differ: a
      started day counts in the preview, `getTotalDays` truncates it. */
  lemma PreviewCountsStartedDay()
    ensures PreviewDays(0, DateUtils.DAY + 1) == 3
    ensures DateUtils.TotalDays(0, DateUtils.DAY + 1) == 2
  {
  }

  /** What `calculateDailyBudget` shows: "0" when a field is empty, else a
      daily amount in a currency. */
  datatype Preview = NoPreview | Daily(amount: real, currencyCode: string)

  /** `daily` spread over `days` days adds up to `total`. */
  predicate Spreads(daily: real, total: real, days: int) {
    daily * days as real == total
  }

  lemma AverageSpreads(total: real, days: int)
    requires days >= 1
    ensures Spreads(Calculations.AverageOver(total, days), total, days)
  {
  }

  /** The preview of this dialog: the amount spread over the preview days,
      in the selected currency or the default one. */
  function SetupPreview(totalAmount: string, startDate: string, endDate: string, currency: string,
                        parseFloat: string -> real, parseDate: string -> Instant): (r: Preview)
    ensures r.NoPreview? <==> totalAmount == "" || startDate == "" || endDate == ""
    ensures r.Daily? ==> Spreads(r.amount, parseFloat(totalAmount), PreviewDays(parseDate(startDate), parseDate(endDate)))
    ensures r.Daily? ==> r.currencyCode == Currencies.GetCurrencyByCode(currency).code
  {
    if totalAmount == "" || startDate == "" || endDate == "" then NoPreview
    else
      var days := PreviewDays(parseDate(startDate), parseDate(endDate));
      AverageSpreads(parseFloat(totalAmount), days);
      Daily(Calculations.AverageOver(parseFloat(totalAmount), days), Currencies.GetCurrencyByCode(currency).code)
  }

  /** The settings change after a budget is created: the selected currency
      (or the default one) and `firstLaunch` off. */
  function CreatedSettings(currency: string): (r: SettingsPatch)
    ensures r.defaultCurrency.Some? && r.defaultCurrency.value in Currencies.CURRENCIES
    ensures (exists c :: c in Currencies.CURRENCIES && c.code == currency) ==> r.defaultCurrency.value.code == currency
    ensures r.firstLaunch == Some(false) && r.locale.None? && r.theme.None?
  {
    SettingsPatch(Some(Currencies.GetCurrencyByCode(currency)), None, None, Some(false))
  }

  /** After that change the default currency is one of the table and the
      first launch is over; the locale and theme stay. */
  lemma CreatedSettingsEffect(settings: AppSettings, currency: string)
    ensures var r := UIStore.MergeSettings(settings, CreatedSettings(currency));
            && r.defaultCurrency in Currencies.CURRENCIES && !r.firstLaunch
            && r.locale == settings.locale && r.theme == settings.theme
            && ((exists c :: c in Currencies.CURRENCIES && c.code == currency) ==> r.defaultCurrency.code == currency)
  {
  }

  class Form {
    var totalAmount: string
    var startDate: string
    var endDate: string
    var currency: string
    var isSubmitting: bool

    /** An empty amount, today to today plus 30 days, the default currency. */
    constructor(todayText: string, in30DaysText: string)
      ensures totalAmount == "" && startDate == todayText && endDate == in30DaysText
      ensures currency == Currencies.DEFAULT_CURRENCY.code && !isSubmitting
    {
      totalAmount := "";
      startDate := todayText;
      endDate := in30DaysText;
      currency := Currencies.DEFAULT_CURRENCY.code;
      isSubmitting := false;
    }

    /** `handleCurrencyChange`. */
    method HandleCurrencyChange(currencyCode: string)
      modifies this
      ensures currency == currencyCode
      ensures totalAmount == old(totalAmount) && startDate == old(startDate) && endDate == old(endDate)
      ensures isSubmitting == old(isSubmitting)
    {
      currency := currencyCode;
    }

    /** `handleSubmit`: an empty or non-positive amount is rejected before
        anything happens. Otherwise the input goes to the budget store
        (`created` is the data layer's answer); once it is created the
        currency becomes the default and the form is reset. A failure
        leaves the settings and the form as they were. */
    method HandleSubmit(budgetStore: BudgetStore.Store, ui: UIStore.Store, parseFloat: string -> real,
                        parseDate: string -> Instant, created: Result<Budget>, todayText: string, in30DaysText: string)
      returns (submitted: Option<CreateBudgetInput>)
      modifies this, budgetStore, ui
      ensures old(totalAmount) == "" || parseFloat(old(totalAmount)) <= 0.0 ==>
                submitted.None? && unchanged(this) && unchanged(budgetStore) && unchanged(ui)
      ensures old(totalAmount) != "" && parseFloat(old(totalAmount)) > 0.0 ==>
                && submitted == Some(CreateBudgetInput(parseFloat(old(totalAmount)), parseDate(old(startDate)),
                                                       parseDate(old(endDate)), old(currency)))
                && submitted.value.totalAmount > 0.0 && !isSubmitting
      ensures old(totalAmount) != "" && parseFloat(old(totalAmount)) > 0.0 && created.Success? ==>
                && budgetStore.currentBudget == Some(created.value)
                && ui.settings == UIStore.MergeSettings(old(ui.settings), CreatedSettings(old(currency)))
                && totalAmount == "" && startDate == todayText && endDate == in30DaysText
                && currency == Currencies.DEFAULT_CURRENCY.code
      ensures old(totalAmount) != "" && parseFloat(old(totalAmount)) > 0.0 && created.Failure? ==>
                && budgetStore.currentBudget == old(budgetStore.currentBudget)
                && budgetStore.error == Some(BudgetStore.CREATE_ERROR)
                && ui.settings == old(ui.settings)
                && totalAmount == old(totalAmount) && startDate == old(startDate)
                && endDate == old(endDate) && currency == old(currency)
    {
      if totalAmount == "" || parseFloat(totalAmount) <= 0.0 {
        return None;
      }
      isSubmitting := true;
      var budgetInput := CreateBudgetInput(parseFloat(totalAmount), parseDate(startDate), parseDate(endDate), currency);
      var budget := budgetStore.CreateBudget(created);
      if budget.Success? {
        ui.UpdateSettings(CreatedSettings(currency));
        totalAmount, startDate, endDate, currency := "", todayText, in30DaysText, Currencies.DEFAULT_CURRENCY.code;
      }
      isSubmitting := false;
      submitted := Some(budgetInput);
    }
  }
}
