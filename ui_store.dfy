/** src/lib/stores/uiStore.ts: which dialogs are open and the application
    settings. */
module UIStore {
  import opened Wrappers
  import opened Models
  import Currencies

  /** The settings the application starts with. */
  const INITIAL_SETTINGS: AppSettings := AppSettings(Currencies.DEFAULT_CURRENCY, "en-US", Light, true)

  const NO_CHANGE: SettingsPatch := SettingsPatch(None, None, None, None)

  /** `{ ...settings, ...patch }`: every setting the patch carries replaces
      the current one, and every other setting stays. */
  function MergeSettings(settings: AppSettings, patch: SettingsPatch): (r: AppSettings)
    ensures patch.defaultCurrency.Some? ==> r.defaultCurrency == patch.defaultCurrency.value
    ensures patch.defaultCurrency.None? ==> r.defaultCurrency == settings.defaultCurrency
    ensures patch.locale.Some? ==> r.locale == patch.locale.value
    ensures patch.locale.None? ==> r.locale == settings.locale
    ensures patch.theme.Some? ==> r.theme == patch.theme.value
    ensures patch.theme.None? ==> r.theme == settings.theme
    ensures patch.firstLaunch.Some? ==> r.firstLaunch == patch.firstLaunch.value
    ensures patch.firstLaunch.None? ==> r.firstLaunch == settings.firstLaunch
  {
    AppSettings(patch.defaultCurrency.GetOr(settings.defaultCurrency), patch.locale.GetOr(settings.locale),
                patch.theme.GetOr(settings.theme), patch.firstLaunch.GetOr(settings.firstLaunch))
  }

  /** `{ ...first, ...second }` of two patches: the later one wins. */
  function Then(first: SettingsPatch, second: SettingsPatch): SettingsPatch {
    SettingsPatch(
      if second.defaultCurrency.Some? then second.defaultCurrency else first.defaultCurrency,
      if second.locale.Some? then second.locale else first.locale,
      if second.theme.Some? then second.theme else first.theme,
      if second.firstLaunch.Some? then second.firstLaunch else first.firstLaunch)
  }

  /** An empty patch changes nothing, a patch applied twice is applied once,
      and two updates in a row are the update with the combined patch. */
  lemma MergeSettingsLaws(settings: AppSettings, p: SettingsPatch, q: SettingsPatch)
    ensures MergeSettings(settings, NO_CHANGE) == settings
    ensures MergeSettings(MergeSettings(settings, p), p) == MergeSettings(settings, p)
    ensures MergeSettings(MergeSettings(settings, p), q) == MergeSettings(settings, Then(p, q))
  {
  }

  class Store {
    var addTransactionState: AddTransactionState
    var editTransactionState: EditTransactionState
    var isBudgetSetupOpen: bool
    var settings: AppSettings

    constructor()
      ensures addTransactionState == AddTransactionState(false, None, None)
      ensures editTransactionState == EditTransactionState(false, None)
      ensures !isBudgetSetupOpen && settings == INITIAL_SETTINGS
    {
      addTransactionState := AddTransactionState(false, None, None);
      editTransactionState := EditTransactionState(false, None);
      isBudgetSetupOpen := false;
      settings := INITIAL_SETTINGS;
    }

    /** `openAddTransaction`: opens the dialog with the optional prefill. */
    method OpenAddTransaction(initialAmount: Option<real>, initialComment: Option<string>)
      modifies this
      ensures addTransactionState == AddTransactionState(true, initialAmount, initialComment)
      ensures editTransactionState == old(editTransactionState)
      ensures isBudgetSetupOpen == old(isBudgetSetupOpen) && settings == old(settings)
    {
      addTransactionState := AddTransactionState(true, initialAmount, initialComment);
    }

    /** `closeAddTransaction`: closes it and forgets the prefill. */
    method CloseAddTransaction()
      modifies this
      ensures addTransactionState == AddTransactionState(false, None, None)
      ensures editTransactionState == old(editTransactionState)
      ensures isBudgetSetupOpen == old(isBudgetSetupOpen) && settings == old(settings)
    {
      addTransactionState := AddTransactionState(false, None, None);
    }

    /** `openEditTransaction`. */
    method OpenEditTransaction(transaction: Transaction)
      modifies this
      ensures editTransactionState == EditTransactionState(true, Some(transaction))
      ensures addTransactionState == old(addTransactionState)
      ensures isBudgetSetupOpen == old(isBudgetSetupOpen) && settings == old(settings)
    {
      editTransactionState := EditTransactionState(true, Some(transaction));
    }

    /** `closeEditTransaction`: closes it and drops the transaction. */
    method CloseEditTransaction()
      modifies this
      ensures editTransactionState == EditTransactionState(false, None)
      ensures addTransactionState == old(addTransactionState)
      ensures isBudgetSetupOpen == old(isBudgetSetupOpen) && settings == old(settings)
    {
      editTransactionState := EditTransactionState(false, None);
    }

    /** `openBudgetSetup`. */
    method OpenBudgetSetup()
      modifies this
      ensures isBudgetSetupOpen
      ensures addTransactionState == old(addTransactionState) && editTransactionState == old(editTransactionState)
      ensures settings == old(settings)
    {
      isBudgetSetupOpen := true;
    }

    /** `closeBudgetSetup`. */
    method CloseBudgetSetup()
      modifies this
      ensures !isBudgetSetupOpen
      ensures addTransactionState == old(addTransactionState) && editTransactionState == old(editTransactionState)
      ensures settings == old(settings)
    {
      isBudgetSetupOpen := false;
    }

    /** `updateSettings`: merges the patch into the settings. */
    method UpdateSettings(patch: SettingsPatch)
      modifies this
      ensures settings == MergeSettings(old(settings), patch)
      ensures addTransactionState == old(addTransactionState) && editTransactionState == old(editTransactionState)
      ensures isBudgetSetupOpen == old(isBudgetSetupOpen)
    {
      settings := MergeSettings(settings, patch);
    }
  }
}
