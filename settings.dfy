/** The setup form, the settings overlay, the full reset and the start-up
    gate that decides between the setup flow and the dashboard. */
module Settings {
  import opened Wrappers
  import opened Text
  import opened Storage

  /** A credential and budget that passed validation. */
  datatype Settings = Settings(apiKey: string, budget: int)

  /** Which check rejected the form, in the order the checks run. */
  datatype SettingsError = InvalidKey | InvalidBudget

  const KeyPrefix: string := "sk-"

  const SetupKeyAlert: string := "Please enter a valid OpenAI API key (starts with sk-)"
  const SettingsKeyAlert: string := "Please enter a valid OpenAI API key"
  const BudgetAlert: string := "Please enter a valid monthly budget"

  /** The validation shared by `saveSetup` and `updateSettings`. The key
      field is trimmed and must be non-empty and start with "sk-"; the budget
      field, as `parseInt` read it (`None` for NaN), must be a number above
      zero (`!budget || budget <= 0`: `None` is NaN, and zero falls under
      `<= 0`). The key is checked first. */
  function CheckSettings(keyInput: string, budgetInput: Option<int>): (r: Result<Settings, SettingsError>)
    ensures r.Ok? <==> StartsWith(Trim(keyInput), KeyPrefix) && budgetInput.Some? && budgetInput.value > 0
    ensures r.Ok? ==> r.value == Settings(Trim(keyInput), budgetInput.value)
    ensures r == Err(InvalidKey) <==> !StartsWith(Trim(keyInput), KeyPrefix)
  {
    var key := Trim(keyInput);
    if key == "" || !StartsWith(key, KeyPrefix) then Err(InvalidKey)
    else if budgetInput.None? || budgetInput.value <= 0 then Err(InvalidBudget)
    else Ok(Settings(key, budgetInput.value))
  }

  /** The partial save both forms issue: key and budget, expenses untouched. */
  function AsUpdate(st: Settings): Entries {
    Entries(Some(st.apiKey), Some(st.budget), None)
  }

  /** The start-up gate: the dashboard is shown when a key is stored and the
      budget is above zero, otherwise the setup flow. */
  predicate OpensMainApp(d: Data) {
    d.apiKey != "" && d.monthlyBudget > 0
  }

  /** Whatever was stored before, once a form is accepted and saved the next
      start-up opens the dashboard, with exactly the accepted key and budget
      and the expense list as it was. */
  lemma AcceptedSettingsOpenMainApp(s: Entries, keyInput: string, budgetInput: Option<int>)
    requires CheckSettings(keyInput, budgetInput).Ok?
    ensures var d := Decode(Merge(s, AsUpdate(CheckSettings(keyInput, budgetInput).value)));
      && OpensMainApp(d)
      && d.apiKey == Trim(keyInput)
      && Some(d.monthlyBudget) == budgetInput
      && d.expenses == Decode(s).expenses
  {
    var st := CheckSettings(keyInput, budgetInput).value;
    assert |st.apiKey| >= |KeyPrefix|;
  }

  /** An empty store (first visit, or after a reset) routes to setup. */
  lemma EmptyStoreShowsSetup()
    ensures !OpensMainApp(Decode(NoEntries))
  {
  }

  /** Validation and save shared by the two forms; `keyAlert` is the form's
      own message for a bad key. A rejected form leaves the store as it was. */
  method SubmitSettings(store: Store, keyInput: string, budgetInput: Option<int>, keyAlert: string)
    returns (alert: Option<string>)
    modifies store
    ensures var r := CheckSettings(keyInput, budgetInput);
      && (r == Err(InvalidKey) ==> alert == Some(keyAlert))
      && (r == Err(InvalidBudget) ==> alert == Some(BudgetAlert))
      && (r.Err? ==> store.entries == old(store.entries))
      && (r.Ok? ==> alert == None && store.entries == Merge(old(store.entries), AsUpdate(r.value)))
  {
    var r := CheckSettings(keyInput, budgetInput);
    match r {
      case Err(InvalidKey) =>
        alert := Some(keyAlert);
      case Err(InvalidBudget) =>
        alert := Some(BudgetAlert);
      case Ok(st) =>
        store.Save(AsUpdate(st));
        alert := None;
    }
  }

  /** `saveSetup`: on success the dashboard opens on the saved settings. */
  method SaveSetup(store: Store, keyInput: string, budgetInput: Option<int>) returns (alert: Option<string>)
    modifies store
    ensures alert.None? <==> CheckSettings(keyInput, budgetInput).Ok?
    ensures alert.Some? ==> store.entries == old(store.entries)
    ensures alert == Some(SetupKeyAlert) <==> CheckSettings(keyInput, budgetInput) == Err(InvalidKey)
    ensures alert == Some(BudgetAlert) <==> CheckSettings(keyInput, budgetInput) == Err(InvalidBudget)
    ensures alert.None? ==> && store.Load().apiKey == Trim(keyInput)
                            && Some(store.Load().monthlyBudget) == budgetInput
                            && store.Load().expenses == old(store.Load().expenses)
                            && OpensMainApp(store.Load())
  {
    ghost var before := store.entries;
    alert := SubmitSettings(store, keyInput, budgetInput, SetupKeyAlert);
    if alert.None? {
      AcceptedSettingsOpenMainApp(before, keyInput, budgetInput);
    }
  }

  /** `updateSettings`: the same rules as setup, with its own key message. */
  method UpdateSettings(store: Store, keyInput: string, budgetInput: Option<int>) returns (alert: Option<string>)
    modifies store
    ensures alert.None? <==> CheckSettings(keyInput, budgetInput).Ok?
    ensures alert.Some? ==> store.entries == old(store.entries)
    ensures alert == Some(SettingsKeyAlert) <==> CheckSettings(keyInput, budgetInput) == Err(InvalidKey)
    ensures alert == Some(BudgetAlert) <==> CheckSettings(keyInput, budgetInput) == Err(InvalidBudget)
    ensures alert.None? ==> && store.Load().apiKey == Trim(keyInput)
                            && Some(store.Load().monthlyBudget) == budgetInput
                            && store.Load().expenses == old(store.Load().expenses)
                            && OpensMainApp(store.Load())
  {
    ghost var before := store.entries;
    alert := SubmitSettings(store, keyInput, budgetInput, SettingsKeyAlert);
    if alert.None? {
      AcceptedSettingsOpenMainApp(before, keyInput, budgetInput);
    }
  }

  /** `resetAllData`: when the user confirms, every entry is erased and the
      next start-up shows the setup flow; otherwise nothing changes. */
  method ResetAllData(store: Store, confirmed: bool)
    modifies store
    ensures confirmed ==> store.entries == NoEntries && store.Load() == Defaults
    ensures confirmed ==> !OpensMainApp(store.Load())
    ensures !confirmed ==> store.entries == old(store.entries)
  {
    if confirmed {
      store.Clear();
    }
  }
}
