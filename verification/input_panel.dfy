/** The location check and submit gate of components/InputPanel.tsx. The
    panel keeps its own check status; location changes go to the App's form
    through `handleFormChange`. */
module InputPanel {
  import opened Common
  import opened Types
  import opened GeminiService
  import App

  datatype LocStatus = Idle | Valid | Invalid

  datatype PanelState = PanelState(isCheckingLoc: bool, locStatus: LocStatus)

  const InitialPanel := PanelState(false, Idle)

  /** The currency choices, in the order the selector lists them. */
  const Currencies: seq<Currency> := [USD, EUR, BAM, RSD, GBP]

  /** The selector offers every currency exactly once. */
  lemma CurrenciesComplete()
    ensures forall c: Currency :: c in Currencies
    ensures Distinct(Currencies)
    ensures |Currencies| == 5
  {
    forall c: Currency ensures c in Currencies {
      match c
      case USD => assert Currencies[0] == c;
      case EUR => assert Currencies[1] == c;
      case BAM => assert Currencies[2] == c;
      case RSD => assert Currencies[3] == c;
      case GBP => assert Currencies[4] == c;
    }
  }

  /** `handleLocationBlur` up to its `await`: a location shorter than two
      characters is not checked and nothing changes; otherwise the check
      starts on the current location. */
  function BeginLocationCheck(form: FormData, st: PanelState): (r: (PanelState, Option<string>))
    ensures |form.location| < 2 ==> r == (st, None)
    ensures |form.location| >= 2 ==> r == (st.(isCheckingLoc := true), Some(form.location))
  {
    if form.location == "" || |form.location| < 2 then (st, None)
    else (st.(isCheckingLoc := true), Some(form.location))
  }

  /** `handleLocationBlur` after its `await`, given what `validateLocation`
      produced. A valid verdict replaces the location by the normalised name
      and marks it valid; an invalid one marks it invalid and keeps the
      location; a thrown check changes neither. The spinner stops on every
      path. */
  function FinishLocationCheck(form: FormData, st: PanelState, result: Result<LocationValidation, Error>): (r: (FormData, PanelState))
    ensures !r.1.isCheckingLoc
    ensures result.Success? && result.value.isValid ==>
      r.0 == form.(location := result.value.normalizedName) && r.1.locStatus == Valid
    ensures result.Success? && !result.value.isValid ==> r.0 == form && r.1.locStatus == Invalid
    ensures result.Failure? ==> r.0 == form && r.1.locStatus == st.locStatus
  {
    match result
    case Success(v) =>
      if v.isValid then
        (App.ApplyField(form, App.SetLocation(v.normalizedName)), PanelState(false, Valid))
      else
        (form, PanelState(false, Invalid))
    case Failure(_) => (form, st.(isCheckingLoc := false))
  }

  /** Typing in the location field writes the text and resets the status. */
  function EditLocation(form: FormData, st: PanelState, text: string): (r: (FormData, PanelState))
    ensures r.0 == form.(location := text)
    ensures r.1 == st.(locStatus := Idle)
  {
    (App.ApplyField(form, App.SetLocation(text)), st.(locStatus := Idle))
  }

  /** Whether the submit button is disabled. It is at least as strict as the
      App's own guard, and adds two conditions of its own: a zero budget
      (falsy in JavaScript) and a location the check rejected. */
  function SubmitDisabled(form: FormData, st: PanelState): (disabled: bool)
    ensures !disabled ==> form.description != "" && form.location != ""
    ensures st.locStatus == Invalid || form.budget == 0.0 ==> disabled
    ensures disabled && form.description != "" && form.location != "" && st.locStatus != Invalid ==> form.budget == 0.0
  {
    form.description == "" || form.location == "" || form.budget == 0.0 || st.locStatus == Invalid
  }

  /** On a fresh page the button is disabled and the App would refuse the
      empty form anyway; filling in description and location enables it. */
  lemma FreshPageCannotSubmit(description: string, location: string)
    requires description != "" && location != ""
    ensures SubmitDisabled(App.InitialState.form, InitialPanel)
    ensures App.StartGenerate(App.InitialState) == (App.InitialState, None)
    ensures !SubmitDisabled(App.InitialState.form.(description := description, location := location), InitialPanel)
  {
  }

  /** The submit gate is at least as strict as the App's own guard, so an
      enabled button always starts a generation. */
  lemma EnabledSubmitStarts(s: App.AppState, st: PanelState)
    requires !SubmitDisabled(s.form, st)
    ensures App.StartGenerate(s).1 == Some(s.form)
  {
  }

  /** The location check end to end with an empty service payload: the
      location is kept, marked invalid, and submit is blocked until the next
      edit, which clears the mark. */
  lemma EmptyPayloadBlocksUntilEdit(form: FormData, st: PanelState, text: string)
    requires |form.location| >= 2
    ensures var (checking, request) := BeginLocationCheck(form, st);
      && request == Some(form.location)
      && var (f1, p1) := FinishLocationCheck(form, checking, ValidateLocation(form.location, NoText));
      && f1 == form && p1.locStatus == Invalid && SubmitDisabled(f1, p1)
      && var (f2, p2) := EditLocation(f1, p1, text);
      && p2.locStatus == Idle
      && (SubmitDisabled(f2, p2) <==> form.description == "" || text == "" || form.budget == 0.0)
  {
  }

  /** A check that the service confirms adopts its name and never blocks
      submit on its own. */
  lemma ConfirmedLocationAdopted(form: FormData, st: PanelState, normalized: string)
    requires |form.location| >= 2
    ensures var (checking, _) := BeginLocationCheck(form, st);
      var (f1, p1) := FinishLocationCheck(form, checking,
                        ValidateLocation(form.location, Parsed(LocationValidation(true, normalized))));
      && f1.location == normalized && p1.locStatus == Valid && !p1.isCheckingLoc
      && (SubmitDisabled(f1, p1) <==> form.description == "" || normalized == "" || form.budget == 0.0)
  {
  }
}
