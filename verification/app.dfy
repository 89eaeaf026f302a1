/** The session state of App.tsx and its transitions. Each asynchronous
    handler is split at its `await`: a start transition that returns the
    request it issues, and a completion transition that takes what the
    service call produced. Interleavings are the caller's choice. */
module App {
  import opened Common
  import opened Types
  import opened GeminiService
  import BudgetBreakdown

  datatype Tab = IdentityTab | BudgetTab | ProductsTab

  datatype AppState = AppState(
    form: FormData,
    isThinking: bool,
    brandData: Option<BrandIdentity>,
    logoImage: Option<GeneratedImage>,
    isLogoGenerating: bool,
    productImages: map<int, GeneratedImage>,
    activeTab: Tab)

  const InitialForm := FormData("", "", 1000.0, USD, Some(""), Some(""), Some(""))

  const InitialState := AppState(InitialForm, false, None, None, false, map[], IdentityTab)

  // ---------------------------------------------------------------------------
  // handleFormChange
  // ---------------------------------------------------------------------------

  /** One `(key, value)` pair of `handleFormChange`. */
  datatype FieldUpdate =
    | SetDescription(description: string)
    | SetLocation(location: string)
    | SetBudget(budget: real)
    | SetCurrency(currency: Currency)
    | SetExistingName(name: Option<string>)
    | SetExistingSlogan(slogan: Option<string>)
    | SetExistingColors(colors: Option<string>)

  function ApplyField(form: FormData, u: FieldUpdate): FormData {
    match u
    case SetDescription(v) => form.(description := v)
    case SetLocation(v) => form.(location := v)
    case SetBudget(v) => form.(budget := v)
    case SetCurrency(v) => form.(currency := v)
    case SetExistingName(v) => form.(existingName := v)
    case SetExistingSlogan(v) => form.(existingSlogan := v)
    case SetExistingColors(v) => form.(existingColors := v)
  }

  /** The field a form update writes. */
  datatype Field = Description | Location | Budget | CurrencyField | ExistingName | ExistingSlogan | ExistingColors

  function FieldOf(u: FieldUpdate): Field {
    match u
    case SetDescription(_) => Description
    case SetLocation(_) => Location
    case SetBudget(_) => Budget
    case SetCurrency(_) => CurrencyField
    case SetExistingName(_) => ExistingName
    case SetExistingSlogan(_) => ExistingSlogan
    case SetExistingColors(_) => ExistingColors
  }

  /** Two forms agree on a field. */
  predicate SameField(a: FormData, b: FormData, f: Field) {
    match f
    case Description => a.description == b.description
    case Location => a.location == b.location
    case Budget => a.budget == b.budget
    case CurrencyField => a.currency == b.currency
    case ExistingName => a.existingName == b.existingName
    case ExistingSlogan => a.existingSlogan == b.existingSlogan
    case ExistingColors => a.existingColors == b.existingColors
  }

  /** The form-change handler: only the form changes, and of the form only
      the named field; the update is idempotent. */
  function HandleFormChange(s: AppState, u: FieldUpdate): (r: AppState)
    ensures r == s.(form := r.form)
    ensures forall f :: f != FieldOf(u) ==> SameField(r.form, s.form, f)
    ensures ApplyField(r.form, u) == r.form
  {
    s.(form := ApplyField(s.form, u))
  }

  /** Reading a field back after writing it gives the written value. */
  lemma FormChangeReadsBack(s: AppState, u: FieldUpdate)
    ensures var f := HandleFormChange(s, u).form;
      match u
      case SetDescription(v) => f.description == v
      case SetLocation(v) => f.location == v
      case SetBudget(v) => f.budget == v
      case SetCurrency(v) => f.currency == v
      case SetExistingName(v) => f.existingName == v
      case SetExistingSlogan(v) => f.existingSlogan == v
      case SetExistingColors(v) => f.existingColors == v
  {
  }

  // ---------------------------------------------------------------------------
  // handleGenerate
  // ---------------------------------------------------------------------------

  /** `handleGenerate` up to its `await`. When description or location is
      empty nothing happens and no request is made; otherwise the previous
      identity, logo and product images are cleared, the thinking flag is
      raised, and the current form is sent. */
  function StartGenerate(s: AppState): (r: (AppState, Option<FormData>))
    ensures s.form.description == "" || s.form.location == "" ==> r == (s, None)
    ensures s.form.description != "" && s.form.location != "" ==>
      && r.1 == Some(s.form)
      && r.0 == s.(isThinking := true, brandData := None, logoImage := None, productImages := map[])
  {
    if s.form.description == "" || s.form.location == "" then (s, None)
    else (s.(isThinking := true, brandData := None, logoImage := None, productImages := map[]), Some(s.form))
  }

  const LogoHead := "A professional logo for \""
  const LogoMiddle := "\". Style: "
  const LogoTail := ". Minimalist, vector art, white background."

  /** The logo prompt built from a generated identity: it names the company
      and the logo style the identity proposed. */
  function LogoPrompt(data: BrandIdentity): (prompt: string)
    ensures IsInfix(data.companyName, prompt)
    ensures IsInfix(data.logoStyle, prompt)
    ensures IsPrefix(LogoHead, prompt)
  {
    TemplateMeaning(LogoHead, data.companyName, LogoMiddle, data.logoStyle, LogoTail);
    LogoHead + data.companyName + LogoMiddle + data.logoStyle + LogoTail
  }

  /** `generateBrandLogo` up to its `await`: the flag is raised and a
      reference-free image request with the logo prompt is issued. */
  function StartLogo(s: AppState, data: BrandIdentity): (r: (AppState, seq<Part>))
    ensures r.0 == s.(isLogoGenerating := true)
    ensures ReadImageRequest(r.1) == Some(ImageCall(LogoPrompt(data), None))
  {
    ImageRequestRoundTrip(LogoPrompt(data), None);
    (s.(isLogoGenerating := true), ImageRequestParts(LogoPrompt(data), None))
  }

  /** The form after a successful identity call: the service's normalised
      location is adopted when it is non-empty and differs from the location
      that was submitted (the handler compares against the form it captured,
      but updates the latest form). */
  function AdoptLocation(current: FormData, submitted: FormData, data: BrandIdentity): (f: FormData)
    ensures f == current || f == current.(location := data.normalizedLocation)
    ensures data.normalizedLocation != "" && data.normalizedLocation != submitted.location ==>
      f.location == data.normalizedLocation
    ensures data.normalizedLocation == "" || data.normalizedLocation == submitted.location ==> f == current
  {
    if data.normalizedLocation != "" && data.normalizedLocation != submitted.location then
      current.(location := data.normalizedLocation)
    else
      current
  }

  /** `handleGenerate` after its `await`, given the outcome of
      `generateBrandIdentity` on the submitted form. Success stores the
      identity, adopts the normalised location and starts the logo; failure
      stores nothing. Both end the thinking state. */
  function FinishGenerate(s: AppState, submitted: FormData, outcome: Result<BrandIdentity, Error>): (r: (AppState, Option<seq<Part>>))
    ensures !r.0.isThinking
    ensures r.0.logoImage == s.logoImage && r.0.productImages == s.productImages && r.0.activeTab == s.activeTab
    ensures outcome.Failure? ==> r == (s.(isThinking := false), None)
    ensures outcome.Success? ==>
      && r.0.brandData == Some(outcome.value)
      && r.0.form == AdoptLocation(s.form, submitted, outcome.value)
      && r.0.isLogoGenerating
      && r.1.Some?
      && ReadImageRequest(r.1.value) == Some(ImageCall(LogoPrompt(outcome.value), None))
  {
    match outcome
    case Failure(_) => (s.(isThinking := false), None)
    case Success(data) =>
      var stored := s.(brandData := Some(data), form := AdoptLocation(s.form, submitted, data));
      var (withLogo, request) := StartLogo(stored, data);
      (withLogo.(isThinking := false), Some(request))
  }

  /** A whole generate cycle that fails at the identity call leaves no
      identity, no logo and no product images, and is not thinking. */
  lemma IdentityFailureShowsNothing(s: AppState, reply: Reply<BrandIdentity>)
    requires s.form.description != "" && s.form.location != ""
    requires !reply.Parsed?
    ensures var (started, request) := StartGenerate(s);
      && request == Some(s.form)
      && started.isThinking
      && var (done, logo) := FinishGenerate(started, s.form, GenerateBrandIdentity(s.form, reply));
      && done.brandData == None && done.logoImage == None && done.productImages == map[]
      && !done.isThinking && logo == None && done.form == s.form
  {
  }

  /** A whole generate cycle whose identity call succeeds shows the corrected
      identity, keeps the form except for an adopted location, and has a logo
      request in flight. */
  lemma IdentitySuccessCycle(s: AppState, data: BrandIdentity)
    requires s.form.description != "" && s.form.location != ""
    ensures var (started, _) := StartGenerate(s);
      var (done, logo) := FinishGenerate(started, s.form, GenerateBrandIdentity(s.form, Parsed(data)));
      && done.brandData.Some?
      && FeasibilityConsistent(done.brandData.value.budgetPlan, s.form.budget)
      && done.brandData.value.companyName == data.companyName
      && done.brandData.value.products == data.products
      && (data.normalizedLocation != "" ==> done.form.location == data.normalizedLocation)
      && (data.normalizedLocation == "" ==> done.form == s.form)
      && done.logoImage == None && done.productImages == map[]
      && !done.isThinking && done.isLogoGenerating && logo.Some?
  {
  }

  // ---------------------------------------------------------------------------
  // generateBrandLogo
  // ---------------------------------------------------------------------------

  /** The logo button: it does nothing without an identity, and otherwise
      generates the logo of the identity shown. */
  function RequestLogo(s: AppState): (r: (AppState, Option<seq<Part>>))
    ensures s.brandData.None? ==> r == (s, None)
    ensures s.brandData.Some? ==>
      && r.0 == s.(isLogoGenerating := true)
      && r.1.Some?
      && ReadImageRequest(r.1.value) == Some(ImageCall(LogoPrompt(s.brandData.value), None))
  {
    match s.brandData
    case None => (s, None)
    case Some(data) =>
      var (t, request) := StartLogo(s, data);
      (t, Some(request))
  }

  /** `generateBrandLogo` after its `await`: the image is stored on success;
      on failure the previous logo stays. The flag drops on both paths. */
  function FinishLogo(s: AppState, outcome: Result<GeneratedImage, Error>): (r: AppState)
    ensures !r.isLogoGenerating
    ensures outcome.Success? ==> r == s.(logoImage := Some(outcome.value), isLogoGenerating := false)
    ensures outcome.Failure? ==> r == s.(isLogoGenerating := false)
  {
    match outcome
    case Success(img) => s.(logoImage := Some(img), isLogoGenerating := false)
    case Failure(_) => s.(isLogoGenerating := false)
  }

  /** A logo round trip through the service: the flag is up while the call
      runs and down afterwards; a failed call keeps the previous logo, and a
      successful one stores a PNG. */
  lemma LogoCycle(s: AppState, service: Result<ImageResponse, Error>)
    requires s.brandData.Some?
    ensures var (started, _) := RequestLogo(s);
      && started.isLogoGenerating
      && var done := FinishLogo(started, GenerateImage(service));
      && !done.isLogoGenerating
      && (GenerateImage(service).Failure? ==> done.logoImage == s.logoImage)
      && (GenerateImage(service).Success? ==> done.logoImage.Some? && done.logoImage.value.mimeType == PngMime)
  {
  }

  /** Completions are not fenced by generation cycle: a logo requested in an
      earlier cycle that completes after a new submission is stored next to
      the new cycle's (still missing) identity. */
  lemma StaleLogoCompletionLands(s: AppState, earlier: GeneratedImage)
    requires s.form.description != "" && s.form.location != ""
    ensures var (started, _) := StartGenerate(s);
      var done := FinishLogo(started, Success(earlier));
      done.brandData == None && done.logoImage == Some(earlier)
  {
  }

  // ---------------------------------------------------------------------------
  // handleProductImageGenerated
  // ---------------------------------------------------------------------------

  /** Caches a product image under its index, leaving every other index and
      the rest of the state as it was. */
  function HandleProductImageGenerated(s: AppState, index: int, img: GeneratedImage): (r: AppState)
    ensures r == s.(productImages := r.productImages)
    ensures index in r.productImages && r.productImages[index] == img
    ensures r.productImages.Keys == s.productImages.Keys + {index}
    ensures forall k :: k in s.productImages && k != index ==> r.productImages[k] == s.productImages[k]
  {
    s.(productImages := s.productImages[index := img])
  }

  /** The image handed to the card at `index`: the cached one, or none. */
  function CardImage(s: AppState, index: int): (img: Option<GeneratedImage>)
    ensures img.Some? <==> index in s.productImages
    ensures img.Some? ==> img.value == s.productImages[index]
  {
    if index in s.productImages then Some(s.productImages[index]) else None
  }

  /** Caching is per slot: completions for different indices commute, and
      one slot's completion does not change what another card sees. */
  lemma ProductImageSlotsIndependent(s: AppState, i: int, a: GeneratedImage, j: int, b: GeneratedImage)
    requires i != j
    ensures HandleProductImageGenerated(HandleProductImageGenerated(s, i, a), j, b)
         == HandleProductImageGenerated(HandleProductImageGenerated(s, j, b), i, a)
    ensures CardImage(HandleProductImageGenerated(s, i, a), j) == CardImage(s, j)
    ensures CardImage(HandleProductImageGenerated(s, i, a), i) == Some(a)
  {
    var l := HandleProductImageGenerated(HandleProductImageGenerated(s, i, a), j, b);
    var r := HandleProductImageGenerated(HandleProductImageGenerated(s, j, b), i, a);
    assert l.productImages == r.productImages;
  }

  /** Switching tabs changes nothing in the App's own state but the tab: no
      identity, logo or cached product image is regenerated or dropped. The
      product cards, which exist only on the products tab, do lose their own
      state (`ProductCard.RemountRestartsGeneration`). */
  function SelectTab(s: AppState, t: Tab): (r: AppState)
    ensures r.activeTab == t
    ensures r.brandData == s.brandData && r.logoImage == s.logoImage && r.productImages == s.productImages
    ensures r.form == s.form && r.isThinking == s.isThinking && r.isLogoGenerating == s.isLogoGenerating
  {
    s.(activeTab := t)
  }

  // ---------------------------------------------------------------------------
  // The budget tab after an edit
  // ---------------------------------------------------------------------------

  /** Feasibility is decided once, against the budget the form had when it
      was submitted, while the budget tab is given the live form budget.
      Raising the budget above the minimum after a short submission leaves
      the shortfall warning and the old funding gap on screen next to a
      full progress bar. */
  lemma BudgetEditLeavesVerdictStale(s: AppState, data: BrandIdentity, raised: real)
    requires s.form.description != "" && s.form.location != ""
    requires 0.0 <= s.form.budget < data.budgetPlan.suggestedMinimumBudget <= raised
    ensures var edited := HandleFormChange(
        FinishGenerate(StartGenerate(s).0, s.form, GenerateBrandIdentity(s.form, Parsed(data))).0,
        SetBudget(raised));
      && edited.form.budget == raised
      && edited.brandData.Some?
      && var plan := edited.brandData.value.budgetPlan;
      && BudgetBreakdown.ViewFor(plan).criticalWarning
      && plan.missingBudget == data.budgetPlan.suggestedMinimumBudget - s.form.budget
      && BudgetBreakdown.ProgressWidth(edited.form.budget, plan.suggestedMinimumBudget) == BudgetBreakdown.Percent(100.0)
  {
    var identity := GenerateBrandIdentity(s.form, Parsed(data));
    var done := FinishGenerate(StartGenerate(s).0, s.form, identity).0;
    assert done.brandData == Some(identity.value);
    assert identity.value.budgetPlan == CorrectFeasibility(data.budgetPlan, s.form.budget);
    BudgetBreakdown.StaleVerdict(data.budgetPlan, s.form.budget, raised);
  }
}
