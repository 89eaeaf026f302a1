/** The per-slot generation state of components/ProductCard.tsx. The quota
    flag is a property the card receives; nothing in the application sets
    it, so it is a plain input here. Callbacks to the parent are returned as
    effects. */
module ProductCard {
  import opened Common
  import opened Types
  import opened GeminiService
  import App

  datatype CardState = CardState(loading: bool, error: bool, errorMessage: Option<string>)

  const InitialCard := CardState(false, false, None)

  /** The properties of one card that its logic reads. */
  datatype CardProps = CardProps(
    product: ProductIdea,
    businessType: BusinessType,
    image: Option<GeneratedImage>,
    logoImage: Option<GeneratedImage>,
    imageQuotaReached: bool)

  /** A call to the parent: `onImageGenerated` or `onImageQuotaExceeded`. */
  datatype CardEffect = ImageGenerated(image: GeneratedImage) | QuotaExceeded(message: string)

  const QuotaCode := "IMAGE_QUOTA_EXCEEDED"
  const QuotaDefaultMessage := "Image quota exceeded for this API key. Enable billing or wait for reset."
  const RetryMessage := "Generation failed. Please retry."

  // ---------------------------------------------------------------------------
  // Prompt selection
  // ---------------------------------------------------------------------------

  const Indent := "\n          "

  // The fixed text around the two inserted fields of each template (the
  // template literals after `.trim()`).
  const ServiceHead := ServiceOpening + ", 3D rendered evolution of the provided logo. " + Indent
    + "The logo is transforming into a representation of \""
  const ServiceMiddle := "\". " + Indent + "Concept: "
  const ServiceTail := "." + Indent
    + "Style: Cyberpunk, glassmorphism, intricate 8k texture, glowing edges, cinematic lighting. " + Indent
    + "The shape should resemble the original logo but be significantly more complex and premium."
  const ProductHead := ProductOpening + " commercial photography of "
  const ProductMiddle := ": "
  const ProductTail := ". " + Indent
    + "Cinematic lighting, 8k resolution, photorealistic, commercial style." + Indent
    + "Incorporate the provided logo naturally into the scene (e.g. on the product packaging or label)."

  /** The "evolution of the logo" prompt used for services. */
  function ServicePrompt(p: ProductIdea): string {
    ServiceHead + p.name + ServiceMiddle + p.visualPrompt + ServiceTail
  }

  /** The "commercial photography" prompt used for products. */
  function ProductPrompt(p: ProductIdea): string {
    ProductHead + p.name + ProductMiddle + p.visualPrompt + ProductTail
  }

  const ServiceOpening := "A highly detailed"
  const ProductOpening := "High-quality"

  /** The service template embeds the name and visual prompt and opens
      with its own words. */
  lemma ServicePromptFacts(p: ProductIdea)
    ensures IsInfix(p.name, ServicePrompt(p)) && IsInfix(p.visualPrompt, ServicePrompt(p))
    ensures IsPrefix(ServiceOpening, ServicePrompt(p))
  {
    var s := ServicePrompt(p);
    TemplateMeaning(ServiceHead, p.name, ServiceMiddle, p.visualPrompt, ServiceTail);
    assert s[..|ServiceHead|] == ServiceHead;
    assert ServiceHead[..|ServiceOpening|] == ServiceOpening;
    assert s[..|ServiceOpening|] == ServiceOpening;
  }

  /** The product template embeds the name and visual prompt and opens
      with its own words. */
  lemma ProductPromptFacts(p: ProductIdea)
    ensures IsInfix(p.name, ProductPrompt(p)) && IsInfix(p.visualPrompt, ProductPrompt(p))
    ensures IsPrefix(ProductOpening, ProductPrompt(p))
  {
    var s := ProductPrompt(p);
    TemplateMeaning(ProductHead, p.name, ProductMiddle, p.visualPrompt, ProductTail);
    assert s[..|ProductHead|] == ProductHead;
    assert ProductHead[..|ProductOpening|] == ProductOpening;
    assert s[..|ProductOpening|] == ProductOpening;
  }

  /** The prompt for an offering: both templates embed its name and visual
      prompt, and the opening words tell which template the business type
      chose. */
  function PromptFor(bt: BusinessType, p: ProductIdea): (prompt: string)
    ensures IsInfix(p.name, prompt)
    ensures IsInfix(p.visualPrompt, prompt)
    ensures bt == Service <==> IsPrefix(ServiceOpening, prompt)
    ensures bt == Product <==> IsPrefix(ProductOpening, prompt)
  {
    match bt
    case Service =>
      ServicePromptFacts(p);
      assert ServicePrompt(p)[0] == ServiceOpening[0] != ProductOpening[0];
      ServicePrompt(p)
    case Product =>
      ProductPromptFacts(p);
      assert ProductPrompt(p)[0] == ProductOpening[0] != ServiceOpening[0];
      ProductPrompt(p)
  }

  // ---------------------------------------------------------------------------
  // handleGenerate
  // ---------------------------------------------------------------------------

  /** `handleGenerate` up to its `await`. A card that is loading, or whose
      quota is reached, does nothing. Otherwise it starts loading, clears the
      error flag (the last message stays), and calls the image service with
      the template for its business type and, when a logo exists, the logo
      as reference. */
  function StartGenerate(props: CardProps, st: CardState): (r: (CardState, Option<ImageCall>))
    ensures st.loading || props.imageQuotaReached ==> r == (st, None)
    ensures !st.loading && !props.imageQuotaReached ==>
      && r.0 == CardState(true, false, st.errorMessage)
      && r.1.Some?
      && r.1.value.prompt == PromptFor(props.businessType, props.product)
      && (r.1.value.reference.Some? <==> props.logoImage.Some?)
      && (props.logoImage.Some? ==> r.1.value.reference.value == props.logoImage.value.base64)
  {
    if st.loading || props.imageQuotaReached then (st, None)
    else
      var reference := if props.logoImage.Some? then Some(props.logoImage.value.base64) else None;
      (st.(loading := true, error := false),
       Some(ImageCall(PromptFor(props.businessType, props.product), reference)))
  }

  /** The message shown for a failed generation: the error's own message for
      a quota error (or a fixed explanation when it has none), otherwise the
      generic retry prompt. */
  function FailureMessage(e: Error): (m: string)
    ensures m != ""
    ensures e.code == Some(QuotaCode) && e.message != "" ==> m == e.message
    ensures e.code == Some(QuotaCode) && e.message == "" ==> m == QuotaDefaultMessage
    ensures e.code != Some(QuotaCode) ==> m == RetryMessage
  {
    if e.code == Some(QuotaCode) then
      if e.message != "" then e.message else QuotaDefaultMessage
    else RetryMessage
  }

  /** `handleGenerate` after its `await`. Success hands the image to the
      parent exactly once; failure sets the error flag and message and, for a
      quota error only, reports the message to the parent. Loading ends on
      both paths. */
  function FinishGenerate(st: CardState, outcome: Result<GeneratedImage, Error>): (r: (CardState, seq<CardEffect>))
    ensures !r.0.loading
    ensures outcome.Success? ==> r == (st.(loading := false), [ImageGenerated(outcome.value)])
    ensures outcome.Failure? ==>
      && r.0 == CardState(false, true, Some(FailureMessage(outcome.error)))
      && (outcome.error.code == Some(QuotaCode) ==> r.1 == [QuotaExceeded(FailureMessage(outcome.error))])
      && (outcome.error.code != Some(QuotaCode) ==> r.1 == [])
  {
    match outcome
    case Success(img) => (st.(loading := false), [ImageGenerated(img)])
    case Failure(e) =>
      var failed := CardState(false, true, Some(FailureMessage(e)));
      if e.code == Some(QuotaCode) then (failed, [QuotaExceeded(FailureMessage(e))]) else (failed, [])
  }

  /** With the service as it is, no failure is ever a quota failure: the
      card reports no quota effect and always shows the retry message,
      unless the remote call itself threw an error carrying that code. */
  lemma ServiceErrorsShowRetry(st: CardState, service: Result<ImageResponse, Error>)
    requires service.Failure? ==> service.error.code != Some(QuotaCode)
    ensures var (done, effects) := FinishGenerate(st, GenerateImage(service));
      && (GenerateImage(service).Failure? ==> done.errorMessage == Some(RetryMessage) && effects == [])
      && (GenerateImage(service).Success? ==> |effects| == 1 && effects[0].ImageGenerated?)
  {
  }

  // ---------------------------------------------------------------------------
  // What the card shows and when it starts by itself
  // ---------------------------------------------------------------------------

  /** The effect that generates automatically when the card has nothing to
      show, nothing in progress and no error. It really issues a request,
      and a card that starts by itself never offers Retry. */
  function ShouldAutoGenerate(props: CardProps, st: CardState): (start: bool)
    ensures start ==> StartGenerate(props, st).1.Some?
    ensures start ==> !ControlsFor(props, st).retry && !ControlsFor(props, st).regenerate
    ensures props.image.Some? || st.error || props.imageQuotaReached ==> !start
    ensures props.image.None? && !st.loading && !st.error && !props.imageQuotaReached ==> start
  {
    props.image.None? && !st.loading && !st.error && !props.imageQuotaReached
  }

  datatype Controls = Controls(retry: bool, regenerate: bool)

  /** The Retry button belongs to the error view of an image-less card; the
      Regenerate button to a card with an image. */
  function ControlsFor(props: CardProps, st: CardState): (c: Controls)
    ensures c.retry <==> props.image.None? && !st.loading && st.error
    ensures c.regenerate <==> props.image.Some?
    ensures !(c.retry && c.regenerate)
  {
    Controls(props.image.None? && !st.loading && st.error, props.image.Some?)
  }

  /** While the card stays mounted a failure is not retried automatically:
      an image-less card keeps its Retry button and does not start by
      itself. */
  lemma FailureWaitsForRetry(props: CardProps, st: CardState, e: Error)
    requires props.image.None?
    ensures var done := FinishGenerate(st, Failure(e)).0;
      !ShouldAutoGenerate(props, done) && ControlsFor(props, done).retry
  {
  }

  /** Once the quota is reached, neither the automatic start nor Retry nor
      Regenerate reaches the service. */
  lemma QuotaBlocksEveryStart(props: CardProps, st: CardState)
    requires props.imageQuotaReached
    ensures !ShouldAutoGenerate(props, st)
    ensures StartGenerate(props, st) == (st, None)
  {
  }

  /** Cards exist only on the products tab, so leaving the tab discards
      their state and returning mounts fresh cards. A mounted card whose
      request failed, or is still running, does not start again; the same
      slot remounted without a cached image does, so a failed slot is
      retried and a running request is issued a second time. */
  lemma RemountRestartsGeneration(props: CardProps, st: CardState)
    requires props.image.None? && !props.imageQuotaReached
    requires st.loading || st.error
    ensures !ShouldAutoGenerate(props, st)
    ensures st.loading ==> StartGenerate(props, st).1 == None
    ensures ShouldAutoGenerate(props, InitialCard)
    ensures StartGenerate(props, InitialCard).1 == Some(ImageCall(PromptFor(props.businessType, props.product),
                                                                 if props.logoImage.Some? then Some(props.logoImage.value.base64) else None))
  {
  }

  /** Card completions are not fenced by generation cycle either: an image
      requested by a card of the previous identity that completes after a
      new submission is cached under its index, and the card in that slot
      of the next identity shows it and does not generate its own. */
  lemma StaleProductImageBlocksNewCard(s: App.AppState, index: int, earlier: GeneratedImage, props: CardProps, st: CardState)
    requires s.form.description != "" && s.form.location != ""
    ensures var (started, _) := App.StartGenerate(s);
      var landed := App.HandleProductImageGenerated(started, index, earlier);
      && landed.brandData == None
      && App.CardImage(landed, index) == Some(earlier)
      && !ShouldAutoGenerate(props.(image := App.CardImage(landed, index)), st)
      && ControlsFor(props.(image := App.CardImage(landed, index)), st).regenerate
  {
  }
}
