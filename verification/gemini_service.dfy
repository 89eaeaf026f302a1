/** The pure parts of services/geminiService.ts: the location check's soft
    fallback, the override lines of the brand prompt, the feasibility
    correction applied to a generated identity, and the request and response
    handling of image generation. The remote model is not modelled: what a
    call returned is an input (`Reply`, `ImageResponse`). */
module GeminiService {
  import opened Common
  import opened Types

  /** What a structured (JSON) remote call gave back. `Thrown` covers both a
      failing remote call and a `JSON.parse` failure; `NoText` is a response
      whose text is empty or absent. */
  datatype Reply<T> = Thrown(error: Error) | NoText | Parsed(value: T)

  datatype LocationValidation = LocationValidation(isValid: bool, normalizedName: string)

  // ---------------------------------------------------------------------------
  // validateLocation
  // ---------------------------------------------------------------------------

  /** The location check: a parsed payload is returned as is, an empty
      payload falls back to "invalid, keep the input", and only a thrown
      error fails. */
  function ValidateLocation(input: string, reply: Reply<LocationValidation>): (r: Result<LocationValidation, Error>)
    ensures r.Failure? <==> reply.Thrown?
    ensures r.Failure? ==> r.error == reply.error
    ensures reply.NoText? ==> r == Success(LocationValidation(false, input))
    ensures reply.Parsed? ==> r == Success(reply.value)
    // the fallback never vouches for a location
    ensures r.Success? && r.value.isValid ==> reply.Parsed? && reply.value.isValid
  {
    match reply
    case Thrown(e) => Failure(e)
    case NoText => Success(LocationValidation(false, input))
    case Parsed(v) => Success(v)
  }

  // ---------------------------------------------------------------------------
  // Feasibility correction (generateBrandIdentity)
  // ---------------------------------------------------------------------------

  /** The invariant the client enforces on every generated budget plan. */
  predicate FeasibilityConsistent(plan: BudgetPlan, userBudget: real) {
    && plan.isFeasible == (userBudget >= plan.suggestedMinimumBudget)
    && plan.missingBudget == Max(0.0, plan.suggestedMinimumBudget - userBudget)
  }

  /** Overwrites the service's feasibility verdict and funding gap from the
      user's budget and the service's own minimum-budget estimate. */
  function CorrectFeasibility(plan: BudgetPlan, userBudget: real): (r: BudgetPlan)
    ensures FeasibilityConsistent(r, userBudget)
    ensures r.missingBudget >= 0.0
    ensures !r.isFeasible ==> r.missingBudget > 0.0
    // nothing but the two corrected fields changes
    ensures r == plan.(isFeasible := r.isFeasible, missingBudget := r.missingBudget)
  {
    if userBudget >= plan.suggestedMinimumBudget then
      plan.(isFeasible := true, missingBudget := 0.0)
    else
      plan.(isFeasible := false, missingBudget := Max(0.0, plan.suggestedMinimumBudget - userBudget))
  }

  /** A plan that already satisfies the invariant is left exactly as it is. */
  lemma CorrectFeasibilityKeepsConsistent(plan: BudgetPlan, userBudget: real)
    requires FeasibilityConsistent(plan, userBudget)
    ensures CorrectFeasibility(plan, userBudget) == plan
  {
  }

  /** Correcting twice is the same as correcting once. */
  lemma CorrectFeasibilityIdempotent(plan: BudgetPlan, userBudget: real)
    ensures CorrectFeasibility(CorrectFeasibility(plan, userBudget), userBudget)
         == CorrectFeasibility(plan, userBudget)
  {
    CorrectFeasibilityKeepsConsistent(CorrectFeasibility(plan, userBudget), userBudget);
  }

  /** The outcome depends only on the two numbers, never on the verdict or
      gap the service reported. */
  lemma CorrectFeasibilityIgnoresServiceVerdict(plan: BudgetPlan, userBudget: real, feasible: bool, missing: real)
    ensures CorrectFeasibility(plan.(isFeasible := feasible, missingBudget := missing), userBudget)
         == CorrectFeasibility(plan, userBudget)
  {
  }

  /** The worked examples: short by 4000, over by 1000, and the inclusive
      boundary. */
  lemma FeasibilityExamples(plan: BudgetPlan)
    requires plan.suggestedMinimumBudget == 5000.0
    ensures var r := CorrectFeasibility(plan, 1000.0); !r.isFeasible && r.missingBudget == 4000.0
    ensures var r := CorrectFeasibility(plan, 6000.0); r.isFeasible && r.missingBudget == 0.0
    ensures var r := CorrectFeasibility(plan, 5000.0); r.isFeasible && r.missingBudget == 0.0
  {
  }

  // ---------------------------------------------------------------------------
  // generateBrandIdentity
  // ---------------------------------------------------------------------------

  const NoTextMessage := "No text returned from Gemini"

  /** Brand-identity generation around the opaque remote call: an empty
      payload is a hard failure, a parsed identity is returned with its
      budget plan corrected against the form's budget. */
  function GenerateBrandIdentity(form: FormData, reply: Reply<BrandIdentity>): (r: Result<BrandIdentity, Error>)
    ensures r.Success? <==> reply.Parsed?
    ensures reply.Thrown? ==> r == Failure(reply.error)
    ensures reply.NoText? ==> r == Failure(PlainError(NoTextMessage))
    ensures r.Success? ==> FeasibilityConsistent(r.value.budgetPlan, form.budget)
    // everything but the plan's verdict and gap is the service's payload
    ensures r.Success? ==>
      && r.value == reply.value.(budgetPlan := r.value.budgetPlan)
      && r.value.budgetPlan == reply.value.budgetPlan.(isFeasible := r.value.budgetPlan.isFeasible,
                                                       missingBudget := r.value.budgetPlan.missingBudget)
  {
    match reply
    case Thrown(e) => Failure(e)
    case NoText => Failure(PlainError(NoTextMessage))
    case Parsed(data) =>
      Success(data.(budgetPlan := CorrectFeasibility(data.budgetPlan, form.budget)))
  }

  // ---------------------------------------------------------------------------
  // The user-constraint lines of the brand prompt
  // ---------------------------------------------------------------------------

  /** One override line: the user's value wrapped in `usePrefix`/`useSuffix`
      when it is truthy, otherwise the fixed "Generate ..." instruction. */
  function OverrideLine(given: Option<string>, usePrefix: string, useSuffix: string, generate: string): string {
    if Truthy(given) then usePrefix + given.value + useSuffix else generate
  }

  const NameUse := "- Use the Company Name: \""
  const NameUseEnd := "\""
  const NameGenerate := "- Generate a professional Company Name."
  const SloganUse := "- Use the Slogan: \""
  const SloganUseEnd := "\""
  const SloganGenerate := "- Generate a memorable Slogan."
  const ColorsUse := "- Incorporate these colors: "
  const ColorsUseEnd := ""
  const ColorsGenerate := "- Generate a color palette " + "suitable for the industry."

  // Each constraint line carries exactly the override it honours: the
  // user's non-empty name, slogan or colours, or else the corresponding
  // "Generate ..." instruction.

  function NameLine(form: FormData): (line: string)
    ensures ReadOverrideLine(line, NameUse, NameUseEnd, NameGenerate) == Honoured(form.existingName)
    ensures line == NameGenerate <==> !Truthy(form.existingName)
  {
    OverrideLineRoundTrip(form.existingName, NameUse, NameUseEnd, NameGenerate, 2);
    OverrideLine(form.existingName, NameUse, NameUseEnd, NameGenerate)
  }

  function SloganLine(form: FormData): (line: string)
    ensures ReadOverrideLine(line, SloganUse, SloganUseEnd, SloganGenerate) == Honoured(form.existingSlogan)
    ensures line == SloganGenerate <==> !Truthy(form.existingSlogan)
  {
    OverrideLineRoundTrip(form.existingSlogan, SloganUse, SloganUseEnd, SloganGenerate, 2);
    OverrideLine(form.existingSlogan, SloganUse, SloganUseEnd, SloganGenerate)
  }

  function ColorsLine(form: FormData): (line: string)
    ensures ReadOverrideLine(line, ColorsUse, ColorsUseEnd, ColorsGenerate) == Honoured(form.existingColors)
    ensures line == ColorsGenerate <==> !Truthy(form.existingColors)
  {
    OverrideLineRoundTrip(form.existingColors, ColorsUse, ColorsUseEnd, ColorsGenerate, 2);
    OverrideLine(form.existingColors, ColorsUse, ColorsUseEnd, ColorsGenerate)
  }

  /** Reads an override line back: the user's value for a "Use ..." line,
      `None` for the "Generate ..." line. */
  function ReadOverrideLine(line: string, usePrefix: string, useSuffix: string, generate: string): Option<string> {
    if line != generate && |usePrefix| + |useSuffix| <= |line|
       && line[..|usePrefix|] == usePrefix && line[|line| - |useSuffix|..] == useSuffix
    then Some(line[|usePrefix|..|line| - |useSuffix|])
    else None
  }

  /** The user's value, if the prompt will honour it. */
  function Honoured(given: Option<string>): Option<string> {
    if Truthy(given) then given else None
  }

  /** An override line can be read back to exactly the value it honours,
      provided no "Use ..." line can be mistaken for the "Generate ..." one:
      the two differ at some position inside the prefix. */
  lemma OverrideLineRoundTrip(given: Option<string>, usePrefix: string, useSuffix: string, generate: string, k: nat)
    requires k < |usePrefix| && k < |generate| && usePrefix[k] != generate[k]
    ensures ReadOverrideLine(OverrideLine(given, usePrefix, useSuffix, generate), usePrefix, useSuffix, generate)
         == Honoured(given)
  {
    var line := OverrideLine(given, usePrefix, useSuffix, generate);
    if Truthy(given) {
      assert line[k] == usePrefix[k];
      assert line != generate;
      assert line[..|usePrefix|] == usePrefix;
      assert line[|line| - |useSuffix|..] == useSuffix;
      assert line[|usePrefix|..|line| - |useSuffix|] == given.value;
    } else {
      assert line == generate;
    }
  }

  // ---------------------------------------------------------------------------
  // generateImage: request parts
  // ---------------------------------------------------------------------------

  datatype InlineData = InlineData(data: string, mimeType: string)

  /** One part of a multimodal request. */
  datatype Part = InlinePart(inlineData: InlineData) | TextPart(text: string)

  const PngMime := "image/png"
  const ReferenceSuffix := ". Use the provided image as the strict reference for the logo/brand symbol."

  /** The request parts of an image generation. A truthy reference image is
      sent first, as PNG data, and the prompt is amended to anchor on it;
      otherwise the prompt is the single part. */
  function ImageRequestParts(prompt: string, reference: Option<string>): (parts: seq<Part>)
    ensures Truthy(reference) ==>
      && |parts| == 2
      && parts[0] == InlinePart(InlineData(reference.value, PngMime))
      && parts[1] == TextPart(prompt + ReferenceSuffix)
    ensures !Truthy(reference) ==> parts == [TextPart(prompt)]
  {
    if Truthy(reference) then
      [InlinePart(InlineData(reference.value, PngMime)), TextPart(prompt + ReferenceSuffix)]
    else
      [TextPart(prompt)]
  }

  datatype ImageCall = ImageCall(prompt: string, reference: Option<string>)

  /** Reads the caller's prompt and reference back from request parts. */
  function ReadImageRequest(parts: seq<Part>): Option<ImageCall> {
    if |parts| == 1 && parts[0].TextPart? then
      Some(ImageCall(parts[0].text, None))
    else if |parts| == 2 && parts[0].InlinePart? && parts[1].TextPart?
            && |ReferenceSuffix| <= |parts[1].text|
            && parts[1].text[|parts[1].text| - |ReferenceSuffix|..] == ReferenceSuffix then
      var t := parts[1].text;
      Some(ImageCall(t[..|t| - |ReferenceSuffix|], Some(parts[0].inlineData.data)))
    else
      None
  }

  /** The request loses nothing: the prompt and the (truthy) reference are
      recovered from the parts. */
  lemma ImageRequestRoundTrip(prompt: string, reference: Option<string>)
    ensures ReadImageRequest(ImageRequestParts(prompt, reference)) == Some(ImageCall(prompt, Honoured(reference)))
  {
    if Truthy(reference) {
      var t := prompt + ReferenceSuffix;
      assert t[|t| - |ReferenceSuffix|..] == ReferenceSuffix;
      assert t[..|t| - |ReferenceSuffix|] == prompt;
    }
  }

  // ---------------------------------------------------------------------------
  // generateImage: response handling
  // ---------------------------------------------------------------------------

  datatype ResponsePart = ResponsePart(inlineData: Option<InlineData>, text: Option<string>)
  datatype Content = Content(parts: Option<seq<ResponsePart>>)
  datatype Candidate = Candidate(content: Option<Content>)
  datatype ImageResponse = ImageResponse(candidates: Option<seq<Candidate>>)

  /** The first part of the first candidate's content, when every link of
      that chain is present. */
  function FirstPart(resp: ImageResponse): Option<ResponsePart> {
    if resp.candidates.Some? && |resp.candidates.value| > 0
       && resp.candidates.value[0].content.Some?
       && resp.candidates.value[0].content.value.parts.Some?
       && |resp.candidates.value[0].content.value.parts.value| > 0
    then Some(resp.candidates.value[0].content.value.parts.value[0])
    else None
  }

  const NoImageMessage := "No image generated."

  /** Extracts the generated image: the first part of the first candidate
      must carry inline data, which is returned labelled as PNG whatever
      MIME type the service reported. */
  function ExtractImage(resp: ImageResponse): (r: Result<GeneratedImage, Error>)
    ensures r.Success? <==> FirstPart(resp).Some? && FirstPart(resp).value.inlineData.Some?
    ensures r.Success? ==> r.value == GeneratedImage(FirstPart(resp).value.inlineData.value.data, PngMime)
    ensures r.Failure? ==> r.error == PlainError(NoImageMessage)
  {
    var part := FirstPart(resp);
    if part.Some? && part.value.inlineData.Some? then
      Success(GeneratedImage(part.value.inlineData.value.data, PngMime))
    else
      Failure(PlainError(NoImageMessage))
  }

  /** generateImage after the request: an error from the remote call is
      rethrown unchanged, otherwise the image is extracted. */
  function GenerateImage(service: Result<ImageResponse, Error>): (r: Result<GeneratedImage, Error>)
    ensures service.Failure? ==> r == Failure(service.error)
    ensures service.Success? ==> r == ExtractImage(service.value)
    ensures r.Success? ==> r.value.mimeType == PngMime
  {
    match service
    case Failure(e) => Failure(e)
    case Success(resp) => ExtractImage(resp)
  }

  /** The service never tags an error as quota exhaustion itself: every
      error it reports either came from the remote call or is the untagged
      "no image" error. */
  lemma GenerateImageAddsNoErrorCode(service: Result<ImageResponse, Error>)
    ensures var r := GenerateImage(service);
      r.Failure? ==> (service.Failure? && r.error == service.error) || r.error.code == None
  {
  }
}
