# BrandForge core — a Dafny model

BrandForge turns a business description, a location and a budget into a brand
package: name, slogan, palette, logo, three offerings with images, and a
location-aware startup budget with a feasibility verdict. The generative
service calls are opaque; this project models the deterministic logic
around them:

- **Gemini service** (`gemini_service.dfy`): the location check's soft
  fallback, the user-override lines of the brand prompt, the feasibility
  correction applied to every generated budget plan, and the request parts
  and response handling of image generation. What a remote call returned is
  an input (`Reply`, `ImageResponse`). `Reply.Thrown` covers both a failing
  remote call and a failing `JSON.parse`.
- **Budget breakdown** (`budget_breakdown.dfy`): the per-category fold over
  the plan's items, the grand total, the stable sort by descending total,
  the top three cost drivers, the palette cycling, the feasibility blocks,
  the capped progress bar and the "Find Listing" action.
- **App session** (`app.dfy`): the form, the generate cycle, the logo
  generation and the per-index product image cache. Each asynchronous
  handler is split at its `await` into a start transition, which returns the
  request it issues, and a completion transition, which takes the call's
  outcome. Any interleaving of completions can be expressed by the caller.
- **Product card** (`product_card.dfy`): the per-slot loading and error
  state, the prompt chosen by business type, error classification, the
  automatic start and the Retry/Regenerate controls. Calls to the parent
  are returned as effects.
- **Input panel** (`input_panel.dfy`): the location-check status machine,
  the edit reset, the submit gate and the currency list.
- **Logo display** (`logo_display.dfy`): the progress-phase counter, the
  download file name and the view selection.
- `common.dfy` and `types.dfy` hold the shared vocabulary and the records of
  `types.ts`.

Money is an exact `real`. Optional strings are `Option<string>`, and
JavaScript truthiness is `Truthy`: absent and empty strings are falsy.

The code has no retry/backoff wrapper. It also has no session-wide quota
latch. `generateImage` rethrows every error unchanged and never tags one as
a quota error. The card's `imageQuotaReached` flag is therefore a plain
input, and App never sets it. `GenerateImageAddsNoErrorCode` and
`ServiceErrorsShowRetry` state what follows: any quota error would have to
come from the remote call itself.

Completions are not fenced by generation cycle. A logo requested in one
cycle and completing after the next submission is stored beside the new
cycle's identity (`App.StaleLogoCompletionLands`). A product image requested
by a card of the previous identity is likewise cached under its index. The
card in that slot of the next identity then shows it and does not generate
its own (`ProductCard.StaleProductImageBlocksNewCard`).

Feasibility is decided once, when the form is submitted: the verdict and the
funding gap are corrected against the budget the form had then. The budget
tab, however, is handed the live form budget. After the budget is raised
past the suggested minimum, the tab still shows the shortfall warning and
the old gap next to a full progress bar (`App.BudgetEditLeavesVerdictStale`).

Product cards exist only on the products tab while an identity is shown.
Leaving the tab discards their loading and error state, and returning
mounts fresh cards, whose automatic start fires again for every slot without
a cached image (`ProductCard.RemountRestartsGeneration`).

## Model

| member | source | states |
|---|---|---|
| GeminiService.ValidateLocation | services/geminiService.ts:28-29 | an empty payload yields "invalid, keep the input" and never fails; only a thrown call fails; the fallback never declares a location valid |
| GeminiService.CorrectFeasibility | services/geminiService.ts:157-167 | after correction `isFeasible` holds iff budget >= suggested minimum, the gap is max(0, minimum - budget) and never negative, positive when infeasible; no other field of the plan changes |
| GeminiService.CorrectFeasibilityKeepsConsistent | services/geminiService.ts:157-167 | a plan already consistent with the budget is left unchanged |
| GeminiService.CorrectFeasibilityIdempotent | services/geminiService.ts:157-167 | correcting twice equals correcting once |
| GeminiService.CorrectFeasibilityIgnoresServiceVerdict | services/geminiService.ts:157-167 | the result does not depend on the verdict or gap the service returned |
| GeminiService.FeasibilityExamples | services/geminiService.ts:160-166 | 1000 vs 5000 gives infeasible with gap 4000; 6000 gives feasible with gap 0; 5000 (inclusive boundary) gives feasible with gap 0 |
| GeminiService.GenerateBrandIdentity | services/geminiService.ts:151-169 | succeeds iff a payload was parsed; no text fails with "No text returned from Gemini"; a thrown error propagates; on success the plan is consistent with the form's budget and everything else is the payload |
| GeminiService.OverrideLineRoundTrip | services/geminiService.ts:43-45 | an override line reads back to the user's value when it is truthy, and to "none" (the Generate line) otherwise |
| GeminiService.NameLine | services/geminiService.ts:43 | the company-name line reads back to the user's name when it is non-empty, and is the "Generate" instruction iff the name is absent or empty |
| GeminiService.SloganLine | services/geminiService.ts:44 | the slogan line reads back to the user's slogan when it is non-empty, and is the "Generate" instruction iff the slogan is absent or empty |
| GeminiService.ColorsLine | services/geminiService.ts:45 | the colours line reads back to the user's colours when they are non-empty, and is the "Generate" instruction iff they are absent or empty |
| GeminiService.ImageRequestParts | services/geminiService.ts:180-195 | with a truthy reference: an inline PNG part then the prompt plus the reference instruction; otherwise a single text part equal to the prompt |
| GeminiService.ImageRequestRoundTrip | services/geminiService.ts:180-195 | the prompt and the truthy reference are recovered from the parts |
| GeminiService.ExtractImage | services/geminiService.ts:208-215 | succeeds iff the first part of the first candidate has inline data, returned with MIME type forced to image/png; otherwise fails with "No image generated." |
| GeminiService.GenerateImage | services/geminiService.ts:197-219 | a remote error is rethrown unchanged; otherwise the image is extracted; a success is always PNG |
| GeminiService.GenerateImageAddsNoErrorCode | services/geminiService.ts:208-219 | every failure is either the remote error itself or an error without a code |
| BudgetBreakdown.AddItem | components/BudgetBreakdown.tsx:29 | existing categories keep their place and the entries of other categories are untouched; a new category is appended with the item's cost |
| BudgetBreakdown.AddItemMeaning | components/BudgetBreakdown.tsx:28-31 | one step of the fold keeps categories distinct, adds the item's category, adds its cost to that category only, and adds it to the table's sum |
| BudgetBreakdown.CategoryTotals | components/BudgetBreakdown.tsx:25-31 | after the fold the table has a key for exactly the categories that occur among the items, and no more entries than items |
| BudgetBreakdown.CategoryTotalsMeaning | components/BudgetBreakdown.tsx:25-31 | the table lists each item category once, looks up each category's cost sum, and its values sum to the total cost |
| BudgetBreakdown.CategoryTotalsExact | components/BudgetBreakdown.tsx:28-31 | every table entry equals the sum of costs of the items in its category |
| BudgetBreakdown.Insert | components/BudgetBreakdown.tsx:33-35 | insertion adds exactly the inserted entry (multiset) |
| BudgetBreakdown.InsertSorted | components/BudgetBreakdown.tsx:33-35 | insertion into a non-increasing list keeps it non-increasing |
| BudgetBreakdown.InsertStable | components/BudgetBreakdown.tsx:33-35 | the inserted entry goes ahead of the later entries with the same total |
| BudgetBreakdown.InsertNames | components/BudgetBreakdown.tsx:33-35 | insertion adds the entry's name and value and keeps names distinct |
| BudgetBreakdown.SortByTotal | components/BudgetBreakdown.tsx:33-35 | the sorted list is a permutation of the table |
| BudgetBreakdown.SortByTotalMeaning | components/BudgetBreakdown.tsx:33-35 | the sort is non-increasing and stable, and keeps the same names (each once) and the same sum |
| BudgetBreakdown.TopCosts | components/BudgetBreakdown.tsx:38 | the top drivers are the first min(3, #categories) sorted entries |
| BudgetBreakdown.Analyse | components/BudgetBreakdown.tsx:24-38 | grand total equals the item cost sum and the category sum; sorted categories hold each item category once, non-increasing; top drivers are the prefix of length min(3, n) |
| BudgetBreakdown.SortedCategoriesExact | components/BudgetBreakdown.tsx:28-35 | each sorted entry carries its category's cost sum |
| BudgetBreakdown.TopCostsDominate | components/BudgetBreakdown.tsx:33-38 | every top driver is at least as large as every other category |
| BudgetBreakdown.ColorFor | components/BudgetBreakdown.tsx:87 | the colour at position i is palette entry i mod 8, always a valid palette colour |
| BudgetBreakdown.ColorsCycle | components/BudgetBreakdown.tsx:264 | the legend's colours repeat every eight categories |
| BudgetBreakdown.ViewFor | components/BudgetBreakdown.tsx:102-320 | exactly one of the critical warning and the viable banner is shown, the warning iff the plan is not feasible; the consultant advice is shown iff the plan is feasible |
| BudgetBreakdown.WarningMatchesBudget | services/geminiService.ts:157-167 | for a plan corrected against the budget submitted with the form, the warning shows iff that budget is below the minimum, and the gap shown is the positive shortfall |
| BudgetBreakdown.ProgressWidth | components/BudgetBreakdown.tsx:123 | the bar drawn inside the warning block: a width the browser accepts lies in [0, 100]; the width is rejected iff the budget's share of the minimum is negative, or NaN/-Infinity for a zero minimum; a budget at or above a positive minimum, a positive budget against a zero minimum (+Infinity capped) and a budget at or below a negative minimum all give 100; a non-negative budget below a positive minimum, or a non-positive budget above a negative minimum, gives exactly budget / minimum * 100, below full |
| BudgetBreakdown.ProgressMatchesVerdict | components/BudgetBreakdown.tsx:102-123 | the bar appears only under the warning, where, for a corrected plan with a positive minimum and a non-negative budget, it is never full and shows the budget's share of the minimum; the width would be full only for a viable plan, which shows no bar |
| BudgetBreakdown.StaleVerdict | components/BudgetBreakdown.tsx:102-123 | a plan corrected against a budget below its minimum keeps its warning and gap, and a later budget at or above the minimum fills its bar |
| BudgetBreakdown.HasFindListing | components/BudgetBreakdown.tsx:302 | the action exists iff the item's search query is present and non-empty |
| BudgetBreakdown.FindListingSearchesQuery | components/BudgetBreakdown.tsx:302-307 | whenever the action is shown the click's empty-string fallback is dead and the search text is the item's own non-empty query; the action is shown iff that search text is non-empty |
| App.HandleFormChange | App.tsx:33-35 | only the form changes, and only the named field; writing again changes nothing |
| App.FormChangeReadsBack | App.tsx:33-35 | the written field reads back as the written value |
| App.StartGenerate | App.tsx:37-43 | an empty description or location changes nothing and sends nothing; otherwise thinking starts, identity, logo and product images are cleared, and the current form is sent |
| App.LogoPrompt | App.tsx:66 | the logo prompt opens with the fixed logo wording and names both the company and the proposed logo style |
| App.StartLogo | App.tsx:63-67 | the logo flag is raised and a reference-free request carrying the logo prompt is issued |
| App.AdoptLocation | App.tsx:49-52 | the normalised location replaces the form's location iff it is non-empty and differs from the submitted one; otherwise the form is unchanged |
| App.FinishGenerate | App.tsx:45-60 | thinking ends on both paths; on failure nothing else changes; on success the identity is stored, the location adopted and the logo request started |
| App.IdentityFailureShowsNothing | App.tsx:37-60 | a cycle whose identity call fails ends with no identity, logo or product images, not thinking, no logo request and the form as it was |
| App.IdentitySuccessCycle | App.tsx:37-60 | a successful cycle shows the feasibility-corrected identity, adopts a non-empty normalised location, and has a logo request in flight |
| App.StaleLogoCompletionLands | App.tsx:37-74 | a logo completion from an earlier cycle is stored after a new submission while no identity is shown |
| App.RequestLogo | App.tsx:172 | the logo button does nothing without an identity; otherwise it raises the logo flag and issues a reference-free request carrying the shown identity's logo prompt |
| App.FinishLogo | App.tsx:67-73 | the logo flag drops on both paths; a success stores the image, a failure keeps the previous logo |
| App.LogoCycle | App.tsx:63-74 | across a logo request the flag is up while running and down after; failure keeps the previous logo; success stores a PNG |
| App.HandleProductImageGenerated | App.tsx:76-81 | cache key i maps to the image, every other key and the rest of the state are unchanged |
| App.ProductImageSlotsIndependent | App.tsx:76-81 | completions for different slots commute and do not change what another card sees |
| App.CardImage | App.tsx:210 | the card at an index receives the image cached for that index, and nothing when none is cached |
| App.SelectTab | App.tsx:141-160 | switching tabs leaves the App's identity, logo, cached images, form and flags untouched |
| App.BudgetEditLeavesVerdictStale | App.tsx:33-60 | after a submission below the minimum and a later budget raised to at least the minimum, the budget tab still shows the warning and the old gap, while the bar for the live budget is full |
| ProductCard.PromptFor | components/ProductCard.tsx:34-50 | both templates embed the offering's name and visual prompt; the service template is chosen iff the business is a Service, the product template iff it is a Product |
| ProductCard.StartGenerate | components/ProductCard.tsx:27-57 | a loading or quota-blocked card does nothing; otherwise loading starts, the error clears, and the call carries the type's prompt and a reference iff a logo exists |
| ProductCard.FailureMessage | components/ProductCard.tsx:63-69 | a quota error shows its own message or the fixed default; any other error shows the retry message |
| ProductCard.FinishGenerate | components/ProductCard.tsx:58-72 | loading ends on both paths; success reports the image exactly once; failure sets the error and reports to the quota callback only for the quota code |
| ProductCard.ServiceErrorsShowRetry | components/ProductCard.tsx:60-69 | with errors from the service as written, a failure always shows the retry message and calls no quota callback |
| ProductCard.ControlsFor | components/ProductCard.tsx:111-137 | Retry shows iff there is no image, not loading, and an error; Regenerate iff there is an image; never both |
| ProductCard.ShouldAutoGenerate | components/ProductCard.tsx:75-79 | the automatic start fires iff the card has no image, is not loading, has no error and is not quota-blocked; when it fires a request is issued and neither Retry nor Regenerate is shown |
| ProductCard.FailureWaitsForRetry | components/ProductCard.tsx:60-79 | while mounted, an image-less card that failed does not restart by itself and offers Retry |
| ProductCard.QuotaBlocksEveryStart | components/ProductCard.tsx:27-79 | with the quota reached neither the automatic start nor a button reaches the service |
| ProductCard.RemountRestartsGeneration | components/ProductCard.tsx:23-79 | a mounted image-less card that failed or is loading does not start again; the same slot remounted with fresh state starts and issues the request a second time |
| ProductCard.StaleProductImageBlocksNewCard | App.tsx:76-81 | an image completing after a new submission is cached under its index, and the next identity's card in that slot shows it instead of generating its own |
| InputPanel.CurrenciesComplete | components/InputPanel.tsx:16 | the selector lists each of the five currencies exactly once |
| InputPanel.BeginLocationCheck | components/InputPanel.tsx:20-23 | a location under two characters is not checked and nothing changes; otherwise the check runs on it with the spinner on |
| InputPanel.FinishLocationCheck | components/InputPanel.tsx:24-36 | a valid result adopts the normalised name and marks valid; an invalid one marks invalid and keeps the location; a thrown check changes neither; the spinner stops always |
| InputPanel.EditLocation | components/InputPanel.tsx:80-83 | an edit writes the text and resets the status to idle |
| InputPanel.SubmitDisabled | components/InputPanel.tsx:162 | an enabled button implies a non-empty description and location; a rejected location or a zero budget always disables it, and otherwise only an empty field does |
| InputPanel.FreshPageCannotSubmit | components/InputPanel.tsx:17-18 | on a fresh page the button is disabled, and App's initial form (App.tsx:13-21) is refused by its empty-field guard (App.tsx:37-38); filling in description and location enables it |
| InputPanel.EnabledSubmitStarts | components/InputPanel.tsx:162 | an enabled submit button always passes the App's generate guard |
| InputPanel.EmptyPayloadBlocksUntilEdit | components/InputPanel.tsx:20-37 | an empty service payload keeps the location, marks it invalid and disables submit until the next edit resets the status |
| InputPanel.ConfirmedLocationAdopted | components/InputPanel.tsx:26-28 | a confirmed location is adopted, marked valid, and does not block submit by itself |
| LogoDisplay.SetGenerating | components/LogoDisplay.tsx:19-30 | the effect runs only when the flag changes; turning on restarts at phase 0 with its message; the phase invariant is kept |
| LogoDisplay.FirstGenerationStartsAtFirstPhase | components/LogoDisplay.tsx:16-35 | the fresh display shows the studio message; the first generation opens on the first phase and returns to it after five ticks |
| LogoDisplay.Tick | components/LogoDisplay.tsx:32-35 | a tick maps phase i to (i+1) mod 5 and keeps the index in range and the message in step |
| LogoDisplay.TicksCycle | components/LogoDisplay.tsx:29-35 | after k ticks of a fresh cycle the phase and message are those of k mod 5 |
| LogoDisplay.CollapseWhitespace | components/LogoDisplay.tsx:94 | the result contains no whitespace and is no longer than the input |
| LogoDisplay.CollapseIsReplaceRuns | components/LogoDisplay.tsx:94 | collapsing runs equals the character-at-a-time rule: whitespace emits one underscore per maximal run |
| LogoDisplay.CollapseKeepsVisible | components/LogoDisplay.tsx:94 | the non-whitespace, non-underscore characters survive in their original order |
| LogoDisplay.CollapseIdempotent | components/LogoDisplay.tsx:94 | collapsing twice equals collapsing once |
| LogoDisplay.DownloadFileName | components/LogoDisplay.tsx:94 | the file name is the company name with each whitespace run replaced by one `_`, then `_logo.png`; it has no whitespace and keeps the visible characters in order |
| LogoDisplay.ViewFor | components/LogoDisplay.tsx:49-77 | the placeholder shows iff there is no image and no generation; progress iff generating; the image view iff an image exists; something is always shown |

## Left out

- Remote calls (`getClient`, `generateContent`), the response schemas and `JSON.parse`: their outcomes are inputs. The prompt bodies are opaque, apart from the override lines, the reference suffix, the logo prompt and the product-card templates.
- Retry/backoff and a session-wide quota latch: the code has neither, so the quota flag is only a parameter of the card.
- Pie-chart geometry (trigonometry, SVG paths, explode offsets) and the percentage labels of the cost drivers: floating-point presentation.
- JavaScript number semantics: money is an exact `real`. Rounding, NaN and infinities are not modelled. The one place where an infinity is visible, the progress bar with a zero minimum, is modelled explicitly.
- BudgetBreakdown.CategoryTotals: `Object.entries` lists integer-like keys (such as "10") before the others in ascending numeric order. The model keeps every key in first-occurrence order, so ties in the sort may be broken differently for such category names.
- BudgetBreakdown.CategoryTotals: the table is a plain object, so names inherited from `Object.prototype` behave differently. For "constructor" or "toString" the running total starts from an inherited function and becomes a string. An assignment to "__proto__" is ignored, which drops that category from the chart while its cost stays in the grand total. The model treats every category name as an ordinary key.
- InputPanel.BeginLocationCheck: `length` counts UTF-16 code units; the model counts characters.
- InputPanel.SubmitDisabled: a NaN budget, which `!form.budget` also rejects, is not representable.
- Mounting and unmounting of product cards is modelled only through `ProductCard.RemountRestartsGeneration`: a remounted card starts from the initial card state. React's render scheduling is not modelled.
- `Intl.NumberFormat` currency formatting, JSX/Tailwind rendering, `window.open`/`encodeURIComponent`, the download link element, `setInterval` timing, React effect scheduling, `console` and `alert`: browser effects.
- The loading labels of the product card ("Evolving Logo..." and similar) and the price tooltip: presentation text only.
- The `aspectRatio` argument of `generateImage`: the function never uses it.
- components/CubeLoader.tsx: a CSS animation without logic.
