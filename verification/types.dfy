/** The application's records (types.ts). Money is an exact `real` where the
    TypeScript uses JavaScript numbers. */
module Types {
  import opened Common

  datatype Currency = USD | EUR | BAM | RSD | GBP

  /** The generation form. The optional overrides are `undefined` or a
      string, as in the TypeScript interface. */
  datatype FormData = FormData(
    description: string,
    location: string,
    budget: real,
    currency: Currency,
    existingName: Option<string>,
    existingSlogan: Option<string>,
    existingColors: Option<string>)

  datatype Frequency = OneTime | Monthly | Yearly

  datatype BudgetItem = BudgetItem(
    category: string,
    item: string,
    cost: real,
    frequency: Frequency,
    reasoning: string,
    searchQuery: Option<string>)

  datatype BudgetPlan = BudgetPlan(
    items: seq<BudgetItem>,
    totalEstimatedMonthly: real,
    totalOneTimeStartup: real,
    estimatedMonthlyRevenue: real,
    breakEvenMonths: real,
    currency: Currency,
    advice: string,
    isFeasible: bool,
    suggestedMinimumBudget: real,
    missingBudget: real)

  datatype ProductIdea = ProductIdea(
    name: string,
    description: string,
    price: real,
    visualPrompt: string)

  datatype BusinessType = Service | Product

  datatype BrandIdentity = BrandIdentity(
    companyName: string,
    slogan: string,
    description: string,
    colorPalette: seq<string>,
    products: seq<ProductIdea>,
    logoStyle: string,
    budgetPlan: BudgetPlan,
    locationValid: bool,
    normalizedLocation: string,
    businessType: BusinessType)

  datatype GeneratedImage = GeneratedImage(base64: string, mimeType: string)
}
