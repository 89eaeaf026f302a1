/** The derived data of components/BudgetBreakdown.tsx: per-category totals
    folded over the plan's items, the grand total, the categories sorted by
    descending total (a stable sort, as JavaScript's `Array.prototype.sort`
    is), the top three cost drivers, the palette cycling, which feasibility
    blocks are shown, the capped progress bar, and the listing action. */
module BudgetBreakdown {
  import opened Common
  import opened Types
  import GeminiService

  /** One `{ name, value }` entry of the category table. */
  datatype CategoryTotal = CategoryTotal(name: string, value: real)

  // ---------------------------------------------------------------------------
  // Reference definitions
  // ---------------------------------------------------------------------------

  /** Sum of all item costs. */
  function TotalCost(items: seq<BudgetItem>): real {
    if items == [] then 0.0 else TotalCost(items[..|items| - 1]) + items[|items| - 1].cost
  }

  /** Sum of the costs of the items in category `c`. */
  function CategoryCost(items: seq<BudgetItem>, c: string): real {
    if items == [] then 0.0
    else
      var last := items[|items| - 1];
      CategoryCost(items[..|items| - 1], c) + (if last.category == c then last.cost else 0.0)
  }

  /** The set of categories that occur among the items. */
  function Categories(items: seq<BudgetItem>): set<string> {
    if items == [] then {} else Categories(items[..|items| - 1]) + {items[|items| - 1].category}
  }

  /** Sum of the values of a table. */
  function SumValues(es: seq<CategoryTotal>): real {
    if es == [] then 0.0 else es[0].value + SumValues(es[1..])
  }

  /** The value recorded for `n`, or 0 when `n` is not in the table (the
      TypeScript falls back to 0 for a missing key). */
  function Lookup(es: seq<CategoryTotal>, n: string): real {
    if es == [] then 0.0 else if es[0].name == n then es[0].value else Lookup(es[1..], n)
  }

  function Names(es: seq<CategoryTotal>): set<string> {
    if es == [] then {} else {es[0].name} + Names(es[1..])
  }

  /** No category appears twice in the table. */
  predicate DistinctNames(es: seq<CategoryTotal>) {
    es == [] || (es[0].name !in Names(es[1..]) && DistinctNames(es[1..]))
  }

  lemma {:induction false} NameInNames(es: seq<CategoryTotal>, k: nat)
    requires k < |es|
    ensures es[k].name in Names(es)
  {
    if k > 0 {
      assert es[1..][k - 1] == es[k];
      NameInNames(es[1..], k - 1);
    }
  }

  lemma {:induction false} LookupAbsent(es: seq<CategoryTotal>, n: string)
    requires n !in Names(es)
    ensures Lookup(es, n) == 0.0
  {
    if es != [] {
      LookupAbsent(es[1..], n);
    }
  }

  // ---------------------------------------------------------------------------
  // The fold: categoryTotals and totalChartCost
  // ---------------------------------------------------------------------------

  /** One step of the fold: the item's cost is added to its category's
      running total (0 when the category is new), on a table kept in
      key-insertion order: an existing key keeps its place and the other
      entries are untouched, a new key is appended. */
  function AddItem(es: seq<CategoryTotal>, item: BudgetItem): (r: seq<CategoryTotal>)
    ensures |r| == if item.category in Names(es) then |es| else |es| + 1
    ensures Names(r) == Names(es) + {item.category}
    ensures forall i :: 0 <= i < |es| ==> r[i].name == es[i].name
    ensures forall i :: 0 <= i < |es| && es[i].name != item.category ==> r[i] == es[i]
    ensures item.category !in Names(es) ==> r[|es|] == CategoryTotal(item.category, item.cost)
  {
    if es == [] then
      [CategoryTotal(item.category, item.cost)]
    else if es[0].name == item.category then
      [es[0].(value := es[0].value + item.cost)] + es[1..]
    else
      [es[0]] + AddItem(es[1..], item)
  }

  /** Adding an item keeps the table free of duplicates, adds its category
      to the keys, adds its cost to its category and to nothing else, and
      adds its cost to the table's sum. */
  lemma {:induction false} AddItemMeaning(es: seq<CategoryTotal>, item: BudgetItem)
    requires DistinctNames(es)
    ensures DistinctNames(AddItem(es, item))
    ensures Names(AddItem(es, item)) == Names(es) + {item.category}
    ensures forall n :: Lookup(AddItem(es, item), n) == Lookup(es, n) + (if n == item.category then item.cost else 0.0)
    ensures SumValues(AddItem(es, item)) == SumValues(es) + item.cost
  {
    var r := AddItem(es, item);
    if es == [] {
    } else if es[0].name == item.category {
      assert r[1..] == es[1..];
      LookupAbsent(es[1..], item.category);
    } else {
      AddItemMeaning(es[1..], item);
      assert r[1..] == AddItem(es[1..], item);
    }
  }

  /** The per-category table after folding over all the items: one key per
      category that occurs, never more entries than items. */
  function CategoryTotals(items: seq<BudgetItem>): (r: seq<CategoryTotal>)
    ensures Names(r) == Categories(items)
    ensures |r| <= |items|
  {
    if items == [] then []
    else
      var prev := CategoryTotals(items[..|items| - 1]);
      AddItem(prev, items[|items| - 1])
  }

  /** The table lists every category of the items exactly once, records the
      sum of that category's costs for it, and its values add up to the
      grand total. */
  lemma {:induction false} CategoryTotalsMeaning(items: seq<BudgetItem>)
    ensures DistinctNames(CategoryTotals(items))
    ensures Names(CategoryTotals(items)) == Categories(items)
    ensures forall n :: Lookup(CategoryTotals(items), n) == CategoryCost(items, n)
    ensures SumValues(CategoryTotals(items)) == TotalCost(items)
  {
    if items != [] {
      CategoryTotalsMeaning(items[..|items| - 1]);
      AddItemMeaning(CategoryTotals(items[..|items| - 1]), items[|items| - 1]);
    }
  }

  /** With distinct names, an entry's value is what `Lookup` finds for it. */
  lemma {:induction false} LookupDistinct(es: seq<CategoryTotal>, k: nat)
    requires DistinctNames(es) && k < |es|
    ensures Lookup(es, es[k].name) == es[k].value
  {
    if k > 0 {
      assert es[1..][k - 1] == es[k];
      NameInNames(es[1..], k - 1);
      LookupDistinct(es[1..], k - 1);
    }
  }

  /** Every entry of the table carries the sum of its category's costs. */
  lemma {:induction false} CategoryTotalsExact(items: seq<BudgetItem>)
    ensures forall e :: e in CategoryTotals(items) ==> e.value == CategoryCost(items, e.name)
  {
    var r := CategoryTotals(items);
    CategoryTotalsMeaning(items);
    forall e | e in r ensures e.value == CategoryCost(items, e.name) {
      var k :| 0 <= k < |r| && r[k] == e;
      LookupDistinct(r, k);
    }
  }

  // ---------------------------------------------------------------------------
  // Sorting by descending total
  // ---------------------------------------------------------------------------

  predicate SortedDesc(es: seq<CategoryTotal>) {
    forall i, j :: 0 <= i < j < |es| ==> es[i].value >= es[j].value
  }

  /** The entries whose value is `v`, in their order. */
  function WithValue(es: seq<CategoryTotal>, v: real): seq<CategoryTotal> {
    if es == [] then [] else (if es[0].value == v then [es[0]] else []) + WithValue(es[1..], v)
  }

  /** Inserts `e` before the first entry that is not larger, so it precedes
      the entries of equal value that came after it in the input. */
  function Insert(e: CategoryTotal, es: seq<CategoryTotal>): (r: seq<CategoryTotal>)
    ensures |r| == |es| + 1
    ensures multiset(r) == multiset(es) + multiset{e}
  {
    if es == [] || e.value >= es[0].value then
      [e] + es
    else
      assert es == [es[0]] + es[1..];
      [es[0]] + Insert(e, es[1..])
  }

  /** An upper bound on `e` and on every entry of `es` bounds every entry
      after the insertion. */
  lemma {:induction false} InsertBounded(e: CategoryTotal, es: seq<CategoryTotal>, bound: real)
    requires bound >= e.value
    requires forall j :: 0 <= j < |es| ==> bound >= es[j].value
    ensures forall j :: 0 <= j < |Insert(e, es)| ==> bound >= Insert(e, es)[j].value
  {
    if es != [] && e.value < es[0].value {
      InsertBounded(e, es[1..], bound);
      assert Insert(e, es) == [es[0]] + Insert(e, es[1..]);
    }
  }

  lemma {:induction false} InsertSorted(e: CategoryTotal, es: seq<CategoryTotal>)
    requires SortedDesc(es)
    ensures SortedDesc(Insert(e, es))
  {
    if es != [] && e.value < es[0].value {
      var rest := Insert(e, es[1..]);
      InsertSorted(e, es[1..]);
      InsertBounded(e, es[1..], es[0].value);
      assert Insert(e, es) == [es[0]] + rest;
    }
  }

  lemma {:induction false} InsertStable(e: CategoryTotal, es: seq<CategoryTotal>, v: real)
    ensures WithValue(Insert(e, es), v) == (if e.value == v then [e] else []) + WithValue(es, v)
  {
    if es == [] || e.value >= es[0].value {
      assert ([e] + es)[1..] == es;
    } else {
      var rest := Insert(e, es[1..]);
      InsertStable(e, es[1..], v);
      assert Insert(e, es) == [es[0]] + rest;
      assert ([es[0]] + rest)[1..] == rest;
      assert es == [es[0]] + es[1..];
      // e sorts after es[0], so at most one of them has the value v
      if es[0].value == v {
        assert e.value != v;
      }
    }
  }

  lemma {:induction false} InsertNames(e: CategoryTotal, es: seq<CategoryTotal>)
    ensures Names(Insert(e, es)) == Names(es) + {e.name}
    ensures SumValues(Insert(e, es)) == SumValues(es) + e.value
    ensures DistinctNames(es) && e.name !in Names(es) ==> DistinctNames(Insert(e, es))
  {
    if es == [] || e.value >= es[0].value {
      assert ([e] + es)[1..] == es;
    } else {
      InsertNames(e, es[1..]);
      assert ([es[0]] + Insert(e, es[1..]))[1..] == Insert(e, es[1..]);
    }
  }

  /** Sorting by descending value with a stable sort, as the component's
      comparator does. */
  function SortByTotal(es: seq<CategoryTotal>): (r: seq<CategoryTotal>)
    ensures |r| == |es|
    ensures multiset(r) == multiset(es)
  {
    if es == [] then []
    else
      assert es == [es[0]] + es[1..];
      Insert(es[0], SortByTotal(es[1..]))
  }

  /** The sort orders by non-increasing total, keeps entries of equal total
      in their original order, and keeps the names (each once) and the sum. */
  lemma {:induction false} SortByTotalMeaning(es: seq<CategoryTotal>)
    ensures SortedDesc(SortByTotal(es))
    ensures forall v :: WithValue(SortByTotal(es), v) == WithValue(es, v)
    ensures Names(SortByTotal(es)) == Names(es)
    ensures SumValues(SortByTotal(es)) == SumValues(es)
    ensures DistinctNames(es) ==> DistinctNames(SortByTotal(es))
  {
    if es != [] {
      var rest := SortByTotal(es[1..]);
      assert SortByTotal(es) == Insert(es[0], rest);
      SortByTotalMeaning(es[1..]);
      InsertSorted(es[0], rest);
      InsertNames(es[0], rest);
      forall v ensures WithValue(SortByTotal(es), v) == WithValue(es, v) {
        InsertStable(es[0], rest, v);
      }
    }
  }

  // ---------------------------------------------------------------------------
  // The breakdown as displayed
  // ---------------------------------------------------------------------------

  /** The first three sorted categories, or all of them when there are
      fewer. */
  function TopCosts(sorted: seq<CategoryTotal>): (r: seq<CategoryTotal>)
    ensures |r| == if |sorted| < 3 then |sorted| else 3
    ensures r == sorted[..|r|]
  {
    if |sorted| < 3 then sorted else sorted[..3]
  }

  /** The values the component derives from a plan's items. */
  datatype Breakdown = Breakdown(
    categoryTotals: seq<CategoryTotal>,
    totalChartCost: real,
    sortedCategories: seq<CategoryTotal>,
    topCosts: seq<CategoryTotal>)

  function Analyse(items: seq<BudgetItem>): (b: Breakdown)
    ensures b.totalChartCost == TotalCost(items)
    ensures SumValues(b.categoryTotals) == b.totalChartCost
    ensures SumValues(b.sortedCategories) == b.totalChartCost
    ensures forall c :: Lookup(b.categoryTotals, c) == CategoryCost(items, c)
    // each distinct category exactly once, in non-increasing order of total
    ensures DistinctNames(b.sortedCategories) && Names(b.sortedCategories) == Categories(items)
    ensures multiset(b.sortedCategories) == multiset(b.categoryTotals)
    ensures SortedDesc(b.sortedCategories)
    ensures |b.topCosts| == if |b.sortedCategories| < 3 then |b.sortedCategories| else 3
    ensures b.topCosts == b.sortedCategories[..|b.topCosts|]
  {
    var totals := CategoryTotals(items);
    CategoryTotalsMeaning(items);
    SortByTotalMeaning(totals);
    var sorted := SortByTotal(totals);
    Breakdown(totals, TotalCost(items), sorted, TopCosts(sorted))
  }

  /** Every entry of the sorted list carries its category's cost sum. */
  lemma SortedCategoriesExact(items: seq<BudgetItem>)
    ensures var s := Analyse(items).sortedCategories;
      forall k :: 0 <= k < |s| ==> s[k].value == CategoryCost(items, s[k].name)
  {
    var b := Analyse(items);
    CategoryTotalsExact(items);
    assert b.categoryTotals == CategoryTotals(items);
    forall k | 0 <= k < |b.sortedCategories| ensures b.sortedCategories[k].value == CategoryCost(items, b.sortedCategories[k].name) {
      var e := b.sortedCategories[k];
      assert e in multiset(b.sortedCategories);
      assert e in multiset(b.categoryTotals);
      assert e in b.categoryTotals;
    }
  }

  /** The top cost drivers are at least as large as every other category. */
  lemma TopCostsDominate(items: seq<BudgetItem>)
    ensures var b := Analyse(items);
      forall i, j :: 0 <= i < |b.topCosts| <= j < |b.sortedCategories| ==>
        b.topCosts[i].value >= b.sortedCategories[j].value
  {
  }

  // ---------------------------------------------------------------------------
  // Presentation choices
  // ---------------------------------------------------------------------------

  const Colors: seq<string> := ["#3b82f6", "#10b981", "#f59e0b", "#ec4899",
                                "#06b6d4", "#8b5cf6", "#f43f5e", "#64748b"]

  /** The colour of the slice and legend entry at position `index`. */
  function ColorFor(index: nat): (c: string)
    ensures c in Colors
    ensures c == Colors[index % |Colors|]
    ensures index < |Colors| ==> c == Colors[index]
  {
    Colors[index % |Colors|]
  }

  /** The palette repeats every eight categories. */
  lemma ColorsCycle(index: nat)
    ensures ColorFor(index + |Colors|) == ColorFor(index)
  {
    assert |Colors| == 8;
    assert (index + 8) % 8 == index % 8;
  }

  /** Which feasibility blocks the component renders. */
  datatype FeasibilityView = FeasibilityView(
    criticalWarning: bool,   // "Budget Critical Warning", with funding gap and top cost drivers
    viableBanner: bool,      // "Budget Looks Viable"
    consultantAdvice: bool)  // "Consultant Advice" at the bottom

  function ViewFor(plan: BudgetPlan): (v: FeasibilityView)
    ensures v.criticalWarning != v.viableBanner
    ensures v.consultantAdvice <==> plan.isFeasible
    ensures v.consultantAdvice ==> v.viableBanner
    ensures v.criticalWarning <==> !plan.isFeasible
  {
    FeasibilityView(!plan.isFeasible, plan.isFeasible, plan.isFeasible)
  }

  /** For a plan corrected against the budget submitted with the form, the
      warning appears exactly when that budget falls short of the suggested
      minimum, and the gap it shows is the positive shortfall. (The
      component is handed the live form budget, which may have been edited
      since: `App.BudgetEditLeavesVerdictStale`.) */
  lemma WarningMatchesBudget(plan: BudgetPlan, submitted: real)
    ensures var shown := GeminiService.CorrectFeasibility(plan, submitted);
      && (ViewFor(shown).criticalWarning <==> submitted < plan.suggestedMinimumBudget)
      && (ViewFor(shown).criticalWarning ==> shown.missingBudget == plan.suggestedMinimumBudget - submitted > 0.0)
  {
  }

  /** The width of the funding progress bar: the budget as a percentage of
      the suggested minimum, capped at 100. The bar is drawn only inside the
      critical-warning block. Division by a zero minimum gives
      +Infinity (capped to 100) for a positive budget and -Infinity or NaN
      otherwise; those, like any negative percentage, are not valid CSS
      widths and the browser drops them. */
  datatype BarWidth = Percent(p: real) | Rejected

  function ProgressWidth(userBudget: real, minimum: real): (w: BarWidth)
    ensures w.Percent? ==> 0.0 <= w.p <= 100.0
    ensures w.Rejected? <==> if minimum == 0.0 then userBudget <= 0.0 else userBudget * minimum < 0.0
    ensures minimum > 0.0 && userBudget >= minimum ==> w == Percent(100.0)
    ensures minimum == 0.0 && userBudget > 0.0 ==> w == Percent(100.0)
    ensures minimum < 0.0 && userBudget <= minimum ==> w == Percent(100.0)
    ensures minimum > 0.0 && 0.0 <= userBudget < minimum ==>
      w.Percent? && w.p < 100.0 && w.p * minimum == userBudget * 100.0
    ensures minimum < 0.0 && minimum < userBudget <= 0.0 ==>
      w.Percent? && w.p < 100.0 && w.p * minimum == userBudget * 100.0
  {
    if minimum == 0.0 then
      if userBudget > 0.0 then Percent(100.0) else Rejected
    else
      var ratio := userBudget / minimum;
      RatioSign(userBudget, minimum);
      var pct := Min(ratio * 100.0, 100.0);
      if pct < 0.0 then Rejected else Percent(pct)
  }

  /** The sign of a quotient is the sign of the product. */
  lemma RatioSign(a: real, b: real)
    requires b != 0.0
    ensures a / b < 0.0 <==> a * b < 0.0
    ensures b > 0.0 && a >= b ==> a / b >= 1.0
    ensures b > 0.0 && a < b ==> a / b < 1.0
    ensures (a / b) * b == a
  {
  }

  /** A plan corrected against a budget below its minimum keeps its warning
      and gap whatever budget is shown next to it later; a live budget at or
      above the minimum fills the bar. */
  lemma StaleVerdict(plan: BudgetPlan, submitted: real, live: real)
    requires 0.0 <= submitted < plan.suggestedMinimumBudget <= live
    ensures var shown := GeminiService.CorrectFeasibility(plan, submitted);
      && ViewFor(shown).criticalWarning
      && shown.missingBudget == plan.suggestedMinimumBudget - submitted
      && shown.suggestedMinimumBudget == plan.suggestedMinimumBudget
      && ProgressWidth(live, shown.suggestedMinimumBudget) == Percent(100.0)
  {
  }

  /** The bar appears only under the warning. For a corrected plan with a
      positive minimum and a non-negative budget, the bar under a warning
      is never full and shows the budget's share of the minimum; the width
      would be full only for a viable plan, which draws no bar at all. */
  lemma ProgressMatchesVerdict(plan: BudgetPlan, submitted: real)
    requires plan.suggestedMinimumBudget > 0.0 && submitted >= 0.0
    ensures var shown := GeminiService.CorrectFeasibility(plan, submitted);
      var w := ProgressWidth(submitted, shown.suggestedMinimumBudget);
      && w.Percent?
      && (w.p == 100.0 <==> !ViewFor(shown).criticalWarning)
      && (ViewFor(shown).criticalWarning ==> w.p * shown.suggestedMinimumBudget == submitted * 100.0)
  {
  }

  /** The "Find Listing" action exists exactly for items with a non-empty
      search query. */
  function HasFindListing(item: BudgetItem): (b: bool)
    ensures b <==> item.searchQuery.Some? && |item.searchQuery.value| > 0
  {
    Truthy(item.searchQuery)
  }

  /** The text the action searches for: the query, or the empty string the
      click handler falls back to when the query is falsy. */
  function ListingQuery(item: BudgetItem): string
  {
    if Truthy(item.searchQuery) then item.searchQuery.value else ""
  }

  /** Whenever the action is shown, the fallback is dead: the search runs on
      the item's own query, which is never empty. When it is not shown, no
      search text would exist. */
  lemma FindListingSearchesQuery(item: BudgetItem)
    ensures HasFindListing(item) ==> ListingQuery(item) == item.searchQuery.value
    ensures HasFindListing(item) <==> ListingQuery(item) != ""
  {
  }
}
