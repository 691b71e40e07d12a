# SmartAgro front end: verified model of its logic

This project models, in Dafny, the logic inside the SmartAgro farm-management
front end. The React views, the REST client and the browser downloads are not
modelled. What is modelled:

- **Three Markdown renderers** for AI-written text.
  - The analysis card is a state machine with an open list, a list kind and break collapsing.
  - The crop recommendation page maps each line to one element.
  - The plants page also maps each line to one element, and splits bold text on `**`.
  - The `/\*\*(.*?)\*\*/g` exec loop shared by the first two is in its own module (`Bold`).
- **Agronomy rules.**
  - Fertilizer selection with its totals and cost.
  - Soil analysis: pH classes, nutrient ratings and the health score.
  - The per-nutrient status map averaged over samples.
  - The pH badge.
  - The soil-to-element list sent for an analysis report.
- **Payroll**: the role rate table, bonus, deductions and the totals.
- **Machines page**: the maintenance-due rule, the label lookups and the form guards.
- **Expenses page**: CSV export with quoted descriptions (section 2, rule 7 of RFC 4180), the total, the distinct categories, the category filter and the create guard.
- **Profile page**: the password and profile submissions, with their validation and in-flight guards.
- **Auth storage**: the login session kept under two keys of the browser's storage.

Shared modules:

| module | what it models |
|---|---|
| `Wrappers` | `Option` |
| `Numbers` | `Math.round` as `floor(x + 1/2)`; `x \|\| d` for numbers, where `null`, `undefined` and 0 are falsy |
| `Text` | JavaScript `trim`, `\s`, `startsWith`, `includes`, `indexOf`, `replace` with a string pattern (first occurrence only), `split`, `join` and `toUpperCase` on ASCII |
| `Markers` | the `^[-*]\s+` and `^\d+\.\s+` list markers |
| `SoilSample` | the soil record read by the services |

How the source's forms are kept:

- Loops that push into arrays are methods with loop invariants. Each is proved equal to a recursive specification function, and the properties are proved about that function. This covers the `exec` loops, the `forEach` renderers, the `reduce` groupings, `getRecommendations` and the loop that builds the element map (`BuildElementMap`).
- The element pushes in `createAnalysisElements` have no loop in the source and stay straight-line methods (`PushMacro`, `PushMicro`).
- The analysis card's closure state is a class, `AiAnalysisCard.Renderer`.
- The auth storage is a class over a `map<string, string>`.
- The profile page is a class whose fields are the page's state hooks. Each async handler is two methods: the part before the `await`, which returns the request it sends, and the part after it, which takes the response.

## Model

| member | source | states |
|---|---|---|
| `Bold.ScanBold` | components/ai-analysis-card.tsx:53-72 | The `exec` loop's parts are exactly the leftmost-match split `BoldParts` of the line |
| `Bold.MatchFrom` | components/ai-analysis-card.tsx:56-59 | A match found starts at or after the search index, opens with `**` and closes at the first later `**` on the same line |
| `Bold.MatchFromLeftmost` | components/ai-analysis-card.tsx:59 | The reported match is the leftmost one; no match means no `**…**` pair from that index on |
| `Bold.CloseFromFirst` | components/ai-analysis-card.tsx:56 | The lazy `(.*?)` closes at the first `**`, and the text before it has no line terminator |
| `Bold.BoldPartsRoundTrip` | components/ai-analysis-card.tsx:59-69 | Putting `**` back around the bold spans gives back the line: nothing is lost, duplicated or reordered |
| `Bold.BoldPartsWellFormed` | components/ai-analysis-card.tsx:60-69 | No two plain spans are adjacent, a leading bold span means the line starts with a match, and the parts are empty only for an empty rest of line |
| `Bold.UnmatchedStaysLiteral` | components/ai-analysis-card.tsx:67-71 | A line with no complete pair comes back as one plain span |
| `Bold.BalancedExample` | components/ai-analysis-card.tsx:56-69 | `"a **b** c"` splits into plain, bold, plain |
| `Bold.UnterminatedExample` | components/ai-analysis-card.tsx:56-69 | `"a **b"` stays one plain span |
| `Markers.BulletText` | components/ai-analysis-card.tsx:129 | Removing `^[-*]\s+` drops the marker and the whole whitespace run after it, keeping a suffix that starts with non-whitespace |
| `Markers.NumberedText` | components/ai-analysis-card.tsx:138 | Removing `^\d+\.\s+` keeps a suffix of the line that does not start with whitespace |
| `Markers.NumberedTextRemovesMatch` | components/ai-analysis-card.tsx:138 | What is removed is exactly the digits, the dot and the whole whitespace run after it |
| `AiAnalysisCard.ProcessBoldRoundTrip` | components/ai-analysis-card.tsx:53-72 | `processBold` never returns an empty list, and its parts give back the line |
| `AiAnalysisCard.ProcessBoldScan` | components/ai-analysis-card.tsx:53-72 | The loop with its `[line]` fallback computes `ProcessBold` |
| `AiAnalysisCard.MapBold` | components/ai-analysis-card.tsx:79-83 | Each list item goes through `processBold`, one result per item, in order |
| `AiAnalysisCard.MapBoldAppend` | components/ai-analysis-card.tsx:79-83 | Mapping a concatenation maps each part |
| `AiAnalysisCard.FourHashesIsParagraph` | components/ai-analysis-card.tsx:95-157 | `"#### T"` passes none of the heading, list or blank tests and is a paragraph |
| `AiAnalysisCard.HeadingStep` | components/ai-analysis-card.tsx:95-123 | A heading line flushes the open list, then pushes the heading of its trimmed text without the marker, through `processBold` |
| `AiAnalysisCard.MarkerRemoved` | components/ai-analysis-card.tsx:99-119 | On a line that passed the heading test, `replace` removes the leading marker |
| `AiAnalysisCard.FlushInvariant` | components/ai-analysis-card.tsx:74-89 | `flushList` keeps the output invariant and leaves an empty accumulator with a null list kind |
| `AiAnalysisCard.StepInvariant` | components/ai-analysis-card.tsx:91-158 | Every line keeps the invariant: no leading break, no two breaks in a row, lists non-empty, unordered lists of one item |
| `AiAnalysisCard.BlankInvariant` | components/ai-analysis-card.tsx:143-148 | A blank line pushes a break only after a non-break element |
| `AiAnalysisCard.FoldInvariant` | components/ai-analysis-card.tsx:91-158 | The invariant holds after any sequence of lines |
| `AiAnalysisCard.RenderShape` | components/ai-analysis-card.tsx:91-162 | The output has collapsed breaks and well-shaped lists |
| `AiAnalysisCard.FlushPending` | components/ai-analysis-card.tsx:74-89 | Flushing moves the open items into the output without loss or reordering |
| `AiAnalysisCard.StepPending` | components/ai-analysis-card.tsx:91-158 | Each line adds exactly its own list item, if any, after the pending ones |
| `AiAnalysisCard.ItemsConserved` | components/ai-analysis-card.tsx:74-160 | The items of all rendered lists are, in order, the stripped bullet and numbered lines through `processBold` |
| `AiAnalysisCard.NumberedStep` | components/ai-analysis-card.tsx:133-139 | A numbered line joins an open ordered list without flushing it; from any other state it flushes the open list first and opens an ordered list with its item |
| `AiAnalysisCard.BulletThenNumbered` | components/ai-analysis-card.tsx:126-139 | A bullet line followed by a numbered line renders as an unordered list of the first item, then an ordered list of the second |
| `AiAnalysisCard.NumberedRunFold` | components/ai-analysis-card.tsx:133-139 | Consecutive numbered lines accumulate in one open ordered list and emit nothing |
| `AiAnalysisCard.NumberedRunRenders` | components/ai-analysis-card.tsx:133-160 | Consecutive numbered lines render as one ordered list with all their items in order |
| `AiAnalysisCard.BulletStep` | components/ai-analysis-card.tsx:126-131 | A bullet line flushes the open list and opens an unordered list with its own item |
| `AiAnalysisCard.BulletRunFold` | components/ai-analysis-card.tsx:126-131 | After consecutive bullets only the last one is open; the earlier ones are single-item lists |
| `AiAnalysisCard.BulletRunRenders` | components/ai-analysis-card.tsx:126-160 | Consecutive bullet lines render as one single-item unordered list each |
| `AiAnalysisCard.BlankStep` | components/ai-analysis-card.tsx:143-148 | A blank line flushes the open list, then pushes one break only after content that is not a break, and nothing otherwise |
| `AiAnalysisCard.ParagraphStep` | components/ai-analysis-card.tsx:150-156 | Any other line flushes the open list, then pushes a paragraph of the trimmed line through `processBold` |
| `AiAnalysisCard.FourHashesStep` | components/ai-analysis-card.tsx:95-156 | A `#### T` line pushes a paragraph of the whole trimmed line, hashes included |
| `AiAnalysisCard.BlankRunFold` | components/ai-analysis-card.tsx:143-148 | A run of blank lines has the effect of a single blank line |
| `AiAnalysisCard.BlankRunRenders` | components/ai-analysis-card.tsx:91-160 | Content, blank lines, then a paragraph render with at most one break between them, and exactly one when the content does not already end with a break |
| `AiAnalysisCard.Renderer.FlushList` | components/ai-analysis-card.tsx:74-89 | The closure state after `flushList` is `Flush` of the state before |
| `AiAnalysisCard.Renderer.AddLine` | components/ai-analysis-card.tsx:91-158 | The closure state after one line is `Step` of the state before |
| `AiAnalysisCard.Renderer.AddTrimmed` | components/ai-analysis-card.tsx:94-157 | Dispatching on the trimmed line's kind is `Apply` |
| `AiAnalysisCard.RenderMarkdown` | components/ai-analysis-card.tsx:44-163 | `renderMarkdown` gives `null` for empty text, else the folded elements after the final flush |
| `CropRecommendationPage.StripMarker` | components/pages/crop-recommendation-page.tsx:281 | When `^[-*]\d+\.\s+` matches, exactly the marker, the digits, the dot and the whole whitespace run after it are removed; otherwise nothing changes |
| `CropRecommendationPage.Render` | components/pages/crop-recommendation-page.tsx:233-294 | One element per line |
| `CropRecommendationPage.H3Text` | components/pages/crop-recommendation-page.tsx:235-241 | A `### ` heading keeps the untrimmed line, leading whitespace included, minus the first `### ` |
| `CropRecommendationPage.H2Text` | components/pages/crop-recommendation-page.tsx:242-248 | The same for `## ` |
| `CropRecommendationPage.OneHashIsParagraph` | components/pages/crop-recommendation-page.tsx:235-291 | `# ` is no heading here: such a line without `**` is a paragraph |
| `CropRecommendationPage.BoldBeforeList` | components/pages/crop-recommendation-page.tsx:250-276 | A non-heading line with `**` is a bold paragraph whose parts give back the line, even if it looks like a list item |
| `CropRecommendationPage.BoldListLineExample` | components/pages/crop-recommendation-page.tsx:251-278 | `"- **a**"` is a paragraph with plain `"- "` and bold `"a"` |
| `CropRecommendationPage.ItemKeepsMarker` | components/pages/crop-recommendation-page.tsx:278-283 | The strip pattern never matches a list line, so a list item shows the whole untrimmed line |
| `CropRecommendationPage.StripLineUntrimmed` | components/pages/crop-recommendation-page.tsx:281 | A line the strip pattern matches starts with `-` or `*` then a digit |
| `CropRecommendationPage.MarkersKeptExample` | components/pages/crop-recommendation-page.tsx:278-283 | `"- a"` and `"1. a"` keep their markers |
| `CropRecommendationPage.BreakIffBlank` | components/pages/crop-recommendation-page.tsx:286-293 | A line is a `<br>` exactly when it is blank after trimming |
| `CropRecommendationPage.ParagraphKeepsLine` | components/pages/crop-recommendation-page.tsx:286-291 | A paragraph shows the untrimmed, non-blank line |
| `CropRecommendationPage.OneElementPerLine` | components/pages/crop-recommendation-page.tsx:233-294 | The i-th element is the i-th line's; blank lines are never collapsed |
| `CropRecommendationPage.RenderLineScan` | components/pages/crop-recommendation-page.tsx:233-294 | One line with the bold paragraph built by the exec loop is `RenderLine` |
| `CropRecommendationPage.RenderRecommendation` | components/pages/crop-recommendation-page.tsx:233-294 | The split-and-map is `Render` |
| `PlantsPage.SplitBold` | components/pages/plants-page.tsx:193-194 | One span per piece of `split("**")` |
| `PlantsPage.StripDashes` | components/pages/plants-page.tsx:197 | `^[\s-]*` removes the whole leading run of whitespace and dashes |
| `PlantsPage.Test` | components/pages/plants-page.tsx:186-203 | A dash item's trimmed line starts with `- `; a numbered line matches `^\d+\.\s` and is no dash item; a spacer's line trims to empty, a paragraph's does not |
| `PlantsPage.ElementAt` | components/pages/plants-page.tsx:185-205 | As many elements as lines, and the i-th element is what the i-th line pushes |
| `PlantsPage.EveryLineRenders` | components/pages/plants-page.tsx:185-205 | Every line pushes one element; a spacer exactly for a blank line that is no heading and has no `**` |
| `PlantsPage.OneElementPerLine` | components/pages/plants-page.tsx:185-205 | The i-th element is the i-th line's |
| `PlantsPage.H3Line` | components/pages/plants-page.tsx:186-187 | A `### ` line is a level-3 heading of the rest of the line |
| `PlantsPage.H2Line` | components/pages/plants-page.tsx:188-189 | A `## ` line is a level-2 heading of the rest |
| `PlantsPage.H1Line` | components/pages/plants-page.tsx:190-191 | A `# ` line is a level-1 heading of the rest |
| `PlantsPage.IndentedNotHeading` | components/pages/plants-page.tsx:186-191 | The heading tests read the untrimmed line: an indented marker is no heading |
| `PlantsPage.FormattedLine` | components/pages/plants-page.tsx:192-195 | A line with `**` splits into one more piece than it has `**`, odd pieces bold, joining back to the line |
| `PlantsPage.SplitBoldAlternates` | components/pages/plants-page.tsx:194 | Pieces alternate plain and bold whatever the pairing |
| `PlantsPage.UnpairedExample` | components/pages/plants-page.tsx:193-194 | In `"a **b"` the unpaired `"b"` is bold |
| `PlantsPage.StarLineIsParagraph` | components/pages/plants-page.tsx:196-203 | A `* ` line is a paragraph: only a dash makes a bullet |
| `PlantsPage.DashItemText` | components/pages/plants-page.tsx:196-197 | A dash item shows the line without its leading whitespace and dashes |
| `PlantsPage.NumberedItemText` | components/pages/plants-page.tsx:198-199 | A numbered item keeps the text after the digits, the dot and one whitespace character |
| `PlantsPage.IndentedNumberIsParagraph` | components/pages/plants-page.tsx:198-203 | An indented `1. x` is a paragraph |
| `PlantsPage.RenderMarkdownLoop` | components/pages/plants-page.tsx:179-208 | The `forEach` loop computes `RenderMarkdown` |
| `PlantsPage.CategoryFor` | components/pages/plants-page.tsx:44-46 | A mapped id gives its category; any other id gives `"other"` |
| `PlantsPage.CategoryName` | components/pages/plants-page.tsx:48-50 | A known category gives its name; any other gives `"Boshqa"` |
| `PlantsPage.CategoryNamesCovered` | components/pages/plants-page.tsx:24-50 | Every mapped plant has a named category; an unmapped one is `"Boshqa"` |
| `PlantsPage.NoSelectionKeepsAll` | components/pages/plants-page.tsx:210-213 | No selected category keeps every plant |
| `PlantsPage.SelectionMembers` | components/pages/plants-page.tsx:210-213 | A selected category keeps exactly its plants |
| `PlantsPage.GroupsByCategory` | components/pages/plants-page.tsx:215-222 | The groups are keyed by the categories present, and each holds that category's plants in order |
| `PlantsPage.GroupKey` | components/pages/plants-page.tsx:215-222 | A group exists for a category exactly when some plant belongs to it |
| `PlantsPage.GroupContent` | components/pages/plants-page.tsx:215-222 | An existing group holds the plants of its category, in order |
| `PlantsPage.GroupPlants` | components/pages/plants-page.tsx:215-222 | The `reduce` computes `Groups` |
| `FertilizerRecommendation.PushRecommendations` | lib/services/fertilizer-recommendation.ts:24-72 | The conditional pushes compute `Recommendations` |
| `FertilizerRecommendation.Recommend` | lib/services/fertilizer-recommendation.ts:19-100 | `recommendFertilizers` as written computes `RecommendFertilizers` |
| `FertilizerRecommendation.DeficiencyRules` | lib/services/fertilizer-recommendation.ts:27-72 | Urea iff N<35, superphosphate iff P<20, KCl iff K<180, NPK 15-15-15 iff none is deficient |
| `FertilizerRecommendation.KindsOf` | lib/services/fertilizer-recommendation.ts:27-72 | One to three recommendations, no kind twice, all recommended |
| `FertilizerRecommendation.NoMaintenance` | lib/services/fertilizer-recommendation.ts:82-94 | The maintenance fallback is never returned |
| `FertilizerRecommendation.Totals` | lib/services/fertilizer-recommendation.ts:74-76 | The totals are 100 or 80, 80 or 50, and 60 or 40 |
| `FertilizerRecommendation.KindPresence` | lib/services/fertilizer-recommendation.ts:27-60 | A nutrient's kind is present exactly when it is deficient |
| `FertilizerRecommendation.BalancedCost` | lib/services/fertilizer-recommendation.ts:19-98 | Balanced soil on the default 10 ha gets only NPK and costs 68500 |
| `FertilizerRecommendation.EmptySoilIsBalanced` | lib/services/fertilizer-recommendation.ts:20-22 | Missing values default to 40/20/180, which is balanced |
| `FertilizerRecommendationService.Deficiencies` | lib/fertilizer-recommendation-service.ts:36-73 | One analysis adds at most three entries |
| `FertilizerRecommendationService.GetRecommendationsLoop` | lib/fertilizer-recommendation-service.ts:20-87 | The fallback check, the `forEach` pushes and the final fallback compute `GetRecommendations` |
| `FertilizerRecommendationService.AllDeficienciesBound` | lib/fertilizer-recommendation-service.ts:36-73 | At most three entries per analysis |
| `FertilizerRecommendationService.AllDeficienciesRecommended` | lib/fertilizer-recommendation-service.ts:42-70 | Every pushed entry is a recommended deficiency fertilizer |
| `FertilizerRecommendationService.NoDeficiencyIff` | lib/fertilizer-recommendation-service.ts:36-86 | Nothing is pushed exactly when every analysis meets every threshold |
| `FertilizerRecommendationService.GetRecommendationsShape` | lib/fertilizer-recommendation-service.ts:20-86 | No analyses gives "No analyses available"; no deficiency gives "Soil is in good condition"; otherwise only recommended entries |
| `FertilizerRecommendationService.CalculateAmountsRules` | lib/fertilizer-recommendation-service.ts:89-142 | No entry at all for balanced soil; totals 100/80, 80/50, 60/40; cost from the totals and area |
| `FertilizerRecommendationService.AgreesWithRecommendFertilizers` | lib/fertilizer-recommendation-service.ts:36-86 | For one deficient record, `getRecommendations` and `recommendFertilizers` return the same list |
| `SoilAnalysis.OptimalCount` | lib/services/soil-analysis.ts:62 | The optimal count is at most the number of elements |
| `SoilAnalysis.PhClassRanges` | lib/services/soil-analysis.ts:21-26 | The five pH classes partition the line into half-open ranges |
| `SoilAnalysis.RateRanges` | lib/services/soil-analysis.ts:38-56 | Low below the range, high above it, optimal with both bounds included |
| `SoilAnalysis.ElementsShape` | lib/services/soil-analysis.ts:34-59 | Four elements with fixed names and units, each optimal exactly on its own range |
| `SoilAnalysis.HealthSteps` | lib/services/soil-analysis.ts:62-70 | Health is 25 per optimal element: one of 0, 25, 50, 75, 100 |
| `SoilAnalysis.AnalyzeSoilHealth` | lib/services/soil-analysis.ts:62-70 | Every record's health is one of 0, 25, 50, 75, 100 |
| `SoilAnalysis.MissingPhIsNeutral` | lib/services/soil-analysis.ts:18-24 | A missing or zero pH is 6.5, which is Neutral |
| `SoilAnalysis.EmptyRecord` | lib/services/soil-analysis.ts:18-70 | An empty record: all elements optimal, health 100, Neutral, field name `"Field"` |
| `SoilAnalysisService.SameAnalysis` | lib/soil-analysis-service.ts:38-90 | This file's `analyzeSoil` equals the services copy on every record |
| `SoilAnalysisService.GetStatusRanges` | lib/soil-analysis-service.ts:17-21 | Low below `low`, High above `high`, Optimal including both bounds |
| `SoilAnalysisService.GetStatusIsRate` | lib/soil-analysis-service.ts:17-21 | `getStatus` is the services copy's rating, capitalised |
| `SoilAnalysisService.ResultKeys` | lib/soil-analysis-service.ts:2-28 | The map always has exactly the four keys; all are `"Unknown"` exactly when there are no samples |
| `SoilAnalysisService.StatusRule` | lib/soil-analysis-service.ts:12-28 | Each key holds the status of its nutrient's average on its range |
| `SoilAnalysisService.AverageBounds` | lib/soil-analysis-service.ts:12-15 | The average of readings within `[lo, hi]` is within `[lo, hi]` |
| `SoilAnalysisService.AllOptimalSamples` | lib/soil-analysis-service.ts:12-28 | Samples all optimal for a nutrient rate it "Optimal" |
| `SoilAnalysisService.MissingAveragesToDefault` | lib/soil-analysis-service.ts:12-15 | Samples all missing a nutrient average to its default |
| `SoilAnalysisService.OneSampleAgrees` | lib/soil-analysis-service.ts:2-90 | For one sample the map agrees with `analyzeSoil`'s element statuses |
| `Payroll.Payments` | lib/services/payroll.ts:24-54 | One payment per worker, in order |
| `Payroll.RateTable` | lib/services/payroll.ts:26-30 | Manager 25000, Technician 20000, Farmer 15000, Laborer 12000, any other role 15000 |
| `Payroll.ExactPercentages` | lib/services/payroll.ts:36-39 | For a rate that is a multiple of 20, the bonus and deductions need no rounding |
| `Payroll.PayrollPaymentRule` | lib/services/payroll.ts:24-54 | 160 hours; bonus base/20 if active; deductions base/10; pay 95% or 90% of base |
| `Payroll.TotalPayrollIsSumOfPay` | lib/services/payroll.ts:56-62 | `totalPayroll` is the sum of the per-worker pay, and `totalWorkers` the input length |
| `Payroll.PayBounds` | lib/services/payroll.ts:26-41 | Every monthly pay is between 1728000 and 3800000 |
| `Payroll.SumTotalPayBounds` | lib/services/payroll.ts:56-59 | The sum of pay is between n·1728000 and n·3800000 |
| `Payroll.AveragePayBounds` | lib/services/payroll.ts:67 | The average is 0 for no workers, else between the single-worker bounds |
| `Payroll.EmptyPayroll` | lib/services/payroll.ts:56-68 | No workers: every total and the average are 0 |
| `Payroll.WorkerPaymentAgrees` | lib/services/payroll.ts:71-93 | Outside "Laborer", `calculateWorkerPayment` at default hours equals the payroll's payment |
| `Payroll.LaborerRateDiffers` | lib/services/payroll.ts:71-76 | A laborer is paid at 15000 by `calculateWorkerPayment` but 12000 by `calculatePayroll` |
| `Payroll.CorrectedAgrees` | lib/services/payroll.ts:71-93 | With the Laborer case added, the two functions agree for every worker |
| `MachinesPage.RowFlags` | components/pages/machines-page.tsx:803-806 | Each row's warning is `needsMaintenance` of its machine |
| `MachinesPage.DueMachinesMembers` | components/pages/machines-page.tsx:335-338 | Due are exactly the machines that need maintenance; the count is at most the list length |
| `MachinesPage.NoServiceDataNeverDue` | components/pages/machines-page.tsx:336 | A machine with no or zero last service or interval is never due |
| `MachinesPage.FlagsMatchCount` | components/pages/machines-page.tsx:335-338 | The number of flagged rows equals `maintenanceDue` |
| `MachinesPage.Find` | components/pages/machines-page.tsx:341 | `find` returns an entry with the value, or none exactly when no entry has it |
| `MachinesPage.FindFirst` | components/pages/machines-page.tsx:341 | With distinct values `find` returns the entry holding the value |
| `MachinesPage.LabelLookup` | components/pages/machines-page.tsx:340-350 | A known value gives its label |
| `MachinesPage.UnknownLabel` | components/pages/machines-page.tsx:340-350 | An unknown value gives itself back |
| `MachinesPage.MachineTypesWellFormed` | components/pages/machines-page.tsx:69-74 | Values distinct, labels non-empty |
| `MachinesPage.MaintenanceTypesWellFormed` | components/pages/machines-page.tsx:76-83 | Values distinct, labels non-empty |
| `MachinesPage.OperationTypesWellFormed` | components/pages/machines-page.tsx:85-93 | Values distinct, labels non-empty |
| `MachinesPage.CombineLabel` | components/pages/machines-page.tsx:340-342 | `"combine"` is shown as "Kombayn" |
| `MachinesPage.OtherLabel` | components/pages/machines-page.tsx:69-93 | `"other"` is "Boshqa" in every table |
| `MachinesPage.UnknownOperationLabel` | components/pages/machines-page.tsx:348-350 | An operation outside the table is shown raw |
| `MachinesPage.SaveRules` | components/pages/machines-page.tsx:189-204 | Refused iff name or type is empty; otherwise create or update, blank optionals null, blank engine hours 0 |
| `MachinesPage.AddRules` | components/pages/machines-page.tsx:252-298 | Both adds refuse without a machine, date, or type or operation; otherwise they target the selected machine |
| `SoilAnalysisPage.PhRecommendationRanges` | components/pages/soil-analysis-page.tsx:71-76 | None is outline; below 5.5 destructive; above 7.5 secondary; 5.5 to 7.5 inclusive is default "Maqbul" |
| `SoilAnalysisPage.BuildElementMap` | components/pages/soil-analysis-page.tsx:175-180 | The `forEach` computes `ElementMap` |
| `SoilAnalysisPage.ElementMapKeys` | components/pages/soil-analysis-page.tsx:175-180 | A key is present iff some entry with a truthy code and id has that upper-cased code |
| `SoilAnalysisPage.ElementMapLastWins` | components/pages/soil-analysis-page.tsx:178 | A later entry with the same code overwrites an earlier one |
| `SoilAnalysisPage.ElementMapIdsTruthy` | components/pages/soil-analysis-page.tsx:177-178 | Every stored id is non-zero |
| `SoilAnalysisPage.PushIfPresent` | components/pages/soil-analysis-page.tsx:186-188 | One guarded push extends the list by the k-th code's entry, if any |
| `SoilAnalysisPage.PushMacro` | components/pages/soil-analysis-page.tsx:186-206 | The seven macro-element pushes compute the first seven codes' entries |
| `SoilAnalysisPage.PushMicro` | components/pages/soil-analysis-page.tsx:209-232 | The eight micro-element pushes complete the list for all 15 codes |
| `SoilAnalysisPage.CreateAnalysisElements` | components/pages/soil-analysis-page.tsx:175-237 | An empty element list stops before any report request; otherwise the list is sent |
| `SoilAnalysisPage.ElementsRule` | components/pages/soil-analysis-page.tsx:186-232 | At most 15 entries; each is a present reading of a mapped code with its id; every present mapped reading, 0 included, is in it |
| `SoilAnalysisPage.IgnoresOtherMeasurements` | components/pages/soil-analysis-page.tsx:186-232 | pH, humus and the heavy metals never affect the list |
| `SoilAnalysisPage.PushedEmpty` | components/pages/soil-analysis-page.tsx:186-232 | The list is empty iff no code has both a reading and a mapped id |
| `SoilAnalysisPage.NoElementsRule` | components/pages/soil-analysis-page.tsx:234-237 | The early return happens exactly when no code has both a reading and a mapped id |
| `SoilAnalysisPage.ParseNumberRule` | components/pages/soil-analysis-page.tsx:356-359 | Empty or whitespace-only input is null; anything else is the parser's answer |
| `SoilAnalysisPage.SumPhNullIsZero` | components/pages/soil-analysis-page.tsx:430 | A null pH counts as 0 |
| `SoilAnalysisPage.AveragesShown` | components/pages/soil-analysis-page.tsx:430-432 | Both cards show "—" exactly when there are no soils |
| `SoilAnalysisPage.AvgPhBounds` | components/pages/soil-analysis-page.tsx:430 | Readings within `[lo, hi]` give an average within `[lo, hi]` |
| `SoilAnalysisPage.SumHumusNullIsZero` | components/pages/soil-analysis-page.tsx:431-432 | A null humus reading counts as 0 |
| `SoilAnalysisPage.AvgHumusBounds` | components/pages/soil-analysis-page.tsx:431-432 | Humus readings within `[lo, hi]`, a null as 0, give an average within `[lo, hi]` |
| `ExpensesPage.Escape` | components/pages/expenses-page.tsx:84 | Escaping never shortens the description |
| `ExpensesPage.UnescapeEscape` | components/pages/expenses-page.tsx:84 | Reading an escaped, closed field gives back the description and the text after the quote |
| `ExpensesPage.RowDescription` | components/pages/expenses-page.tsx:84 | The description is read back from its row, and the unquoted category follows the comma |
| `ExpensesPage.EscapeCountsQuotes` | components/pages/expenses-page.tsx:84 | Escaping adds one character per double quote |
| `ExpensesPage.EscapeNoQuotes` | components/pages/expenses-page.tsx:84 | A description without quotes is unchanged inside its quotes |
| `ExpensesPage.Rows` | components/pages/expenses-page.tsx:83-84 | One row per expense, in order |
| `ExpensesPage.ExportShape` | components/pages/expenses-page.tsx:76-85 | Export refuses exactly an empty list; otherwise the text starts with the header |
| `ExpensesPage.ExportLines` | components/pages/expenses-page.tsx:82-85 | The text is the header then the rows joined by line breaks, and with no line break in a field the lines are the rows |
| `ExpensesPage.SplitJoinLines` | components/pages/expenses-page.tsx:83-85 | Splitting rows joined by line breaks gives them back |
| `ExpensesPage.TotalAppend` | components/pages/expenses-page.tsx:98 | Totals add up over concatenation |
| `ExpensesPage.TotalOfMissing` | components/pages/expenses-page.tsx:98 | A missing amount counts as 0 |
| `ExpensesPage.SplitTotal` | components/pages/expenses-page.tsx:98-101 | A category's total plus the rest's is the total |
| `ExpensesPage.DistinctRule` | components/pages/expenses-page.tsx:99 | Each value listed once, exactly the values present |
| `ExpensesPage.DistinctPrefix` | components/pages/expenses-page.tsx:99 | Later values never reorder earlier first occurrences |
| `ExpensesPage.CategoryList` | components/pages/expenses-page.tsx:99 | One category per expense, in order |
| `ExpensesPage.CategoriesRule` | components/pages/expenses-page.tsx:99 | The categories listed are exactly those of the expenses, each once |
| `ExpensesPage.InCategoryMembers` | components/pages/expenses-page.tsx:101 | The filter keeps exactly the expenses of the category |
| `ExpensesPage.InCategoryAppend` | components/pages/expenses-page.tsx:101 | Filtering keeps the input order |
| `ExpensesPage.FilterRule` | components/pages/expenses-page.tsx:100-101 | `"all"` keeps everything; any other filter keeps exactly that category |
| `ExpensesPage.CreateRule` | components/pages/expenses-page.tsx:55-64 | Refused iff description, amount or category is blank; a blank date becomes today |
| `ProfilePage.PasswordError` | components/pages/profile-page.tsx:91-99 | Accepted iff the passwords match and are at least 6 long; a mismatch is reported before the length |
| `ProfilePage.MismatchFirst` | components/pages/profile-page.tsx:91-99 | A short, mismatched pair gets the mismatch message |
| `ProfilePage.Profile.SubmitPassword` | components/pages/profile-page.tsx:89-110 | Ignored while saving; a failed check sets its message and sends nothing; otherwise messages cleared, saving set, one request sent |
| `ProfilePage.Profile.CompletePassword` | components/pages/profile-page.tsx:111-119 | Success clears the three fields; failure sets the error; saving ends either way |
| `ProfilePage.Profile.SubmitProfile` | components/pages/profile-page.tsx:61-68 | Ignored while saving; otherwise messages cleared, saving set, one request sent |
| `ProfilePage.Profile.CompleteProfile` | components/pages/profile-page.tsx:69-84 | A valid response becomes the user and, with a stored token, the stored session; an invalid one or a failure sets the error |
| `AuthStorage.Store.GetAuthToken` | lib/auth-storage.ts:16-19 | The stored token, or null without a window or token |
| `AuthStorage.Store.SetAuthSession` | lib/auth-storage.ts:33-38 | Both keys written and one event emitted; the token reads back; nothing without a window |
| `AuthStorage.Store.ClearAuthSession` | lib/auth-storage.ts:40-45 | Both keys removed and one event emitted; the token reads null; nothing without a window |
| `AuthStorage.Store.GetAuthUser` | lib/auth-storage.ts:21-31 | Null without a window or for a missing or empty value; a value whose parse throws is removed, and only it; a value that parses, `null` included, is returned and kept |
| `AuthStorage.StoredUser` | lib/auth-storage.ts:21-31 | A user is reported only from a non-empty stored value that parses to it; a value that parses is reported as parsed |
| `AuthStorage.StoredNullIsNoUser` | lib/auth-storage.ts:24-26 | A stored `"null"` parses without throwing, so no user is reported and the key stays |
| `AuthStorage.StoredUserRoundTrip` | lib/auth-storage.ts:20-38 | A stored user reads back when parsing inverts stringifying |
| `AuthStorage.NoStoredUser` | lib/auth-storage.ts:20-45 | After clearing, or without a window, no user is reported |
| `Numbers.Round` | lib/services/payroll.ts:36 | `Math.round(x)` is the integer within half of `x`, halves rounded up |

## Left out

- JSX and React rendering, element keys and CSS classes. The renderers produce element datatypes.
- `PlantsPage.Groups`: a `map`, so the first-occurrence order in which `Object.entries` lists the groups for rendering is not kept. The order inside each group is kept.
- `toFixed`, `toLocaleString` and `Date`. The averages are exact reals, and "today" for an undated expense is a parameter.
- Async I/O and the network. Requests are returned as values, and responses are passed back in.
- Blob and URL downloads, `alert`, `toast` and console output.
- `parseFloat`, `parseInt`, `JSON.stringify` and `JSON.parse` are function parameters. NaN is not modelled.
- `AuthStorage.Store.GetAuthUser`: `JSON.parse` yields a user, `null` or a throw. A stored JSON value of another shape, which the source returns unchecked through `as AuthUser`, is not modelled.
- Numbers are exact rationals. The JavaScript floats for 0.05 and 0.1 in payroll and for the averages are not modelled.
- `SoilAnalysisPage.CreateAnalysisElements`: the report lookup and analysis request after the element list is built are network calls and are not modelled.
- `Payroll.CalculateWorkerPayment`: `hoursWorked` is an integer; fractional hours are not modelled.
- `ProfilePage.PasswordError`: length counts characters, not the UTF-16 code units of JavaScript strings.
- `Text.Upper`: upper-casing covers ASCII letters only.
- `loadProfile` and the effect that copies the user into the name and email fields are not modelled.

## Findings

| source | as written | input that shows it | evidently intended | confidence | as-written member | corrected member |
|---|---|---|---|---|---|---|
| lib/services/payroll.ts:71-76 | `calculateWorkerPayment` has no "Laborer" case, so a laborer gets the default 15000 per hour | a worker with role "Laborer" and the default 160 hours: 2400000 base, versus 1920000 in `calculatePayroll` | the same rate table as `calculatePayroll`, 12000 for a laborer | not executed | `Payroll.LaborerRateDiffers` | `Payroll.CorrectedAgrees` |
