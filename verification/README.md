# Duolingo price comparator: plan normalisation model

The script collects Duolingo subscription prices for every country and
writes them to a CSV report. For each country it requests a subscription
catalogue. It keeps only the monthly plan, the yearly plan and the yearly
family plan from `plusPackageViewModels`. It fills in defaults for absent
fields, converts the price from cents and tags each plan with the country.
A country whose request fails yields no plans. The per-country results are
then concatenated in country-list order.

This Dafny project models that pure core:

- `wrappers.dfy`, module `Wrappers`: `Option` for the fields a raw record
  may omit. `GetOr` plays the role of Python's `dict.get(key, default)`.
- `plans.dfy`, module `Plans`: the data model (`Country`, `RawPlan`,
  `PlanType`, `Plan`), the classification chain and its reference lookup
  table, single-plan normalisation and the per-country normalisation loop.
- `fetch.dfy`, module `Fetch`: the outcome of one country's request
  (`Ok(status, packages)` or `Failed` for a raised exception) and the
  soft-failure rules of `fetch_subscriptions`.
- `report.dfy`, module `Report`: the order-preserving map over countries,
  the flattening `extend` loop, the whole collected plan list, and the
  fixed CSV column order as the constant `CsvColumns`.

Every operation has a functional definition. Where the source is a loop
with early returns, the project also has a method that follows the source
statement by statement and is proved equal to the functional definition:
`NormaliseLoop`, `FetchSubscriptionsSteps`, `ExtendAll` and `CollectPlansSteps`.

Four details of the source that the model keeps:

- A request is accepted only when its status is exactly 200. Any other
  status, including other 2xx codes, gives the empty list for that country.
- An absent field never raises. `periodLengthInMonths` has no default, so
  a plan without it is skipped. The other fields take the defaults 0, false,
  0 and "N/A".
- A plan with period 1 is a monthly plan whatever its family flag says.
  The family flag only matters for period 12, and an absent flag counts as
  false.
- The `type` column holds the plan type's tag, `PlanType.Tag()`:
  `1_month`, `12_month` or `12_month_family`. The `subscriptionName` column
  holds `PlanType.DisplayName()`. Contracts name the types `OneMonth`,
  `TwelveMonth` and `TwelveMonthFamily`.

## Model

| member | source | states |
|---|---|---|
| Plans.Classify | script.py:89-100 | period 1 gives `1_month`; period 12 gives `12_month` exactly when the plan is not family and `12_month_family` exactly when it is; every kept type's period is the raw period |
| Plans.ClassifyMatchesTable | script.py:89-100 | the if/elif chain classifies a (period, family) pair exactly when the four-entry policy table has it, and gives the table's type |
| Plans.Normalise | script.py:83-112 | a raw plan is kept exactly when its period is 1 or 12; the kept record's price times 100 is the cents (absent = 0); trial days default to 0 and currency to "N/A", otherwise copied; period copied; name matches type; country name and code attached |
| Plans.MonthlyIgnoresFamilyFlag | script.py:90-92 | a period-1 plan becomes `1_month` named "Duolingo Premium 1 Month", and changing its family flag changes nothing |
| Plans.YearlyFamilyVariant | script.py:84-98 | a period-12 plan is the family variant with the family name exactly when the flag is present and true, otherwise `12_month` with the 12-month name |
| Plans.NormalisePlans | script.py:81-114 | one country's output is no longer than its input, and every record is well formed and carries that country's name and code |
| Plans.KeptIndices | script.py:82-100 | the positions of the kept raw plans, strictly increasing, covering every raw plan with period 1 or 12 and nothing else |
| Plans.NormalisePlansIsOrderedImage | script.py:81-114 | order preservation: output record k is the normalisation of the k-th kept raw plan, and there are as many records as kept plans |
| Plans.NormalisePlansAppend | script.py:81-114 | normalising a concatenation of raw lists gives the concatenation of the normalised lists |
| Plans.DroppedPlanVanishes | script.py:99-100 | inserting a raw plan whose period is neither 1 nor 12 anywhere in the input leaves the output unchanged |
| Plans.AllDroppedGivesNothing | script.py:82-114 | if no raw plan has period 1 or 12 the country's output is empty |
| Plans.NormalisePlansMembership | script.py:82-112 | a record is in the output exactly when it is the normalisation of some raw plan of the input |
| Plans.NormaliseLoop | script.py:81-114 | the append loop over the raw plans computes exactly the per-country normalised list |
| Fetch.FetchSubscriptions | script.py:58-118 | a raised exception, a status other than 200, or a missing or empty package list each give the empty list; otherwise the result is the normalised package list, all records tagged with the country |
| Fetch.NonEmptyOnlyOnSuccess | script.py:70-114 | a country yields plans exactly when its request returned 200 with a non-empty package list holding at least one plan of period 1 or 12 |
| Fetch.FetchSubscriptionsSteps | script.py:63-118 | the early-return sequence of the source computes exactly the per-country result |
| Report.FetchAll | script.py:122-123 | the map over countries keeps the country-list order: result i is country i's plan list |
| Report.Flatten | script.py:126-127 | the flat list's length is the sum of the per-country lengths, and each of its elements comes from some per-country list |
| Report.FlattenAppend | script.py:126-127 | flattening a concatenation of outer lists is the concatenation of the flattenings |
| Report.FlattenPosition | script.py:126-127 | element j of list i sits at the sum of the earlier lists' lengths plus j |
| Report.FlattenContains | script.py:126-127 | every element of every per-country list is in the flat list |
| Report.ExtendAll | script.py:125-127 | extending an empty list with each result in turn yields exactly their flattening |
| Report.CollectPlans | script.py:122-127 | every collected plan is well formed and carries the name and code of some country of the list |
| Report.CollectPlansLength | script.py:122-127 | the number of collected plans is the sum of the per-country counts and at most the number of raw plans received |
| Report.CollectPlansAppend | script.py:122-127 | the plans of a split country list are the plans of its front followed by those of its back |
| Report.FailedCountryIsIsolated | script.py:63-127 | a country whose request raised, returned a status other than 200 or carried no packages contributes nothing, and all other countries' plans stay in order |
| Report.CountryBlock | script.py:122-127 | country i's plans occupy one contiguous block, in their own order, right after the plans of the countries before it |
| Report.CollectPlansMembership | script.py:122-127 | a plan is collected exactly when some country's per-country list holds it |
| Report.CollectPlansSteps | script.py:120-127 | mapping the fetch over the countries in order and then extending one list computes exactly the collected plans |
| Report.TwoCountriesOneMonthlyPlanEach | script.py:82-127 | Spain and Italy, each with one monthly plan of 999 EUR cents, give exactly two rows of type `1_month` (tag included) at 9.99 EUR that differ only in country name and code |

## Left out

- HTTP transport: the requests session, the country-list fetch with its exit on failure, and the pricing request itself (script.py:37, 44-55, 65-68, 129-131). Each country's response is an input (`FetchOutcome`).
- Loading the environment and checking for missing variables (script.py:9-19). This is process configuration.
- Today's date and the request URL template (script.py:22, 28, 66). They depend on the clock, and the template is a single string substitution.
- Thread-pool concurrency (script.py:122-123). Only its observable contract is modelled, as an order-preserving map (`Report.FetchAll`).
- Writing the CSV file (script.py:133-145). Only the fixed column order is kept, as `Report.CsvColumns`.
- Diagnostic output (the `print` calls). It has no effect on the result.
- Plans.Normalise: the price is an exact `real`, cents / 100. IEEE double rounding of Python's `/ 100` is not modelled.
- JSON values of an unexpected type are not modelled. Each field is a typed option, and `None` means the key is absent. In the source these cases behave as follows:
  - A `null` or text `priceInCents` raises in the division (script.py:85), so that country yields the empty list.
  - A package entry that is not an object raises on `.get` (script.py:83), so that country yields the empty list.
  - A `null` `trialPeriodInDays` or `planCurrency` does not raise. `.get` returns `None` and the record copies it as is (script.py:86-87, 110-111); it does not take the default 0 or "N/A". The model's `None` takes the default, because it stands for an absent key.
  - A `null` `isFamilyPlan` or `periodLengthInMonths` behaves like an absent one (script.py:84, 90-100), which the model covers.
  - A float period does not raise. `1.0` or `12.0` compares equal to 1 or 12 (script.py:90-98), so the plan is kept, and the record copies the float period (script.py:106). Any other float, such as `6.5`, is skipped (script.py:99-100). The model's periods are integers.
- A country record without `label` or `value`: the source looks these up outside its `try` (script.py:60-61), so a missing key would abort the whole run. `Country` is a typed record here, so this cannot arise.
