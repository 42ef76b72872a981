# LLM cost estimator — pricing engine and model selection

This project models the computational core of a single-page LLM cost
estimator (`src/App.tsx`). The page holds a price table of nine LLM models
from three providers (OpenAI, Google, Mistral AI). A user picks at most one
model per provider, a number of prompts, the share of prompts that use web
search, and a refresh cadence. For every selected model the page computes:

- the cost of a run: a first LLM pass at the model's own rates, a second
  extraction pass at the `pass2Input`/`pass2Output` rates of the provider's
  designated second-pass model, and web search billed per thousand calls;
- the cost of a month of runs.

It then sums both amounts over the selection.

The model has three modules:

- `Catalog` (`catalog.dfy`) holds the static tables: the `MODELS` price
  table, the `AVG_TOKENS` token assumptions and the `FREQUENCIES` cadences,
  with their exact constants. Model identifiers become the `ModelKey`
  datatype. `KeyName` and `ParseKey` state the identifier set of the key
  type (`src/App.tsx:136`): a string is a key exactly when it is one of the
  nine identifiers. The page indexes the table only with typed keys, so no
  other member uses these two.
- `Selection` (`selection.dfy`) holds the `toggleModel` click handler, as
  the pure update `Toggle(prev, k)` on the selection list, with
  JavaScript's `Array.filter` as `Filter`. The proved invariant is `Valid`:
  no duplicates and at most one key per provider. `ToggleAll` folds a
  series of clicks over a selection; `ReachableSelectionsValid` applies it
  to the initial `[gpt-5-nano]` (line 165).
- `Pricing` (`pricing.dfy`) holds the body of the `calculations` map as
  `CalculateFor`. It is stated over any price-table entry, so its lemmas
  hold for every model and not just the nine in the table. `Calculate`
  prices a key from the table, `Calculations` is the map over the
  selection, and `GrandTotalPerRun` / `GrandTotalMonthly` are the two
  left-to-right `reduce` sums.

Amounts are exact reals. The program uses IEEE doubles; see "Left out".

Two points about the inputs:

- The page accounts monthly only: 30, 4 or 1 runs per month
  (`src/App.tsx:148-152`). There is no project count.
- `App.tsx` has no error path for out-of-range input. Line 260 clamps the
  prompt count with `Math.max(0, parseInt(...) || 0)`, and the slider at
  lines 377-383 yields 0..100. The model therefore types the prompt count
  as `nat` and the percentage as `Percent` (0..100).

## Model

| member | source | states |
|---|---|---|
| Catalog.Models | src/App.tsx:4-134 | The price table, entry by entry, with the source's constants. Every entry's provider is the provider column, and every price is non-negative. |
| Catalog.Pass2ModelIsConsistent | src/App.tsx:4-134 | For every model, the second-pass model named in the table belongs to the same provider. Its first-pass prices are the second-pass prices charged, it is its own second-pass model, and it has the same web search price. |
| Catalog.ParseKey | src/App.tsx:136 | The identifier set of the key type. A string is a key exactly when it is one of the nine identifiers: a `Some` result is the key with that identifier, and `None` means no key has it. |
| Catalog.ParseKeyName | src/App.tsx:136 | Every key of the table is found again under its own identifier (round trip). |
| Catalog.KeyName | src/App.tsx:6-120 | The identifiers of the nine table entries ('gpt-5-nano' at line 6 through 'mistral-large-3' at line 120); ParseKey and ParseKeyName state that they are pairwise distinct and identify their keys. |
| Catalog.ProviderOf | src/App.tsx:170-171 | The provider column that the click handler filters on (lines 171 and 179); `Models(k).provider == ProviderOf(k)` for every key. |
| Catalog.AvgTokens | src/App.tsx:140-145 | 50 / 500 / 600 / 100 average tokens per prompt for pass-1 input, pass-1 output, pass-2 input and pass-2 output. |
| Catalog.Frequencies | src/App.tsx:148-152 | Daily is 30, weekly 4 and monthly 1 runs per month. Every cadence runs at least once a month. |
| Selection.Filter | src/App.tsx:176-179 | The `Array.filter` calls: the result is never longer than the input. Its membership, counts and order are stated by the three lemmas below. |
| Selection.FilterMembers | src/App.tsx:176 | A key is in the filtered list if and only if it was in the list and the predicate keeps it. |
| Selection.FilterCount | src/App.tsx:179 | The filter keeps every occurrence of a kept key and none of a dropped one (multiset counts). |
| Selection.FilterIsSubsequence | src/App.tsx:176 | The filtered list is a subsequence of the original: order is kept. |
| Selection.Toggle | src/App.tsx:173-181 | The click updater. The clicked key is in the result exactly when it was not selected before. Every key of the result was selected before or is the clicked key, and the size grows by at most one. |
| Selection.ToggleAll | src/App.tsx:169-182 | A series of clicks on the selection: every key in the result was in the starting selection or was clicked. |
| Selection.ToggleSelected | src/App.tsx:175-177 | Clicking a selected key removes every occurrence of it. Every other key keeps its multiplicity, in the original order. |
| Selection.ToggleUnselected | src/App.tsx:178-180 | Clicking an unselected key puts it last. The keys before it are a subsequence of the old selection, and none of them shares its provider. Keys of other providers keep their multiplicities. |
| Selection.ToggleKeepsValid | src/App.tsx:169-182 | A click keeps the selection free of duplicates, with at most one key per provider. |
| Selection.ToggleDeselect | src/App.tsx:175-177 | In a duplicate-free selection, deselecting the key at position i cuts exactly that position out, so the size shrinks by one. |
| Selection.ToggleNewProviderGrows | src/App.tsx:178-180 | When the clicked key's provider has nothing selected, the key is appended and the size grows by one. |
| Selection.ToggleReplace | src/App.tsx:178-180 | When another key of the same provider sits at position i, that position is cut out and the new key appended. The size is unchanged and the replaced key is gone. |
| Selection.ToggleTwiceUnselected | src/App.tsx:169-182 | Clicking an unselected key twice leaves the old selection minus every key of that provider. |
| Selection.ToggleTwiceRestores | src/App.tsx:169-182 | When the key's provider has nothing selected, clicking it twice restores the selection. |
| Selection.ToggleAllKeepsValid | src/App.tsx:169-182 | Any series of clicks from a valid selection stays valid. |
| Selection.InitialSelection | src/App.tsx:165 | The initial selection `['gpt-5-nano']`. |
| Selection.ReachableSelectionsValid | src/App.tsx:165 | Every selection reachable by clicks from the initial `[gpt-5-nano]` is valid. |
| Pricing.CalculateFor | src/App.tsx:187-221 | The result carries the key and the table entry it was priced from. |
| Pricing.Calculate | src/App.tsx:188 | Prices key k from its table entry `MODELS[k]`. The result carries k and that entry, whose provider is k's provider. |
| Pricing.Calculations | src/App.tsx:186-222 | There is one result per selected key, in selection order, and result i carries key i. |
| Pricing.CostIsPerPromptPrice | src/App.tsx:191-205 | Each of pass 1, pass 2 and web search costs the prompt count times a per-prompt price. The run total is their sum, the monthly total is the run total times the runs per month, and the two pass totals are the sums of their breakdowns. |
| Pricing.CostIsAdditive | src/App.tsx:191-205 | Every cost, up to the monthly total, is additive in the prompt count. |
| Pricing.CostIsProportional | src/App.tsx:191-205 | Every cost, up to the monthly total, is the prompt count times the cost of one prompt. |
| Pricing.ZeroPromptsCostNothing | src/App.tsx:191-205 | Zero prompts give exactly zero in every field and in the breakdown. |
| Pricing.NoWebSearchCostsNothing | src/App.tsx:201-204 | At 0% web search the web search cost is exactly zero, and the run costs the two passes. |
| Pricing.WebSearchAtMostOneCallPerPrompt | src/App.tsx:201-202 | At 100% there is one web search call per prompt. With a non-negative call price, no share costs more than 100%. |
| Pricing.CostsAreNonNegative | src/App.tsx:191-205 | With non-negative prices, every breakdown item and every total is non-negative. |
| Pricing.PassesUseTheirOwnPrices | src/App.tsx:191-202 | Pass 2 depends only on the second-pass prices, pass 1 only on the first-pass prices, and web search only on the web search price. |
| Pricing.SamePass2ModelSamePass2Cost | src/App.tsx:196-198 | Two models that hand pass 2 to the same model pay the same for it, and that is what the pass-2 model pays for its own pass 2. |
| Pricing.GrandTotalPerRun | src/App.tsx:225 | The left-to-right sum of the run totals. It is non-negative when every run total is. |
| Pricing.GrandTotalMonthly | src/App.tsx:226 | The left-to-right sum of the monthly totals. It is non-negative when every monthly total is. |
| Pricing.RunCostsNonNegativeAll | src/App.tsx:225 | The recursive premise of GrandTotalPerRun's contract holds exactly when every run total is non-negative. |
| Pricing.MonthlyCostsNonNegativeAll | src/App.tsx:226 | The recursive premise of GrandTotalMonthly's contract holds exactly when every monthly total is non-negative. |
| Pricing.GrandTotalsAppend | src/App.tsx:225-226 | Both grand totals of a concatenation are the sums of the grand totals of its parts. |
| Pricing.CalculationsAppend | src/App.tsx:186-187 | Pricing a concatenated selection concatenates the results. |
| Pricing.EmptySelectionCostsNothing | src/App.tsx:225-226 | An empty selection gives no results and grand totals of zero. |
| Pricing.GrandTotalMonthlyScales | src/App.tsx:205 | When every result's monthly cost is runs times its run cost, so is the monthly grand total. |
| Pricing.CalculationsMonthlyIsRuns | src/App.tsx:184 | Every result's monthly cost is its run cost times the cadence's runs per month. |
| Pricing.GrandTotalMonthlyIsRunsTimesPerRun | src/App.tsx:225-226 | The monthly grand total is the per-run grand total times the runs per month. |
| Pricing.GrandTotalsAreNonNegative | src/App.tsx:225-226 | The grand totals of any selection are non-negative. |
| Pricing.ZeroPromptsGrandTotals | src/App.tsx:225-226 | With zero prompts, both grand totals of any selection are zero. |
| Pricing.SelectionCostWithout | src/App.tsx:225 | Cutting position i out of a selection takes that model's run cost off the per-run grand total. |
| Pricing.ToggleNewProviderAddsCost | src/App.tsx:178-180 | Clicking a key of a provider with nothing selected adds that model's run cost to the grand total. |
| Pricing.ToggleDeselectRemovesCost | src/App.tsx:175-177 | Deselecting a key of a duplicate-free selection takes its run cost off the grand total. |
| Pricing.ToggleReplaceSwapsCost | src/App.tsx:178-180 | Replacing a provider's selected model swaps the two models' run costs in the grand total. |
| Pricing.InitialEstimate | src/App.tsx:164-167 | The initial page (gpt-5-nano, 100 prompts, 100% web search, weekly) gives a breakdown of 0.00025 / 0.02 / 0.015 / 0.02. Pass 1 is 0.02025, pass 2 0.035, web search 1.0, a run 1.05525, a month 4.221, and the same grand totals. |

## Left out

- The JSX view is not modelled: layout, the provider headings and emoji (lines 288-292), the selection highlighting, the result cards and the summary label. None of it computes anything the state does not hold.
- The view-only fields of the price table are not modelled: `logo`, `color`, `border`, `accent`.
- React's `useState` and `useMemo` (lines 164-167, 186, 223) are not modelled. State is passed as parameters, and the memoised `calculations` is the function `Calculations` of its four inputs.
- Parsing of the two inputs is not modelled: the number field's `Math.max(0, parseInt(...) || 0)` (line 260) and the slider's `parseInt` (line 383). The types stand in for them: `promptCount` is a `nat` and `webSearchPercent` a `Percent` in 0..100. The slider's step of 5 is not enforced, and every lemma holds for any integer percentage.
- `formatCurrency` (lines 156-161) is presentation only and is not modelled.
- Prices and costs are exact reals rather than IEEE-754 doubles. Each exact equality, such as 1.05525 for the initial page or zero at 0% web search, is a statement about the real-valued formula. The program's floating-point results may differ from it by rounding.
- Provider names are the datatype `Provider` rather than strings. The model `name` field is kept as a string. The frequency `label` field is named `labelText`, because `label` is a reserved word.
