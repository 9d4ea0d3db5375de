# Cookbook Buddy: store, loading screen and catalogue, modelled in Dafny

This project models the deterministic core of the Cookbook Buddy app, which
generates cookbooks with an AI:

- **The cookbook store** (`LeadMagnetStore`, store.dfy). The mutable zustand
  state holds the cookbook being edited, the generation flag, the progress and
  its message, the user's cookbook list, and a loading flag. `CookbookStore`
  is a class with those six fields. Each store action is a method whose
  contract states the whole new state as `old(State())` with the changed
  fields replaced.
  - `Partial<Cookbook>` is a record of `Option` fields. `None` means that key
    is absent.
  - Object spread `{ ...a, ...u }` is the right-biased field-wise `Override`.
  - The list updates (`map` and `filter` by id) are functions over `seq`.
    Lemmas state their laws: nothing matching survives a remove, the others
    keep their order, removing is idempotent, absent ids change nothing, and
    updates compose.
  - The persistence projection (`partialize`) and its rehydration (the merge
    of the stored projection over `initialState`) are functions, with a
    round-trip lemma in each direction. The JSON storage in between is not
    modelled.
- **The AI loading screen** (`AiLoading`, loading.dfy). `AILoading` is a class
  holding the component's state: the `progress` prop, `fakeProgress`,
  `currentStepIndex`, `elapsedTime` and `factIndex`.
  - A timer tick is the method `Tick`. It clamps the curve's value to 95 and
    runs the cumulative-percent step loop. That loop is the method
    `ActiveStep`, proved equal to the specification function `FindStep`.
  - `FindStep` is computed exactly over the rationals. Lemmas prove that it
    finds a step for every target below 100, that it returns the first step whose
    boundary exceeds the target, and that it is monotone in the target. On
    the shipped step weights, target 10 gives step 1.
  - Fact rotation is the method `RotateFact`. It works modulo 8, and eight
    rotations return to the start.
  - `formatTime` is modelled exactly, including the conversion of its numbers
    to decimal text.
  - The step dots are classified as done, active or pending, and exactly one
    dot is active.
- **The type tables and the template catalogue** (`Types`, types.dfy, and
  `Templates`, templates.dfy).
  - The closed enumerations come with their string literals, a parser for
    each, and a complete list.
  - `PLAN_LIMITS` is a total function on plans, with the limits as its
    contract.
  - `COOKBOOK_TYPES` is a total function on cookbook types.
  - The three shipped templates are constants.
  - The three order-preserving `filter` queries are proved on any catalogue
    and then evaluated on the shipped one. `Seqs.Filter` models
    `Array.prototype.filter`. `Seqs.FilterSpec` states that its result is a
    subsequence of the input, and gives its exact multiset.

Modelling conventions:

- Dates are integers (milliseconds).
- `new Date()` in `updateCookbook` becomes the parameter `now`.
- The `type` field of cookbooks and templates is named `cookbookType`, because
  `type` is a keyword in Dafny.
- JavaScript numbers are Dafny `real`s wherever the code computes with
  fractions. `Math.round(x)` is `Floor(x + 0.5)`. `Math.floor` is `.Floor`.

Two behaviours of the code worth knowing:

- The step index is not latched. Each tick sets it to the step found for the
  current target. Within one run of the timer it never moves backwards,
  because the curve never decreases (`StepTraceMonotone`).
- When the `progress` prop goes back from a non-zero value to `0`, the timer
  restarts with a fresh start time. `fakeProgress` keeps the old value until
  the first tick (`SetProgress`). That tick's target is near 0, so it can move
  the step back to 0 and lower the shown progress.

## Model

| member | source | states |
|---|---|---|
| Seqs.Filter | src/lib/templates.ts:135 | `Array.prototype.filter` as head recursion; its result is never longer than its input, and `FilterSpec` gives its meaning |
| Seqs.FilterSpec | src/lib/templates.ts:134-136 | `Array.filter` keeps order (the result is a subsequence of the input) and keeps each element exactly as often as it occurs when the predicate holds, and never otherwise |
| Seqs.FilterKeepsAll | src/lib/templates.ts:141-150 | a filter whose predicate holds of every element returns the input unchanged |
| Seqs.FilterKeepsNone | src/lib/templates.ts:134-136 | a filter whose predicate holds of no element returns the empty list |
| Seqs.FilterIdempotent | src/stores/lead-magnet-store.ts:70-72 | filtering twice by the same predicate is filtering once |
| Seqs.FilterOfThree | src/lib/templates.ts:134-150 | on a three-element list, a filter keeps exactly the elements satisfying the predicate, in order |
| Types.ParseCookbookType | src/lib/types.ts:8 | a parsed cookbook-type literal names back to the same string |
| Types.CookbookTypeNameRoundTrip | src/lib/types.ts:8 | every cookbook type's literal parses back to that type |
| Types.AllCookbookTypes | src/lib/types.ts:8 | the cookbook types are exactly seven distinct values |
| Types.AllCookbookTypesComplete | src/lib/types.ts:8 | every cookbook type is in the seven-element list |
| Types.ParseCookbookStatus | src/lib/types.ts:23 | a parsed status literal names back to the same string |
| Types.CookbookStatusNameRoundTrip | src/lib/types.ts:23 | every status's literal parses back to that status |
| Types.AllCookbookStatuses | src/lib/types.ts:23 | the statuses are exactly four distinct values |
| Types.AllCookbookStatusesComplete | src/lib/types.ts:23 | every status is in the four-element list |
| Types.PlanLimits | src/lib/types.ts:153-172 | free allows one cookbook and exports only PDF; pro and unlimited use the sentinel -1 and export PDF and HTML; premium templates and priority generation are both on exactly for paid plans; PNG is never an export format and PDF always is |
| Types.ParsePlan | src/lib/types.ts:127 | a parsed plan literal names back to the same string |
| Types.PlanLimitsTotal | src/lib/types.ts:153-172 | each of the strings free, pro and unlimited parses to a plan, so the limits lookup is defined for all three |
| Templates.CookbookTypeInfo | src/lib/templates.ts:6-72 | the metadata table is total over cookbook types; a default item count exists exactly for recipe collections and meal plans; every type lists at least two examples |
| Templates.DefaultItemCount | src/lib/templates.ts:14-36 | the default item count is 10 for recipe collections, 7 for meal plans, and absent for the other five types |
| Templates.TypeExamples | src/lib/templates.ts:19-69 | every type has at least two example titles |
| Templates.TypeLabelsDistinct | src/lib/templates.ts:15-66 | different cookbook types have different labels |
| Templates.DesignDefault | src/lib/templates.ts:88-91 | a template's design defaults set only the primary colour and the template id |
| Templates.AllTemplates | src/lib/templates.ts:77-129 | the catalogue holds three templates |
| Templates.TemplateIdsDistinct | src/lib/templates.ts:79-113 | template ids are pairwise distinct |
| Templates.FilterByType | src/lib/templates.ts:134-136 | on any catalogue, the result is a subsequence of it, and a template is in the result if and only if it is in the catalogue with that type |
| Templates.FilterPopular | src/lib/templates.ts:141-143 | on any catalogue, the result is a subsequence of it, and a template is in the result if and only if it is a popular template of the catalogue |
| Templates.FilterFree | src/lib/templates.ts:148-150 | on any catalogue, the result is a subsequence of it, and a template is in the result if and only if it is a non-premium template of the catalogue |
| Templates.FilterByTypeCounts | src/lib/templates.ts:134-136 | on any catalogue, with repeats, the type filter keeps each template of that type exactly as often as the catalogue holds it, and no other template |
| Templates.FilterPopularCounts | src/lib/templates.ts:141-143 | on any catalogue, with repeats, the popular filter keeps each popular template exactly as often as the catalogue holds it, and no other template |
| Templates.FilterFreeCounts | src/lib/templates.ts:148-150 | on any catalogue, with repeats, the free filter keeps each non-premium template exactly as often as the catalogue holds it, and no other template |
| Templates.TemplatesByType | src/lib/templates.ts:134-136 | `getTemplatesByType(t)` keeps the order of the catalogue and returns exactly the templates of type `t` |
| Templates.PopularTemplates | src/lib/templates.ts:141-143 | `getPopularTemplates()` keeps the order of the catalogue and returns exactly the popular templates |
| Templates.FreeTemplates | src/lib/templates.ts:148-150 | `getFreeTemplates()` keeps the order of the catalogue and returns exactly the non-premium templates |
| Templates.ShippedPopularAndFree | src/lib/templates.ts:92-127 | on the shipped catalogue, both the popular and the free query return all three templates in order |
| Templates.ShippedTemplatesByType | src/lib/templates.ts:82-116 | recipe collections give weeknight-dinners then comfort-food-classics, meal plans give healthy-meal-prep, and the other five types give nothing |
| LeadMagnetStore.InitialState | src/stores/lead-magnet-store.ts:30-37 | `initialState`: no current cookbook, not generating, progress 0, empty message, empty list, not loading |
| LeadMagnetStore.Override | src/stores/lead-magnet-store.ts:47 | the right-biased spread `{ ...a, ...u }`: a key present in `u` wins, others are kept; `OverrideLaws` proves `{}` neutral and the merge associative |
| LeadMagnetStore.RemoveMatching | src/stores/lead-magnet-store.ts:71 | the filter by id; `RemoveLeavesNoMatch`, `RemoveKeepsOthers`, `RemoveIdempotent` and `RemoveAbsent` give its meaning |
| LeadMagnetStore.MergeCurrent | src/stores/lead-magnet-store.ts:46-48 | with no current cookbook the result is the update itself; otherwise it is the field-wise merge in which the update's keys win and the others are kept |
| LeadMagnetStore.ApplyUpdates | src/stores/lead-magnet-store.ts:66 | a matching cookbook becomes the old one overridden by the update, then by `updatedAt := now`, so its timestamp is always `now` |
| LeadMagnetStore.UpdateMatching | src/stores/lead-magnet-store.ts:64-68 | the list keeps its length and order; entries with another id are unchanged; entries with the id are updated |
| LeadMagnetStore.Partialize | src/stores/lead-magnet-store.ts:78-80 | the persisted value holds the cookbooks and nothing else |
| LeadMagnetStore.Rehydrate | src/stores/lead-magnet-store.ts:30-80 | restoring gives the initial state with the stored cookbooks |
| LeadMagnetStore.CookbookStore.constructor | src/stores/lead-magnet-store.ts:30-42 | a new store is `initialState` |
| LeadMagnetStore.CookbookStore.Restored | src/stores/lead-magnet-store.ts:30-81 | a store restored from storage is `initialState` with the stored cookbooks |
| LeadMagnetStore.CookbookStore.SetCurrent | src/stores/lead-magnet-store.ts:44 | only `current` changes, to the argument, which may be null |
| LeadMagnetStore.CookbookStore.UpdateCurrent | src/stores/lead-magnet-store.ts:46-48 | only `current` changes, to the merge of the old current with the update |
| LeadMagnetStore.CookbookStore.SetGenerating | src/stores/lead-magnet-store.ts:50-54 | sets the flag and the message (default empty); starting resets the progress to 0, stopping keeps it; nothing else changes |
| LeadMagnetStore.CookbookStore.SetProgress | src/stores/lead-magnet-store.ts:56 | only the progress changes |
| LeadMagnetStore.CookbookStore.SetCookbooks | src/stores/lead-magnet-store.ts:58 | the list is replaced and loading is marked finished; nothing else changes |
| LeadMagnetStore.CookbookStore.AddCookbook | src/stores/lead-magnet-store.ts:60-62 | the new cookbook is prepended: the length grows by one and the old list follows in its order; nothing else changes |
| LeadMagnetStore.CookbookStore.UpdateCookbook | src/stores/lead-magnet-store.ts:64-68 | only the list changes, as `UpdateMatching` with the given time |
| LeadMagnetStore.CookbookStore.RemoveCookbook | src/stores/lead-magnet-store.ts:70-72 | only the list changes, to the entries whose id differs |
| LeadMagnetStore.CookbookStore.Reset | src/stores/lead-magnet-store.ts:30-74 | every field, the list included, returns to `initialState` |
| LeadMagnetStore.CookbookStore.Persist | src/stores/lead-magnet-store.ts:78-80 | the persisted value is the projection of the current state, that is, its cookbooks |
| LeadMagnetStore.RemoveLeavesNoMatch | src/stores/lead-magnet-store.ts:70-72 | after a removal no cookbook has the removed id |
| LeadMagnetStore.RemoveKeepsOthers | src/stores/lead-magnet-store.ts:70-72 | a removal keeps the order, and keeps every cookbook with another id as often as before |
| LeadMagnetStore.RemoveIdempotent | src/stores/lead-magnet-store.ts:70-72 | removing twice is removing once |
| LeadMagnetStore.RemoveAbsent | src/stores/lead-magnet-store.ts:70-72 | removing an id no cookbook has changes nothing |
| LeadMagnetStore.UpdateAbsent | src/stores/lead-magnet-store.ts:64-68 | updating an id no cookbook has changes nothing |
| LeadMagnetStore.ApplyUpdatesCompose | src/stores/lead-magnet-store.ts:64-68 | two updates in turn are one update with their merge, at the later time |
| LeadMagnetStore.ApplyNoUpdates | src/stores/lead-magnet-store.ts:66 | an empty update changes only the timestamp |
| LeadMagnetStore.OverrideLaws | src/stores/lead-magnet-store.ts:47-66 | the empty partial is neutral for the merge, and the merge is associative |
| LeadMagnetStore.MergeCurrentTwice | src/stores/lead-magnet-store.ts:46-48 | two `updateCurrent` calls equal one with the merged update |
| LeadMagnetStore.PersistRehydrate | src/stores/lead-magnet-store.ts:77-80 | persisting a rehydrated state gives back the stored value |
| LeadMagnetStore.RehydratePersist | src/stores/lead-magnet-store.ts:30-80 | a persist-and-restore round trip keeps only the cookbooks, and it is the identity exactly on states that differ from `initialState` only in their cookbooks |
| AiLoading.TotalDuration | src/components/ui/ai-loading.tsx:75-77 | `totalStepDuration`, the sum of all weights; 143 on the shipped table (`GenerationStepsTotal`) |
| AiLoading.GenerationStepsTotal | src/components/ui/ai-loading.tsx:40-77 | the six step weights are positive and sum to 143 |
| AiLoading.PrefixPositive | src/components/ui/ai-loading.tsx:75-77 | with positive weights the first `n` weights sum to at least `n` |
| AiLoading.Boundary | src/components/ui/ai-loading.tsx:94-96 | the last cumulative boundary is exactly 100 |
| AiLoading.BoundaryCrossMultiplied | src/components/ui/ai-loading.tsx:96-97 | `target < boundary` exactly when `target * total < 100 * prefix`, with no division |
| AiLoading.FindStepFrom | src/components/ui/ai-loading.tsx:95-100 | a step found from index `i` lies between `i` and the end of the table |
| AiLoading.FindStep | src/components/ui/ai-loading.tsx:94-101 | a found step is an index of the table; it is the first index whose boundary exceeds the target (`FindStepIsFirst`) |
| AiLoading.StepFound | src/components/ui/ai-loading.tsx:94-101 | for every target below 100, on any table with positive weights, the loop finds an index of the table |
| AiLoading.FindStepIsFirst | src/components/ui/ai-loading.tsx:94-101 | the loop returns `k` exactly when `k` is the first index whose boundary exceeds the target |
| AiLoading.FindStepMonotone | src/components/ui/ai-loading.tsx:94-101 | a larger target never selects an earlier step |
| AiLoading.ActiveStep | src/components/ui/ai-loading.tsx:94-101 | the cumulative-percent loop with `break` returns exactly `FindStep` |
| AiLoading.Target | src/components/ui/ai-loading.tsx:89 | the simulated target is the curve's value, capped at 95 |
| AiLoading.StepForRaw | src/components/ui/ai-loading.tsx:89-101 | for every curve value the shipped table yields a step index below 6 |
| AiLoading.StepTraceMonotone | src/components/ui/ai-loading.tsx:89-101 | ticks with non-decreasing curve values never move the step backwards |
| AiLoading.TargetTenIsStepOne | src/components/ui/ai-loading.tsx:94-101 | target 10 selects step 1, "Researching ingredients & techniques" |
| AiLoading.Round | src/components/ui/ai-loading.tsx:117 | `Math.round` gives the integer within half of its argument |
| AiLoading.RoundAtMost | src/components/ui/ai-loading.tsx:89-117 | a value at most `b` rounds to at most `b` |
| AiLoading.NatToString | src/components/ui/ai-loading.tsx:125 | a number's decimal text is non-empty and made of digits |
| AiLoading.DecimalRoundTrip | src/components/ui/ai-loading.tsx:125 | the decimal text reads back as the same number |
| AiLoading.DecimalNoLeadingZero | src/components/ui/ai-loading.tsx:125 | the decimal text has no leading zero unless it is "0" |
| AiLoading.SplitTime | src/components/ui/ai-loading.tsx:123-124 | the minutes and seconds are the floors of the quotient and the remainder by 60, so seconds are below 60 |
| AiLoading.FormatTime | src/components/ui/ai-loading.tsx:122-126 | the text ends in "s" and has at least two characters |
| AiLoading.FormatTimeMinutes | src/components/ui/ai-loading.tsx:122-126 | the text shows minutes exactly when at least 60 seconds have passed |
| AiLoading.FormatTimeExamples | src/components/ui/ai-loading.tsx:122-126 | 65 seconds format as "1m 5s" and 45 seconds as "45s" |
| AiLoading.ElapsedText | src/components/ui/ai-loading.tsx:238 | before any time has elapsed the caption is "Starting..." |
| AiLoading.NextFact | src/components/ui/ai-loading.tsx:112 | the next fact index is below 8, and is the successor except after the last fact |
| AiLoading.RotateAdvances | src/components/ui/ai-loading.tsx:112 | `n` rotations advance the index by `n` modulo 8 |
| AiLoading.RotateCycle | src/components/ui/ai-loading.tsx:72-112 | eight rotations return to the starting fact |
| AiLoading.DotClass | src/components/ui/ai-loading.tsx:222-227 | a dot is done exactly before the current step, active exactly at it and pending exactly after it |
| AiLoading.StepDots | src/components/ui/ai-loading.tsx:218-227 | there is one dot per step, each classified as `DotClass` describes |
| AiLoading.ExactlyOneActive | src/components/ui/ai-loading.tsx:218-227 | when the current step is in range, exactly one dot is active |
| AiLoading.AILoading.constructor | src/components/ui/ai-loading.tsx:62-106 | after mounting and the first run of the progress effect: step 0, no elapsed time, the given fact; the shown progress is 0, or the reported progress if it is non-zero |
| AiLoading.AILoading.SetProgress | src/components/ui/ai-loading.tsx:80-107 | a non-zero reported progress is shown directly; nothing else changes |
| AiLoading.AILoading.Tick | src/components/ui/ai-loading.tsx:80-101 | with progress reported nothing changes; otherwise the elapsed time is recorded, the capped target is shown, its rounded display is at most 95, and the step becomes the one `FindStep` selects |
| AiLoading.AILoading.RotateFact | src/components/ui/ai-loading.tsx:110-113 | only the fact index changes, to the next one |
| AiLoading.AILoading.DisplayProgress | src/components/ui/ai-loading.tsx:104-117 | with progress reported, the display is that progress rounded |
| AiLoading.AILoading.CurrentStep | src/components/ui/ai-loading.tsx:118 | the current step is one of the six steps |
| AiLoading.AILoading.CurrentFact | src/components/ui/ai-loading.tsx:266 | the shown fact is one of the eight facts |
| AiLoading.AILoading.Dots | src/components/ui/ai-loading.tsx:218-228 | one dot per step, and the active one is exactly the current step |
| AiLoading.AILoading.HangTight | src/components/ui/ai-loading.tsx:243-251 | the hint shows exactly when the unrounded progress has reached 89.5 |

## Left out

- React rendering, the icons, `variantConfig` and the framer-motion animations are presentation only.
- `setInterval`, `clearInterval` and `Date.now` are left out. A tick is a call to `AILoading.Tick` with the elapsed seconds and the curve's value. The timer lifecycle is not modelled.
- The curve `(1 - Math.exp(-elapsed / (expectedDuration * 0.4))) * 100` is floating point, so its value is the parameter `raw`. This also folds in `expectedDuration`.
- The initial fact index drawn with `Math.random()` is the constructor parameter `initialFact`, required to be below 8.
- The step loop is computed in exact rationals. The rounding of JavaScript's floating-point boundaries is not modelled.
- zustand's `persist` middleware and localStorage I/O are left out. Only the `partialize` projection and its rehydration are modelled.
- LeadMagnetStore.Rehydrate: the JSON storage step of `persist` is not modelled. After a real reload the stored value has passed through `JSON.stringify` and `JSON.parse`, so each cookbook's `createdAt`, `updatedAt` and `generatedAt` comes back as an ISO string rather than a `Date`, and keys whose value was `undefined` are gone. `Rehydrate` returns the cookbooks unchanged, so `PersistRehydrate` and `RehydratePersist` are about the projection and the merge over `initialState` only, not about a save and reload.
- The selector hooks and the legacy aliases in the store file are library wrappers.
- `Partial<Cookbook>` is modelled as keys that are present or absent. A key that is present with the value `undefined` is not modelled, though the spread would copy it.
- `TEMPLATE_CATEGORIES` is an unused constant list.
- `UserProfile`, `GenerationRequest` and `GenerationResponse` have no operations. Only the plan names from `UserProfile` are modelled.
- src/components/HomePage.tsx (UI and navigation) and capacitor.config.ts (static platform configuration) are not part of this model.
- AiLoading.FormatTime: requires `seconds >= 0`. Its one caller only formats a positive elapsed time, and `%` on negative numbers is not modelled.
