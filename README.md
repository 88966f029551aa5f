# Parcel subdivision: domain calculator and wizard

This project models the core of a guided form that subdivides a real-estate
parcel ("batch") into several result parcels. The model has two parts.

- The **domain calculator** (`construction.dfy`, module `Construction`) works
  on plain records. It derives the catastral keys `{base}-1 .. {base}-n` of
  the result parcels and refuses a count that is not positive or too long for
  an array. It builds `n` blank
  result parcels from the original. It checks that the result areas add up to
  the original area within an absolute tolerance of 1e-6. It also replaces
  the count and result parcels of a form, and validates a form's areas.
- The **wizard** (`wizard.dfy`, module `ConstructionWizard`) is a five-step
  state machine (steps 0..4) over a form. Its `step` and `form` are fields of
  the class `Wizard`. `Next` advances only when the current step's guard
  holds and stops at step 4. `Prev` goes back and stops at step 0.
  `GenerateResultBatches` clears or rebuilds the result parcels, and
  `SetBatchesNumber` goes through the domain's `ApplyBatchesNumber`.

The record shapes (`BorderData`, `Batch`, `ConstructionForm`) are in
`types.dfy`. The thrown errors are the `Failure` / `Fail` case of `Result` /
`Outcome`. There are two: a count that is not positive, and a count above
2^32 − 1, which `Array.from` refuses because no JavaScript array can be that
long (`src/domain/construction.ts:30`). The decimal rendering of the key
index (a template literal in the source) is `Decimal.NatToString` in `decimal.dfy`. It is
proved to read back to the number, so derived keys are pairwise distinct.

Areas and meters are `real`; the count is `int`. The date, which the source
takes from the clock when the wizard starts, is a constructor parameter.

The calculator is pure functions with lemmas. The wizard's guards and step
arithmetic are pure functions (`StepGuard`, `NextStep`, `PrevStep`). The
class methods are proved against them: `Next` sets the step to
`NextStep(step, form)` and `Prev` to `PrevStep(step)`. `Run` folds a sequence
of next/prev requests, each paired with the form as it stands when the
request is made, so the form may be edited between requests. From a step in
0..4 the step stays in 0..4. Reaching step 4 from step 0 means that each of
steps 0..3 was left by a "next" request whose form met that step's guard at
that moment. Edits made later (for example `SetBatchesNumber` at step 4) are
not checked again, as in the source.

Result parcels copy only the original's address. Their four borders are
empty, text included (`src/domain/construction.ts:60-73`).

## Model

| member | source | states |
|---|---|---|
| `Decimal.NatToString` | src/domain/construction.ts:21-23 | the rendering of the index is non-empty, all digits, with a leading zero only for 0, and one digit exactly below 10 |
| `Decimal.ValueOfNatToString` | src/domain/construction.ts:21-23 | reading the rendered index back gives the index |
| `Decimal.NatToStringInjective` | src/domain/construction.ts:21-23 | distinct indices render differently |
| `Construction.EmptyBorder` | src/domain/construction.ts:9-11 | the empty border has length 0 and empty text |
| `Construction.EqualsWithTolerance` | src/domain/construction.ts:13-15 | true exactly when `a` lies within `eps` of `b`, in either direction |
| `Construction.BuildResultCatastralKey` | src/domain/construction.ts:21-23 | the key is the base key, a dash, then digits without a leading zero that read back as the 1-based index, so the text after the dash is the index's decimal rendering; for index 0 that text is the single digit 0 |
| `Construction.ResultCatastralKeyInjective` | src/domain/construction.ts:21-23 | two keys on the same base are equal only for the same index |
| `Construction.BuildCatastralKeys` | src/domain/construction.ts:25-33 | fails with the count when it is not positive and with an array-length error when it exceeds 2^32 − 1; otherwise exactly `count` keys, the k-th being `base + "-" + decimal(k+1)` |
| `Construction.CatastralKeysDistinct` | src/domain/construction.ts:21-33 | the keys of one derivation are pairwise distinct |
| `Construction.CatastralKeyPosition` | src/domain/construction.ts:25-33 | each derived key starts with `base-` and its suffix reads back as its 1-based position |
| `Construction.SumAreas` | src/domain/construction.ts:39-41 | the plain left-to-right total of the areas; a total of non-negative areas is non-negative |
| `Construction.SumAreasAppend` | src/domain/construction.ts:39-41 | the total area of a concatenation is the sum of the totals |
| `Construction.SumAreasPermutation` | src/domain/construction.ts:39-41 | the total area does not depend on the order of the parcels |
| `Construction.SumAreasOfZeros` | src/domain/construction.ts:39-41 | parcels that all have area 0 total 0 |
| `Construction.ValidateAreasMatch` | src/domain/construction.ts:43-54 | ok exactly when the sum is within 1e-6 of the original area; otherwise expected = the original area, got = the sum, diff = got − expected, and the difference is beyond the tolerance |
| `Construction.ValidateAreasMatchPermutation` | src/domain/construction.ts:43-54 | reordering the result parcels does not change the verdict |
| `Construction.ReconciliationExamples` | src/domain/construction.ts:43-54 | 60+40 and 60+39.9999995 against 100 are ok; 60+39 is a mismatch with expected 100, got 99, diff −1 |
| `Construction.CreateResultBatchFromOriginal` | src/domain/construction.ts:60-73 | a result parcel has the original's address, four empty borders, area 0 and the given key |
| `Construction.ResultBatchUsesOnlyAddress` | src/domain/construction.ts:60-73 | originals with the same address give the same result parcel |
| `Construction.BuildResultBatches` | src/domain/construction.ts:75-89 | fails exactly when key derivation does, with the same error; otherwise exactly `count` blank parcels in key order, the k-th with the original's address and key `base-(k+1)` |
| `Construction.ResultBatchKeysDistinct` | src/domain/construction.ts:75-89 | the built parcels have pairwise distinct keys |
| `Construction.ResultBatchesAreaZero` | src/domain/construction.ts:60-89 | the built parcels total area 0 |
| `Construction.FreshResultBatchesMismatch` | src/domain/construction.ts:43-89 | for an original area beyond the tolerance, validation right after building is a mismatch with got 0 and diff −area |
| `Construction.SubdivisionExample` | src/domain/construction.ts:25-89 | key ABC-123 with count 3 gives ABC-123-1..3, and area 500 is reported as a mismatch with got 0, diff −500 |
| `Construction.ApplyBatchesNumber` | src/domain/construction.ts:98-112 | fails exactly when building the parcels does, with the same error; otherwise the count is `n`, the results are the freshly built parcels, and folium, date and original parcel are unchanged |
| `Construction.ApplyBatchesNumberDiscardsResults` | src/domain/construction.ts:98-112 | the new form does not depend on the previous count or result parcels |
| `Construction.ApplyBatchesNumberIdempotent` | src/domain/construction.ts:98-112 | applying the same count twice equals applying it once |
| `Construction.ValidateConstructionForm` | src/domain/construction.ts:118-123 | ok exactly when the form's result areas total within 1e-6 of its original area; a mismatch carries that area, the sum and the signed difference |
| `ConstructionWizard.EmptyBatch` | src/composables/useConstructionWizard.ts:9-19 | the empty parcel has empty address and key, area 0 and four empty borders |
| `ConstructionWizard.StepGuard` | src/composables/useConstructionWizard.ts:49-75 | step 0 holds exactly when there is a folium; step 1 exactly when the original parcel has a non-empty address, a non-empty key and area > 0; step 2 exactly when the count is positive and there are that many result parcels; step 3 exactly when the areas total within 1e-6 of the original's; step 4 (and any step outside 0..3) has no condition |
| `ConstructionWizard.NextStep` | src/composables/useConstructionWizard.ts:49-80 | the step changes only when the current step's guard holds, and never past 4; from 0..4 it advances by exactly one iff the guard holds and the step is below 4 |
| `ConstructionWizard.PrevStep` | src/composables/useConstructionWizard.ts:82-84 | one step back from a positive step, otherwise 0 |
| `ConstructionWizard.AdvanceFromCountStep` | src/composables/useConstructionWizard.ts:65-80 | leaving step 2 requires a positive count and exactly that many result parcels |
| `ConstructionWizard.AdvanceFromAreaStep` | src/composables/useConstructionWizard.ts:69-80 | leaving step 3 requires the areas to reconcile within 1e-6 |
| `ConstructionWizard.Run` | src/composables/useConstructionWizard.ts:77-84 | any sequence of next/prev requests from a step in 0..4, with the form edited freely in between, stays in 0..4 |
| `ConstructionWizard.RunPassesGuards` | src/composables/useConstructionWizard.ts:49-84 | every step passed on the way up was left by a "next" request whose form met that step's guard at that moment |
| `ConstructionWizard.ReachingLastStep` | src/composables/useConstructionWizard.ts:49-84 | reaching step 4 from step 0 means steps 0..3 were each left under their guard on the form of that moment: folium set, original parcel complete with positive area, result count matched, areas reconciled; later edits are not rechecked |
| `ConstructionWizard.Wizard.constructor` | src/composables/useConstructionWizard.ts:22-30 | the initial state is step 0, empty folium, the given date, the empty parcel, count 1 and no result parcels |
| `ConstructionWizard.Wizard.CanGoNext` | src/composables/useConstructionWizard.ts:49-75 | on steps 0..3, true exactly when a "next" request would move one step on; on step 4 (and any step outside 0..3) always true |
| `ConstructionWizard.Wizard.AreaValidation` | src/composables/useConstructionWizard.ts:46 | the area check of the current form: ok exactly when step 3's guard holds, else expected, got and the signed difference |
| `ConstructionWizard.Wizard.GenerateResultBatches` | src/composables/useConstructionWizard.ts:33-40 | only the result parcels change: empty when the key is empty or the count is not positive, else the built parcels, so when the key is non-empty the step-2 guard then holds iff the count is positive; a count above 2^32 − 1 with a key fails and changes nothing |
| `ConstructionWizard.Wizard.SetBatchesNumber` | src/composables/useConstructionWizard.ts:42-44 | on a valid `n` the form becomes `ApplyBatchesNumber(form, n)` and the step-2 guard holds; otherwise it fails with the count error and the form is unchanged |
| `ConstructionWizard.Wizard.Next` | src/composables/useConstructionWizard.ts:77-80 | the step becomes `NextStep` of the old step and form, the form is unchanged, and a step in 0..4 stays there |
| `ConstructionWizard.Wizard.Prev` | src/composables/useConstructionWizard.ts:82-84 | the step becomes `PrevStep` of the old step, the form is unchanged, and a step in 0..4 stays there |

## Left out

- Floating-point rounding in the area sum and in the tolerance comparison: areas are exact reals.
- The `Number(x) || 0` coercion of a missing or NaN area to 0: a `real` is never NaN, so the coercion is the identity here.
- The `Number.isInteger` checks on the count: an `int` count is always an integer, so only the `<= 0` refusal is modelled.
- The step-0 check `!!f.date`: a date object is always truthy, so the date is opaque and the guard asks only for a folium.
- The text of the thrown error message: the failure carries only the refused count.
- The optional `eps` argument of `equalsWithTolerance`: it is a parameter of `EqualsWithTolerance`, and only the default 1e-6 is used, as in the source.
- Vue reactivity (`ref`, `computed`): state is two plain class fields and the computed values are functions of them.
- The reading of the current date when the wizard starts: the date is a constructor parameter.
- Running out of memory while building up to 2^32 − 1 result parcels: the model builds them as a value.
- Aliasing between result parcels: parcels are values, so no two of them share state.
- src/composables/useDocumentGenerator.ts is not part of this model: it patches a document template through an external library, fetches the template and downloads the file.
- vite.config.ts is build configuration and is not part of this model.
