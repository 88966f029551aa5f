/** The five-step subdivision wizard: step 0 asks for the folium and date,
    step 1 for the original parcel, step 2 for the number of result parcels,
    step 3 for their areas, and step 4 is the final review. The wizard holds
    the current step and the form; it advances only past a step whose guard
    holds, and it goes back freely. */
module ConstructionWizard {
  import opened ConstructionTypes
  import Construction

  /** The index of the last step. */
  const LastStep: int := 4

  /** A parcel with every text empty and every number zero. */
  function EmptyBatch(): (b: Batch)
    ensures b.address == "" && b.catastralKey == "" && b.area == 0.0
    ensures Construction.BordersBlank(b)
  {
    Batch("", BorderData(0.0, ""), BorderData(0.0, ""), BorderData(0.0, ""), BorderData(0.0, ""),
          "", 0.0)
  }

  /** What must hold of the form to leave `step` forwards. A date is always
      present (a date object is never falsy), so step 0 asks only for a
      folium; step 4 and any other value have no condition. */
  function StepGuard(step: int, f: ConstructionForm): (r: bool)
    ensures step == 0 ==> (r <==> f.folium != "")
    ensures step == 1 ==> (r <==>
      f.originalBatch.address != "" && f.originalBatch.catastralKey != "" &&
      f.originalBatch.area > 0.0)
    ensures step == 2 ==> (r <==> 0 < f.batchesNumber == |f.resultBatches|)
    ensures step == 3 ==> (r <==>
      Construction.Abs(Construction.SumAreas(f.resultBatches) - f.originalBatch.area)
        <= Construction.DefaultEps)
    ensures step < 0 || step >= LastStep ==> r
  {
    if step == 0 then
      f.folium != ""
    else if step == 1 then
      f.originalBatch.address != "" && f.originalBatch.catastralKey != "" &&
      f.originalBatch.area > 0.0
    else if step == 2 then
      f.batchesNumber > 0 && |f.resultBatches| == f.batchesNumber
    else if step == 3 then
      Construction.ValidateConstructionForm(f).AreasOk?
    else
      true
  }

  /** The step after a "next" request: one further, never past the last
      step, and only when the current step's guard holds. */
  function NextStep(step: int, f: ConstructionForm): (s: int)
    ensures s != step ==> StepGuard(step, f) && s <= LastStep
    ensures 0 <= step <= LastStep ==> 0 <= s <= LastStep && (s == step || s == step + 1)
    ensures 0 <= step <= LastStep ==> (s == step + 1 <==> StepGuard(step, f) && step < LastStep)
  {
    if StepGuard(step, f) then (if step + 1 < LastStep then step + 1 else LastStep) else step
  }

  /** The step after a "previous" request: one back, never below step 0. */
  function PrevStep(step: int): (s: int)
    ensures s >= 0
    ensures step > 0 ==> s == step - 1
    ensures step <= 0 ==> s == 0
  {
    if step - 1 > 0 then step - 1 else 0
  }

  /** Leaving step 2 forwards needs as many result parcels as were asked for. */
  lemma AdvanceFromCountStep(f: ConstructionForm)
    requires NextStep(2, f) == 3
    ensures f.batchesNumber > 0 && |f.resultBatches| == f.batchesNumber
  {
  }

  /** Leaving step 3 forwards needs the areas to reconcile within the tolerance. */
  lemma AdvanceFromAreaStep(f: ConstructionForm)
    requires NextStep(3, f) == 4
    ensures Construction.Abs(Construction.SumAreas(f.resultBatches) - f.originalBatch.area)
      <= Construction.DefaultEps
  {
  }

  /** A user request: the "next" or the "previous" button. */
  datatype Move = Forward | Back

  /** One request together with the form as it stands when it is made: the
      form may be edited in any way between two requests. */
  datatype Request = Request(move: Move, form: ConstructionForm)

  /** The step after one request. */
  function Press(step: int, request: Request): int {
    if request.move.Forward? then NextStep(step, request.form) else PrevStep(step)
  }

  /** The step reached from `step` by a sequence of requests. From a step in
      0 .. 4 no sequence of requests leaves 0 .. 4. */
  function Run(step: int, requests: seq<Request>): (r: int)
    ensures 0 <= step <= LastStep ==> 0 <= r <= LastStep
    decreases |requests|
  {
    if requests == [] then step else Run(Press(step, requests[0]), requests[1..])
  }

  /** Every step passed on the way up was left through its guard: if the
      requests lead from `step` to beyond `k`, then some "next" request was
      made at step `k` while the form then current met the guard of `k`. */
  lemma {:induction false} RunPassesGuards(step: int, requests: seq<Request>, k: int)
    requires 0 <= step <= k < Run(step, requests)
    ensures exists i :: (0 <= i < |requests| && Run(step, requests[..i]) == k &&
      requests[i].move == Forward && StepGuard(k, requests[i].form))
    decreases |requests|
  {
    var s := Press(step, requests[0]);
    if s <= k {
      var rest := requests[1..];
      RunPassesGuards(s, rest, k);
      var i :| 0 <= i < |rest| && Run(s, rest[..i]) == k &&
        rest[i].move == Forward && StepGuard(k, rest[i].form);
      assert requests[..i + 1][1..] == rest[..i];
      assert Run(step, requests[..i + 1]) == k;
      assert requests[i + 1] == rest[i];
    } else {
      assert requests[..0] == [];
      assert Run(step, requests[..0]) == k;
    }
  }

  /** Reaching the review step from the start means that each earlier step
      was left under its guard, checked against the form as it stood at that
      moment: the folium was set; the original parcel was complete; there
      were as many result parcels as requested; and their areas added up to
      the original's within the tolerance. Edits made after a step was left
      are not checked again. */
  lemma ReachingLastStep(requests: seq<Request>)
    requires Run(0, requests) == LastStep
    ensures exists i :: (0 <= i < |requests| && Run(0, requests[..i]) == 0 &&
      requests[i].move == Forward && requests[i].form.folium != "")
    ensures exists i :: (0 <= i < |requests| && Run(0, requests[..i]) == 1 &&
      requests[i].move == Forward &&
      requests[i].form.originalBatch.address != "" &&
      requests[i].form.originalBatch.catastralKey != "" &&
      requests[i].form.originalBatch.area > 0.0)
    ensures exists i :: (0 <= i < |requests| && Run(0, requests[..i]) == 2 &&
      requests[i].move == Forward &&
      0 < requests[i].form.batchesNumber == |requests[i].form.resultBatches|)
    ensures exists i :: (0 <= i < |requests| && Run(0, requests[..i]) == 3 &&
      requests[i].move == Forward &&
      Construction.Abs(Construction.SumAreas(requests[i].form.resultBatches) -
                       requests[i].form.originalBatch.area) <= Construction.DefaultEps)
  {
    RunPassesGuards(0, requests, 0);
    RunPassesGuards(0, requests, 1);
    RunPassesGuards(0, requests, 2);
    RunPassesGuards(0, requests, 3);
  }

  /** The wizard's state: the current step and the form being filled in. */
  class Wizard {
    var step: int
    var form: ConstructionForm

    ghost predicate Valid()
      reads this
    {
      0 <= step <= LastStep
    }

    /** A fresh wizard at step 0 with an empty form dated `today`. */
    constructor (today: Date)
      ensures Valid()
      ensures step == 0
      ensures form.folium == "" && form.date == today && form.originalBatch == EmptyBatch()
      ensures form.batchesNumber == 1 && form.resultBatches == []
    {
      step := 0;
      form := ConstructionForm("", today, EmptyBatch(), 1, []);
    }

    /** Whether the current step may be left forwards: below the last step,
        exactly when a "next" request would move one step on; always on the
        last step and on any step outside 0 .. 3. */
    function CanGoNext(): (r: bool)
      reads this
      ensures 0 <= step < LastStep ==> (r <==> NextStep(step, form) == step + 1)
      ensures !(0 <= step < LastStep) ==> r
    {
      StepGuard(step, form)
    }

    /** The area check of the current form; it is what step 3 waits for. */
    function AreaValidation(): (r: Construction.AreaValidation)
      reads this
      ensures r.AreasOk? <==> StepGuard(3, form)
      ensures r.AreasMismatch? ==>
        r.expected == form.originalBatch.area &&
        r.got == Construction.SumAreas(form.resultBatches) && r.diff == r.got - r.expected
    {
      Construction.ValidateConstructionForm(form)
    }

    /** Rebuilds the result parcels from the original parcel and the count,
        or clears them when there is no catastral key or the count is not
        positive. Nothing else changes. A count too long for an array fails
        while building and leaves the form as it was. */
    method GenerateResultBatches() returns (outcome: Outcome)
      modifies this
      ensures step == old(step)
      ensures outcome.Fail? <==>
        old(form).originalBatch.catastralKey != "" &&
        old(form).batchesNumber > Construction.MaxArrayLength
      ensures outcome.Fail? ==>
        outcome.error == InvalidArrayLength(old(form).batchesNumber) && form == old(form)
      ensures outcome.Pass? ==> form == old(form).(resultBatches := form.resultBatches)
      ensures outcome.Pass? && (form.originalBatch.catastralKey == "" || form.batchesNumber <= 0) ==>
        form.resultBatches == []
      ensures outcome.Pass? && form.originalBatch.catastralKey != "" && form.batchesNumber > 0 ==>
        form.resultBatches ==
          Construction.BuildResultBatches(form.originalBatch, form.batchesNumber).value
      ensures outcome.Pass? && form.originalBatch.catastralKey != "" ==>
        (StepGuard(2, form) <==> form.batchesNumber > 0)
    {
      var originalBatch, batchesNumber := form.originalBatch, form.batchesNumber;
      if originalBatch.catastralKey == "" || batchesNumber <= 0 {
        form := form.(resultBatches := []);
        return Pass;
      }
      var built := Construction.BuildResultBatches(originalBatch, batchesNumber);
      if built.Failure? {
        return Fail(built.error);
      }
      form := form.(resultBatches := built.value);
      outcome := Pass;
    }

    /** Replaces the form by the one with `n` freshly built result parcels.
        A count that is not valid fails and leaves the form as it was. */
    method SetBatchesNumber(n: int) returns (outcome: Outcome)
      modifies this
      ensures step == old(step)
      ensures outcome.Pass? <==> Construction.ValidCount(n)
      ensures outcome.Fail? ==> outcome.error == Construction.CountFailure(n) && form == old(form)
      ensures outcome.Pass? ==> form == Construction.ApplyBatchesNumber(old(form), n).value
      ensures outcome.Pass? ==> StepGuard(2, form)
    {
      var applied := Construction.ApplyBatchesNumber(form, n);
      if applied.Failure? {
        return Fail(applied.error);
      }
      form := applied.value;
      outcome := Pass;
    }

    /** Moves one step forwards when the current step's guard holds. */
    method Next()
      modifies this
      ensures form == old(form)
      ensures step == NextStep(old(step), old(form))
      ensures old(Valid()) ==> Valid()
    {
      if !CanGoNext() {
        return;
      }
      step := if step + 1 < LastStep then step + 1 else LastStep;
    }

    /** Moves one step back, stopping at step 0. */
    method Prev()
      modifies this
      ensures form == old(form)
      ensures step == PrevStep(old(step))
      ensures old(Valid()) ==> Valid()
    {
      step := if step - 1 > 0 then step - 1 else 0;
    }
  }
}
