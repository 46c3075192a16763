/**
 * The article wizard's step bar, src/stores/stepStore.ts: a current step
 * (counted from 1) and the steps, whose statuses `setCurrentStep` rewrites
 * in place.
 */
module StepStore {
  datatype StepStatus = Finish | Process | Wait

  /** One step of the bar; its icon is a view component and is left out. */
  datatype StepItem = StepItem(title: string, status: StepStatus)

  /** The status `setCurrentStep(step)` gives the step at `index`. */
  function StatusFor(index: int, step: int): (s: StepStatus)
    ensures s == Process <==> index == step - 1
    ensures s == Finish <==> index < step - 1
  {
    if index < step - 1 then Finish
    else if index == step - 1 then Process
    else Wait
  }

  /** How many of the steps are in progress. */
  function ProcessCount(items: seq<StepItem>): nat {
    if items == [] then 0
    else ProcessCount(items[..|items| - 1]) + (if items[|items| - 1].status == Process then 1 else 0)
  }

  /** Every status agrees with `step`. */
  predicate StatusesFollow(items: seq<StepItem>, step: int) {
    forall i :: 0 <= i < |items| ==> items[i].status == StatusFor(i, step)
  }

  /** For a step within the bar, exactly one step is in progress. */
  lemma {:induction false} ExactlyOneInProgress(items: seq<StepItem>, step: int)
    requires StatusesFollow(items, step)
    ensures 1 <= step <= |items| ==> ProcessCount(items) == 1
    ensures (step < 1 || step > |items|) ==> ProcessCount(items) == 0
    decreases |items|
  {
    if items != [] {
      var init := items[..|items| - 1];
      assert StatusesFollow(init, step) by {
        forall i | 0 <= i < |init| ensures init[i].status == StatusFor(i, step) {
          assert init[i] == items[i];
        }
      }
      ExactlyOneInProgress(init, step);
    }
  }

  /** A step past the end marks every step finished; a step below 1 marks every step waiting. */
  lemma OutOfRangeSteps(items: seq<StepItem>, step: int)
    requires StatusesFollow(items, step)
    ensures step > |items| ==> forall i :: 0 <= i < |items| ==> items[i].status == Finish
    ensures step <= 0 ==> forall i :: 0 <= i < |items| ==> items[i].status == Wait
  {
  }

  class StepStore {
    var currentStep: int
    const steps: array<StepItem>

    /** The statuses agree with the current step, which lies within the bar. */
    predicate Valid()
      reads this, steps
    {
      StatusesFollow(steps[..], currentStep) && 1 <= currentStep <= steps.Length
    }

    /** The initial state: step 1, the prompt in progress and the generator waiting. */
    constructor()
      ensures Valid() && fresh(steps)
      ensures currentStep == 1
      ensures steps[..] == [StepItem("Prompt", Process), StepItem("Generator", Wait)]
    {
      currentStep := 1;
      var items := new StepItem[2];
      items[0] := StepItem("Prompt", Process);
      items[1] := StepItem("Generator", Wait);
      steps := items;
    }

    /**
     * `setCurrentStep(step)`: no range check; every step's status is set
     * from its index, and titles stay.
     */
    method SetCurrentStep(step: int)
      modifies this, steps
      ensures currentStep == step
      ensures StatusesFollow(steps[..], step)
      ensures forall i :: 0 <= i < steps.Length ==> steps[i].title == old(steps[i].title)
    {
      currentStep := step;
      for i := 0 to steps.Length
        invariant currentStep == step
        invariant forall k :: 0 <= k < i ==> steps[k].status == StatusFor(k, step)
        invariant forall k :: 0 <= k < steps.Length ==> steps[k].title == old(steps[k].title)
      {
        if i < step - 1 {
          steps[i] := steps[i].(status := Finish);
        } else if i == step - 1 {
          steps[i] := steps[i].(status := Process);
        } else {
          steps[i] := steps[i].(status := Wait);
        }
      }
    }

    /**
     * `nextStep`: advances only before the last step, from whatever step is
     * current (`setCurrentStep` may have left it outside the bar).
     */
    method NextStep()
      modifies this, steps
      ensures old(currentStep) < steps.Length ==>
        currentStep == old(currentStep) + 1 && StatusesFollow(steps[..], currentStep)
        && forall i :: 0 <= i < steps.Length ==> steps[i].title == old(steps[i].title)
      ensures old(currentStep) >= steps.Length ==> currentStep == old(currentStep) && steps[..] == old(steps[..])
      ensures old(Valid()) ==> Valid()
    {
      if currentStep < steps.Length {
        SetCurrentStep(currentStep + 1);
      }
    }

    /**
     * `prevStep`: goes back only after the first step, from whatever step
     * is current, including one past the end of the bar.
     */
    method PrevStep()
      modifies this, steps
      ensures old(currentStep) > 1 ==>
        currentStep == old(currentStep) - 1 && StatusesFollow(steps[..], currentStep)
        && forall i :: 0 <= i < steps.Length ==> steps[i].title == old(steps[i].title)
      ensures old(currentStep) <= 1 ==> currentStep == old(currentStep) && steps[..] == old(steps[..])
      ensures old(Valid()) ==> Valid()
    {
      if currentStep > 1 {
        SetCurrentStep(currentStep - 1);
      }
    }
  }
}
