/**
 * client/src/hooks/useStepper.ts: a step counter with a lower bound that
 * defaults to 0 and an optional upper bound. An option the caller leaves out
 * is `None`; JavaScript compares `undefined` false against every number.
 */
module UseStepper {
  import opened Wrappers

  datatype StepperOptions = StepperOptions(minStep: Option<int>, maxStep: Option<int>, initialStep: Option<int>)

  /** The options of a call without arguments. */
  const NoOptions := StepperOptions(None, None, None)

  /** `options.minStep || 0`: a missing bound, like a bound of 0, gives 0. */
  function MinStepOf(options: StepperOptions): (m: int)
    ensures options.minStep.None? ==> m == 0
    ensures options.minStep.Some? ==> m == options.minStep.value
  {
    match options.minStep
    case None => 0
    case Some(v) => v  // a given 0 is falsy and falls back to 0 as well
  }

  /** The first step: `initialStep` when it is given and not below `minStep`, otherwise `minStep`. */
  function InitialStepOf(options: StepperOptions): (s: int)
    ensures s >= MinStepOf(options)
    ensures options.initialStep.Some? && options.initialStep.value >= MinStepOf(options) ==> s == options.initialStep.value
    ensures options.initialStep.None? || options.initialStep.value < MinStepOf(options) ==> s == MinStepOf(options)
    ensures s == MinStepOf(options) || Some(s) == options.initialStep
  {
    var minStep := MinStepOf(options);
    match options.initialStep
    case Some(v) => if v >= minStep then v else minStep
    case None => minStep
  }

  class Stepper {
    const minStep: int
    const maxStep: Option<int>
    var step: int

    constructor (options: StepperOptions)
      ensures minStep == MinStepOf(options) && maxStep == options.maxStep
      ensures step == InitialStepOf(options)
      ensures step >= minStep
    {
      minStep := MinStepOf(options);
      maxStep := options.maxStep;
      step := InitialStepOf(options);
    }

    /** `step > minStep`. */
    function CanPreviousStep(): (b: bool)
      reads this
      ensures b <==> step > minStep
      ensures b ==> step - 1 >= minStep
    {
      step > minStep
    }

    /** `step < maxStep`: false when no upper bound was given. */
    function CanNextStep(): (b: bool)
      reads this
      ensures b <==> maxStep.Some? && step < maxStep.value
      ensures b ==> step + 1 <= maxStep.value
      ensures maxStep.None? ==> !b
    {
      match maxStep
      case None => false
      case Some(m) => step < m
    }

    /** One step back, without a bound check. */
    method PreviousStep()
      modifies this`step
      ensures step == old(step) - 1
      ensures old(CanPreviousStep()) ==> step >= minStep
    {
      step := step - 1;
    }

    /** One step forward, without a bound check. */
    method NextStep()
      modifies this`step
      ensures step == old(step) + 1
      ensures old(CanNextStep()) ==> step <= maxStep.value
    {
      step := step + 1;
    }

    /** `setStep`: any value, unchecked. */
    method SetStep(value: int)
      modifies this`step
      ensures step == value
    {
      step := value;
    }
  }
}
