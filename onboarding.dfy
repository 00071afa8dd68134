/** The first-run tutorial: eight cards walked through with Next and Back, a voice toggle,
    and completion, which is remembered in localStorage. */
module Onboarding {
  import opened Js
  import opened Browser

  /** The number of tutorial cards. */
  const STEP_COUNT := 8
  const LAST_STEP := STEP_COUNT - 1

  /** The card shown after "Next" (the last card stays put: it completes the tutorial instead). */
  function NextStep(step: nat): (r: nat)
    requires step < STEP_COUNT
    ensures r < STEP_COUNT
    ensures r == step <==> step == LAST_STEP
    ensures r != step ==> r == step + 1
  {
    if step < LAST_STEP then step + 1 else step
  }

  /** The card shown after "Back" (the first card stays put). */
  function BackStep(step: nat): (r: nat)
    requires step < STEP_COUNT
    ensures r < STEP_COUNT
    ensures r == step <==> step == 0
    ensures r != step ==> r + 1 == step
  {
    if step > 0 then step - 1 else step
  }

  /** Back undoes Next away from the last card, and Next undoes Back away from the first. */
  lemma NextBackInverse(step: nat)
    requires step < STEP_COUNT
    ensures step < LAST_STEP ==> BackStep(NextStep(step)) == step
    ensures step > 0 ==> NextStep(BackStep(step)) == step
  {
  }

  function NextTimes(step: nat, k: nat): (r: nat)
    requires step < STEP_COUNT
    ensures r < STEP_COUNT
    decreases k
  {
    if k == 0 then step else NextTimes(NextStep(step), k - 1)
  }

  /** Pressing Next `k` times moves `k` cards forward, stopping at the last one. */
  lemma {:induction false} NextTimesSaturates(step: nat, k: nat)
    requires step < STEP_COUNT
    ensures NextTimes(step, k) == if step + k <= LAST_STEP then step + k else LAST_STEP
    decreases k
  {
    if k > 0 {
      NextTimesSaturates(NextStep(step), k - 1);
    }
  }

  /** The main button's label: "Start Learning" exactly on the last card. */
  function NextLabel(step: nat): (text: string)
    requires step < STEP_COUNT
    ensures text == "Start Learning" <==> step == LAST_STEP
    ensures text == "Next" <==> step != LAST_STEP
  {
    if step == LAST_STEP then "Start Learning" else "Next"
  }

  /** The Back button is rendered only after the first card. */
  predicate BackVisible(step: nat): (visible: bool)
    ensures step < STEP_COUNT ==> (visible <==> BackStep(step) != step)
  {
    step > 0
  }

  /** The controls match what they do: Back is shown exactly where it moves, and the main
      button reads "Start Learning" exactly where it completes the tutorial instead of moving. */
  lemma ButtonsMatchBehaviour(step: nat)
    requires step < STEP_COUNT
    ensures BackVisible(step) <==> BackStep(step) != step
    ensures NextLabel(step) == "Start Learning" <==> NextStep(step) == step
  {
  }

  class Tutorial {
    const device: Device
    /** whether the host passed an `onComplete` callback */
    const hasOnComplete: bool
    var currentStep: nat
    var audioEnabled: bool
    /** how many times `onComplete` has been called */
    var completions: nat

    ghost predicate Valid()
      reads this
    {
      currentStep < STEP_COUNT
    }

    constructor (device: Device, hasOnComplete: bool)
      ensures Valid() && this.device == device && this.hasOnComplete == hasOnComplete
      ensures currentStep == 0 && audioEnabled && completions == 0
    {
      this.device := device;
      this.hasOnComplete := hasOnComplete;
      currentStep := 0;
      audioEnabled := true;
      completions := 0;
    }

    /** `handleComplete()`, also behind the close and "Skip Tutorial" buttons. */
    method HandleComplete()
      requires Valid()
      modifies device`onboardingCompleted, this`completions
      ensures Valid()
      ensures device.onboardingCompleted == Some("true")
      ensures completions == old(completions) + (if hasOnComplete then 1 else 0)
    {
      device.onboardingCompleted := Some("true");
      if hasOnComplete {
        completions := completions + 1;
      }
    }

    /** `handleNext()` */
    method HandleNext()
      requires Valid()
      modifies this`currentStep, device`onboardingCompleted, this`completions
      ensures Valid()
      ensures currentStep == NextStep(old(currentStep))
      ensures old(currentStep) < LAST_STEP ==>
                device.onboardingCompleted == old(device.onboardingCompleted) && completions == old(completions)
      ensures old(currentStep) == LAST_STEP ==>
                && device.onboardingCompleted == Some("true")
                && completions == old(completions) + (if hasOnComplete then 1 else 0)
    {
      if currentStep < LAST_STEP {
        currentStep := currentStep + 1;
      } else {
        HandleComplete();
      }
    }

    /** `handleBack()` */
    method HandleBack()
      requires Valid()
      modifies this`currentStep
      ensures Valid() && currentStep == BackStep(old(currentStep))
    {
      if currentStep > 0 {
        currentStep := currentStep - 1;
      }
    }

    /** `toggleAudio()` */
    method ToggleAudio()
      requires Valid()
      modifies this`audioEnabled
      ensures Valid() && audioEnabled == !old(audioEnabled)
    {
      audioEnabled := !audioEnabled;
    }
  }
}
