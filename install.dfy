/**
 * The simulated installation of initiateInstall (main.js:444-483): a counter in the
 * interval's closure, advanced by 20 per tick until the interval clears itself at 100.
 */
module Install {

  const InstallSteps: seq<string> := [
    "Downloading files...", "Extracting components...", "Installing dependencies...",
    "Configuring settings...", "Finalizing installation...", "Installation complete!"
  ]

  /** The text the install modal shows before the first tick. */
  const Preparing := "Preparing installation..."
  const Fallback := "Installing..."
  const Step := 20
  const Done := 100

  /** `installSteps[Math.floor(progress / 20) - 1] || 'Installing...'`. */
  function StepLabel(progress: int): (text: string)
    ensures text in InstallSteps || text == Fallback
    ensures progress < Step ==> text == Fallback
    ensures progress >= Step * (|InstallSteps| + 1) ==> text == Fallback
  {
    var i := progress / Step - 1;
    if 0 <= i < |InstallSteps| then InstallSteps[i] else Fallback
  }

  /** The text shown once progress has been advanced: 'Preparing' before the first tick. */
  function ShownText(progress: int): (text: string)
    ensures text == Preparing <==> progress == 0
  {
    if progress == 0 then Preparing
    else
      assert forall i :: 0 <= i < |InstallSteps| ==> |InstallSteps[i]| != |Preparing|;
      StepLabel(progress)
  }

  /** After tick k (1..5) the text is installSteps[k - 1]; the sixth step is never shown. */
  lemma StepLabelAtTick(k: int)
    requires 1 <= k <= Done / Step
    ensures StepLabel(Step * k) == InstallSteps[k - 1]
    ensures StepLabel(Step * k) != InstallSteps[5]
  {
  }

  /** The closure state of one initiateInstall call. */
  class InstallJob {
    /** The id of the modal this installation created. */
    const modal: nat
    var progress: int
    /** The 800 ms interval has not been cleared. */
    var running: bool
    /** The 1000 ms timeout that closes the modal is scheduled and has not fired. */
    var closePending: bool
    /** That timeout has fired. */
    var completed: bool
    /** The width of `#install-progress`, in percent. */
    var barWidth: int
    /** The text of `#install-text`. */
    var text: string

    ghost predicate Valid()
      reads this
    {
      && 0 <= progress <= Done && progress % Step == 0
      && running == (progress < Done)
      && barWidth == progress
      && text == ShownText(progress)
      && !(closePending && completed)
      && (closePending || completed) == (progress == Done)
    }

    constructor (modal: nat)
      ensures Valid()
      ensures this.modal == modal && progress == 0 && running && !closePending && !completed
      ensures text == Preparing
    {
      this.modal := modal;
      progress := 0;
      running := true;
      closePending := false;
      completed := false;
      barWidth := 0;
      text := Preparing;
    }

    /** One firing of the interval: advance by 20; at 100 clear the interval and schedule the close. */
    method Tick()
      requires Valid() && running
      modifies this
      ensures Valid()
      ensures progress == old(progress) + Step
      ensures text == InstallSteps[progress / Step - 1] && text != InstallSteps[5]
      ensures running == (progress < Done) && closePending == (progress == Done)
      ensures !completed
    {
      progress := progress + Step;
      barWidth := progress;
      text := StepLabel(progress);
      StepLabelAtTick(progress / Step);
      if progress >= Done {
        running := false;
        closePending := true;
      }
    }
  }
}
