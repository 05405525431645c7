/** The tutorial's navigation: an introduction, four explanation steps
    (chunking, embedding, retrieval, generation) and the chat, moved
    between by the Next, Back, Start Over and step buttons and by the brain
    icon that skips straight to the chat. */
module Navigation {

  /** The index of the last of the four steps. */
  const LastStep := 3

  /** A snapshot of the page's four state variables. */
  datatype View = View(step: int, showChat: bool, showIntro: bool, showPopup: bool)

  const Initial := View(0, false, true, false)

  /** `steps[currentStep]` is defined. */
  predicate InRange(v: View)
  {
    0 <= v.step <= LastStep
  }

  /** The introduction is only ever shown on its own, at step 0. */
  predicate Coherent(v: View)
  {
    InRange(v) && (v.showIntro ==> v.step == 0 && !v.showChat)
  }

  /** `handleNext`. */
  function Next(v: View): View
  {
    if v.showIntro then v.(showIntro := false)
    else if v.step < LastStep then v.(step := v.step + 1)
    else v.(showChat := true)
  }

  /** `handleBack`. */
  function Back(v: View): View
  {
    if v.showChat then v.(showChat := false, step := LastStep)
    else if v.step > 0 then v.(step := v.step - 1)
    else if !v.showIntro then v.(showIntro := true)
    else v
  }

  /** `handleStartOver`: the popup flag is not touched. */
  function StartOver(v: View): View
  {
    v.(showChat := false, step := 0, showIntro := true)
  }

  /** `handleStepClick(k)`. */
  function StepClick(v: View, k: int): View
  {
    v.(step := k, showChat := false)
  }

  /** `handleBrainClick` once its timer has fired. */
  function BrainClick(v: View): View
  {
    v.(showPopup := false, showChat := true, showIntro := false)
  }

  /** The label of the forward button. */
  function NextLabel(v: View): string
  {
    if v.showIntro then "Let's Begin" else if v.step == LastStep then "Try the Chatbot" else "Next"
  }

  /** Whether the Back button is drawn opaque. */
  predicate BackVisible(v: View)
  {
    v.showChat || (!v.showIntro && v.step > 0)
  }

  /** Whether the step strip, whose buttons call `handleStepClick`, is shown. */
  predicate ProgressVisible(v: View)
  {
    !v.showChat && !v.showIntro
  }

  /** Every handler keeps the step in range and the introduction coherent;
      a step click does so for a step of the strip, which is only shown
      outside the introduction. */
  lemma HandlersKeepCoherent(v: View, k: int)
    requires Coherent(v)
    ensures Coherent(Next(v)) && Coherent(Back(v)) && Coherent(StartOver(v)) && Coherent(BrainClick(v))
    ensures 0 <= k <= LastStep ==> InRange(StepClick(v, k))
    ensures 0 <= k <= LastStep && ProgressVisible(v) ==> Coherent(StepClick(v, k))
  {
  }

  /** Outside the chat, Back undoes Next. */
  lemma BackUndoesNext(v: View)
    requires Coherent(v) && !v.showChat
    ensures Back(Next(v)) == v
  {
  }

  /** Outside the introduction, Next undoes Back, except in a chat opened
      by the brain icon from an earlier step: Back leaves such a chat for
      the last step, not for the step it was opened from. */
  lemma NextUndoesBack(v: View)
    requires Coherent(v) && !v.showIntro
    ensures Next(Back(v)) == v <==> !v.showChat || v.step == LastStep
  {
  }

  /** The forward button's label names what Next will do: "Let's Begin"
      leaves the introduction, "Try the Chatbot" opens the chat, and "Next"
      moves one step on. */
  lemma NextLabelNamesMove(v: View)
    requires Coherent(v) && !v.showChat
    ensures NextLabel(v) == "Let's Begin" <==> v.showIntro
    ensures NextLabel(v) == "Try the Chatbot" <==> Next(v).showChat
    ensures NextLabel(v) == "Next" <==> Next(v).step == v.step + 1
  {
  }

  /** A visible Back button always changes the view. The converse fails at
      step 0 after the introduction: the button is transparent there, but a
      click on it still returns to the introduction. */
  lemma BackVisibility(v: View)
    requires Coherent(v)
    ensures BackVisible(v) ==> Back(v) != v
    ensures !BackVisible(v) && Back(v) != v <==> !v.showChat && !v.showIntro && v.step == 0
    ensures !BackVisible(v) && Back(v) != v ==> Back(v) == Initial.(showPopup := v.showPopup)
  {
  }

  /** The page component, holding its state variables. */
  class App {
    var currentStep: int
    var showChat: bool
    var showIntro: bool
    var showPopup: bool

    function State(): View
      reads this
    {
      View(currentStep, showChat, showIntro, showPopup)
    }

    constructor ()
      ensures State() == Initial && Coherent(State())
    {
      currentStep := 0;
      showChat := false;
      showIntro := true;
      showPopup := false;
    }

    method HandleNext()
      modifies this
      ensures State() == Next(old(State()))
      ensures old(Coherent(State())) ==> Coherent(State())
    {
      if showIntro {
        showIntro := false;
        return;
      }
      if currentStep < LastStep {
        currentStep := currentStep + 1;
      } else {
        showChat := true;
      }
    }

    method HandleBack()
      modifies this
      ensures State() == Back(old(State()))
      ensures old(Coherent(State())) ==> Coherent(State())
    {
      if showChat {
        showChat := false;
        currentStep := LastStep;
      } else if currentStep > 0 {
        currentStep := currentStep - 1;
      } else if !showIntro {
        showIntro := true;
      }
    }

    method HandleStartOver()
      modifies this
      ensures State() == StartOver(old(State()))
      ensures Coherent(State())
    {
      showChat := false;
      currentStep := 0;
      showIntro := true;
    }

    /** A click on step `k`; the strip passes the index of one of its
        four steps. */
    method HandleStepClick(k: int)
      modifies this
      ensures State() == StepClick(old(State()), k)
      ensures 0 <= k <= LastStep ==> InRange(State())
      ensures 0 <= k <= LastStep && old(ProgressVisible(State()) && Coherent(State())) ==> Coherent(State())
    {
      currentStep := k;
      showChat := false;
    }

    /** The brain icon: the popup is shown, and once the timer fires it is
        hidden again and the chat opens. */
    method HandleBrainClick()
      modifies this
      ensures State() == BrainClick(old(State()))
      ensures old(Coherent(State())) ==> Coherent(State())
    {
      // The popup is shown until the 1500 ms timer fires; only the state
      // after the timer is modelled.
      showPopup := false;
      showChat := true;
      showIntro := false;
    }
  }
}
