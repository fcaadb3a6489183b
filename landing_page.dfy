/** The landing page's own state: the FAQ accordion and the demo
    generator. */
module Landing {
  import opened Text
  import opened Wrappers

  /** `activeFAQ === index ? null : index`: the accordion after a click
      on item `index`. */
  function Toggled(active: Option<int>, index: int): Option<int>
  {
    if active == Some(index) then None else Some(index)
  }

  /** Two clicks on the same item close the accordion, except that an
      item that was open to begin with is open again. */
  lemma ToggleTwice(active: Option<int>, index: int)
    ensures Toggled(Toggled(active, index), index)
         == (if active == Some(index) then active else None)
  {
  }

  class LandingPage {
    /** The index of the open FAQ item, or `null` when all are closed. */
    var activeFaq: Option<int>
    var demoPrompt: string
    var isGenerating: bool
    var showResult: bool
    /** The 2000 ms generation timers scheduled and not yet fired. */
    var pendingTimers: nat

    constructor ()
      ensures activeFaq == None && demoPrompt == ""
      ensures !isGenerating && !showResult && pendingTimers == 0
      ensures OneGenerationAtATime()
    {
      activeFaq := None;
      demoPrompt := "";
      isGenerating := false;
      showResult := false;
      pendingTimers := 0;
    }

    /** FAQ item `idx` is expanded. */
    predicate FaqItemOpen(idx: int)
      reads this
    {
      activeFaq == Some(idx)
    }

    /** The generate button is enabled. */
    predicate GenerateEnabled()
      reads this
    {
      Trim(demoPrompt) != "" && !isGenerating
    }

    /** The generate button is meant to allow one generation at a time,
        with the spinner shown exactly while its timer is pending. */
    predicate OneGenerationAtATime()
      reads this
    {
      pendingTimers <= 1 && (isGenerating <==> pendingTimers == 1)
    }

    /** `toggleFAQ(index)`: the clicked item opens if it was closed and
        closes if it was open; every other item is closed afterwards. */
    method ToggleFaq(index: int)
      modifies this`activeFaq
      ensures activeFaq == Toggled(old(activeFaq), index)
      ensures FaqItemOpen(index) <==> !old(FaqItemOpen(index))
      ensures forall j :: j != index ==> !FaqItemOpen(j)
    {
      activeFaq := if activeFaq == Some(index) then None else Some(index);
    }

    /** The textarea's `onChange`, and the quick-prompt buttons that fill
        in a canned prompt. */
    method SetDemoPrompt(value: string)
      modifies this`demoPrompt
      ensures demoPrompt == value
    {
      demoPrompt := value;
    }

    /** `handleDemoSubmit`: blank prompts are ignored; otherwise the
        spinner starts and a 2000 ms timer is scheduled. */
    method DemoSubmit()
      modifies this`isGenerating, this`pendingTimers
      ensures Trim(demoPrompt) == "" ==>
        isGenerating == old(isGenerating) && pendingTimers == old(pendingTimers)
      ensures Trim(demoPrompt) != "" ==>
        isGenerating && pendingTimers == old(pendingTimers) + 1
    {
      if Trim(demoPrompt) == "" {
        return;
      }
      isGenerating := true;
      pendingTimers := pendingTimers + 1;
    }

    /** A click on the generate button, which fires only while it is
        enabled. */
    method ClickGenerate()
      modifies this`isGenerating, this`pendingTimers
      ensures old(GenerateEnabled()) ==> isGenerating && pendingTimers == old(pendingTimers) + 1
      ensures !old(GenerateEnabled()) ==>
        isGenerating == old(isGenerating) && pendingTimers == old(pendingTimers)
      ensures old(OneGenerationAtATime()) ==> OneGenerationAtATime()
    {
      if GenerateEnabled() {
        DemoSubmit();
      }
    }

    /** A generation timer fires: the spinner stops and the preview is
        shown. */
    method GenerationDone()
      requires pendingTimers > 0
      modifies this`isGenerating, this`showResult, this`pendingTimers
      ensures !isGenerating && showResult && pendingTimers == old(pendingTimers) - 1
      ensures old(OneGenerationAtATime()) ==> OneGenerationAtATime()
    {
      isGenerating := false;
      showResult := true;
      pendingTimers := pendingTimers - 1;
    }

    /** The "create new" button under the preview: hide the preview and
        clear the prompt. */
    method StartOver()
      modifies this`showResult, this`demoPrompt
      ensures !showResult && demoPrompt == ""
    {
      showResult := false;
      demoPrompt := "";
    }
  }
}
