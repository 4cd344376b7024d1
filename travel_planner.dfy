/** src/components/dashboard/TravelPlanner.tsx: the wizard that owns the `TravelContext`,
    merges the patches its steps send, advances the step counter, takes the budget, and
    decides which step panel is on screen. */
module TravelPlanner {
  import opened Wrappers
  import opened Text
  import opened Ai
  import TypedReveal
  import AccommodationSelector

  /** The context the wizard starts from: no destination, no dates, budget 0, empty
      preferences, and none of the optional members. */
  const InitialContext := TravelContext("", Dates(None, None), 0.0, Preferences("", [], ""), None, None, None)

  // ---------------------------------------------------------------------------
  // handleContextUpdate

  /** One member of a spread: the patch's value when the patch has the key. */
  function Override<T>(patch: Option<T>, current: T): T {
    if patch.Some? then patch.value else current
  }

  /** `{ ...prev, ...updates }`: a shallow merge. */
  function Merge(c: TravelContext, p: ContextPatch): TravelContext {
    TravelContext(
      Override(p.destination, c.destination),
      Override(p.dates, c.dates),
      Override(p.budget, c.budget),
      Override(p.preferences, c.preferences),
      Override(p.selectedAccommodation, c.selectedAccommodation),
      Override(p.selectedFlight, c.selectedFlight),
      Override(p.addOns, c.addOns))
  }

  /** `{ ...p, ...q }` on two patches: the keys of `q` win, the others come from `p`. */
  function Then(p: ContextPatch, q: ContextPatch): ContextPatch {
    ContextPatch(
      if q.destination.Some? then q.destination else p.destination,
      if q.dates.Some? then q.dates else p.dates,
      if q.budget.Some? then q.budget else p.budget,
      if q.preferences.Some? then q.preferences else p.preferences,
      if q.selectedAccommodation.Some? then q.selectedAccommodation else p.selectedAccommodation,
      if q.selectedFlight.Some? then q.selectedFlight else p.selectedFlight,
      if q.addOns.Some? then q.addOns else p.addOns)
  }

  /** The empty patch changes nothing. */
  lemma MergeEmpty(c: TravelContext)
    ensures Merge(c, EmptyPatch) == c
  {
  }

  /** Merging the same patch twice is merging it once. */
  lemma MergeIdempotent(c: TravelContext, p: ContextPatch)
    ensures Merge(Merge(c, p), p) == Merge(c, p)
  {
  }

  /** Two updates in a row are one update with the later keys winning. */
  lemma MergeThen(c: TravelContext, p: ContextPatch, q: ContextPatch)
    ensures Merge(Merge(c, p), q) == Merge(c, Then(p, q))
  {
  }

  /** Updates that set different keys commute. */
  lemma MergeDisjointCommute(c: TravelContext, p: ContextPatch, q: ContextPatch)
    requires p.destination.None? || q.destination.None?
    requires p.dates.None? || q.dates.None?
    requires p.budget.None? || q.budget.None?
    requires p.preferences.None? || q.preferences.None?
    requires p.selectedAccommodation.None? || q.selectedAccommodation.None?
    requires p.selectedFlight.None? || q.selectedFlight.None?
    requires p.addOns.None? || q.addOns.None?
    ensures Merge(Merge(c, p), q) == Merge(Merge(c, q), p)
  {
  }

  /** The merge is shallow: a `preferences` patch replaces the whole record, so
      preference members the patch leaves at other values are lost. */
  lemma PreferencesReplacedWholesale(c: TravelContext, prefs: Preferences)
    ensures Merge(c, EmptyPatch.(preferences := Some(prefs))) == c.(preferences := prefs)
  {
  }

  /** The destination step's patch sets the destination and nothing else. */
  lemma DestinationChoiceSetsOnlyDestination(c: TravelContext, name: string)
    ensures Merge(c, EmptyPatch.(destination := Some(name))) == c.(destination := name)
  {
  }

  /** The accommodation step's patch, built from the same context, changes only the
      accommodation preference. */
  lemma AccommodationChoiceKeepsTheRest(c: TravelContext, a: AccommodationSelector.Accommodation)
    ensures Merge(c, AccommodationSelector.SelectionPatch(c, a)) ==
      c.(preferences := c.preferences.(accommodation := a.name))
  {
  }

  // ---------------------------------------------------------------------------
  // handleBudgetSubmit

  /** The guide typed out after a budget is stored. */
  function GuideText(destination: string, budget: real): string {
    "Great! I'll " + "help you plan " + "your trip to " + destination + " with a budget " + "of $" +
    NumberToString(budget) + ".\n\n" +
    "Let me search " + "for the best " + "accommodations " + "and activities " + "within your " + "budget...\n\n" +
    "I'll check:\n" +
    "\U{2022} Hotels and " + "accommodations\n" +
    "\U{2022} Local " + "activities and " + "attractions\n" +
    "\U{2022} Transportation " + "options\n" +
    "\U{2022} Dining " + "recommendations\n\n" +
    "Would you like " + "to proceed " + "with finding " + "accommodations?"
  }

  /** A whole-dollar amount typed with a dollar sign, or with a minus sign, is stored as
      that amount: the replace removes both signs, so the stored budget is never negative. */
  lemma BudgetParsesWholeDollars(n: nat)
    ensures ParseNumber("$" + NatToString(n)) == Some(n as real)
    ensures ParseNumber("-" + NatToString(n)) == Some(n as real)
  {
    NatToStringValue(n);
    assert "$" + NatToString(n) == "$" + NatToString(n) + "";
    ParseNumberOfDigits("$", NatToString(n), "");
    assert "-" + NatToString(n) == "-" + NatToString(n) + "";
    ParseNumberOfDigits("-", NatToString(n), "");
  }

  /** Text without a digit gives `NaN`, so nothing is stored. */
  lemma BudgetWithoutDigits(text: string)
    requires forall i :: 0 <= i < |text| ==> !IsDigitOrDot(text[i])
    ensures ParseNumber(text).None?
  {
    KeepDigitsAndDotsNone(text);
  }

  // ---------------------------------------------------------------------------
  // What each step renders

  /** The panel under the progress header. */
  datatype Panel = ChooseDestination | EnterBudget | BudgetGuide | ChooseAccommodation | ChooseFlight | ChooseAddOns

  /** The panel rendered for `currentStep` and `context.budget`: the budget form while the
      budget is falsy (zero), its guide once it is positive. */
  function Shown(step: int, budget: real): Option<Panel> {
    if step == 1 then Some(ChooseDestination)
    else if step == 2 && budget == 0.0 then Some(EnterBudget)
    else if step == 2 && budget > 0.0 then Some(BudgetGuide)
    else if step == 3 then Some(ChooseAccommodation)
    else if step == 4 then Some(ChooseFlight)
    else if step == 5 then Some(ChooseAddOns)
    else None
  }

  /** The step number the rendered panel passes to `handleStepComplete`, if it has a control
      that completes. The budget form has none (it only submits the budget); the guide's
      "Find Accommodations" button exists only while no reveal is typing. */
  function Completion(step: int, budget: real, typing: bool): Option<int> {
    match Shown(step, budget)
    case Some(ChooseDestination) => Some(1)
    case Some(EnterBudget) => None
    case Some(BudgetGuide) => if typing then None else Some(2)
    case Some(ChooseAccommodation) => Some(3)
    case Some(ChooseFlight) => Some(4)
    case Some(ChooseAddOns) => Some(5)
    case None => None
  }

  /** Every rendered control passes its own step number, so completing moves one step on. */
  lemma CompletionPassesOwnStep(step: int, budget: real, typing: bool)
    ensures Completion(step, budget, typing).Some? ==> Completion(step, budget, typing) == Some(step)
    ensures Completion(step, budget, typing).Some? <==>
      (1 <= step <= 5 && (step == 2 ==> budget > 0.0 && !typing))
  {
  }

  /** The completions as the selectors are written: the destination and accommodation
      selectors define `handleConfirm`, the only caller of their `onComplete`, but none of
      their elements calls it, so their panels complete nothing. The other panels are as in
      `Completion`; the flight panel, which is not part of this model, counts as completing
      step 4 here, although as written it throws at render for want of its `flights` prop. */
  function CompletionAsWritten(step: int, budget: real, typing: bool): (r: Option<int>)
    ensures r.Some? ==> r == Completion(step, budget, typing)
    ensures r.Some? <==> Completion(step, budget, typing).Some? && step != 1 && step != 3
  {
    match Shown(step, budget)
    case Some(ChooseDestination) => None
    case Some(ChooseAccommodation) => None
    case _ => Completion(step, budget, typing)
  }

  /** As written, the destination and accommodation steps are never left, whatever the
      budget and the reveal; with their confirm wired, as `Completion` has it, both are. */
  lemma StepsOneAndThreeNeverLeft(budget: real, typing: bool)
    ensures CompletionAsWritten(1, budget, typing) == None
    ensures CompletionAsWritten(3, budget, typing) == None
    ensures Completion(1, budget, typing) == Some(1) && Completion(3, budget, typing) == Some(3)
  {
  }

  /** The budget step can be left only with a positive budget and no reveal running: the
      handler checks nothing, the button is simply not rendered otherwise. */
  lemma BudgetStepGate(budget: real, typing: bool)
    ensures Completion(2, budget, typing).Some? <==> budget > 0.0 && !typing
  {
  }

  /** A negative budget at step 2 renders neither the form nor the guide. */
  lemma NegativeBudgetShowsNothing(budget: real)
    ensures Shown(2, budget).None? <==> budget < 0.0
  {
  }

  /** `[1, 2, 3, 4, 5].map(step => step <= currentStep)`: which progress dots are highlighted. */
  function ProgressDots(step: int): (r: seq<bool>)
    ensures |r| == 5
  {
    seq(5, k => k + 1 <= step)
  }

  /** Dot k (counting from 1) is lit exactly when k is at most the step, so the lit dots are
      a prefix of the row and a later step lights at least as many. */
  lemma ProgressDotsPrefix(step: int, later: int)
    requires step <= later
    ensures forall k :: 0 <= k < 5 ==> (ProgressDots(step)[k] <==> k + 1 <= step)
    ensures forall j, k :: 0 <= j <= k < 5 && ProgressDots(step)[k] ==> ProgressDots(step)[j]
    ensures forall k :: 0 <= k < 5 && ProgressDots(step)[k] ==> ProgressDots(later)[k]
  {
  }

  /** The header's rotating titles. */
  const SlidingTexts := ["Plan Your Trip", "Book a Flight", "Find Hotels", "Explore Destinations",
    "Book Activities", "Get Travel Tips"]

  /** `(prev + 1) % slidingTexts.length`. */
  function NextTitleIndex(i: nat): (r: nat)
    ensures r < |SlidingTexts|
  {
    (i + 1) % |SlidingTexts|
  }

  /** Six ticks of the title interval bring the header back to the same title. */
  lemma TitleCycle(i: nat)
    requires i < |SlidingTexts|
    ensures NextTitleIndex(NextTitleIndex(NextTitleIndex(NextTitleIndex(NextTitleIndex(NextTitleIndex(i)))))) == i
  {
  }

  // ---------------------------------------------------------------------------
  // The component's state

  class Planner {
    var context: TravelContext
    var currentStep: int
    var aiResponse: Option<AIResponse>
    /** The budget input's text. */
    var budgetText: string
    /** `currentTextIndex`, the header title on screen. */
    var textIndex: nat
    /** The budget guide's reveal: `displayedGuide` and `isTyping`. */
    const guide: TypedReveal.Reveal

    constructor ()
      ensures context == InitialContext && currentStep == 1 && aiResponse == None
      ensures budgetText == "" && textIndex == 0
      ensures fresh(guide) && guide.Valid() && guide.displayed == "" && !guide.typing
    {
      context := InitialContext;
      currentStep := 1;
      aiResponse := None;
      budgetText := "";
      textIndex := 0;
      guide := new TypedReveal.Reveal();
    }

    /** `handleContextUpdate`, the `onUpdate` of every step. */
    method ContextUpdate(p: ContextPatch)
      modifies this
      ensures context == Merge(old(context), p)
      ensures currentStep == old(currentStep) && aiResponse == old(aiResponse)
      ensures budgetText == old(budgetText) && textIndex == old(textIndex)
    {
      context := Merge(context, p);
    }

    /** `handleStepComplete(step)`: no guard, the step after `step`. */
    method StepComplete(step: int)
      modifies this
      ensures currentStep == step + 1
      ensures context == old(context) && aiResponse == old(aiResponse)
      ensures budgetText == old(budgetText) && textIndex == old(textIndex)
    {
      currentStep := step + 1;
    }

    /** `handleAIResponse`. */
    method ReceiveAIResponse(response: AIResponse)
      modifies this
      ensures aiResponse == Some(response)
      ensures context == old(context) && currentStep == old(currentStep)
      ensures budgetText == old(budgetText) && textIndex == old(textIndex)
    {
      aiResponse := Some(response);
    }

    /** The budget input's `onChange`. */
    method TypeBudget(text: string)
      modifies this
      ensures budgetText == text
      ensures context == old(context) && currentStep == old(currentStep) && aiResponse == old(aiResponse)
      ensures textIndex == old(textIndex)
    {
      budgetText := text;
    }

    /** `handleBudgetSubmit`: a parsed budget is merged into the context and its guide starts
      typing; `NaN` changes nothing. */
    method BudgetSubmit()
      modifies this, guide
      ensures ParseNumber(old(budgetText)).None? ==> context == old(context) && unchanged(guide)
      ensures ParseNumber(old(budgetText)).Some? ==>
        context == Merge(old(context), EmptyPatch.(budget := Some(ParseNumber(old(budgetText)).value))) &&
        context.budget >= 0.0 &&
        guide.Valid() && guide.guide == GuideText(old(context).destination, context.budget) &&
        guide.displayed == "" && guide.typing
      ensures currentStep == old(currentStep) && aiResponse == old(aiResponse)
      ensures budgetText == old(budgetText) && textIndex == old(textIndex)
    {
      var numericBudget := ParseNumber(budgetText);
      if numericBudget.Some? {
        var destination := context.destination;
        ContextUpdate(EmptyPatch.(budget := Some(numericBudget.value)));
        guide.Start(GuideText(destination, numericBudget.value));
      }
    }

    /** A click on the completing control of the panel on screen, when it has one. */
    method CompleteShown()
      modifies this
      ensures var c := Completion(old(currentStep), old(context).budget, guide.typing);
        currentStep == (if c.Some? then old(currentStep) + 1 else old(currentStep))
      ensures old(currentStep) == 2 && currentStep == 3 ==> context.budget > 0.0 && !guide.typing
      ensures context == old(context) && aiResponse == old(aiResponse)
      ensures budgetText == old(budgetText) && textIndex == old(textIndex)
    {
      var c := Completion(currentStep, context.budget, guide.typing);
      CompletionPassesOwnStep(currentStep, context.budget, guide.typing);
      if c.Some? {
        StepComplete(c.value);
      }
    }

    /** A click on the completing control of the panel on screen as the selectors are
        written: at the destination and accommodation steps nothing moves. */
    method CompleteShownAsWritten()
      modifies this
      ensures var c := CompletionAsWritten(old(currentStep), old(context).budget, guide.typing);
        currentStep == (if c.Some? then old(currentStep) + 1 else old(currentStep))
      ensures old(currentStep) == 1 || old(currentStep) == 3 ==> currentStep == old(currentStep)
      ensures context == old(context) && aiResponse == old(aiResponse)
      ensures budgetText == old(budgetText) && textIndex == old(textIndex)
    {
      var c := CompletionAsWritten(currentStep, context.budget, guide.typing);
      CompletionPassesOwnStep(currentStep, context.budget, guide.typing);
      if c.Some? {
        StepComplete(c.value);
      }
    }

    /** One tick of the 3 s title interval. */
    method NextTitle()
      modifies this
      ensures textIndex == NextTitleIndex(old(textIndex)) && textIndex < |SlidingTexts|
      ensures context == old(context) && currentStep == old(currentStep) && aiResponse == old(aiResponse)
      ensures budgetText == old(budgetText)
    {
      textIndex := NextTitleIndex(textIndex);
    }
  }
}
