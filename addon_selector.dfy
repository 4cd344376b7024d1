/** src/components/dashboard/AddOnSelector.tsx: the add-on switches, their price total,
    the confirm callback and the activities form. */
module AddOnSelector {
  import opened Wrappers
  import opened Text
  import Ai

  datatype AddOn = AddOn(id: string, name: string, price: real, description: string, icon: string)

  /** The members every plain object inherits from `Object.prototype`. Each is a function,
      except `__proto__`, which reads as the prototype object; all of them are truthy. */
  const ObjectMembers: set<string> := {
    "constructor", "toString", "toLocaleString", "valueOf", "hasOwnProperty", "isPrototypeOf",
    "propertyIsEnumerable", "__proto__", "__defineGetter__", "__defineSetter__",
    "__lookupGetter__", "__lookupSetter__"}

  /** `selectedAddOns[id]` read as a flag. An own key gives its flag. An absent key reads
      `undefined`, which is false, unless it names an inherited member, which is truthy. */
  predicate IsSelected(selected: map<string, bool>, id: string) {
    if id in selected then selected[id] else id in ObjectMembers
  }

  /** `{ ...prev, [id]: !prev[id] }`. */
  function Toggled(selected: map<string, bool>, id: string): map<string, bool> {
    selected[id := !IsSelected(selected, id)]
  }

  /** A toggle flips the flag of `id`, adds `id` to the keys, and leaves every other key
      with its value. */
  lemma ToggleFlipsOnlyId(selected: map<string, bool>, id: string)
    ensures IsSelected(Toggled(selected, id), id) == !IsSelected(selected, id)
    ensures Toggled(selected, id).Keys == selected.Keys + {id}
    ensures forall k :: k in selected && k != id ==> Toggled(selected, id)[k] == selected[k]
  {
  }

  /** Toggling twice restores the flag of `id`; the map itself comes back only when `id`
      was already a key, since an absent key returns as an explicit flag. */
  lemma ToggleTwice(selected: map<string, bool>, id: string)
    ensures IsSelected(Toggled(Toggled(selected, id), id), id) == IsSelected(selected, id)
    ensures Toggled(Toggled(selected, id), id) == selected[id := IsSelected(selected, id)]
    ensures id in selected ==> Toggled(Toggled(selected, id), id) == selected
  {
  }

  /** `addOns.filter(a => selectedAddOns[a.id]).reduce((sum, a) => sum + a.price, 0)`. */
  function TotalPrice(addOns: seq<AddOn>, selected: map<string, bool>): real {
    if addOns == [] then 0.0
    else
      var last := addOns[|addOns| - 1];
      TotalPrice(addOns[..|addOns| - 1], selected) + (if IsSelected(selected, last.id) then last.price else 0.0)
  }

  /** With nothing selected the total is 0. */
  lemma {:induction false} NothingSelectedCostsNothing(addOns: seq<AddOn>, selected: map<string, bool>)
    requires forall i :: 0 <= i < |addOns| ==> !IsSelected(selected, addOns[i].id)
    ensures TotalPrice(addOns, selected) == 0.0
  {
    if addOns != [] {
      NothingSelectedCostsNothing(addOns[..|addOns| - 1], selected);
    }
  }

  /** Before any toggle, the total is 0 exactly when no add-on is both priced and named
      after an inherited member: those are counted although nobody selected them. */
  lemma {:induction false} UntoggledTotal(addOns: seq<AddOn>)
    requires forall i :: 0 <= i < |addOns| ==> addOns[i].price >= 0.0
    ensures TotalPrice(addOns, map[]) >= 0.0
    ensures TotalPrice(addOns, map[]) == 0.0 <==>
      forall i :: 0 <= i < |addOns| && addOns[i].id in ObjectMembers ==> addOns[i].price == 0.0
  {
    if addOns != [] {
      var init := addOns[..|addOns| - 1];
      UntoggledTotal(init);
      assert forall i :: 0 <= i < |init| ==> init[i] == addOns[i];
    }
  }

  /** An add-on called "toString" is counted and shown checked before anyone touches it,
      and its first toggle switches it off. */
  lemma InheritedIdStartsSelected(a: AddOn)
    requires a.id == "toString"
    ensures IsSelected(map[], a.id) && TotalPrice([a], map[]) == a.price
    ensures !IsSelected(Toggled(map[], a.id), a.id) && TotalPrice([a], Toggled(map[], a.id)) == 0.0
  {
    assert [a][..0] == [];
  }

  /** The total only depends on the flags of the listed ids. */
  lemma {:induction false} TotalPriceOtherKeys(addOns: seq<AddOn>, selected: map<string, bool>, id: string, flag: bool)
    requires forall i :: 0 <= i < |addOns| ==> addOns[i].id != id
    ensures TotalPrice(addOns, selected[id := flag]) == TotalPrice(addOns, selected)
  {
    if addOns != [] {
      TotalPriceOtherKeys(addOns[..|addOns| - 1], selected, id, flag);
    }
  }

  /** With distinct ids, toggling the add-on at index k adds its price to the total when
      it was off and takes it away when it was on. */
  lemma {:induction false} ToggleMovesTotalByPrice(addOns: seq<AddOn>, selected: map<string, bool>, k: nat)
    requires k < |addOns|
    requires forall i, j :: 0 <= i < j < |addOns| ==> addOns[i].id != addOns[j].id
    ensures TotalPrice(addOns, Toggled(selected, addOns[k].id)) ==
      TotalPrice(addOns, selected) + (if IsSelected(selected, addOns[k].id) then -addOns[k].price else addOns[k].price)
  {
    var id := addOns[k].id;
    var init := addOns[..|addOns| - 1];
    if k == |addOns| - 1 {
      TotalPriceOtherKeys(init, selected, id, !IsSelected(selected, id));
    } else {
      ToggleMovesTotalByPrice(init, selected, k);
    }
  }

  // ---------------------------------------------------------------------------
  // handleSubmit

  /** `activities.map(activity => activity.name)` as written: the canned activities are
      strings, and a string has no `name`, so every entry is `undefined` (`None`). */
  function ActivityNamesAsWritten(activities: seq<string>): (r: seq<Option<string>>)
    ensures |r| == |activities|
  {
    seq(|activities|, i => None)
  }

  /** The written mapping throws away every activity the response recommends. */
  lemma ActivityNamesAsWrittenAreUndefined(activities: seq<string>)
    requires activities != []
    ensures forall i :: 0 <= i < |activities| ==> ActivityNamesAsWritten(activities)[i] != Some(activities[i])
    ensures ActivityNamesAsWritten(activities)[0] == None
  {
  }

  /** The evidently intended mapping: the activity texts themselves. */
  function ActivityNames(activities: seq<string>): (r: seq<string>)
    ensures |r| == |activities|
    ensures forall i :: 0 <= i < |r| ==> r[i] == activities[i]
  {
    activities
  }

  /** The preference patch of a response with activities: the activities replaced, the
      accommodation and transportation kept from the context. */
  function ActivitiesPatch(context: Ai.TravelContext, activities: seq<string>): Ai.ContextPatch {
    Ai.EmptyPatch.(preferences := Some(context.preferences.(activities := ActivityNames(activities))))
  }

  /** The patch replaces only the activities inside `preferences`, and they are the
      recommended ones, in their order. */
  lemma ActivitiesPatchKeepsPreferences(context: Ai.TravelContext, activities: seq<string>)
    ensures var p := ActivitiesPatch(context, activities);
      p.preferences.Some? && p.preferences.value.activities == activities &&
      p.preferences.value.accommodation == context.preferences.accommodation &&
      p.preferences.value.transportation == context.preferences.transportation &&
      p.destination.None? && p.dates.None? && p.budget.None? &&
      p.selectedAccommodation.None? && p.selectedFlight.None? && p.addOns.None?
  {
  }

  /** What a submit hands to the parent. */
  datatype SubmitOutcome = SubmitOutcome(response: Ai.AIResponse, patch: Option<Ai.ContextPatch>, completes: bool)

  /** The outcome of a submit: the response is reported, and only a response with
      activities patches the preferences and completes the step. */
  function SubmitResult(message: string, context: Ai.TravelContext): SubmitOutcome {
    var response := Ai.GetAIResponse(message, context);
    match response.recommendations.activities
    case Some(activities) => SubmitOutcome(response, Some(ActivitiesPatch(context, activities)), true)
    case None => SubmitOutcome(response, None, false)
  }

  /** With the corrected lookup and mapping, every canned response has activities, so a
      submit always patches and completes, with the destination's recommended activities. */
  lemma SubmitAlwaysCompletes(message: string, context: Ai.TravelContext)
    ensures SubmitResult(message, context).completes
    ensures SubmitResult(message, context).patch ==
      Some(ActivitiesPatch(context, Ai.GetAIResponse(message, context).recommendations.activities.value))
    ensures SubmitResult(message, context).response == Ai.GetAIResponse(message, context)
  {
  }

  /** The preferences a written submit sends: the activities are what `.name` gives. */
  datatype PreferencesAsWritten = PreferencesAsWritten(
    accommodation: string, activities: seq<Option<string>>, transportation: string)

  /** What a written submit hands to the parent: the value `getAIResponse` resolved to
      (reported to `onAIResponse` before anything else), the preferences patch if any,
      whether `onComplete` ran, and whether the try block threw. */
  datatype SubmitOutcomeAsWritten = SubmitOutcomeAsWritten(
    reported: Ai.Lookup, patch: Option<PreferencesAsWritten>, completes: bool, threw: bool)

  /** `handleSubmit` as written: an inherited member is reported, then reading
      `.recommendations.activities` off it throws and the catch only logs; a response with
      activities patches them through the written mapping and completes. */
  function SubmitResultAsWritten(message: string, context: Ai.TravelContext): (r: SubmitOutcomeAsWritten)
    ensures r.reported == Ai.GetAIResponseAsWritten(message, context)
    ensures r.threw <==> r.reported.Inherited?
    ensures r.completes <==> r.patch.Some?
    ensures r.threw ==> !r.completes
  {
    match Ai.GetAIResponseAsWritten(message, context)
    case Inherited(member) => SubmitOutcomeAsWritten(Ai.Inherited(member), None, false, true)
    case Found(response) =>
      match response.recommendations.activities
      case Some(activities) =>
        var prefs := PreferencesAsWritten(context.preferences.accommodation,
          ActivityNamesAsWritten(activities), context.preferences.transportation);
        SubmitOutcomeAsWritten(Ai.Found(response), Some(prefs), true, false)
      case None => SubmitOutcomeAsWritten(Ai.Found(response), None, false, false)
  }

  /** A destination such as "Constructor" makes the written submit throw: no patch, no
      completion. */
  lemma SubmitAsWrittenThrowsOnInherited(message: string, context: Ai.TravelContext)
    requires ToLower(context.destination) in Ai.PrototypeMembers
    ensures var r := SubmitResultAsWritten(message, context);
      r.threw && r.patch.None? && !r.completes &&
      r.reported == Ai.Inherited(ToLower(context.destination))
  {
  }

  /** Off the inherited names the written and the corrected submit agree exactly: the same
      response, the same completion, the same accommodation and transportation, and the
      corrected activities each read as `undefined`. */
  lemma SubmitAsWrittenAgrees(message: string, context: Ai.TravelContext)
    requires ToLower(context.destination) !in Ai.PrototypeMembers
    ensures var w := SubmitResultAsWritten(message, context);
      var c := SubmitResult(message, context);
      w.reported == Ai.Found(c.response) && !w.threw && w.completes == c.completes &&
      c.patch.Some? && c.patch.value.preferences.Some? &&
      var p := c.patch.value.preferences.value;
      w.patch == Some(PreferencesAsWritten(p.accommodation, ActivityNamesAsWritten(p.activities), p.transportation))
  {
    Ai.GetAIResponseAgrees(message, context);
    SubmitAlwaysCompletes(message, context);
  }

  /** As written, a submit for Paris completes with three activities, none of them a text. */
  lemma ParisSubmitLosesActivities(message: string, context: Ai.TravelContext)
    requires context.destination == "Paris"
    ensures var w := SubmitResultAsWritten(message, context);
      w.completes && w.patch.Some? && |w.patch.value.activities| == 3 &&
      forall i :: 0 <= i < 3 ==> w.patch.value.activities[i] == None
  {
    assert ToLower("Paris") == "paris";
  }

  // ---------------------------------------------------------------------------
  // The component's state

  class Picker {
    var selectedAddOns: map<string, bool>
    var loading: bool
    var message: string

    constructor ()
      ensures selectedAddOns == map[] && !loading && message == ""
    {
      selectedAddOns := map[];
      loading := false;
      message := "";
    }

    /** `handleAddOnToggle`. */
    method Toggle(id: string)
      modifies this
      ensures selectedAddOns == Toggled(old(selectedAddOns), id)
      ensures loading == old(loading) && message == old(message)
    {
      selectedAddOns := selectedAddOns[id := !IsSelected(selectedAddOns, id)];
    }

    /** `totalPrice` for the add-ons of the props. */
    function Total(addOns: seq<AddOn>): real
      reads this
    {
      TotalPrice(addOns, selectedAddOns)
    }

    /** `handleConfirm`: the selection map, as it is, for `onSelect`. */
    method Confirm() returns (selection: map<string, bool>)
      ensures selection == selectedAddOns
    {
      selection := selectedAddOns;
    }

    /** The textarea's `onChange`. */
    method Type(text: string)
      modifies this
      ensures message == text && selectedAddOns == old(selectedAddOns) && loading == old(loading)
    {
      message := text;
    }

    /** The submit button is disabled while loading and while the message is blank. */
    predicate CanSubmit()
      reads this
    {
      !loading && !IsBlank(message)
    }

    /** `handleSubmit` with the corrected lookup and mapping: loading while the canned lookup
      runs, then the outcome for the parent, and loading is off again whatever happened. */
    method Submit(context: Ai.TravelContext) returns (outcome: SubmitOutcome)
      modifies this
      ensures outcome == SubmitResult(old(message), context)
      ensures !loading && selectedAddOns == old(selectedAddOns) && message == old(message)
    {
      loading := true;
      var response := Ai.GetAIResponse(message, context);
      if response.recommendations.activities.Some? {
        outcome := SubmitOutcome(response, Some(ActivitiesPatch(context, response.recommendations.activities.value)), true);
      } else {
        outcome := SubmitOutcome(response, None, false);
      }
      loading := false;
    }

    /** `handleSubmit` as written: the `finally` turns loading off whether the try block
        completed or threw. */
    method SubmitAsWritten(context: Ai.TravelContext) returns (outcome: SubmitOutcomeAsWritten)
      modifies this
      ensures outcome == SubmitResultAsWritten(old(message), context)
      ensures !loading && selectedAddOns == old(selectedAddOns) && message == old(message)
    {
      loading := true;
      var found := Ai.GetAIResponseAsWritten(message, context);
      if found.Inherited? {
        outcome := SubmitOutcomeAsWritten(found, None, false, true);
      } else if found.response.recommendations.activities.Some? {
        var prefs := PreferencesAsWritten(context.preferences.accommodation,
          ActivityNamesAsWritten(found.response.recommendations.activities.value),
          context.preferences.transportation);
        outcome := SubmitOutcomeAsWritten(found, Some(prefs), true, false);
      } else {
        outcome := SubmitOutcomeAsWritten(found, None, false, false);
      }
      loading := false;
    }
  }
}
