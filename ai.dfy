/** src/lib/ai.ts: the shared `TravelContext` and `AIResponse` shapes, the canned
    `getAIResponse` lookup and `determineNextStep`. */
module Ai {
  import opened Wrappers
  import opened Text

  datatype Dates = Dates(start: Option<string>, end: Option<string>)

  datatype Preferences = Preferences(accommodation: string, activities: seq<string>, transportation: string)

  /** `TravelContext`. The optional members are `None` when absent. */
  datatype TravelContext = TravelContext(
    destination: string,
    dates: Dates,
    budget: real,
    preferences: Preferences,
    selectedAccommodation: Option<string>,
    selectedFlight: Option<string>,
    addOns: Option<seq<string>>)

  /** `Partial<TravelContext>`: each member is either absent (`None`) or a new value. */
  datatype ContextPatch = ContextPatch(
    destination: Option<string>,
    dates: Option<Dates>,
    budget: Option<real>,
    preferences: Option<Preferences>,
    selectedAccommodation: Option<Option<string>>,
    selectedFlight: Option<Option<string>>,
    addOns: Option<Option<seq<string>>>)

  const EmptyPatch := ContextPatch(None, None, None, None, None, None, None)

  /** The recommendations as the canned responses hold them at run time (an
      `accommodations` list rather than the declared `accommodation` object). */
  datatype Recommendations = Recommendations(
    accommodations: seq<string>, activities: Option<seq<string>>, transportation: seq<string>)

  datatype AIResponse = AIResponse(
    suggestions: seq<string>, recommendations: Recommendations, nextStep: Option<string>)

  const SelectAccommodationStep := "Select your " + "preferred " + "accommodation " + "from the " + "recommendations " + "above."
  const SelectDestinationStep := "Please select " + "a destination " + "to get " + "personalized " + "recommendations."

  const ParisResponse := AIResponse(
    [ "Visit the " + "Eiffel Tower " + "at sunset for " + "the best views",
      "Explore the " + "Louvre Museum " + "(book tickets " + "in advance)",
      "Take a Seine " + "River cruise",
      "Visit Notre-" + "Dame Cathedral",
      "Walk through " + "Montmartre" ],
    Recommendations(
      [ "Hotel in Le " + "Marais " + "district",
        "Boutique " + "hotel near " + "Champs-Élysées",
        "Apartment in " + "Saint-Germain-" + "des-Prés" ],
      Some([ "Wine tasting " + "in Montmartre",
             "Cooking class " + "in a local " + "kitchen",
             "Photography " + "tour of Paris" ]),
      [ "Metro pass " + "for unlimited " + "travel",
        "Bicycle " + "rental for " + "city " + "exploration",
        "Airport " + "transfer " + "service" ]),
    Some(SelectAccommodationStep))

  const TokyoResponse := AIResponse(
    [ "Visit Senso-" + "ji Temple in " + "Asakusa",
      "Explore " + "Shibuya " + "Crossing",
      "Shop in Ginza " + "district",
      "Visit Tokyo " + "Skytree",
      "Experience " + "Tsukiji Outer " + "Market" ],
    Recommendations(
      [ "Hotel in Shinjuku",
        "Ryokan in Asakusa",
        "Apartment in " + "Shibuya" ],
      Some([ "Sushi making class",
             "Tea ceremony " + "experience",
             "Robot " + "Restaurant " + "show" ]),
      [ "JR Pass for " + "city travel",
        "PASMO card " + "for public " + "transport",
        "Airport " + "limousine bus" ]),
    Some(SelectAccommodationStep))

  const DefaultResponse := AIResponse(
    [ "Research " + "local customs " + "and etiquette",
      "Check visa " + "requirements",
      "Get travel " + "insurance",
      "Download " + "offline maps",
      "Learn basic " + "local phrases" ],
    Recommendations(
      [ "Book " + "accommodations " + "in advance",
        "Consider " + "location and " + "accessibility",
        "Read recent " + "reviews" ],
      Some([ "Plan major " + "activities in " + "advance",
             "Leave room " + "for " + "spontaneous " + "exploration",
             "Check local " + "events " + "calendar" ]),
      [ "Research " + "local " + "transportation " + "options",
        "Book airport " + "transfers",
        "Consider " + "getting a " + "local SIM card" ]),
    Some(SelectDestinationStep))

  /** The own keys of `mockResponses` and their values. */
  const MockResponses: map<string, AIResponse> := map["paris" := ParisResponse, "tokyo" := TokyoResponse]

  /** The members of `Object.prototype` whose names are all lower case, so that a
      lower-cased destination can hit them: `mockResponses['constructor']` is the
      `Object` function and `mockResponses['__proto__']` is `Object.prototype`. */
  const PrototypeMembers: set<string> := {"constructor", "__proto__"}

  /** A value read from `mockResponses[key]`: one of its responses, or an inherited member. */
  datatype Lookup = Found(response: AIResponse) | Inherited(member: string)

  /** `getAIResponse` as written: the lower-cased destination indexes the plain object
      `mockResponses`, so inherited members count as hits. */
  function GetAIResponseAsWritten(message: string, context: TravelContext): (r: Lookup)
    ensures ToLower(context.destination) in PrototypeMembers ==>
      r == Inherited(ToLower(context.destination))
  {
    var destination := ToLower(context.destination);
    if destination != "" && destination in MockResponses then Found(MockResponses[destination])
    else if destination != "" && destination in PrototypeMembers then Inherited(destination)
    else Found(DefaultResponse)
  }

  /** The destination "Constructor" makes the lookup return the `Object` function
      instead of a response. */
  lemma ConstructorIsNotAResponse(context: TravelContext)
    requires context.destination == "Constructor"
    ensures GetAIResponseAsWritten("", context) == Inherited("constructor")
  {
    assert ToLower(context.destination) == "constructor";
  }

  /** `getAIResponse` as evidently intended: only the own keys of `mockResponses` are
      canned destinations; anything else, the empty destination included, gets the default. */
  function GetAIResponse(message: string, context: TravelContext): (r: AIResponse)
    ensures ToLower(context.destination) in MockResponses ==> r == MockResponses[ToLower(context.destination)]
    ensures ToLower(context.destination) !in MockResponses ==> r == DefaultResponse
    ensures r.recommendations.activities.Some?
  {
    var destination := ToLower(context.destination);
    if destination != "" && destination in MockResponses then MockResponses[destination]
    else DefaultResponse
  }

  /** The corrected lookup agrees with the written one on every destination that is not
      an inherited member name. */
  lemma GetAIResponseAgrees(message: string, context: TravelContext)
    requires ToLower(context.destination) !in PrototypeMembers
    ensures GetAIResponseAsWritten(message, context) == Found(GetAIResponse(message, context))
  {
  }

  /** The response depends on the destination only up to letter case, and never on the message. */
  lemma {:induction false} GetAIResponseCaseInsensitive(m1: string, c1: TravelContext, m2: string, c2: TravelContext)
    requires ToLower(c1.destination) == ToLower(c2.destination)
    ensures GetAIResponse(m1, c1) == GetAIResponse(m2, c2)
  {
  }

  /** 'Paris', 'PARIS' and 'paris' all get the Paris response. */
  lemma ParisInAnyCase(c1: TravelContext, c2: TravelContext, c3: TravelContext)
    requires c1.destination == "Paris" && c2.destination == "PARIS" && c3.destination == "paris"
    ensures GetAIResponse("", c1) == GetAIResponse("", c2) == GetAIResponse("", c3) == ParisResponse
  {
    assert ToLower("Paris") == "paris";
    assert ToLower("PARIS") == "paris";
    assert ToLower("paris") == "paris";
  }

  /** A destination without a canned response, the empty one included, gets the
      "Please select a destination" next step. */
  lemma DefaultNextStep(message: string, context: TravelContext)
    ensures GetAIResponse(message, context).nextStep == Some(SelectDestinationStep) <==>
      ToLower(context.destination) !in MockResponses
  {
  }

  /** JavaScript truthiness of an optional string member. */
  predicate Present(s: Option<string>) { s.Some? && s.value != "" }

  /** `determineNextStep`: the first missing piece of the plan, in wizard order.
      `addOns` counts as present whenever it is set, even to an empty list. */
  function DetermineNextStep(context: TravelContext, message: string): (r: string)
    ensures r == "destination" <==> context.destination == ""
    ensures r == "accommodation" <==> context.destination != "" && !Present(context.selectedAccommodation)
    ensures r == "flight" <==>
      context.destination != "" && Present(context.selectedAccommodation) && !Present(context.selectedFlight)
    ensures r == "addons" <==>
      context.destination != "" && Present(context.selectedAccommodation) &&
      Present(context.selectedFlight) && context.addOns.None?
    ensures r == "summary" <==>
      context.destination != "" && Present(context.selectedAccommodation) &&
      Present(context.selectedFlight) && context.addOns.Some?
  {
    if context.destination == "" then "destination"
    else if !Present(context.selectedAccommodation) then "accommodation"
    else if !Present(context.selectedFlight) then "flight"
    else if context.addOns.None? then "addons"
    else "summary"
  }
}
