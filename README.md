# planibi travel planner: a verified model of its planning logic

planibi is a Next.js travel planner. A wizard takes the traveller through five steps: a
destination, a budget, an accommodation, a flight and add-ons. A summary of the trip's
cost sits beside the wizard. Each step is a React component that chats with the user,
looks data up, and sends a patch of the shared `TravelContext` to the wizard. This project
models that logic in Dafny and proves what it promises:

- the destination step: three scrapers, the merge-by-key of their lists, the transform
  into display records, the fallback to three mock destinations, and the acknowledgement
  test that routes each chat message (`DestinationSelector`);
- the accommodation step: the Booking.com transform, the budget filter, the mock list,
  the budget-tier reply and the selection patch (`AccommodationSelector`);
- the wizard: the shallow merge of context patches, the step counter, budget parsing, and
  which panel and which completing control each step renders (`TravelPlanner`);
- the cost arithmetic: the trip total and remaining budget (`TripSummary`), the add-on
  switches and their price sum (`AddOnSelector`);
- the canned AI lookup and the next-step decision of `src/lib/ai.ts` (`Ai`);
- the dashboard chat, which extracts a budget, dates and a destination from each message
  with three regular expressions (`DashboardChat`);
- the welcome carousel (`WelcomeScreen`), the stand-alone chat with attachments
  (`ChatInterface`), and the Redux `travel` slice (`TravelSlice`).

The shared modules are:

- `Wrappers`: Option, the outcome of a `fetch`, and the two chat roles.
- `Text`: the JavaScript string built-ins that the core uses. These are `trim`,
  `toLowerCase`, `startsWith`, `split`, `slice`, the digit filter `replace(/[^0-9.]/g, '')`,
  `parseFloat`, `Math.round` and number printing.
- `Images`: the Unsplash URL shape.
- `TypedReveal`: the character-by-character "typed" reveal. The destination step, the
  accommodation step and the wizard each run this same interval loop.

Each component's state lives in a class. Its fields are the component's `useState` values,
and each event handler is a method with a `modifies` clause. Each handler is proved against
a function of the old state. The lemmas then state what the source promises about that
function. Pure code, such as lookups, merges, filters and regular expressions, becomes
functions, with lemmas about them. A network response, a timer firing and a user event are
inputs: a `FetchOutcome` parameter, a `Tick` / `Reply` / `Complete` method call, or a
method argument.

## Model

| member | source | states |
|---|---|---|
| Text.TrimStart | src/components/dashboard/DestinationSelector.tsx:329 | the result is a suffix of the input that is empty or starts with a non-whitespace character |
| Text.TrimStartCutsWhitespace | src/components/dashboard/DestinationSelector.tsx:329 | every character the trim removes from the front is whitespace |
| Text.TrimEnd | src/components/dashboard/DestinationSelector.tsx:329 | the result is a prefix of the input that is empty or ends with a non-whitespace character |
| Text.TrimEndCutsWhitespace | src/components/dashboard/DestinationSelector.tsx:329 | every character the trim removes from the back is whitespace |
| Text.Trim | src/components/dashboard/DestinationSelector.tsx:336 | `trim()` neither lengthens the text nor leaves whitespace at either end |
| Text.TrimKeepsCharacters | src/components/dashboard/DestinationSelector.tsx:336 | trimming adds no character that was not in the text |
| Text.BlankIffAllWhitespace | src/components/dashboard/DestinationSelector.tsx:334 | `!text.trim()` holds exactly when every character is whitespace |
| Text.ToLower | src/lib/ai.ts:93 | `toLowerCase()` on ASCII: each ASCII capital becomes its small letter in place, every other character is kept |
| Text.BeforeFirst | src/components/dashboard/DestinationSelector.tsx:525 | `split(c)[0]` is the prefix before the first `c`, and it holds no `c` |
| Text.BeforeFirstAbsent | src/components/dashboard/DestinationSelector.tsx:525 | a text without the separator is its own first part |
| Text.Take | src/components/dashboard/DestinationSelector.tsx:416 | `slice(0, n)` is the prefix of length min(n, length) |
| Text.LeadingDigits | src/components/dashboard/ChatInterface.tsx:81 | the greedy `\d+` run is the longest digit prefix: the next character is not a digit |
| Text.LeadingDigitsOfDigits | src/components/dashboard/ChatInterface.tsx:81 | an all-digit text is one whole digit run |
| Text.NatToString | src/components/dashboard/AccommodationSelector.tsx:291 | a whole number prints as a non-empty string of digits |
| Text.NatToStringValue | src/components/dashboard/AccommodationSelector.tsx:291 | the printed digits read back as the number |
| Text.KeepDigitsAndDots | src/components/dashboard/AccommodationSelector.tsx:302 | `replace(/[^0-9.]/g, '')` leaves only digits and dots and never lengthens the text |
| Text.KeepDigitsAndDotsAppend | src/components/dashboard/AccommodationSelector.tsx:302 | the filter works character by character: filtering a concatenation concatenates the filtered parts |
| Text.KeepDigitsAndDotsDigits | src/components/dashboard/AccommodationSelector.tsx:302 | digits pass the filter unchanged |
| Text.KeepDigitsAndDotsNone | src/components/dashboard/TravelPlanner.tsx:61 | text without digits and dots is removed completely |
| Text.ParseFloat | src/components/dashboard/TravelPlanner.tsx:61 | `parseFloat` of a digit-and-dot string is never negative |
| Text.ParseFloatNaN | src/components/dashboard/TravelPlanner.tsx:61-62 | `parseFloat` gives NaN exactly when the text starts with neither a digit nor a dot and a digit |
| Text.ParseFloatDigits | src/components/dashboard/TravelPlanner.tsx:61 | a non-empty digit string parses to its decimal value |
| Text.ParseNumber | src/components/dashboard/TravelPlanner.tsx:61 | the parse of the budget form and of the price filter never yields a negative number |
| Text.ParseNumberOfDigits | src/components/dashboard/AccommodationSelector.tsx:302 | a text whose only digits and dots form one digit run parses to that run's value |
| Text.Round | src/components/dashboard/AccommodationSelector.tsx:291 | `Math.round` lands within half a unit of its argument, with halves rounded up |
| DestinationSelector.Scrape | src/components/dashboard/DestinationSelector.tsx:196-229 | an ok response gives its body; a non-ok response or a thrown fetch gives `[]`, and no error escapes |
| DestinationSelector.KeysOfSnoc | src/components/dashboard/DestinationSelector.tsx:515 | appending a record adds exactly its `name + country` key to the key set |
| DestinationSelector.FirstIndexOf | src/components/dashboard/DestinationSelector.tsx:513-516 | the position found holds the key, and no earlier record has it |
| DestinationSelector.LastWithKey | src/components/dashboard/DestinationSelector.tsx:513-516 | there is a last record with a key exactly when some record has that key |
| DestinationSelector.MapOfEntries | src/components/dashboard/DestinationSelector.tsx:514-516 | the `Map` built from the entries lists each stored key once and stores a value for each listed key |
| DestinationSelector.FirstIndexOfSnoc | src/components/dashboard/DestinationSelector.tsx:514-516 | a known key keeps its first position after one more record; a new key takes the last position |
| DestinationSelector.MapOfEntriesKeys | src/components/dashboard/DestinationSelector.tsx:514-516 | the map holds exactly the keys of the input, at most one per record |
| DestinationSelector.MapOfEntriesValues | src/components/dashboard/DestinationSelector.tsx:514-516 | each key holds the last record with that key: a later duplicate overwrites |
| DestinationSelector.MapOfEntriesOrder | src/components/dashboard/DestinationSelector.tsx:514-516 | keys are listed in the order of their first occurrence: a duplicate keeps the first position |
| DestinationSelector.MapValues | src/components/dashboard/DestinationSelector.tsx:514-516 | `Array.from(map.values())` lists the value of each key in key order |
| DestinationSelector.MergeKeysAligned | src/components/dashboard/DestinationSelector.tsx:513-516 | merged record j carries the map's j-th key and is that key's last record |
| DestinationSelector.MergeKeepsKeys | src/components/dashboard/DestinationSelector.tsx:513-516 | the merge keeps exactly the keys of the concatenated lists |
| DestinationSelector.MergeByKeySpec | src/components/dashboard/DestinationSelector.tsx:513-516 | one record per distinct plain `name + country` key, no longer than the input; each is its key's last occurrence, placed in first-occurrence order |
| DestinationSelector.MergeOfDistinct | src/components/dashboard/DestinationSelector.tsx:513-516 | a list without repeated keys comes out of the merge unchanged |
| DestinationSelector.MapOfDistinct | src/components/dashboard/DestinationSelector.tsx:514-516 | without repeated keys the map lists the keys in input order, each holding its record |
| DestinationSelector.ClimateShape | src/components/dashboard/DestinationSelector.tsx:525 | the climate holds no '(' and has no whitespace at either end; without '(' it is the trimmed summer text |
| DestinationSelector.BeforeFirstParenthesis | src/components/dashboard/DestinationSelector.tsx:525 | everything before the first '(' of `a + "(" + b` is `a` |
| DestinationSelector.ClimateOfLabelledRange | src/components/dashboard/DestinationSelector.tsx:525 | "Warm (20-25°C)"-style summer texts give the word before the parenthesis |
| DestinationSelector.ToDestination | src/components/dashboard/DestinationSelector.tsx:519-540 | the transform of one record throws (None) exactly when the record has no weather |
| DestinationSelector.ToDestinationCopies | src/components/dashboard/DestinationSelector.tsx:519-540 | name, country, description, image, type, highlights, best time and weather are copied; climate comes from the summer text, accommodation cost from `priceRange`; the other fields are the fixed placeholders |
| DestinationSelector.TransformAll | src/components/dashboard/DestinationSelector.tsx:519-540 | a transform that does not throw keeps the length of the merged list |
| DestinationSelector.TransformAllPointwise | src/components/dashboard/DestinationSelector.tsx:519-540 | each merged record maps to the destination at the same position |
| DestinationSelector.TransformAllThrows | src/components/dashboard/DestinationSelector.tsx:519-540 | the transform throws exactly when some merged record lacks its weather |
| DestinationSelector.FetchDestinations | src/components/dashboard/DestinationSelector.tsx:501-558 | `totalResults` is the length and `searchQuery` the query; the mock list when the transform throws, otherwise the pointwise transform of the merge |
| DestinationSelector.FallbackOnlyOnThrow | src/components/dashboard/DestinationSelector.tsx:547-554 | the three mock destinations come back if and only if the try block throws |
| DestinationSelector.EmptySourcesEmptyResult | src/components/dashboard/DestinationSelector.tsx:542-546 | three empty or failed sources give an empty result, not the mock list |
| DestinationSelector.ResultKeysDistinct | src/components/dashboard/DestinationSelector.tsx:513-546 | a non-fallback result has no two destinations with the same name and country and is no longer than the three lists |
| DestinationSelector.LowerTrimKeepsPrefix | src/components/dashboard/DestinationSelector.tsx:329 | lower-casing and trimming keep a leading lower-case word in front, whatever follows |
| DestinationSelector.AcknowledgementIsPrefixTest | src/components/dashboard/DestinationSelector.tsx:323-331 | any message that begins with one of the 15 phrases is an acknowledgement ("okinawa", "go on a safari") |
| DestinationSelector.PhraseInitial | src/components/dashboard/DestinationSelector.tsx:324-327 | every phrase starts with one of the letters o, y, s, g, c, t, n, a, p |
| DestinationSelector.OtherInitialIsASearch | src/components/dashboard/DestinationSelector.tsx:323-331 | a message whose lower-cased, trimmed text starts with any other character is a search |
| DestinationSelector.SendKeepsHistory | src/components/dashboard/DestinationSelector.tsx:333-432 | the chat log is append-only, and once a search has happened the searching flag never goes back to false |
| DestinationSelector.AcknowledgementKeepsHistory | src/components/dashboard/DestinationSelector.tsx:336-374 | the acknowledgement branch keeps the log as a prefix and leaves the conversation state as it was |
| DestinationSelector.SearchKeepsHistory | src/components/dashboard/DestinationSelector.tsx:377-431 | the search branch keeps the log as a prefix, sets the searching flag and stores the results |
| DestinationSelector.AcknowledgementAfterSearch | src/components/dashboard/DestinationSelector.tsx:343-358 | an acknowledgement after a search that found something is answered with the elaboration of the first destination found |
| DestinationSelector.AcknowledgementLastLine | src/components/dashboard/DestinationSelector.tsx:343-372 | the acknowledgement branch ends the log with the acknowledgement reply |
| DestinationSelector.AcknowledgementBeforeSearch | src/components/dashboard/DestinationSelector.tsx:359-372 | before any search an acknowledgement gets the five-category prompt |
| DestinationSelector.PromptClickSendsNothing | src/components/dashboard/DestinationSelector.tsx:460-463 | with an empty box the prompt chip, as written, only fills the box and sends nothing |
| DestinationSelector.PromptClickSendsQuery | src/components/dashboard/DestinationSelector.tsx:460-463 | the intended prompt click puts the trimmed query in the log right after the earlier lines |
| DestinationSelector.Selector.constructor | src/components/dashboard/DestinationSelector.tsx:232-258 | the log starts with the welcome line; empty input, no search, no results, no selection, no reveal |
| DestinationSelector.Selector.Type | src/components/dashboard/DestinationSelector.tsx:836 | typing sets the input and nothing else |
| DestinationSelector.Selector.Send | src/components/dashboard/DestinationSelector.tsx:333-432 | the new chat state is the send routing for the text and the awaited search result |
| DestinationSelector.Selector.Acknowledge | src/components/dashboard/DestinationSelector.tsx:336-374 | clears the input and appends the user line and then the acknowledgement reply |
| DestinationSelector.Selector.Search | src/components/dashboard/DestinationSelector.tsx:377-431 | the search branch with the result of `fetchDestinations` for the trimmed text |
| DestinationSelector.Selector.ShowSearch | src/components/dashboard/DestinationSelector.tsx:377-431 | sets the conversation state and results and appends the user line, the searching notice and the result reply |
| DestinationSelector.Selector.SendMessage | src/components/dashboard/DestinationSelector.tsx:837 | Enter or the send button sends the current input |
| DestinationSelector.Selector.PromptClickAsWritten | src/components/dashboard/DestinationSelector.tsx:460-463 | the box gets the query, but the send sees the previous input |
| DestinationSelector.Selector.PromptClick | src/components/dashboard/DestinationSelector.tsx:460-463 | the prompt's query is put in the box and sent |
| DestinationSelector.Selector.Select | src/components/dashboard/DestinationSelector.tsx:465-492 | remembers the destination, sends a patch with only the destination name, and restarts the guide reveal from '' |
| DestinationSelector.Selector.Confirm | src/components/dashboard/DestinationSelector.tsx:494-498 | the handler's body: `onComplete` is called exactly when a destination is selected. No element of the component calls the handler |
| TypedReveal.Reveal.constructor | src/components/dashboard/DestinationSelector.tsx:233-234 | the displayed guide starts empty and nothing is typing |
| TypedReveal.Reveal.Start | src/components/dashboard/DestinationSelector.tsx:466-468 | a new reveal shows '' with the typing flag on |
| TypedReveal.Reveal.Tick | src/components/dashboard/DestinationSelector.tsx:483-491 | a tick appends the next character of the guide while any remain, and otherwise switches typing off |
| TypedReveal.Frames | src/components/dashboard/TravelPlanner.tsx:77-86 | a full reveal shows one frame per character, each the guide's prefix one character longer, the last the whole guide |
| AccommodationSelector.FormatPriceParsesBack | src/components/dashboard/AccommodationSelector.tsx:291-303 | the filter's parse of `$<n>/night` reads back the absolute value of the rounded amount |
| AccommodationSelector.ToAccommodationDefaults | src/components/dashboard/AccommodationSelector.tsx:286-297 | keeps id, name and booking URL; prints the rounded price per night; `type` defaults to 'Hotel', rating to 0, and so on |
| AccommodationSelector.TransformAll | src/components/dashboard/AccommodationSelector.tsx:286-297 | the map keeps the length of the hotel list |
| AccommodationSelector.TransformAllPointwise | src/components/dashboard/AccommodationSelector.tsx:286-297 | each hotel maps to the record at the same position |
| AccommodationSelector.WithinBudgetIffSeven | src/components/dashboard/AccommodationSelector.tsx:300-304 | `price <= budget / 7` is exactly `7 * price <= budget` |
| AccommodationSelector.TransformedWithinBudget | src/components/dashboard/AccommodationSelector.tsx:291-304 | a transformed hotel passes exactly when seven nights at its rounded price fit the budget |
| AccommodationSelector.FilterByBudget | src/components/dashboard/AccommodationSelector.tsx:301-304 | the filter never lengthens the list |
| AccommodationSelector.FilterIsSubsequence | src/components/dashboard/AccommodationSelector.tsx:301-304 | the kept records are an order-preserving subsequence of the transformed list |
| AccommodationSelector.FilterKeepsExactly | src/components/dashboard/AccommodationSelector.tsx:301-304 | a record is kept if and only if it is in the input and within budget |
| AccommodationSelector.FilterKeepsAllWithin | src/components/dashboard/AccommodationSelector.tsx:301-304 | a list entirely within budget passes unchanged |
| AccommodationSelector.FilterDropsAllOver | src/components/dashboard/AccommodationSelector.tsx:301-304 | a list entirely over budget filters to the empty list |
| AccommodationSelector.MockShape | src/components/dashboard/AccommodationSelector.tsx:195-251 | four records with ids '1' to '4'; the resort is priced at `round(0.9 * luxury)` |
| AccommodationSelector.TierCaps | src/components/dashboard/AccommodationSelector.tsx:196-199 | the tier prices are capped at 500, 300 and 150 a night; they are 60/40/25 percent of the nightly budget up to trip budgets of 3500/0.6, 5250 and 4200, and the cap from there on |
| AccommodationSelector.MockPricesOrdered | src/components/dashboard/AccommodationSelector.tsx:197-243 | for a positive budget: lodge ≤ boutique ≤ grand hotel, and resort ≤ grand hotel |
| AccommodationSelector.RoundMonotonic | src/components/dashboard/AccommodationSelector.tsx:207 | `Math.round` never decreases |
| AccommodationSelector.FailureGivesMock | src/components/dashboard/AccommodationSelector.tsx:307-316 | the error text is set exactly on failure, and a failure always stores it with the mock list |
| AccommodationSelector.EmptyKeptAsIs | src/components/dashboard/AccommodationSelector.tsx:301-306 | a success whose hotels are all over budget stores `[]` with no error and no mock list |
| AccommodationSelector.SuccessKeepsFitting | src/components/dashboard/AccommodationSelector.tsx:283-306 | a success stores no error and exactly the transformed hotels within budget, in order |
| AccommodationSelector.FindTierFirst | src/components/dashboard/AccommodationSelector.tsx:148-150 | the tier found is the first range with `min ≤ budget ≤ max`; none is found exactly when no range holds the budget |
| AccommodationSelector.SharedBoundaryGoesToEarlierTier | src/components/dashboard/AccommodationSelector.tsx:64-78 | 100 in Paris is 'Budget', not 'Mid-range'; 150 in Bali is 'Mid-range' |
| AccommodationSelector.KnownDestinations | src/components/dashboard/AccommodationSelector.tsx:61-84 | only 'Bali' and 'Paris', spelled exactly so, have destination data |
| AccommodationSelector.ReplyPicksTier | src/components/dashboard/AccommodationSelector.tsx:143-161 | a known destination gets the advice of the first tier holding the budget ('Custom' if none); any other gets the generic reply |
| AccommodationSelector.SendAppendsTwo | src/components/dashboard/AccommodationSelector.tsx:132-166 | blank input changes nothing; other input appends the untrimmed user line and then one reply |
| AccommodationSelector.PromptClickSendsNothing | src/components/dashboard/AccommodationSelector.tsx:358-361 | with an empty box the written prompt click only fills the box; the intended one appends the query |
| AccommodationSelector.SelectionPatchKeepsPreferences | src/components/dashboard/AccommodationSelector.tsx:328 | the patch sets only `preferences`, and inside it only the accommodation name |
| AccommodationSelector.Selector.constructor | src/components/dashboard/AccommodationSelector.tsx:89-101 | loading, no records, no error, no selection, the welcome line in the log |
| AccommodationSelector.Selector.Refresh | src/components/dashboard/AccommodationSelector.tsx:253-322 | without a destination or a positive budget nothing changes; otherwise list and error come from the fetch, and loading ends false |
| AccommodationSelector.Selector.Type | src/components/dashboard/AccommodationSelector.tsx:521 | typing sets the input; the log, the list, the selection, `error` and `isLoading` stay as they were |
| AccommodationSelector.Selector.Send | src/components/dashboard/AccommodationSelector.tsx:132-166 | the new chat state is the send of the text with its delayed reply; the list, the selection, `error` and `isLoading` stay as they were |
| AccommodationSelector.Selector.SendMessage | src/components/dashboard/AccommodationSelector.tsx:522 | Enter or the send button sends the current input; the list, the selection, `error` and `isLoading` stay as they were |
| AccommodationSelector.Selector.PromptClickAsWritten | src/components/dashboard/AccommodationSelector.tsx:358-361 | the box gets the query, but the send sees the previous input; the list, the selection, `error` and `isLoading` stay as they were |
| AccommodationSelector.Selector.PromptClick | src/components/dashboard/AccommodationSelector.tsx:358-361 | the prompt's query is put in the box and sent; the list, the selection, `error` and `isLoading` stay as they were |
| AccommodationSelector.Selector.Select | src/components/dashboard/AccommodationSelector.tsx:324-350 | remembers the record, returns the selection patch and restarts the reveal from '' on the guide text, whose emoji are the characters the file holds; the chat, the list, `error` and `isLoading` stay as they were |
| AccommodationSelector.Selector.Confirm | src/components/dashboard/AccommodationSelector.tsx:352-356 | the handler's body: `onComplete` is called exactly when an accommodation is selected. No element of the component calls the handler |
| TravelPlanner.MergeEmpty | src/components/dashboard/TravelPlanner.tsx:47-49 | the empty patch changes nothing |
| TravelPlanner.MergeIdempotent | src/components/dashboard/TravelPlanner.tsx:47-49 | merging the same patch twice is merging it once |
| TravelPlanner.MergeThen | src/components/dashboard/TravelPlanner.tsx:47-49 | two updates in a row are one update in which the later keys win |
| TravelPlanner.MergeDisjointCommute | src/components/dashboard/TravelPlanner.tsx:47-49 | updates that set different keys commute |
| TravelPlanner.PreferencesReplacedWholesale | src/components/dashboard/TravelPlanner.tsx:47-49 | a `preferences` patch replaces the whole nested record and nothing else |
| TravelPlanner.DestinationChoiceSetsOnlyDestination | src/components/dashboard/TravelPlanner.tsx:47-49 | the destination step's patch changes only the destination |
| TravelPlanner.AccommodationChoiceKeepsTheRest | src/components/dashboard/TravelPlanner.tsx:47-49 | the accommodation patch changes only `preferences.accommodation` |
| TravelPlanner.BudgetParsesWholeDollars | src/components/dashboard/TravelPlanner.tsx:61-63 | "$n" and "-n" are both stored as n: the stored budget is never negative |
| TravelPlanner.BudgetWithoutDigits | src/components/dashboard/TravelPlanner.tsx:61-62 | text without digits or dots parses to NaN, so nothing is stored |
| TravelPlanner.CompletionPassesOwnStep | src/components/dashboard/TravelPlanner.tsx:127-244 | every completing control passes its own step number, and with the selectors' confirm wired steps 1 to 5 each have one, except the budget form and a budget guide that is still typing |
| TravelPlanner.CompletionAsWritten | src/components/dashboard/DestinationSelector.tsx:494-498 | as the selectors are written, a panel completes exactly when `Completion` says so and it is not step 1 or 3, and then with the same step |
| TravelPlanner.StepsOneAndThreeNeverLeft | src/components/dashboard/AccommodationSelector.tsx:352-356 | as written, the destination and accommodation panels complete nothing at any budget; with their confirm wired they complete their own step |
| TravelPlanner.BudgetStepGate | src/components/dashboard/TravelPlanner.tsx:189-207 | step 2 can be left exactly when the budget is positive and no reveal is running |
| TravelPlanner.NegativeBudgetShowsNothing | src/components/dashboard/TravelPlanner.tsx:136-189 | at step 2 neither the form nor the guide shows exactly when the budget is negative |
| TravelPlanner.ProgressDots | src/components/dashboard/TravelPlanner.tsx:110-119 | there are five progress dots |
| TravelPlanner.ProgressDotsPrefix | src/components/dashboard/TravelPlanner.tsx:110-119 | dot k is lit exactly when k ≤ the current step; the lit dots form a prefix and stay lit at later steps |
| TravelPlanner.NextTitleIndex | src/components/dashboard/TravelPlanner.tsx:42 | the title index stays within the six titles |
| TravelPlanner.TitleCycle | src/components/dashboard/TravelPlanner.tsx:12-19 | six title ticks come back to the same title |
| TravelPlanner.Planner.constructor | src/components/dashboard/TravelPlanner.tsx:22-38 | the initial context has destination '', null dates, budget 0 and empty preferences; the step is 1 |
| TravelPlanner.Planner.ContextUpdate | src/components/dashboard/TravelPlanner.tsx:47-49 | the context becomes the shallow merge of the patch, and nothing else changes |
| TravelPlanner.Planner.StepComplete | src/components/dashboard/TravelPlanner.tsx:51-53 | the step becomes s + 1, with no guard |
| TravelPlanner.Planner.ReceiveAIResponse | src/components/dashboard/TravelPlanner.tsx:55-57 | the response is stored and nothing else changes |
| TravelPlanner.Planner.TypeBudget | src/components/dashboard/TravelPlanner.tsx:167 | the budget text is set and nothing else changes |
| TravelPlanner.Planner.BudgetSubmit | src/components/dashboard/TravelPlanner.tsx:59-88 | NaN changes nothing; otherwise the non-negative budget is merged into the context and the guide reveal starts from '' |
| TravelPlanner.Planner.CompleteShown | src/components/dashboard/TravelPlanner.tsx:127-244 | with the selectors' confirm wired, a click on the panel's completing control advances one step; step 3 is reached from step 2 only with a positive budget and no reveal running |
| TravelPlanner.Planner.CompleteShownAsWritten | src/components/dashboard/TravelPlanner.tsx:127-244 | as written, the step moves as `CompletionAsWritten` says, and never from step 1 or 3 |
| TravelPlanner.Planner.NextTitle | src/components/dashboard/TravelPlanner.tsx:40-45 | the header advances to the next title, modulo six |
| TripSummary.CountSelected | src/components/dashboard/TripSummary.tsx:61-66 | no more add-ons are counted than there are entries |
| TripSummary.CalculateTotal | src/components/dashboard/TripSummary.tsx:51-70 | the running total equals the stay's price times nights, plus the flight price, plus 10 per selected add-on |
| TripSummary.SelectedOnly | src/components/dashboard/TripSummary.tsx:61-66 | an entry remains exactly when it is selected |
| TripSummary.SelectedOnlyAppend | src/components/dashboard/TripSummary.tsx:61-66 | the filter works entry by entry: filtering a join is joining the filtered parts, so every selected entry is kept in its order |
| TripSummary.UnselectedAddNothing | src/components/dashboard/TripSummary.tsx:61-66 | dropping the false entries leaves the count of charged add-ons as it is |
| TripSummary.UnselectedEntryFree | src/components/dashboard/TripSummary.tsx:61-66 | a false entry added anywhere leaves the count of charged add-ons as it is |
| TripSummary.TotalCostBounds | src/components/dashboard/TripSummary.tsx:51-70 | with non-negative prices the total is never negative, and each selected add-on adds 10 |
| TripSummary.Render | src/components/dashboard/TripSummary.tsx:13-73 | without a response the placeholder is rendered; otherwise the total and the remaining line |
| TripSummary.PlaceholderIgnoresContext | src/components/dashboard/TripSummary.tsx:13-40 | without a response the same placeholder shows whatever the context holds |
| TripSummary.RemainingLine | src/components/dashboard/TripSummary.tsx:171-178 | the remaining row shows exactly for a non-zero budget; it shows budget − total, styled negative exactly when the total exceeds the budget |
| AddOnSelector.ToggleFlipsOnlyId | src/components/dashboard/AddOnSelector.tsx:40-45 | a toggle flips the flag of `id` and leaves every other key with its value |
| AddOnSelector.ToggleTwice | src/components/dashboard/AddOnSelector.tsx:40-45 | toggling twice restores the flag; the map itself comes back only when the id was already a key |
| AddOnSelector.NothingSelectedCostsNothing | src/components/dashboard/AddOnSelector.tsx:51-53 | the total is 0 when no listed add-on reads as selected, an absent id named after an `Object.prototype` member reading as selected |
| AddOnSelector.UntoggledTotal | src/components/dashboard/AddOnSelector.tsx:36-53 | before any toggle the total is 0 exactly when every add-on whose id names an inherited member is free |
| AddOnSelector.InheritedIdStartsSelected | src/components/dashboard/AddOnSelector.tsx:40-53 | an add-on with id "toString" is counted before any toggle, and its first toggle switches it off |
| AddOnSelector.TotalPriceOtherKeys | src/components/dashboard/AddOnSelector.tsx:51-53 | the total depends only on the flags of the listed ids |
| AddOnSelector.ToggleMovesTotalByPrice | src/components/dashboard/AddOnSelector.tsx:40-53 | toggling an add-on moves the total by exactly its price, up when it was off and down when it was on |
| AddOnSelector.ActivityNamesAsWritten | src/components/dashboard/AddOnSelector.tsx:67-69 | the written mapping gives one entry per activity |
| AddOnSelector.ActivityNamesAsWrittenAreUndefined | src/components/dashboard/AddOnSelector.tsx:67-69 | no entry of the written mapping is its activity; the first is `undefined` |
| AddOnSelector.ActivityNames | src/components/dashboard/AddOnSelector.tsx:67-69 | the intended mapping gives the activity texts, in order |
| AddOnSelector.ActivitiesPatchKeepsPreferences | src/components/dashboard/AddOnSelector.tsx:64-71 | the patch replaces only `preferences.activities`, with the recommended activities |
| AddOnSelector.SubmitAlwaysCompletes | src/components/dashboard/AddOnSelector.tsx:60-73 | with the corrected lookup and mapping, every canned response has activities, so a submit always patches and completes |
| AddOnSelector.SubmitResultAsWritten | src/components/dashboard/AddOnSelector.tsx:55-79 | as written, the resolved value is reported; the submit throws exactly on an inherited member, and then neither patches nor completes |
| AddOnSelector.SubmitAsWrittenThrowsOnInherited | src/components/dashboard/AddOnSelector.tsx:59-75 | a destination such as "Constructor" makes the written submit throw, with no patch and no completion |
| AddOnSelector.SubmitAsWrittenAgrees | src/components/dashboard/AddOnSelector.tsx:55-79 | off the inherited names, the written and corrected submits agree exactly, except that each activity reads `undefined` |
| AddOnSelector.ParisSubmitLosesActivities | src/components/dashboard/AddOnSelector.tsx:63-72 | as written, a Paris submit completes with three activities, all `undefined` |
| AddOnSelector.Picker.constructor | src/components/dashboard/AddOnSelector.tsx:36-38 | nothing is selected, not loading, empty message |
| AddOnSelector.Picker.Toggle | src/components/dashboard/AddOnSelector.tsx:40-45 | the selection becomes the toggled map, and nothing else changes |
| AddOnSelector.Picker.Confirm | src/components/dashboard/AddOnSelector.tsx:47-49 | `onSelect` gets the selection map unchanged |
| AddOnSelector.Picker.Type | src/components/dashboard/AddOnSelector.tsx:172 | the message is set and nothing else changes |
| AddOnSelector.Picker.Submit | src/components/dashboard/AddOnSelector.tsx:55-79 | the corrected submit: the outcome is the response and, when it has activities, the activities patch and completion; `loading` ends false |
| AddOnSelector.Picker.SubmitAsWritten | src/components/dashboard/AddOnSelector.tsx:55-79 | the written submit: the outcome of `SubmitResultAsWritten`, and `loading` ends false even when the try block throws |
| Ai.GetAIResponseAsWritten | src/lib/ai.ts:93-96 | a lower-cased destination that names an inherited member returns that member, not a response |
| Ai.ConstructorIsNotAResponse | src/lib/ai.ts:93-96 | the destination "Constructor" returns the `Object` function |
| Ai.GetAIResponse | src/lib/ai.ts:91-126 | an own key of the lower-cased destination gives its canned response; anything else, the empty destination included, gives the default; activities are always present |
| Ai.GetAIResponseAgrees | src/lib/ai.ts:93-96 | the corrected lookup agrees with the written one on every other destination |
| Ai.GetAIResponseCaseInsensitive | src/lib/ai.ts:91-126 | the response depends on the destination only up to letter case, and never on the message |
| Ai.ParisInAnyCase | src/lib/ai.ts:93-96 | 'Paris', 'PARIS' and 'paris' all give the Paris response |
| Ai.DefaultNextStep | src/lib/ai.ts:98-125 | the "Please select a destination" next step comes exactly for destinations without a canned response |
| Ai.DetermineNextStep | src/lib/ai.ts:133-139 | 'destination' iff the destination is empty; otherwise the first missing item of accommodation, flight and add-ons; 'summary' iff all four are present |
| DashboardChat.Span | src/components/dashboard/ChatInterface.tsx:96 | a greedy character class takes the longest prefix whose characters all belong to it |
| DashboardChat.FirstMatchIsLeftmost | src/components/dashboard/ChatInterface.tsx:81 | `match` without `g` finds nothing iff the pattern matches at no position, and otherwise gives the anchored match at the first position where there is one |
| DashboardChat.FirstMatchSkips | src/components/dashboard/ChatInterface.tsx:81 | a prefix where the pattern matches nowhere can be skipped |
| DashboardChat.BudgetIsLeftmostAmount | src/components/dashboard/ChatInterface.tsx:81-84 | no budget iff no '$' is followed by a digit; otherwise the value of the whole digit run after the leftmost such '$' |
| DashboardChat.BudgetOfWrittenAmount | src/components/dashboard/ChatInterface.tsx:81-84 | "$n" with no earlier '$' and no digit after it reads back as n |
| DashboardChat.LeadingDigitsAppend | src/components/dashboard/ChatInterface.tsx:81 | a digit run keeps its length when a non-digit follows |
| DashboardChat.DatePartOfRuns | src/components/dashboard/ChatInterface.tsx:87 | a word, whitespace and digits make a `\w+\s+\d+` date part |
| DashboardChat.DatePartAt | src/components/dashboard/ChatInterface.tsx:87 | a matched `\w+\s+\d+` is a date part |
| DashboardChat.DatesAt | src/components/dashboard/ChatInterface.tsx:87 | both captures of the anchored date pattern are date parts |
| DashboardChat.DatesShape | src/components/dashboard/ChatInterface.tsx:87-93 | both dates a message yields are a word, whitespace and a number |
| DashboardChat.SpanAppend | src/components/dashboard/ChatInterface.tsx:87 | a greedy repetition takes a run of its class up to the first character outside it |
| DashboardChat.DatePartOfWritten | src/components/dashboard/ChatInterface.tsx:87 | `\w+\s+\d+` on a word, a space and a number not followed by a digit takes exactly those |
| DashboardChat.DatesAtWritten | src/components/dashboard/ChatInterface.tsx:87 | the anchored pattern on "from w1 n1 to w2 n2" captures "w1 n1" and "w2 n2" |
| DashboardChat.DatesOfWrittenPhrase | src/components/dashboard/ChatInterface.tsx:87-93 | a message writing "from w1 n1 to w2 n2" after text without `from` or `between` (in any case) yields those two dates |
| DashboardChat.DatesKeywordCase | src/components/dashboard/ChatInterface.tsx:87 | the `i` flag: "FROM" and "from" start the same phrase |
| DashboardChat.NoKeywordNoDates | src/components/dashboard/ChatInterface.tsx:87-93 | a message with no `from` or `between` in any case yields no dates |
| DashboardChat.TrimCapitalised | src/components/dashboard/ChatInterface.tsx:98 | trimming a capitalised run of letters and whitespace leaves a destination |
| DashboardChat.NameAt | src/components/dashboard/ChatInterface.tsx:96-98 | the trimmed `[A-Z][a-zA-Z\s]+` is a capitalised name of letters and whitespace |
| DashboardChat.DestinationAt | src/components/dashboard/ChatInterface.tsx:96-98 | the anchored destination pattern yields such a name |
| DashboardChat.DestinationShape | src/components/dashboard/ChatInterface.tsx:96-99 | an extracted destination starts with a capital, holds only letters and whitespace, and has no whitespace at the end |
| DashboardChat.NameOfWritten | src/components/dashboard/ChatInterface.tsx:96-98 | a capitalised name not followed by a letter or space is captured whole, and the trim leaves it as it is |
| DashboardChat.DestinationOfWrittenName | src/components/dashboard/ChatInterface.tsx:96-99 | a message writing " to Name" after text without `to`, `in` or `at` yields that name |
| DashboardChat.ExtractFields | src/components/dashboard/ChatInterface.tsx:77-102 | each context member is replaced by its pattern's capture when it matches and is kept otherwise |
| DashboardChat.ExtractNoMatch | src/components/dashboard/ChatInterface.tsx:78-101 | a message that matches nothing leaves the context as it was; one that matches all three gives the same context whatever the old one was |
| DashboardChat.ExtractIdempotent | src/components/dashboard/ChatInterface.tsx:77-102 | extracting the same message twice changes nothing more |
| DashboardChat.SendShape | src/components/dashboard/ChatInterface.tsx:20-31 | blank input sends nothing and changes nothing; otherwise the user line is appended, the input cleared, loading set, and the input posted with the context |
| DashboardChat.ReceiveShape | src/components/dashboard/ChatInterface.tsx:45-73 | exactly one assistant line (the reply or the apology); the context changes only on success; loading ends false |
| DashboardChat.Chat.constructor | src/components/dashboard/ChatInterface.tsx:13-16 | no messages, empty input, not loading, empty context |
| DashboardChat.Chat.Type | src/components/dashboard/ChatInterface.tsx:145 | typing sets the input and nothing else |
| DashboardChat.Chat.Submit | src/components/dashboard/ChatInterface.tsx:18-43 | the new state and the request sent are those of the synchronous part of the submit |
| DashboardChat.Chat.Complete | src/components/dashboard/ChatInterface.tsx:45-73 | the new state is the reply handling for the request's outcome |
| WelcomeScreen.Destinations | src/components/WelcomeScreen.tsx:5-24 | there are three slides |
| WelcomeScreen.SlidesInOrder | src/components/WelcomeScreen.tsx:5-24 | Paris, Tokyo and Bali, with their countries, in that order |
| WelcomeScreen.NextIndex | src/components/WelcomeScreen.tsx:47 | the next index stays in [0, 3) |
| WelcomeScreen.PreviousIndex | src/components/WelcomeScreen.tsx:42 | the previous index stays in [0, 3) |
| WelcomeScreen.PreviousUndoesNext | src/components/WelcomeScreen.tsx:42-47 | previous undoes next and next undoes previous |
| WelcomeScreen.NextCycles | src/components/WelcomeScreen.tsx:34 | three nexts return to the start, and one or two never do |
| WelcomeScreen.Advance | src/components/WelcomeScreen.tsx:33-35 | any number of ticks stays in [0, 3) |
| WelcomeScreen.AdvanceIsModular | src/components/WelcomeScreen.tsx:33-35 | n ticks from slide i land on slide (i + n) mod 3 |
| WelcomeScreen.Carousel.constructor | src/components/WelcomeScreen.tsx:27-28 | slide 0, auto-playing |
| WelcomeScreen.Carousel.Tick | src/components/WelcomeScreen.tsx:30-38 | a timer tick advances the slide exactly while auto-playing; the index stays in [0, 3) |
| WelcomeScreen.Carousel.Previous | src/components/WelcomeScreen.tsx:40-43 | auto-play stops and the previous slide shows |
| WelcomeScreen.Carousel.Next | src/components/WelcomeScreen.tsx:45-48 | auto-play stops and the next slide shows |
| WelcomeScreen.Carousel.Dot | src/components/WelcomeScreen.tsx:108-119 | auto-play stops and exactly the clicked slide shows |
| ChatInterface.Accepted | src/components/ChatInterface.tsx:27-32 | a file reaches the attachment list exactly when it is at most 5 MB |
| ChatInterface.AcceptedAppend | src/components/ChatInterface.tsx:27-32 | the size filter works file by file: filtering a join is joining the filtered parts, so small files among large ones are all kept in their order |
| ChatInterface.SmallFilesAllAccepted | src/components/ChatInterface.tsx:27-32 | files within the limit all arrive, in order |
| ChatInterface.WithoutIndexSplices | src/components/ChatInterface.tsx:77-79 | removing index i drops exactly that entry and keeps the others in order; an index outside the list removes nothing |
| ChatInterface.AttachmentsOf | src/components/ChatInterface.tsx:51-55 | one entry per pending file, with its name, its object URL and its type, in order |
| ChatInterface.SubmitShape | src/components/ChatInterface.tsx:44-61 | nothing to send changes nothing; otherwise one user message with the untrimmed input and one entry per file, named after it, the input and attachments cleared, loading set |
| ChatInterface.SubmitThenReply | src/components/ChatInterface.tsx:58-74 | a submit and its reply append the user message and then the fixed reply, and loading ends |
| ChatInterface.Chat.constructor | src/components/ChatInterface.tsx:21-24 | no messages, empty input, not loading, no attachments |
| ChatInterface.Chat.Type | src/components/ChatInterface.tsx:174 | typing sets the input and nothing else |
| ChatInterface.Chat.Drop | src/components/ChatInterface.tsx:28-30 | the accepted files go after those already attached, in order; every attachment stays within 5 MB |
| ChatInterface.Chat.RemoveAttachment | src/components/ChatInterface.tsx:77-79 | the attachments lose exactly the entry at the index |
| ChatInterface.Chat.Submit | src/components/ChatInterface.tsx:42-75 | the new state is the submit of the current input and attachments |
| ChatInterface.Chat.Reply | src/components/ChatInterface.tsx:71-74 | the fixed reply is appended and loading ends |
| TravelSlice.InitialIsEmpty | src/store/slices/travelSlice.ts:18-23 | no current trip, no saved trips, not loading, no error |
| TravelSlice.ReduceChangesOnlyTarget | src/store/slices/travelSlice.ts:28-41 | each reducer sets its field to the payload and leaves every other field as it was; other actions change nothing |
| TravelSlice.ReduceIdempotent | src/store/slices/travelSlice.ts:28-41 | dispatching the same action twice is dispatching it once |
| TravelSlice.LaterWriteWins | src/store/slices/travelSlice.ts:28-41 | a later action on the same field leaves no trace of the earlier one |
| TravelSlice.DifferentFieldsCommute | src/store/slices/travelSlice.ts:28-41 | actions on different fields can be dispatched in either order |
| TravelSlice.Store.constructor | src/store/slices/travelSlice.ts:18-23 | the store starts in the initial state |
| TravelSlice.Store.Dispatch | src/store/slices/travelSlice.ts:25-42 | the new state is the reducer's result for the action |

## Left out

- Network I/O is not modelled. Each `fetch` in the core (the three scrape routes, the
  Booking.com hotel search and `/api/chat`) is a `FetchOutcome` input: an ok or non-ok
  response with its JSON body, or a thrown call. URLs, headers and request bodies are not
  modelled.
- `Promise.all` concurrency is not modelled. The three scraper results are given lists,
  concatenated in the order TripAdvisor, Lonely Planet, Booking.com.
- Timer delays (30 ms, 1 s, 3 s, 5 s) are not modelled; each firing of a timer or interval
  is a method call. `handleDestinationSelect`, `handleAccommodationSelect` and
  `handleBudgetSubmit` never clear an earlier reveal interval, but the model keeps one
  active reveal. A budget of 0 keeps the budget form on screen, so `handleBudgetSubmit`
  can start the reveal again and again while the form shows; each start is one reset.
- TypedReveal.Reveal.Tick and TypedReveal.Frames step through the guide by code point.
  `guide[currentIndex]` steps by UTF-16 code unit, so an emoji outside the Basic
  Multilingual Plane (the guides hold 🌍, 💬, 💰 and 🌤️) takes two ticks in the source, and
  the frame between them ends in a lone surrogate. The model does not show that frame.
- Text.ToLower lower-cases the ASCII capitals only. JavaScript's `toLowerCase()` also maps
  other letters, and not always one for one: U+212A KELVIN SIGN becomes 'k', and 'İ'
  becomes two code units. The case-insensitive keywords of DashboardChat.KeywordAt are
  exact: a regular expression with `i` but without `u` compares characters upper-cased,
  and never lets a character outside ASCII fold onto an ASCII one.
- DestinationSelector.Send: the two timer-delayed replies and the `isTyping` flag are
  applied at once. The `scrapingProgress` flags and the separate `isSearching` state are
  not modelled.
- DashboardChat.Chat.Complete: the request keeps the message and context seen at submit
  time, since the awaited part of `handleSubmit` closes over them.
- The welcome-message typing effect in both selectors, the emoji picker, and the
  AccommodationSelector file picker (`handleFileSelect`) are not modelled. The chat logs
  start with the welcome line.
- Gestures, pull-to-refresh, momentum scrolling and haptic feedback in DestinationSelector
  are DOM and `navigator.vibrate` code, and are not modelled. So are `scrollToBottom` and
  rendering beyond the values the views show.
- AccommodationSelector.DestinationData: `destinationData[destination]` looks up a plain
  object, so an inherited member name such as "constructor" would also pass the `if`. The
  model treats only 'Bali' and 'Paris' as known.
- Floating point is not modelled: prices and budgets are `real`, and `Math.round` is floor
  of x + 1/2.
- `parseFloat` is modelled on the digit-and-dot strings that the replace leaves. A text with
  several dots parses up to the second dot, as in JavaScript.
- Text.NumberToString prints a whole number as its digits and any other value with its
  exact decimal fraction (`real` has no `toString` rounding).
- DashboardChat.BudgetMatch: `parseInt` of a long digit run is an unbounded `nat`, not a
  double that loses precision.
- Message ids and timestamps come from the clock and are not modelled. The object URLs of
  `URL.createObjectURL` are given as inputs.
- The `openai` import and the unused `extractSuggestions` in src/lib/ai.ts are not
  modelled.
- TripSummary: add-ons are a list of `[key, selected]` entries in object order, and only the
  members the summary reads are modelled. Each component has its own record type where the
  source's shapes disagree with the `TravelContext` of src/lib/ai.ts. For example, the
  dashboard chat stores its dates as the matched texts.
- TravelSlice: `savedTrips` is typed `any[]` in the source and is modelled as a list of
  trips.
- TravelPlanner renders `AddOnSelector` without its `addOns` and `onSelect` props, so
  `addOns.filter` would throw at render. The model gives AddOnSelector its add-ons as an
  argument and does not model that crash.
- `FlightSelector` (step 4) is not part of this model; its panel only counts as a control
  that completes step 4, in `TravelPlanner.Completion` and `TravelPlanner.CompletionAsWritten`
  alike. As written, step 4 is not left either: TravelPlanner renders `FlightSelector` without
  its `flights` prop, so `flights.map` throws at render, and its submit completes only on a
  `recommendations.flights` entry that no canned `getAIResponse` result has. The WelcomeScreen's `onGetStarted` callback is not modelled.

## Findings

| source | as written | input that shows it | evidently intended | confidence | as-written member | corrected member |
|---|---|---|---|---|---|---|
| src/lib/ai.ts:93-96 | `mockResponses[destination]` indexes a plain object, so inherited members count as hits | destination "Constructor" returns the `Object` function instead of a response | only the own keys 'paris' and 'tokyo' are canned; everything else gets the default response | not executed | Ai.ConstructorIsNotAResponse | Ai.GetAIResponse |
| src/components/dashboard/AddOnSelector.tsx:60-75 | the `getAIResponse` hit on an inherited member is read as a response | destination "Constructor": `response.recommendations.activities` throws, the catch logs, and the step never completes | every submit gets a response with activities and completes | not executed | AddOnSelector.SubmitAsWrittenThrowsOnInherited | AddOnSelector.SubmitAlwaysCompletes |
| src/components/dashboard/AddOnSelector.tsx:67-69 | `activities.map(activity => activity.name)` on an array of strings | the Paris response's activities become a list of `undefined` | the activity texts themselves | not executed | AddOnSelector.ActivityNamesAsWrittenAreUndefined | AddOnSelector.ActivitiesPatchKeepsPreferences |
| src/components/dashboard/DestinationSelector.tsx:460-463 | `setUserMessage(query)` then `handleSendMessage()`, whose closure still sees the old `userMessage` | a prompt chip clicked with an empty box sends nothing | the chip sends its query | not executed | DestinationSelector.PromptClickSendsNothing | DestinationSelector.PromptClickSendsQuery |
| src/components/dashboard/AccommodationSelector.tsx:358-361 | the same stale-closure pattern as the destination step | a prompt chip clicked with an empty box sends nothing | the chip sends its query | not executed | AccommodationSelector.PromptClickSendsNothing | AccommodationSelector.Selector.PromptClick |
| src/components/dashboard/DestinationSelector.tsx:494-498 | `handleConfirm` is the only caller of `onComplete`, and no element calls it | step 1 with a destination selected: no control leaves the step | a confirm button calls the handler, which completes step 1 once a destination is chosen | not executed | TravelPlanner.StepsOneAndThreeNeverLeft | TravelPlanner.CompletionPassesOwnStep |
| src/components/dashboard/AccommodationSelector.tsx:352-356 | the same: the handler is defined but never attached | step 3 with an accommodation selected: no control leaves the step | a confirm button completes step 3 once an accommodation is chosen | not executed | TravelPlanner.StepsOneAndThreeNeverLeft | TravelPlanner.CompletionPassesOwnStep |
