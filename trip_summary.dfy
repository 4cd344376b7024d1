/** src/components/dashboard/TripSummary.tsx: the placeholder shown before any AI response,
    `calculateTotal`, and the remaining-budget line. The component reads the selections
    with their own shapes (an accommodation with a nightly price and a number of nights,
    a flight with a price, add-ons as an object of flags), so it has its own context record. */
module TripSummary {
  import opened Wrappers
  import Ai

  datatype Stay = Stay(name: string, price: real, nights: real)

  datatype Flight = Flight(airline: string, price: real)

  /** One `[key, selected]` pair of `Object.entries(addOns)`, in the object's order. */
  datatype Entry = Entry(key: string, selected: bool)

  /** The members of the context the summary reads. */
  datatype SummaryContext = SummaryContext(
    destination: string,
    selectedAccommodation: Option<Stay>,
    selectedFlight: Option<Flight>,
    addOns: Option<seq<Entry>>,
    budget: real)

  /** The price the summary charges for each selected add-on. */
  const AddOnPrice := 10.0

  // ---------------------------------------------------------------------------
  // The total

  /** The number of selected entries. */
  function CountSelected(entries: seq<Entry>): (r: nat)
    ensures r <= |entries|
  {
    if entries == [] then 0
    else CountSelected(entries[..|entries| - 1]) + (if entries[|entries| - 1].selected then 1 else 0)
  }

  function StayCost(s: Option<Stay>): real {
    if s.Some? then s.value.price * s.value.nights else 0.0
  }

  function FlightCost(f: Option<Flight>): real {
    if f.Some? then f.value.price else 0.0
  }

  /** What `calculateTotal` adds up: the stay, the flight and 10 per selected add-on. */
  function TotalCost(c: SummaryContext): real {
    StayCost(c.selectedAccommodation) + FlightCost(c.selectedFlight) +
    (if c.addOns.Some? then AddOnPrice * CountSelected(c.addOns.value) as real else 0.0)
  }

  /** `calculateTotal`: the running `total` of the source, add-on by add-on. */
  method CalculateTotal(c: SummaryContext) returns (total: real)
    ensures total == TotalCost(c)
  {
    total := 0.0;
    if c.selectedAccommodation.Some? {
      total := total + c.selectedAccommodation.value.price * c.selectedAccommodation.value.nights;
    }
    if c.selectedFlight.Some? {
      total := total + c.selectedFlight.value.price;
    }
    if c.addOns.Some? {
      var entries := c.addOns.value;
      var base := total;
      var i := 0;
      while i < |entries|
        invariant 0 <= i <= |entries|
        invariant total == base + AddOnPrice * CountSelected(entries[..i]) as real
      {
        assert entries[..i + 1][..i] == entries[..i];
        if entries[i].selected {
          total := total + AddOnPrice;
        }
        i := i + 1;
      }
      assert entries[..|entries|] == entries;
    }
  }

  /** The selected entries, in order. */
  function SelectedOnly(entries: seq<Entry>): (r: seq<Entry>)
    ensures forall i :: 0 <= i < |r| ==> r[i].selected
    ensures forall e :: e in r <==> e in entries && e.selected
  {
    if entries == [] then []
    else
      var init := entries[..|entries| - 1];
      var last := entries[|entries| - 1];
      assert entries == init + [last];
      SelectedOnly(init) + (if last.selected then [last] else [])
  }

  /** The filter keeps the order of the entries: filtering two runs one after the other is
      filtering each and joining the results. */
  lemma {:induction false} SelectedOnlyAppend(a: seq<Entry>, b: seq<Entry>)
    ensures SelectedOnly(a + b) == SelectedOnly(a) + SelectedOnly(b)
  {
    if b == [] {
      assert a + b == a;
    } else {
      var init := b[..|b| - 1];
      var last := b[|b| - 1];
      var tail := if last.selected then [last] else [];
      SelectedOnlyAppend(a, init);
      assert (a + b)[..|a + b| - 1] == a + init;
      assert (a + b)[|a + b| - 1] == last;
      calc {
        SelectedOnly(a + b);
        SelectedOnly(a + init) + tail;
        SelectedOnly(a) + SelectedOnly(init) + tail;
        SelectedOnly(a) + SelectedOnly(b);
      }
    }
  }

  /** Entries set to `false` contribute nothing: dropping them leaves the count as it is. */
  lemma {:induction false} UnselectedAddNothing(entries: seq<Entry>)
    ensures CountSelected(SelectedOnly(entries)) == CountSelected(entries) == |SelectedOnly(entries)|
  {
    if entries != [] {
      var init := entries[..|entries| - 1];
      UnselectedAddNothing(init);
      var r := SelectedOnly(entries);
      if entries[|entries| - 1].selected {
        assert r[..|r| - 1] == SelectedOnly(init);
      } else {
        assert r == SelectedOnly(init);
      }
    }
  }

  /** An entry set to `false` added anywhere leaves the total as it is. */
  lemma {:induction false} UnselectedEntryFree(front: seq<Entry>, key: string, back: seq<Entry>)
    ensures CountSelected(front + [Entry(key, false)] + back) == CountSelected(front + back)
  {
    if back == [] {
      assert (front + [Entry(key, false)] + back)[..|front|] == front;
      assert front + back == front;
    } else {
      var all := front + [Entry(key, false)] + back;
      var init := back[..|back| - 1];
      UnselectedEntryFree(front, key, init);
      assert all[..|all| - 1] == front + [Entry(key, false)] + init;
      assert (front + back)[..|front + back| - 1] == front + init;
    }
  }

  /** With non-negative prices and nights the total is never negative, and every selected
      add-on adds exactly 10. */
  lemma TotalCostBounds(c: SummaryContext)
    requires c.selectedAccommodation.Some? ==>
      c.selectedAccommodation.value.price >= 0.0 && c.selectedAccommodation.value.nights >= 0.0
    requires c.selectedFlight.Some? ==> c.selectedFlight.value.price >= 0.0
    ensures TotalCost(c) >= 0.0
    ensures c.addOns.Some? ==>
      TotalCost(c) == StayCost(c.selectedAccommodation) + FlightCost(c.selectedFlight) +
        10.0 * CountSelected(c.addOns.value) as real
  {
  }

  // ---------------------------------------------------------------------------
  // What the component renders

  /** The line under the total. `{budget && ...}` renders the line for a non-zero budget,
      and renders the number `0` itself for a zero budget. */
  datatype BudgetLine = Remaining(amount: real, negative: bool) | StrayZero

  datatype View =
    | Placeholder
    | Summary(destination: string, total: real, line: BudgetLine)

  /** The view for the given props. */
  function ViewOf(c: SummaryContext, aiResponse: Option<Ai.AIResponse>): View {
    if aiResponse.None? then Placeholder
    else
      var total := TotalCost(c);
      var remaining := c.budget - total;
      Summary(c.destination, total, if c.budget != 0.0 then Remaining(remaining, remaining < 0.0) else StrayZero)
  }

  /** The component's render: without a response the placeholder, and the total is not
      computed at all; otherwise `calculateTotal` and `remaining = (budget || 0) - total`. */
  method Render(c: SummaryContext, aiResponse: Option<Ai.AIResponse>) returns (v: View)
    ensures v == ViewOf(c, aiResponse)
  {
    if aiResponse.None? {
      return Placeholder;
    }
    var total := CalculateTotal(c);
    var remaining := c.budget - total;
    var line := if c.budget != 0.0 then Remaining(remaining, remaining < 0.0) else StrayZero;
    v := Summary(c.destination, total, line);
  }

  /** Without a response the same placeholder shows whatever the context holds. */
  lemma PlaceholderIgnoresContext(c1: SummaryContext, c2: SummaryContext)
    ensures ViewOf(c1, None) == ViewOf(c2, None) == Placeholder
  {
  }

  /** The remaining line appears exactly for a non-zero budget; it shows the budget minus
      the total and is styled negative exactly when the total exceeds the budget. */
  lemma RemainingLine(c: SummaryContext, response: Ai.AIResponse)
    ensures ViewOf(c, Some(response)).Summary?
    ensures ViewOf(c, Some(response)).total == TotalCost(c)
    ensures ViewOf(c, Some(response)).line.Remaining? <==> c.budget != 0.0
    ensures ViewOf(c, Some(response)).line.Remaining? ==>
      ViewOf(c, Some(response)).line.amount + TotalCost(c) == c.budget &&
      (ViewOf(c, Some(response)).line.negative <==> TotalCost(c) > c.budget)
  {
  }
}
