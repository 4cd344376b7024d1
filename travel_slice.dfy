/** src/store/slices/travelSlice.ts: the `travel` slice of the Redux store, with its initial
    state and four reducers that each assign one field. */
module TravelSlice {
  import opened Wrappers

  datatype TripDates = TripDates(start: string, end: string)

  datatype Trip = Trip(destination: string, dates: TripDates, budget: real, preferences: seq<string>)

  /** `TravelState`; `savedTrips` is typed `any[]` and is modelled as a list of trips. */
  datatype TravelState = TravelState(
    currentTrip: Option<Trip>,
    savedTrips: seq<Trip>,
    isLoading: bool,
    error: Option<string>)

  /** The slice's actions; `Other` is any action of another type, which the reducer
      created by `createSlice` passes through. */
  datatype Action =
    | SetCurrentTrip(trip: Option<Trip>)
    | SetSavedTrips(trips: seq<Trip>)
    | SetLoading(loading: bool)
    | SetError(message: Option<string>)
    | Other(actionType: string)

  const InitialState := TravelState(None, [], false, None)

  /** The slice's reducer: each case assigns its payload to one field, in place on Immer's
      draft, which yields the next state. */
  function Reduce(s: TravelState, a: Action): TravelState {
    match a
    case SetCurrentTrip(trip) => s.(currentTrip := trip)
    case SetSavedTrips(trips) => s.(savedTrips := trips)
    case SetLoading(loading) => s.(isLoading := loading)
    case SetError(message) => s.(error := message)
    case Other(_) => s
  }

  /** The field an action writes. */
  datatype Field = CurrentTrip | SavedTrips | IsLoading | Error

  function Target(a: Action): Option<Field> {
    match a
    case SetCurrentTrip(_) => Some(CurrentTrip)
    case SetSavedTrips(_) => Some(SavedTrips)
    case SetLoading(_) => Some(IsLoading)
    case SetError(_) => Some(Error)
    case Other(_) => None
  }

  /** Two states agree on a field. */
  predicate SameField(s: TravelState, t: TravelState, f: Field) {
    match f
    case CurrentTrip => s.currentTrip == t.currentTrip
    case SavedTrips => s.savedTrips == t.savedTrips
    case IsLoading => s.isLoading == t.isLoading
    case Error => s.error == t.error
  }

  /** The initial state: no current trip, no saved trips, not loading, no error. */
  lemma InitialIsEmpty()
    ensures InitialState.currentTrip.None? && InitialState.savedTrips == []
    ensures !InitialState.isLoading && InitialState.error.None?
  {
  }

  /** Each reducer sets its field to the payload and leaves every other field as it was; an
      action of another type changes nothing. */
  lemma ReduceChangesOnlyTarget(s: TravelState, a: Action)
    ensures forall f :: Target(a) != Some(f) ==> SameField(Reduce(s, a), s, f)
    ensures a.SetCurrentTrip? ==> Reduce(s, a).currentTrip == a.trip
    ensures a.SetSavedTrips? ==> Reduce(s, a).savedTrips == a.trips
    ensures a.SetLoading? ==> Reduce(s, a).isLoading == a.loading
    ensures a.SetError? ==> Reduce(s, a).error == a.message
    ensures a.Other? ==> Reduce(s, a) == s
  {
  }

  /** Dispatching the same action twice is the same as dispatching it once. */
  lemma ReduceIdempotent(s: TravelState, a: Action)
    ensures Reduce(Reduce(s, a), a) == Reduce(s, a)
  {
  }

  /** A later action on the same field wins: the first one leaves no trace. */
  lemma LaterWriteWins(s: TravelState, a: Action, b: Action)
    requires Target(a).Some? && Target(a) == Target(b)
    ensures Reduce(Reduce(s, a), b) == Reduce(s, b)
  {
  }

  /** Actions on different fields can be dispatched in either order. */
  lemma DifferentFieldsCommute(s: TravelState, a: Action, b: Action)
    requires Target(a) != Target(b)
    ensures Reduce(Reduce(s, a), b) == Reduce(Reduce(s, b), a)
  {
  }

  /** The state as the store holds it; each reducer writes one field of it. */
  class Store {
    var currentTrip: Option<Trip>
    var savedTrips: seq<Trip>
    var isLoading: bool
    var error: Option<string>

    function State(): TravelState
      reads this
    {
      TravelState(currentTrip, savedTrips, isLoading, error)
    }

    constructor ()
      ensures State() == InitialState
    {
      currentTrip := None;
      savedTrips := [];
      isLoading := false;
      error := None;
    }

    /** `store.dispatch(action)` for this slice. */
    method Dispatch(a: Action)
      modifies this
      ensures State() == Reduce(old(State()), a)
    {
      match a
      case SetCurrentTrip(trip) => currentTrip := trip;
      case SetSavedTrips(trips) => savedTrips := trips;
      case SetLoading(loading) => isLoading := loading;
      case SetError(message) => error := message;
      case Other(_) =>
    }
  }
}
