/** The store slice holding the journey list, the journey being viewed, a
    loading status and the last error message.  Each reducer overwrites a
    few fields of the state in place; `Reduce` is the specification the
    store's methods are proved against. */
module JourneySlice {
  import opened Wrappers
  import opened JourneyModel

  datatype Status = Idle | Loading | Succeeded | Failed

  datatype JourneysState = JourneysState(
    journeys: Option<seq<Journey>>, currentJourney: Option<Journey>, status: Status, error: Option<string>)

  /** Nothing loaded, nothing selected, idle, no error. */
  const InitialState := JourneysState(None, None, Idle, None)

  datatype Action =
    | SetJourneys(list: seq<Journey>)
    | SetStatus(next: Status)
    | SetError(message: string)
    | ResetJourneys
    | SetCurrentJourney(journey: Journey)
    | ResetCurrentJourney

  /** The slice's reducer, one case per action.  Each action writes its own
      fields and no other: only `setError` writes the error, only the list
      actions the list, only the selection actions the selected journey. */
  function Reduce(s: JourneysState, a: Action): (r: JourneysState)
    ensures a.SetJourneys? ==> r.journeys == Some(a.list) && r.status == Succeeded
    ensures a.SetError? ==> r.error == Some(a.message) && r.status == Failed
    ensures a.SetStatus? ==> r.status == a.next
    ensures a.SetCurrentJourney? ==> r.currentJourney == Some(a.journey)
    ensures a.ResetJourneys? ==> r.journeys.None?
    ensures a.ResetCurrentJourney? ==> r.currentJourney.None?
    ensures !a.SetError? ==> r.error == s.error
    ensures !(a.SetJourneys? || a.ResetJourneys?) ==> r.journeys == s.journeys
    ensures !(a.SetCurrentJourney? || a.ResetCurrentJourney?) ==> r.currentJourney == s.currentJourney
    ensures !(a.SetJourneys? || a.SetError? || a.SetStatus?) ==> r.status == s.status
  {
    match a
    case SetJourneys(list) => s.(journeys := Some(list), status := Succeeded)
    case SetStatus(next) => s.(status := next)
    case SetError(message) => s.(error := Some(message), status := Failed)
    case ResetJourneys => s.(journeys := None)
    case SetCurrentJourney(j) => s.(currentJourney := Some(j))
    case ResetCurrentJourney => s.(currentJourney := None)
  }

  /** The state after a sequence of dispatched actions. */
  function ReduceAll(s: JourneysState, actions: seq<Action>): JourneysState
    decreases |actions|
  {
    if actions == [] then s else ReduceAll(Reduce(s, actions[0]), actions[1..])
  }

  /** Each reducer touches only its own fields: loading a list or failing
      leaves the selected journey alone, and neither a new list nor a new
      status clears an earlier error. */
  lemma ReducerFrames(s: JourneysState, list: seq<Journey>, next: Status, message: string, j: Journey)
    ensures Reduce(s, SetJourneys(list)).currentJourney == s.currentJourney
    ensures Reduce(s, SetJourneys(list)).error == s.error
    ensures Reduce(s, SetStatus(next)) == s.(status := next)
    ensures Reduce(s, SetError(message)).journeys == s.journeys
    ensures Reduce(s, SetError(message)).currentJourney == s.currentJourney
    ensures Reduce(s, ResetJourneys).status == s.status
    ensures Reduce(s, SetCurrentJourney(j)) == s.(currentJourney := Some(j))
    ensures Reduce(s, ResetCurrentJourney) == s.(currentJourney := None)
  {
  }

  /** No transition is forbidden: any status can follow any other. */
  lemma AnyStatusReachable(s: JourneysState, next: Status)
    ensures Reduce(s, SetStatus(next)).status == next
  {
  }

  /** Clearing the selection twice is the same as clearing it once. */
  lemma ResetCurrentJourneyIdempotent(s: JourneysState)
    ensures Reduce(Reduce(s, ResetCurrentJourney), ResetCurrentJourney) == Reduce(s, ResetCurrentJourney)
  {
  }

  /** The error of a sequence of actions is the message of its last
      `SetError`, or the earlier error when there is none: no action ever
      clears an error, so a later success still reports the old one. */
  function LastError(before: Option<string>, actions: seq<Action>): Option<string>
    decreases |actions|
  {
    if actions == [] then before
    else LastError(if actions[0].SetError? then Some(actions[0].message) else before, actions[1..])
  }

  lemma {:induction false} ErrorIsSticky(s: JourneysState, actions: seq<Action>)
    ensures ReduceAll(s, actions).error == LastError(s.error, actions)
    ensures s.error.Some? ==> ReduceAll(s, actions).error.Some?
    decreases |actions|
  {
    if actions != [] {
      ErrorIsSticky(Reduce(s, actions[0]), actions[1..]);
    }
  }

  /** The store object: the slice's state, updated in place by its
      reducers. */
  class JourneyStore {
    var journeys: Option<seq<Journey>>
    var currentJourney: Option<Journey>
    var status: Status
    var error: Option<string>

    function State(): JourneysState
      reads this
    {
      JourneysState(journeys, currentJourney, status, error)
    }

    constructor ()
      ensures State() == InitialState
    {
      journeys, currentJourney, status, error := None, None, Idle, None;
    }

    /** `setJourneys`: store the list and mark the load as succeeded. */
    method SetJourneys(list: seq<Journey>)
      modifies this
      ensures journeys == Some(list) && status == Succeeded
      ensures currentJourney == old(currentJourney) && error == old(error)
      ensures State() == Reduce(old(State()), Action.SetJourneys(list))
    {
      journeys := Some(list);
      status := Succeeded;
    }

    /** `setStatus`: only the status changes. */
    method SetStatus(next: Status)
      modifies this
      ensures status == next
      ensures journeys == old(journeys) && currentJourney == old(currentJourney) && error == old(error)
      ensures State() == Reduce(old(State()), Action.SetStatus(next))
    {
      status := next;
    }

    /** `setError`: store the message and force the failed status. */
    method SetError(message: string)
      modifies this
      ensures error == Some(message) && status == Failed
      ensures journeys == old(journeys) && currentJourney == old(currentJourney)
      ensures State() == Reduce(old(State()), Action.SetError(message))
    {
      error := Some(message);
      status := Failed;
    }

    /** `resetJourneys`: forget the list; the status is not reset. */
    method ResetJourneys()
      modifies this
      ensures journeys == None
      ensures currentJourney == old(currentJourney) && status == old(status) && error == old(error)
      ensures State() == Reduce(old(State()), Action.ResetJourneys)
    {
      journeys := None;
    }

    /** `setCurrentJourney`: select a journey. */
    method SetCurrentJourney(j: Journey)
      modifies this
      ensures currentJourney == Some(j)
      ensures journeys == old(journeys) && status == old(status) && error == old(error)
      ensures State() == Reduce(old(State()), Action.SetCurrentJourney(j))
    {
      currentJourney := Some(j);
    }

    /** `resetCurrentJourney`: clear the selection. */
    method ResetCurrentJourney()
      modifies this
      ensures currentJourney == None
      ensures journeys == old(journeys) && status == old(status) && error == old(error)
      ensures State() == Reduce(old(State()), Action.ResetCurrentJourney)
    {
      currentJourney := None;
    }
  }
}
