/** One query session of the in-memory service: commands, the end of its execution and the detaching of its result. Rows are
    visible only through a result, and a result appears in the same step that ends the session. */
module QuerySession {
  import opened ResultStore
  import opened Wrappers

  datatype State =
    | Queued | Running | CancelRequested
    | Succeeded | SucceededWithErrors | Truncated | TimedOut | Canceled | Failed

  predicate IsEnd(state: State) {
    !state.Queued? && !state.Running? && !state.CancelRequested?
  }

  /** A decoded response: the rows its store accepted and the series it declared, with or without rows. */
  datatype ResultSet = ResultSet(log: seq<Accepted>, series: set<SeriesKey>)

  datatype Session = Session(state: State, terminal: bool, revision: nat, generation: string, closed: bool, available: bool,
                             result: Option<ResultSet>)

  datatype Error = RevisionConflict | StateConflict

  /** startInMemory: at once when the lane has room, else queued. */
  function Start(generation: string, startNow: bool): Session {
    if startNow then Session(Running, false, 2, generation, false, false, None)
    else Session(Queued, false, 1, generation, false, false, None)
  }

  function Transition(s: Session, state: State, terminal: bool): Session {
    s.(state := state, terminal := terminal, revision := s.revision + 1)
  }

  /** applyInMemoryCommand for CANCEL. */
  function Cancel(s: Session, expected: nat): (Session, Option<Error>) {
    if s.terminal || s.state == CancelRequested then (s, None)
    else if s.revision != expected then (s, Some(RevisionConflict))
    else if s.state == Queued then (Transition(s, Canceled, true), None)
    else if s.state == Running then (Transition(s, CancelRequested, false), None)
    else (s, Some(StateConflict))
  }

  /** applyInMemoryCommand for CLOSE: the result goes first, whatever the state is. */
  function Close(s: Session, expected: nat): (Session, Option<Error>) {
    if s.closed then (s, None)
    else if s.revision != expected then (s, Some(RevisionConflict))
    else
      var shut := s.(closed := true, available := false, result := None);
      if s.state == Queued then (Transition(shut, Canceled, true), None)
      else if s.state == Running then (Transition(shut, CancelRequested, false), None)
      else if s.state == CancelRequested || s.terminal then (shut.(revision := s.revision + 1), None)
      else (shut, Some(StateConflict))
  }

  /** finish: the first end stays; a session that was closed meanwhile drops the result. */
  function Finish(s: Session, state: State, result: Option<ResultSet>): Session
    requires IsEnd(state)
  {
    if s.terminal then s
    else
      var kept := if s.closed then None else result;
      Transition(s, state, true).(result := kept, available := if kept.Some? then true else s.available)
  }

  /** detachResultLocked, when a result has been idle for too long. */
  function Detach(s: Session): Session {
    if s.result.None? then s else s.(result := None, available := false)
  }

  datatype Event =
    | Promoted
    | Canceling(expected: nat)
    | Closing(expected: nat)
    | Finished(state: State, result: Option<ResultSet>)
    | Expired

  function Step(s: Session, e: Event): Session {
    match e
    case Promoted => if s.state == Queued then Transition(s, Running, false) else s
    case Canceling(expected) => Cancel(s, expected).0
    case Closing(expected) => Close(s, expected).0
    case Finished(state, result) => if IsEnd(state) then Finish(s, state, result) else s
    case Expired => Detach(s)
  }

  function After(s: Session, events: seq<Event>): Session {
    if events == [] then s else Step(After(s, events[..|events| - 1]), events[|events| - 1])
  }

  /** A result means an ended session that was not closed, and the snapshot says truly whether there is one. */
  predicate Inv(s: Session) {
    && (s.terminal <==> IsEnd(s.state)) && (s.result.Some? ==> s.terminal && !s.closed) && (s.available <==> s.result.Some?)
  }

  /** What a later state of a session may be: the same result, or none any more. */
  predicate Follows(a: Session, b: Session) {
    && b.generation == a.generation && (a.terminal ==> b.terminal && b.state == a.state && (b.result == a.result || b.result.None?))
  }

  lemma StepKeeps(s: Session, e: Event)
    requires Inv(s)
    ensures Inv(Step(s, e)) && Follows(s, Step(s, e))
  {
  }

  lemma {:induction false} AfterKeeps(s: Session, events: seq<Event>)
    requires Inv(s)
    ensures Inv(After(s, events)) && Follows(s, After(s, events))
  {
    hide Step;
    if events != [] {
      AfterKeeps(s, events[..|events| - 1]);
      StepKeeps(After(s, events[..|events| - 1]), events[|events| - 1]);
    }
  }

  /** In every life of a session: rows can be read only once it has ended, the snapshot's flag says exactly when, and what
      can be read never changes until it is gone for good. */
  lemma ResultsAreFinal(generation: string, startNow: bool, events: seq<Event>, more: seq<Event>)
    ensures var s := After(Start(generation, startNow), events);
            var later := After(s, more);
            && (s.result.Some? ==> s.terminal && !s.closed) && (s.available <==> s.result.Some?)
            && (s.result.Some? ==> later.result == s.result || later.result.None?)
            && (s.terminal && s.result.None? ==> later.result.None?)
            && (s.terminal ==> later.state == s.state)
  {
    AfterKeeps(Start(generation, startNow), events);
    AfterKeeps(After(Start(generation, startNow), events), more);
  }

  /** The conflict at the end of the command branches is unreachable. */
  lemma NoStateConflict(s: Session, expected: nat)
    requires Inv(s)
    ensures Cancel(s, expected).1 != Some(StateConflict) && Close(s, expected).1 != Some(StateConflict)
  {
  }
}
