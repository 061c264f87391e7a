/** exportlane.Scheduler: export jobs run one quantum at a time, one worker per connection generation. */
module ExportLane {
  import opened Wrappers

  type Id = string
  type Gen = string
  type Quantum = string

  datatype State = Queued | Running | CancelRequested | PausedRestartable | Succeeded | Canceled | Failed

  /** `original` is the submitted list; `quanta` is what remains of it. */
  datatype Record = Record(generation: Gen, original: seq<Quantum>, quanta: seq<Quantum>, completed: nat, state: State,
                           flags: Flags, claimed: bool)

  datatype Flags = Flags(terminal: bool, cancelRequested: bool, pauseRequested: bool)

  /** The worker goroutine of one generation: idle, or between claim, lease, execution and settlement of one quantum. */
  datatype Worker = Idle | Claimed(job: Id, quantum: Quantum) | Leased(job: Id, quantum: Quantum) | Executing(job: Id, quantum: Quantum)

  datatype Sched = Sched(jobs: map<Id, Record>, ready: map<Gen, seq<Id>>, workers: map<Gen, Worker>, closed: bool)

  datatype Error = InvalidJob | DuplicateJob | JobNotFound | StateConflict | SchedulerClosed

  datatype Outcome = Done | Timeout | ExecutionError

  function Remove(ready: seq<Id>, id: Id): seq<Id> {
    if ready == [] then [] else if ready[0] == id then ready[1..] else [ready[0]] + Remove(ready[1..], id)
  }

  function Put(s: Sched, id: Id, r: Record): Sched {
    s.(jobs := s.jobs[id := r])
  }

  function Enqueue(s: Sched, g: Gen, id: Id): Sched
    requires g in s.ready
  {
    s.(ready := s.ready[g := s.ready[g] + [id]])
  }

  // ---------------------------------------------------------------- commands

  function Submit(s: Sched, id: Id, g: Gen, quanta: seq<Quantum>): (Sched, Option<Error>) {
    if id == "" || g == "" || quanta == [] then (s, Some(InvalidJob))
    else if s.closed then (s, Some(SchedulerClosed))
    else if id in s.jobs then (s, Some(DuplicateJob))
    else
      var grouped := if g in s.ready && g in s.workers then s else s.(ready := s.ready[g := []], workers := s.workers[g := Idle]);
      (Enqueue(Put(grouped, id, Record(g, quanta, quanta, 0, Queued, Flags(false, false, false), false)), g, id), None)
  }

  function Canceling(r: Record): Record {
    var flags := r.flags.(cancelRequested := true);
    match r.state
    case Queued => r.(state := Canceled, flags := flags.(terminal := true))
    case Running => r.(state := CancelRequested, flags := flags)
    case CancelRequested => r.(flags := flags)
    case PausedRestartable => r.(state := Canceled, flags := flags.(terminal := true))
    case _ => r.(flags := flags)
  }

  function Cancel(s: Sched, id: Id): (Sched, Option<Error>) {
    if id !in s.jobs then (s, Some(JobNotFound))
    else
      var r := s.jobs[id];
      if r.flags.terminal || r.state == Canceled then (s, None)
      else
        var next := Put(s, id, Canceling(r));
        if r.state == Queued && r.generation in s.ready then
          (next.(ready := s.ready[r.generation := Remove(s.ready[r.generation], id)]), None)
        else if r.state == Succeeded || r.state == Failed then (next, Some(StateConflict))
        else (next, None)
  }

  function Restart(s: Sched, id: Id): (Sched, Option<Error>) {
    if s.closed then (s, Some(SchedulerClosed))
    else if id !in s.jobs then (s, Some(JobNotFound))
    else
      var r := s.jobs[id];
      if r.state != PausedRestartable || r.flags.terminal || r.claimed || r.generation !in s.ready then (s, Some(StateConflict))
      else (Enqueue(Put(s, id, r.(state := Queued, flags := Flags(false, false, false))), r.generation, id), None)
  }

  /** PauseGeneration on one job: what is queued and unclaimed stops here, the rest when its quantum returns. */
  function Pausing(r: Record): Record {
    var paused := r.(flags := r.flags.(pauseRequested := true));
    if r.state == Queued && !r.claimed then paused.(state := PausedRestartable) else paused
  }

  predicate Pauses(r: Record, g: Gen) {
    r.generation == g && !r.flags.terminal && !r.flags.cancelRequested
  }

  function Kept(ready: seq<Id>, jobs: map<Id, Record>, g: Gen): seq<Id> {
    if ready == [] then []
    else if ready[0] in jobs && Pauses(jobs[ready[0]], g) && jobs[ready[0]].state == Queued then Kept(ready[1..], jobs, g)
    else [ready[0]] + Kept(ready[1..], jobs, g)
  }

  function PauseGeneration(s: Sched, g: Gen): Sched {
    s.(jobs := map id | id in s.jobs :: if Pauses(s.jobs[id], g) then Pausing(s.jobs[id]) else s.jobs[id],
       ready := if g in s.ready then s.ready[g := Kept(s.ready[g], s.jobs, g)] else s.ready)
  }

  function Closing(r: Record): Record {
    if r.flags.terminal then r
    else
      var paused := r.(flags := r.flags.(pauseRequested := true));
      if r.state == Running || r.state == CancelRequested then paused else paused.(state := PausedRestartable)
  }

  function Close(s: Sched): Sched {
    if s.closed then s else s.(closed := true, jobs := map id | id in s.jobs :: Closing(s.jobs[id]))
  }

  // ---------------------------------------------------------------- the worker

  predicate Claimable(jobs: map<Id, Record>, id: Id) {
    && id in jobs && jobs[id].state == Queued && !jobs[id].flags.terminal && !jobs[id].claimed && jobs[id].quanta != []
  }

  /** claim skips what is no longer claimable and takes the first job that is. */
  function Claim(s: Sched, g: Gen, ready: seq<Id>): Sched
    requires g in s.ready && g in s.workers
    decreases |ready|
  {
    if ready == [] then s.(ready := s.ready[g := []])
    else if !Claimable(s.jobs, ready[0]) then Claim(s, g, ready[1..])
    else
      var id := ready[0];
      var r := s.jobs[id];
      Sched(s.jobs[id := r.(claimed := true)], s.ready[g := ready[1..]], s.workers[g := Claimed(id, r.quanta[0])], s.closed)
  }

  function MarkRunning(r: Record): Option<Record> {
    if r.state != Queued || r.flags.terminal || r.flags.cancelRequested || !r.claimed then None else Some(r.(state := Running))
  }

  /** `canceled`: the lane was refused because the context had ended. */
  function FinishBeforeDispatch(r: Record, canceled: bool): Record {
    var free := r.(claimed := false);
    if r.flags.pauseRequested then free.(state := PausedRestartable)
    else if r.flags.terminal || r.flags.cancelRequested || canceled then free.(state := Canceled, flags := r.flags.(terminal := true))
    else free.(state := Failed, flags := r.flags.(terminal := true))
  }

  /** The record after a quantum returned, and whether the job is queued again. */
  function FinishQuantum(r: Record, quantum: Quantum, outcome: Outcome): (Record, bool) {
    var free := r.(claimed := false);
    var final := r.flags.(terminal := true);
    if r.flags.cancelRequested || r.state == CancelRequested then (free.(state := Canceled, flags := final), false)
    else if r.flags.pauseRequested || outcome == Timeout then (free.(state := PausedRestartable), false)
    else if outcome == ExecutionError then (free.(state := Failed, flags := final), false)
    else if r.quanta == [] || r.quanta[0] != quantum then (free.(state := Failed, flags := final), false)
    else
      var rest := free.(quanta := r.quanta[1..], completed := r.completed + 1);
      if rest.quanta == [] then (rest.(state := Succeeded, flags := final), false) else (rest.(state := Queued), true)
  }

  datatype Event = Leases | Refused(canceled: bool) | Starts | Returns(outcome: Outcome)

  /** One step of runGeneration after a claim. */
  function Work(s: Sched, g: Gen, e: Event): Sched
    requires g in s.ready && g in s.workers
  {
    match (s.workers[g], e)
    case (Claimed(id, quantum), Leases) => s.(workers := s.workers[g := Leased(id, quantum)])
    case (Claimed(id, _), Refused(canceled)) =>
      if id !in s.jobs then s.(workers := s.workers[g := Idle])
      else Put(s, id, FinishBeforeDispatch(s.jobs[id], canceled)).(workers := s.workers[g := Idle])
    case (Leased(id, quantum), Starts) =>
      if id !in s.jobs then s.(workers := s.workers[g := Idle])
      else if MarkRunning(s.jobs[id]).Some? then
        Put(s, id, MarkRunning(s.jobs[id]).value).(workers := s.workers[g := Executing(id, quantum)])
      else Put(s, id, FinishBeforeDispatch(s.jobs[id], true)).(workers := s.workers[g := Idle])
    case (Executing(id, quantum), Returns(outcome)) =>
      if id !in s.jobs then s.(workers := s.workers[g := Idle])
      else
        var (r, again) := FinishQuantum(s.jobs[id], quantum, outcome);
        var next := Put(s, id, r).(workers := s.workers[g := Idle]);
        if again then Enqueue(next, g, id) else next
    case _ => s
  }

  datatype Action =
    | DoSubmit(id: Id, generation: Gen, quanta: seq<Quantum>)
    | DoCancel(id: Id)
    | DoRestart(id: Id)
    | DoPause(generation: Gen)
    | DoClose
    | DoClaim(generation: Gen)
    | DoWork(generation: Gen, event: Event)

  function Next(s: Sched, a: Action): Sched {
    match a
    case DoSubmit(id, g, quanta) => Submit(s, id, g, quanta).0
    case DoCancel(id) => Cancel(s, id).0
    case DoRestart(id) => Restart(s, id).0
    case DoPause(g) => PauseGeneration(s, g)
    case DoClose => Close(s)
    case DoClaim(g) => if g in s.ready && g in s.workers && s.workers[g].Idle? then Claim(s, g, s.ready[g]) else s
    case DoWork(g, e) => if g in s.ready && g in s.workers then Work(s, g, e) else s
  }

  function Empty(): Sched {
    Sched(map[], map[], map[], false)
  }

  function After(actions: seq<Action>): Sched {
    if actions == [] then Empty() else Next(After(actions[..|actions| - 1]), actions[|actions| - 1])
  }
}
