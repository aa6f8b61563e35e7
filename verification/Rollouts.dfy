/**
 Every interleaving of the web app's rollouts: the submits, the dispatcher, the engines, cancels, drains,
 pauses and saves, one lock region or one store call at a time.
 */
module Rollouts {
  import opened Options
  import opened Orchestrators

  /** How far a submit is. `counted`: the pending counter went up for it. */
  datatype Submit =
    | Inserted                    // in the table
    | Counted                     // the store has it
    | Recorded                    // its metadata is written
    | Queued                      // in the queue: submitted
    | Failing(counted: bool)      // a step raised: it is being withdrawn
    | Withdrawn(counted: bool)    // out of the table
    | Unlisted(counted: bool)     // out of the queue, or that failed
    | Undone(counted: bool)

  /** Who claimed a job. */
  datatype Owner = Dispatcher | Canceller

  /** How far the claimed job's owner is. */
  datatype Step =
    | Claimed
    | Uncounted                   // dispatcher: no longer pending...
    | Activated                   // ... but active
    | Running                     // its engine has a thread
    | Noted                       // canceller: recorded as cancelled in memory...
    | Dequeued                    // ... and out of the queue
    | Saving                      // out of the table, its results being written
    | Written
    | Saved
    | Finished                    // out of the store's counts
    | Over

  datatype Stage = Waiting | Owned(owner: Owner, step: Step)

  /** A job from its submit on, with what happened to it. */
  datatype Life = Life(
    targets: set<Target>, submit: Submit, stage: Stage,
    claims: nat, starts: nat, notes: nat, saves: nat)

  datatype DispatcherAt =
    | Free
    | Popped(id: JobId)           // an entry read, no slot yet
    | Holding(id: JobId)          // a slot taken for it
    | Giving                      // the slot to be given back
    | Starting(id: JobId)         // claimed, its engine not started yet

  datatype State = State(
    core: Core, lives: map<JobId, Life>, queue: seq<JobId>,
    slots: int, dispatcher: DispatcherAt, pending: int, active: int)

  /** One step of one thread. */
  datatype Action =
    // a submit
    | Submit(id: JobId, targets: set<Target>) | Count(id: JobId) | Record(id: JobId) | Enqueue(id: JobId)
    | SubmitFails(id: JobId)      // the step under way raises, nothing stored
    | EnqueueLost(id: JobId)      // the entry is stored, but enqueue raises
    | Withdraw(id: JobId) | Unlist(id: JobId) | UnlistFails(id: JobId) | Undo(id: JobId) | UndoFails(id: JobId)
    // the dispatcher
    | Pop | LoseEntry | TakeSlot | Dispatch | GiveSlot | Uncount | Activate | StatusFails | Launch
    // a cancel or a drain, for a job it claimed
    | Note(id: JobId) | Dequeue(id: JobId) | DequeueFails(id: JobId) | NoteFails(id: JobId)
    // an owner's end of a job
    | End(id: JobId) | Write(id: JobId) | EndSave(id: JobId) | Finish(id: JobId) | FinishFails(id: JobId) | FreeSlot(id: JobId)
    // from the outside
    | Cancel(id: JobId) | StartDrain | Pause | Resume

  function Start(max: nat): State {
    State(Core(map[], map[], false, false, 0), map[], [], max, Free, 0, 0)
  }

  predicate SubmitAt(s: State, id: JobId, at: Submit) {
    id in s.lives && s.lives[id].submit == at
  }

  predicate StageAt(s: State, id: JobId, owner: Owner, step: Step) {
    id in s.lives && s.lives[id].stage == Owned(owner, step)
  }

  predicate Enabled(s: State, a: Action) {
    match a
    case Submit(id, targets) => id !in s.lives && Accepts(s.core, targets)
    case Count(id) => SubmitAt(s, id, Inserted)
    case Record(id) => SubmitAt(s, id, Counted)
    case Enqueue(id) => SubmitAt(s, id, Recorded)
    case SubmitFails(id) => SubmitAt(s, id, Inserted) || SubmitAt(s, id, Counted) || SubmitAt(s, id, Recorded)
    case EnqueueLost(id) => SubmitAt(s, id, Recorded)
    case Withdraw(id) => SubmitAt(s, id, Failing(false)) || SubmitAt(s, id, Failing(true))
    case Unlist(id) => SubmitAt(s, id, Withdrawn(false)) || SubmitAt(s, id, Withdrawn(true))
    case UnlistFails(id) => SubmitAt(s, id, Withdrawn(false)) || SubmitAt(s, id, Withdrawn(true))
    case Undo(id) => SubmitAt(s, id, Unlisted(false)) || SubmitAt(s, id, Unlisted(true))
    case UndoFails(id) => SubmitAt(s, id, Unlisted(false)) || SubmitAt(s, id, Unlisted(true))
    case Pop => s.dispatcher.Free? && s.queue != []
    case LoseEntry => s.queue != []
    case TakeSlot => s.dispatcher.Popped? && s.slots > 0
    case Dispatch => s.dispatcher.Holding?
    case GiveSlot => s.dispatcher.Giving?
    case Uncount => s.dispatcher.Starting? && StageAt(s, s.dispatcher.id, Dispatcher, Claimed)
    case Activate => s.dispatcher.Starting? && StageAt(s, s.dispatcher.id, Dispatcher, Uncounted)
    case StatusFails =>
      s.dispatcher.Starting? && (StageAt(s, s.dispatcher.id, Dispatcher, Claimed) || StageAt(s, s.dispatcher.id, Dispatcher, Uncounted))
    case Launch => s.dispatcher.Starting? && StageAt(s, s.dispatcher.id, Dispatcher, Activated)
    case Note(id) => StageAt(s, id, Canceller, Claimed)
    case Dequeue(id) => StageAt(s, id, Canceller, Noted)
    case DequeueFails(id) => StageAt(s, id, Canceller, Noted)
    case NoteFails(id) => StageAt(s, id, Canceller, Claimed) || StageAt(s, id, Canceller, Noted)
    case End(id) => StageAt(s, id, Dispatcher, Running) || StageAt(s, id, Canceller, Dequeued)
    case Write(id) => StageAt(s, id, Dispatcher, Saving) || StageAt(s, id, Canceller, Saving)
    case EndSave(id) => StageAt(s, id, Dispatcher, Written) || StageAt(s, id, Canceller, Written)
    case Finish(id) => StageAt(s, id, Dispatcher, Saved) || StageAt(s, id, Canceller, Saved)
    case FinishFails(id) => StageAt(s, id, Dispatcher, Saved) || StageAt(s, id, Canceller, Saved)
    case FreeSlot(id) => StageAt(s, id, Dispatcher, Finished)
    case Cancel(id) => true
    case StartDrain => true
    case Pause => true
    case Resume => true
  }

  function WithSubmit(s: State, id: JobId, submit: Submit): State
    requires id in s.lives
  {
    s.(lives := s.lives[id := s.lives[id].(submit := submit)])
  }

  /** A job taken one step further, with what the step does written down. */
  function Stepped(life: Life, step: Step): Life {
    if life.stage.Waiting? then life
    else
      Life(life.targets, life.submit, Owned(life.stage.owner, step), life.claims,
           life.starts + (if step.Running? then 1 else 0), life.notes + (if step.Noted? then 1 else 0),
           life.saves + (if step.Written? then 1 else 0))
  }

  function WithStep(s: State, id: JobId, step: Step): State
    requires id in s.lives
  {
    s.(lives := s.lives[id := Stepped(s.lives[id], step)])
  }

  function Without(queue: seq<JobId>, id: JobId): seq<JobId> {
    if queue == [] then []
    else (if queue[0] == id then [] else [queue[0]]) + Without(queue[1..], id)
  }

  function Taken(life: Life, owner: Owner): Life {
    life.(stage := Owned(owner, Claimed), claims := life.claims + 1)
  }

  function Apply(s: State, a: Action): State
    requires Enabled(s, a)
  {
    match a
    case Submit(id, targets) =>
      s.(core := Submitted(s.core, id, targets), lives := s.lives[id := Life(targets, Inserted, Waiting, 0, 0, 0, 0)])
    case Count(id) => WithSubmit(s, id, Counted).(pending := s.pending + 1)
    case Record(id) => WithSubmit(s, id, Recorded)
    case Enqueue(id) => WithSubmit(s, id, Queued).(queue := s.queue + [id])
    case SubmitFails(id) => WithSubmit(s, id, Failing(s.lives[id].submit != Inserted))
    case EnqueueLost(id) => WithSubmit(s, id, Failing(true)).(queue := s.queue + [id])
    case Withdraw(id) => WithSubmit(s, id, Withdrawn(s.lives[id].submit.counted)).(core := WithoutJob(s.core, id))
    case Unlist(id) => WithSubmit(s, id, Unlisted(s.lives[id].submit.counted)).(queue := Without(s.queue, id))
    case UnlistFails(id) => WithSubmit(s, id, Unlisted(s.lives[id].submit.counted))
    case Undo(id) => WithSubmit(s, id, Undone(s.lives[id].submit.counted)).(pending := s.pending - (if s.lives[id].submit.counted then 1 else 0))
    case UndoFails(id) => WithSubmit(s, id, Undone(s.lives[id].submit.counted))
    case Pop => s.(dispatcher := Popped(s.queue[0]), queue := s.queue[1..])
    case LoseEntry => s.(queue := s.queue[1..])
    case TakeSlot => s.(dispatcher := Holding(s.dispatcher.id), slots := s.slots - 1)
    case Dispatch =>
      var id := s.dispatcher.id;
      if Dispatches(s.core, id) && id in s.lives then
        s.(core := ClaimedJob(s.core, id), lives := s.lives[id := Taken(s.lives[id], Dispatcher)], dispatcher := Starting(id))
      else s.(dispatcher := Giving)
    case GiveSlot => s.(dispatcher := Free, slots := s.slots + 1)
    case Uncount => WithStep(s, s.dispatcher.id, Uncounted).(pending := s.pending - 1)
    case Activate => WithStep(s, s.dispatcher.id, Activated).(active := s.active + 1)
    case StatusFails => WithStep(s, s.dispatcher.id, Activated)
    case Launch => WithStep(s, s.dispatcher.id, Running).(dispatcher := Free)
    case Note(id) => WithStep(s, id, Noted)
    case Dequeue(id) => WithStep(s, id, Dequeued).(queue := Without(s.queue, id))
    case DequeueFails(id) => WithStep(s, id, Dequeued)
    case NoteFails(id) => WithStep(s, id, Over).(core := WithoutJob(s.core, id))
    case End(id) =>
      var owner := s.lives[id].stage.owner;
      WithStep(s, id, if id in s.core.jobs then Saving else if owner == Dispatcher then Finished else Over)
        .(core := Finalized(s.core, id))
    case Write(id) => WithStep(s, id, Written)
    case EndSave(id) => WithStep(s, id, Saved).(core := s.core.(saving := s.core.saving - 1))
    case Finish(id) =>
      if s.lives[id].stage.owner == Dispatcher then WithStep(s, id, Finished).(active := s.active - 1)
      else WithStep(s, id, Over).(pending := s.pending - 1)
    case FinishFails(id) => WithStep(s, id, if s.lives[id].stage.owner == Dispatcher then Finished else Over)
    case FreeSlot(id) => WithStep(s, id, Over).(slots := s.slots + 1)
    case Cancel(id) =>
      if Waits(s.core, id) && id in s.lives then
        s.(core := ClaimedJob(s.core, id), lives := s.lives[id := Taken(s.lives[id], Canceller)])
      else s
    case StartDrain =>
      s.(core := Drained(s.core),
         lives := map id | id in s.lives :: if Waits(s.core, id) then Taken(s.lives[id], Canceller) else s.lives[id])
    case Pause => s.(core := s.core.(paused := true))
    case Resume => s.(core := s.core.(paused := false))
  }

  // ---------- Runs ----------

  predicate ValidRun(s: State, run: seq<Action>)
    decreases |run|
  {
    run == [] || (Enabled(s, run[0]) && ValidRun(Apply(s, run[0]), run[1..]))
  }

  function After(s: State, run: seq<Action>): State
    requires ValidRun(s, run)
    decreases |run|
  {
    if run == [] then s else After(Apply(s, run[0]), run[1..])
  }
}
