/**
 What every interleaving of the rollouts keeps.
 */
module RolloutLaws {
  import opened Options
  import opened Orchestrators
  import opened Rollouts

  // ---------- Counting jobs ----------

  ghost function Ids(lives: map<JobId, Life>, p: Life -> bool): set<JobId> {
    set id | id in lives && p(lives[id])
  }

  function One(b: bool): int {
    if b then 1 else 0
  }

  lemma OneLifeChanges(lives: map<JobId, Life>, id: JobId, life: Life, p: Life -> bool)
    ensures |Ids(lives[id := life], p)| == |Ids(lives, p)| - One(id in lives && p(lives[id])) + One(p(life))
  {
    var before, after := Ids(lives, p), Ids(lives[id := life], p);
    assert before - {id} == after - {id};
    SetsButOne(before, after, id);
  }

  lemma SetsButOne(a: set<JobId>, b: set<JobId>, id: JobId)
    requires a - {id} == b - {id}
    ensures |b| == |a| - One(id in a) + One(id in b)
  {
    assert a == (a - {id}) + (a * {id}) && b == (b - {id}) + (b * {id});
    assert a * {id} == (if id in a then {id} else {}) && b * {id} == (if id in b then {id} else {});
  }

  /** The job an action is about. */
  function Subject(s: State, a: Action): Option<JobId> {
    match a
    case Submit(id, _) => Some(id)
    case Count(id) => Some(id)
    case Record(id) => Some(id)
    case Enqueue(id) => Some(id)
    case SubmitFails(id) => Some(id)
    case EnqueueLost(id) => Some(id)
    case Withdraw(id) => Some(id)
    case Unlist(id) => Some(id)
    case UnlistFails(id) => Some(id)
    case Undo(id) => Some(id)
    case UndoFails(id) => Some(id)
    case Note(id) => Some(id)
    case Dequeue(id) => Some(id)
    case DequeueFails(id) => Some(id)
    case NoteFails(id) => Some(id)
    case End(id) => Some(id)
    case Write(id) => Some(id)
    case EndSave(id) => Some(id)
    case Finish(id) => Some(id)
    case FinishFails(id) => Some(id)
    case FreeSlot(id) => Some(id)
    case Cancel(id) => if id in s.lives then Some(id) else None
    case Dispatch => if s.dispatcher.Holding? && s.dispatcher.id in s.lives then Some(s.dispatcher.id) else None
    case Uncount => if s.dispatcher.Starting? then Some(s.dispatcher.id) else None
    case Activate => if s.dispatcher.Starting? then Some(s.dispatcher.id) else None
    case StatusFails => if s.dispatcher.Starting? then Some(s.dispatcher.id) else None
    case Launch => if s.dispatcher.Starting? then Some(s.dispatcher.id) else None
    case _ => None
  }

  // ---------- What every run keeps, whatever fails ----------

  /** Before its owner takes the job out of the table. */
  predicate BeforeEnd(step: Step) {
    match step
    case Claimed | Uncounted | Activated | Running | Noted | Dequeued => true
    case Saving | Written | Saved | Finished | Over => false
  }

  predicate IsDispatchers(step: Step) {
    !step.Noted? && !step.Dequeued?
  }

  predicate IsCancellers(step: Step) {
    !step.Uncounted? && !step.Activated? && !step.Running? && !step.Finished?
  }

  predicate BeforeStart(step: Step) {
    step.Claimed? || step.Uncounted? || step.Activated?
  }

  /** What has happened to one job: claimed once, then started by the dispatcher or recorded by a canceller, never both,
      and saved once at most. */
  ghost predicate LifeHolds(l: Life) {
    match l.stage
    case Waiting => l.claims == l.starts == l.notes == l.saves == 0
    case Owned(owner, step) =>
      && l.claims == 1 && l.saves <= 1
      && (BeforeEnd(step) || step.Saving? ==> l.saves == 0)
      && (step.Written? || step.Saved? ==> l.saves == 1)
      && (if owner.Dispatcher? then IsDispatchers(step) && l.notes == 0 && l.starts == (if BeforeStart(step) then 0 else 1)
          else IsCancellers(step) && l.starts == 0 && l.notes <= 1 && (step.Claimed? ==> l.notes == 0))
  }

  /** The table's jobs are jobs whose owner hasn't ended them, with their devices. */
  ghost predicate EntryHolds(s: State, id: JobId)
    requires id in s.core.jobs
  {
    && id in s.lives
    && s.lives[id].targets == s.core.jobs[id].targets
    && (s.core.jobs[id].claimed <==> s.lives[id].stage.Owned?)
    && (s.lives[id].stage.Owned? ==> BeforeEnd(s.lives[id].stage.step))
  }

  /** The dispatcher is starting a job exactly when that job is claimed for it and has no thread yet. */
  ghost predicate JobHolds(s: State, id: JobId) {
    && (id in s.lives ==> LifeHolds(s.lives[id]))
    && (id in s.core.jobs ==> EntryHolds(s, id))
    && (s.dispatcher == Starting(id) <==> id in s.lives && IsStarting(s.lives[id]))
  }

  predicate IsStarting(l: Life) {
    l.stage.Owned? && l.stage.owner.Dispatcher? && BeforeStart(l.stage.step)
  }

  predicate HasThread(l: Life) {
    l.stage.Owned? && l.stage.owner.Dispatcher? && !BeforeStart(l.stage.step) && !l.stage.step.Over?
  }

  predicate IsSaving(l: Life) {
    l.stage.Owned? && (l.stage.step.Saving? || l.stage.step.Written?)
  }

  function SlotsHeld(d: DispatcherAt): int {
    One(d.Holding? || d.Giving? || d.Starting?)
  }

  ghost predicate SlotsHold(s: State, max: nat) {
    s.slots >= 0 && s.slots + |Ids(s.lives, HasThread)| + SlotsHeld(s.dispatcher) == max
  }

  ghost predicate SavingHolds(s: State) {
    s.core.saving == |Ids(s.lives, IsSaving)|
  }

  ghost predicate JobsHold(s: State) {
    forall id :: JobHolds(s, id)
  }

  ghost predicate Holds(s: State, max: nat) {
    Exclusive(s.core) && JobsHold(s) && SlotsHold(s, max) && SavingHolds(s)
  }

  lemma ExclusiveIsKept(s: State, a: Action)
    requires Enabled(s, a) && Exclusive(s.core) && JobsHold(s)
    ensures Exclusive(Apply(s, a).core)
  {
    hide Exclusive;
    if a.Submit? {
      assert JobHolds(s, a.id);
    }
    match a {
      case Submit(id, targets) => SubmitKeepsExclusive(s.core, id, targets);
      case Withdraw(id) => RemoveKeepsExclusive(s.core, id);
      case NoteFails(id) => RemoveKeepsExclusive(s.core, id);
      case End(id) => EndKeepsExclusive(s.core, id);
      case Dispatch => ClaimKeepsExclusive(s.core, s.dispatcher.id);
      case Cancel(id) => ClaimKeepsExclusive(s.core, id);
      case StartDrain => ClaimKeepsExclusive(s.core, 0);
      case EndSave(_) => FlagsKeepExclusive(s.core, Apply(s, a).core);
      case Pause => FlagsKeepExclusive(s.core, Apply(s, a).core);
      case Resume => FlagsKeepExclusive(s.core, Apply(s, a).core);
      case _ =>
    }
  }

  lemma FlagsKeepExclusive(a: Core, b: Core)
    requires Exclusive(a) && a.jobs == b.jobs && a.held == b.held
    ensures Exclusive(b)
  {
  }

  lemma EndKeepsExclusive(core: Core, id: JobId)
    requires Exclusive(core)
    ensures Exclusive(Finalized(core, id))
  {
    RemoveKeepsExclusive(core, id);
    FlagsKeepExclusive(WithoutJob(core, id), WithoutJob(core, id).(saving := core.saving + 1));
  }

  // What one step does, thread by thread - each proof without what that thread's steps don't touch

  predicate OfSubmit(a: Action) {
    a.Submit? || a.Count? || a.Record? || a.Enqueue? || a.SubmitFails? || a.EnqueueLost?
  }

  predicate OfWithdrawal(a: Action) {
    a.Withdraw?
  }

  predicate OfUndo(a: Action) {
    a.Unlist? || a.UnlistFails? || a.Undo? || a.UndoFails?
  }

  predicate OfDispatcher(a: Action) {
    a.Pop? || a.LoseEntry? || a.TakeSlot? || a.Dispatch? || a.GiveSlot?
  }

  predicate OfStart(a: Action) {
    a.Uncount? || a.Activate? || a.StatusFails? || a.Launch?
  }

  predicate OfCanceller(a: Action) {
    a.Note? || a.Dequeue? || a.DequeueFails? || a.NoteFails?
  }

  predicate OfSave(a: Action) {
    a.Write? || a.EndSave?
  }

  predicate OfEnd(a: Action) {
    a.End? || a.FreeSlot?
  }

  predicate OfFinish(a: Action) {
    a.Finish? || a.FinishFails?
  }

  predicate FromOutside(a: Action) {
    a.Cancel? || a.StartDrain? || a.Pause? || a.Resume?
  }

  /** The step an owner may take next. */
  predicate Follows(stage: Stage, step: Step) {
    stage.Owned? &&
    match step
    case Claimed => false
    case Uncounted => stage.owner.Dispatcher? && stage.step.Claimed?
    case Activated => stage.owner.Dispatcher? && (stage.step.Claimed? || stage.step.Uncounted?)
    case Running => stage.owner.Dispatcher? && stage.step.Activated?
    case Noted => stage.owner.Canceller? && stage.step.Claimed?
    case Dequeued => stage.owner.Canceller? && stage.step.Noted?
    case Saving => if stage.owner.Dispatcher? then stage.step.Running? else stage.step.Dequeued?
    case Written => stage.step.Saving?
    case Saved => stage.step.Written?
    case Finished => stage.owner.Dispatcher? && (stage.step.Running? || stage.step.Saved?)
    case Over =>
      if stage.owner.Dispatcher? then stage.step.Finished?
      else stage.step.Claimed? || stage.step.Noted? || stage.step.Dequeued? || stage.step.Saved?
  }

  /** A job's stage stays, or ... */
  ghost predicate Stays(s: State, t: State, id: JobId)
    requires id in s.lives && id in t.lives
  {
    && t.lives[id] == s.lives[id].(submit := t.lives[id].submit)
    && (id in t.core.jobs ==> id in s.core.jobs && t.core.jobs[id] == s.core.jobs[id])
    && (t.dispatcher == Starting(id) <==> s.dispatcher == Starting(id))
  }

  /** ... it is claimed while it waits, or ... */
  ghost predicate IsTaken(s: State, t: State, id: JobId)
    requires id in s.lives && id in t.lives
  {
    && Waits(s.core, id)
    && (DispatcherOwns(t, id) ==> !s.core.draining)
    && t.lives[id].stage.Owned? && t.lives[id] == Taken(s.lives[id], t.lives[id].stage.owner)
    && id in t.core.jobs && t.core.jobs[id] == s.core.jobs[id].(claimed := true)
    && (t.dispatcher == Starting(id) <==> t.lives[id].stage.owner.Dispatcher? || s.dispatcher == Starting(id))
  }

  /** ... its owner takes the next step. */
  ghost predicate Advances(s: State, t: State, id: JobId)
    requires id in s.lives && id in t.lives
  {
    var stage := t.lives[id].stage;
    && stage.Owned? && Follows(s.lives[id].stage, stage.step)
    && t.lives[id] == Stepped(s.lives[id], stage.step)
    && (id in t.core.jobs ==> id in s.core.jobs && t.core.jobs[id] == s.core.jobs[id])
    && (id in t.core.jobs && BeforeEnd(s.lives[id].stage.step) ==> BeforeEnd(stage.step))
    && (t.dispatcher == Starting(id) <==> s.dispatcher == Starting(id) && !stage.step.Running?)
  }

  /** What a step does to one job. */
  ghost predicate JobSteps(s: State, a: Action, id: JobId)
    requires Enabled(s, a)
  {
    var t := Apply(s, a);
    if id in s.lives then
      && id in t.lives
      && (if Subject(s, a) == Some(id) && (OfCanceller(a) || OfSave(a) || OfEnd(a) || OfFinish(a) || OfStart(a)) then Advances(s, t, id)
          else Stays(s, t, id) || IsTaken(s, t, id))
      && (t.lives[id].stage.Owned? && t.lives[id].stage.step.Written? && s.lives[id].stage != t.lives[id].stage <==> a == Write(id))
      && (!Fails(a) ==> StaysUnfailed(s, t, id))
    else
      && (id in t.lives <==> a.Submit? && a.id == id)
      && (if id in t.lives then t.lives[id] == Life(a.targets, Inserted, Waiting, 0, 0, 0, 0) && id in t.core.jobs && t.core.jobs[id] == Entry(a.targets, false)
          else id in t.core.jobs ==> id in s.core.jobs)
      && (t.dispatcher == Starting(id) ==> s.dispatcher == Starting(id))
  }

  /** Unless its submit is withdrawn, a job leaves the table at its end alone, and then to be saved. */
  ghost predicate StaysUnfailed(s: State, t: State, id: JobId)
    requires id in s.lives && id in t.lives
  {
    !IsWithdrawn(t.lives[id]) ==>
      && !IsWithdrawn(s.lives[id])
      && (id in s.core.jobs && (t.lives[id].stage.Owned? ==> BeforeEnd(t.lives[id].stage.step)) ==> id in t.core.jobs)
      && (id in s.core.jobs && t.lives[id].stage.Owned? && IsEnded(t.lives[id]) ==> !s.lives[id].stage.Owned? || !BeforeEnd(s.lives[id].stage.step))
  }

  /** What a step does to the books. */
  ghost predicate BooksStep(s: State, a: Action)
    requires Enabled(s, a)
  {
    var t, subject := Apply(s, a), Subject(s, a);
    && t.slots + SlotsHeld(t.dispatcher) + Share(t.lives, subject, HasThread)
       == s.slots + SlotsHeld(s.dispatcher) + Share(s.lives, subject, HasThread)
    && (s.slots >= 0 ==> t.slots >= 0)
    && t.core.saving - s.core.saving == Share(t.lives, subject, IsSaving) - Share(s.lives, subject, IsSaving)
    && (!Fails(a) ==>
          && t.pending - s.pending == Share(t.lives, subject, IsCounted) - Share(s.lives, subject, IsCounted)
                                      - Share(t.lives, subject, IsUncounted) + Share(s.lives, subject, IsUncounted)
                                      - Share(t.lives, subject, IsUndone) + Share(s.lives, subject, IsUndone)
          && t.active - s.active == Share(t.lives, subject, IsActive) - Share(s.lives, subject, IsActive))
  }

  lemma SubmitSteps(s: State, a: Action, id: JobId)
    requires Enabled(s, a) && OfSubmit(a)
    ensures JobSteps(s, a, id)
  {
    if a.Submit? {
      NewJobSteps(s, a, id);
    } else {
      SubmitGoesOn(s, a, id);
    }
    hide *;
  }

  lemma NewJobSteps(s: State, a: Action, id: JobId)
    requires Enabled(s, a) && a.Submit?
    ensures JobSteps(s, a, id)
  {
    hide ClaimedJob;
    hide Drained;
    hide Taken;
    hide WithoutJob;
    hide Finalized;
    hide Dispatches;
    hide Without;
    hide Stepped;
    hide Advances;
    hide IsTaken;
    hide Follows;
  }

  lemma SubmitGoesOn(s: State, a: Action, id: JobId)
    requires Enabled(s, a) && OfSubmit(a) && !a.Submit?
    ensures JobSteps(s, a, id)
  {
    hide Accepts;
    hide Submitted;
    hide ClaimedJob;
    hide Drained;
    hide Taken;
    hide WithoutJob;
    hide Finalized;
    hide Dispatches;
    hide Without;
    hide Stepped;
    hide Advances;
    hide IsTaken;
    hide Follows;
  }

  lemma WithdrawalSteps(s: State, a: Action, id: JobId)
    requires Enabled(s, a) && OfWithdrawal(a)
    ensures JobSteps(s, a, id)
  {
  }

  lemma UndoSteps(s: State, a: Action, id: JobId)
    requires Enabled(s, a) && OfUndo(a)
    ensures JobSteps(s, a, id)
  {
    hide ClaimedJob;
    hide Drained;
    hide Taken;
    hide WithoutJob;
    hide Finalized;
    hide Accepts;
    hide Submitted;
    hide Dispatches;
    hide Without;
    hide Stepped;
    hide Advances;
    hide IsTaken;
  }

  lemma DispatcherSteps(s: State, a: Action, id: JobId)
    requires Enabled(s, a) && OfDispatcher(a)
    ensures JobSteps(s, a, id)
  {
  }

  lemma StartSteps(s: State, a: Action, id: JobId)
    requires Enabled(s, a) && OfStart(a)
    ensures JobSteps(s, a, id)
  {
    hide ClaimedJob;
    hide Drained;
    hide Taken;
    hide WithoutJob;
    hide Finalized;
    hide Accepts;
    hide Submitted;
    hide Dispatches;
    hide Without;
  }

  lemma CancellerSteps(s: State, a: Action, id: JobId)
    requires Enabled(s, a) && OfCanceller(a)
    ensures JobSteps(s, a, id)
  {
    hide ClaimedJob;
    hide Drained;
    hide Taken;
    hide Accepts;
    hide Submitted;
    hide Finalized;
    hide Dispatches;
    hide Without;
    hide IsTaken;
  }

  lemma SaveSteps(s: State, a: Action, id: JobId)
    requires Enabled(s, a) && OfSave(a)
    ensures JobSteps(s, a, id)
  {
    hide ClaimedJob;
    hide Drained;
    hide Taken;
    hide WithoutJob;
    hide Finalized;
    hide Accepts;
    hide Submitted;
    hide Dispatches;
    hide Without;
  }

  lemma EndSteps(s: State, a: Action, id: JobId)
    requires Enabled(s, a) && OfEnd(a)
    ensures JobSteps(s, a, id)
  {
    hide ClaimedJob;
    hide Drained;
    hide Taken;
    hide Accepts;
    hide Submitted;
    hide Dispatches;
    hide Without;
  }

  lemma FinishSteps(s: State, a: Action, id: JobId)
    requires Enabled(s, a) && OfFinish(a)
    ensures JobSteps(s, a, id)
  {
    hide ClaimedJob;
    hide Drained;
    hide Taken;
    hide WithoutJob;
    hide Finalized;
    hide Accepts;
    hide Submitted;
    hide Dispatches;
    hide Without;
    hide IsTaken;
  }

  lemma OutsideSteps(s: State, a: Action, id: JobId)
    requires Enabled(s, a) && FromOutside(a)
    ensures JobSteps(s, a, id)
  {
  }

  lemma EachJobSteps(s: State, a: Action, id: JobId)
    requires Enabled(s, a)
    ensures JobSteps(s, a, id)
  {
    hide *;
    ByGroup(a);
    if OfSubmit(a) {
      SubmitSteps(s, a, id);
    } else if OfWithdrawal(a) {
      WithdrawalSteps(s, a, id);
    } else if OfUndo(a) {
      UndoSteps(s, a, id);
    } else if OfDispatcher(a) {
      DispatcherSteps(s, a, id);
    } else if OfStart(a) {
      StartSteps(s, a, id);
    } else if OfCanceller(a) {
      CancellerSteps(s, a, id);
    } else if OfSave(a) {
      SaveSteps(s, a, id);
    } else if OfEnd(a) {
      EndSteps(s, a, id);
    } else if OfFinish(a) {
      FinishSteps(s, a, id);
    } else {
      OutsideSteps(s, a, id);
    }
  }

  lemma SubmitBooks(s: State, a: Action)
    requires Enabled(s, a) && OfSubmit(a)
    ensures BooksStep(s, a)
  {
    hide ClaimedJob;
    hide Drained;
    hide Taken;
    hide WithoutJob;
    hide Finalized;
    hide Dispatches;
    hide Without;
    hide Stepped;
  }

  lemma WithdrawalBooks(s: State, a: Action)
    requires Enabled(s, a) && OfWithdrawal(a)
    ensures BooksStep(s, a)
  {
    hide ClaimedJob;
    hide Drained;
    hide Taken;
    hide Finalized;
    hide Accepts;
    hide Submitted;
    hide Dispatches;
    hide Waits;
    hide Without;
    hide Stepped;
  }

  lemma UndoBooks(s: State, a: Action)
    requires Enabled(s, a) && OfUndo(a)
    ensures BooksStep(s, a)
  {
    hide ClaimedJob;
    hide Drained;
    hide Taken;
    hide WithoutJob;
    hide Finalized;
    hide Accepts;
    hide Submitted;
    hide Dispatches;
    hide Waits;
    hide Without;
    hide Stepped;
  }

  lemma DispatcherBooks(s: State, a: Action)
    requires Enabled(s, a) && OfDispatcher(a)
    requires Subject(s, a).Some? ==> JobHolds(s, Subject(s, a).value)
    ensures BooksStep(s, a)
  {
  }

  lemma StartBooks(s: State, a: Action)
    requires Enabled(s, a) && OfStart(a)
    ensures BooksStep(s, a)
  {
    hide ClaimedJob;
    hide Drained;
    hide Taken;
    hide WithoutJob;
    hide Finalized;
    hide Accepts;
    hide Submitted;
    hide Dispatches;
    hide Without;
  }

  lemma CancellerBooks(s: State, a: Action)
    requires Enabled(s, a) && OfCanceller(a)
    ensures BooksStep(s, a)
  {
    hide ClaimedJob;
    hide Drained;
    hide Taken;
    hide Finalized;
    hide Accepts;
    hide Submitted;
    hide Dispatches;
    hide Waits;
    hide Without;
  }

  lemma SaveBooks(s: State, a: Action)
    requires Enabled(s, a) && OfSave(a)
    requires Subject(s, a).Some? ==> JobHolds(s, Subject(s, a).value)
    ensures BooksStep(s, a)
  {
    hide ClaimedJob;
    hide Drained;
    hide Taken;
    hide WithoutJob;
    hide Finalized;
    hide Accepts;
    hide Submitted;
    hide Dispatches;
    hide Waits;
    hide Without;
  }

  lemma EndBooks(s: State, a: Action)
    requires Enabled(s, a) && OfEnd(a)
    requires Subject(s, a).Some? ==> JobHolds(s, Subject(s, a).value)
    ensures BooksStep(s, a)
  {
    hide Accepts;
    hide Dispatches;
    hide Waits;
    hide Submitted;
    hide ClaimedJob;
    hide Drained;
    hide Without;
    hide Taken;
    hide WithoutJob;
  }

  lemma FinishBooks(s: State, a: Action)
    requires Enabled(s, a) && OfFinish(a)
    requires Subject(s, a).Some? ==> JobHolds(s, Subject(s, a).value)
    ensures BooksStep(s, a)
  {
    hide ClaimedJob;
    hide Drained;
    hide Taken;
    hide WithoutJob;
    hide Finalized;
    hide Accepts;
    hide Submitted;
    hide Dispatches;
    hide Without;
  }

  lemma OutsideBooks(s: State, a: Action)
    requires Enabled(s, a) && FromOutside(a)
    requires Subject(s, a).Some? ==> JobHolds(s, Subject(s, a).value)
    ensures BooksStep(s, a)
  {
    hide WithoutJob;
    hide Finalized;
    hide Accepts;
    hide Submitted;
    hide Dispatches;
    hide Without;
    hide Stepped;
  }

  lemma EachBookSteps(s: State, a: Action)
    requires Enabled(s, a) && JobsHold(s)
    ensures BooksStep(s, a)
  {
    if Subject(s, a).Some? {
      assert JobHolds(s, Subject(s, a).value);
    }
    hide *;
    ByGroup(a);
    if OfSubmit(a) {
      SubmitBooks(s, a);
    } else if OfWithdrawal(a) {
      WithdrawalBooks(s, a);
    } else if OfUndo(a) {
      UndoBooks(s, a);
    } else if OfDispatcher(a) {
      DispatcherBooks(s, a);
    } else if OfStart(a) {
      StartBooks(s, a);
    } else if OfCanceller(a) {
      CancellerBooks(s, a);
    } else if OfSave(a) {
      SaveBooks(s, a);
    } else if OfEnd(a) {
      EndBooks(s, a);
    } else if OfFinish(a) {
      FinishBooks(s, a);
    } else {
      OutsideBooks(s, a);
    }
  }

  lemma ByGroup(a: Action)
    ensures OfSubmit(a) || OfWithdrawal(a) || OfUndo(a) || OfDispatcher(a) || OfStart(a) || OfCanceller(a) || OfSave(a) || OfEnd(a) || OfFinish(a)
            || FromOutside(a)
  {
  }

  lemma AdvancedHolds(life: Life, step: Step)
    requires LifeHolds(life) && Follows(life.stage, step)
    ensures LifeHolds(Stepped(life, step))
    ensures IsStarting(Stepped(life, step)) <==> IsStarting(life) && !step.Running?
  {
  }

  /** A step keeps what holds of each job... */
  lemma JobIsKept(s: State, a: Action, id: JobId)
    requires Enabled(s, a) && JobHolds(s, id)
    ensures JobHolds(Apply(s, a), id)
  {
    hide Apply;
    hide Enabled;
    hide Follows;
    EachJobSteps(s, a, id);
    if id in s.lives && Advances(s, Apply(s, a), id) {
      AdvancedHolds(s.lives[id], Apply(s, a).lives[id].stage.step);
    }
  }

  /** ... and, unless it fails, that nothing has failed for it. */
  lemma JobStaysUnfailed(s: State, a: Action, id: JobId)
    requires Enabled(s, a) && JobHolds(s, id) && !Fails(a) && id in Apply(s, a).lives
    requires id in s.lives ==> JobUnfailed(s, id)
    ensures JobUnfailed(Apply(s, a), id)
  {
    hide Apply;
    hide Enabled;
    EachJobSteps(s, a, id);
  }

  // How the counts of jobs change with it

  /** A step changes one job's life at most - except the drain's first, which claims every job in the table that waits. */
  lemma OnlySubjectChanges(s: State, a: Action)
    requires Enabled(s, a) && a != StartDrain
    ensures var t, subject := Apply(s, a), Subject(s, a);
            if subject.None? then t.lives == s.lives
            else subject.value in t.lives && t.lives == s.lives[subject.value := t.lives[subject.value]]
  {
    hide ClaimedJob;
    hide Drained;
    hide Taken;
    hide WithoutJob;
    hide Finalized;
    hide Accepts;
    hide Submitted;
    hide Without;
    hide Stepped;
  }

  /** What the job an action is about adds to a count. */
  ghost function Share(lives: map<JobId, Life>, subject: Option<JobId>, p: Life -> bool): int {
    One(subject.Some? && subject.value in lives && p(lives[subject.value]))
  }

  lemma CountChanges(s: State, a: Action, p: Life -> bool)
    requires Enabled(s, a) && JobsHold(s)
    requires forall l: Life, owner | l.stage.Waiting? :: p(Taken(l, owner)) == p(l)
    ensures var t := Apply(s, a);
            |Ids(t.lives, p)| - |Ids(s.lives, p)| == Share(t.lives, Subject(s, a), p) - Share(s.lives, Subject(s, a), p)
  {
    var t, subject := Apply(s, a), Subject(s, a);
    if a == StartDrain {
      assert forall id | id in s.core.jobs :: JobHolds(s, id);
      assert Ids(t.lives, p) == Ids(s.lives, p);
    } else {
      OnlySubjectChanges(s, a);
      if subject.Some? {
        OneLifeChanges(s.lives, subject.value, t.lives[subject.value], p);
      }
    }
  }

  lemma StepHolds(s: State, a: Action, max: nat)
    requires Enabled(s, a) && Holds(s, max)
    ensures Holds(Apply(s, a), max)
  {
    hide Apply;
    hide Enabled;
    hide Exclusive;
    hide JobHolds;
    hide Ids;
    hide Share;
    ExclusiveIsKept(s, a);
    forall id ensures JobHolds(Apply(s, a), id) {
      assert JobHolds(s, id);
      JobIsKept(s, a, id);
    }
    EachBookSteps(s, a);
    CountChanges(s, a, HasThread);
    CountChanges(s, a, IsSaving);
  }

  /** Every state of every run keeps it. */
  lemma {:induction false} RunHolds(s: State, run: seq<Action>, max: nat)
    requires Holds(s, max) && ValidRun(s, run)
    ensures Holds(After(s, run), max)
    decreases |run|
  {
    hide Holds;
    hide Apply;
    hide Enabled;
    if run != [] {
      StepHolds(s, run[0], max);
      RunHolds(Apply(s, run[0]), run[1..], max);
    }
  }

  lemma StartHolds(max: nat)
    ensures Holds(Start(max), max)
  {
    assert Ids(map[], HasThread) == {} && Ids(map[], IsSaving) == {};
  }

  /** Whatever fails: no two jobs in the table share a device, and the devices held are exactly the table's. */
  lemma TableIsExclusive(max: nat, run: seq<Action>)
    requires ValidRun(Start(max), run)
    ensures var core := After(Start(max), run).core;
            && (forall a, b | a in core.jobs && b in core.jobs && a != b :: core.jobs[a].targets !! core.jobs[b].targets)
            && (forall t :: t in core.held <==> exists id :: id in core.jobs && t in core.jobs[id].targets)
            && (forall id, t | id in core.jobs && t in core.jobs[id].targets :: core.held[t] == id)
  {
    StartHolds(max);
    RunHolds(Start(max), run, max);
    var core := After(Start(max), run).core;
    forall a, b | a in core.jobs && b in core.jobs && a != b ensures core.jobs[a].targets !! core.jobs[b].targets {
      NoSharedDevice(core, a, b);
    }
  }

  // ---------- A running rollout's devices stay held ----------

  /** Its owner is the dispatcher, and it hasn't ended: its engine runs or is about to. */
  predicate HasEngine(l: Life) {
    l.stage.Owned? && l.stage.owner.Dispatcher? && (BeforeStart(l.stage.step) || l.stage.step.Running?)
  }

  ghost predicate EnginesHold(s: State) {
    forall id | id in s.lives && HasEngine(s.lives[id]) :: id in s.core.jobs
  }

  /** One step alone can free the devices of a running rollout: withdrawing a submit whose job the dispatcher has claimed. */
  lemma OnlyWithdrawFreesEngine(s: State, a: Action)
    requires Enabled(s, a) && JobsHold(s) && EnginesHold(s)
    ensures EnginesHold(Apply(s, a)) <==> !(a.Withdraw? && HasEngine(s.lives[a.id]))
  {
    hide Exclusive;
    if a.Withdraw? && HasEngine(s.lives[a.id]) {
      assert HasEngine(Apply(s, a).lives[a.id]) && a.id !in Apply(s, a).core.jobs;
    } else {
      forall id | id in Apply(s, a).lives && HasEngine(Apply(s, a).lives[id]) ensures id in Apply(s, a).core.jobs {
        assert JobHolds(s, id);
        if id !in Apply(s, a).core.jobs {
          EngineStays(s, a, id);
        }
      }
    }
  }

  lemma EngineStays(s: State, a: Action, id: JobId)
    requires Enabled(s, a) && JobHolds(s, id) && (id in s.lives && HasEngine(s.lives[id]) ==> id in s.core.jobs)
    requires id in Apply(s, a).lives && HasEngine(Apply(s, a).lives[id]) && id !in Apply(s, a).core.jobs
    ensures a == Withdraw(id) && HasEngine(s.lives[id])
  {
    hide Apply;
    hide JobHolds;
    EachJobSteps(s, a, id);
    assert id in s.lives && HasEngine(s.lives[id]);
    LeavesTable(s, a, id);
  }

  /** The table loses a job to three steps alone. */
  lemma LeavesTable(s: State, a: Action, id: JobId)
    requires Enabled(s, a) && id in s.core.jobs && id !in Apply(s, a).core.jobs
    ensures a in {Withdraw(id), NoteFails(id), End(id)}
  {
    if OfDispatcher(a) || FromOutside(a) {
      ClaimsKeepTable(s, a, id);
    } else {
      OthersLeaveTable(s, a, id);
    }
    hide *;
  }

  lemma ClaimsKeepTable(s: State, a: Action, id: JobId)
    requires Enabled(s, a) && id in s.core.jobs && (OfDispatcher(a) || FromOutside(a))
    ensures id in Apply(s, a).core.jobs
  {
    hide Enabled;
    hide Taken;
  }

  lemma OthersLeaveTable(s: State, a: Action, id: JobId)
    requires Enabled(s, a) && id in s.core.jobs && id !in Apply(s, a).core.jobs && !OfDispatcher(a) && !FromOutside(a)
    ensures a in {Withdraw(id), NoteFails(id), End(id)}
  {
    hide Enabled;
    hide Without;
    hide Stepped;
  }

  /** Whatever the dispatcher reads from the queue was submitted whole. */
  ghost predicate QueueHolds(s: State) {
    forall id | id in s.queue || AtDispatcher(s, id) || DispatcherOwns(s, id) :: SubmitAt(s, id, Queued)
  }

  predicate AtDispatcher(s: State, id: JobId) {
    s.dispatcher in {Popped(id), Holding(id)}
  }

  predicate DispatcherOwns(s: State, id: JobId) {
    id in s.lives && s.lives[id].stage.Owned? && s.lives[id].stage.owner.Dispatcher?
  }

  lemma {:induction false} WithoutIsWithin(queue: seq<JobId>, id: JobId)
    ensures forall i :: i in Without(queue, id) <==> i in queue && i != id
  {
    if queue != [] {
      WithoutIsWithin(queue[1..], id);
      assert queue == [queue[0]] + queue[1..];
    }
  }

  lemma RestIsWithin(queue: seq<JobId>)
    requires queue != []
    ensures queue[0] in queue && forall i :: i in queue[1..] ==> i in queue
  {
  }

  lemma QueueIsKept(s: State, a: Action)
    requires Enabled(s, a) && QueueHolds(s) && !a.EnqueueLost?
    ensures QueueHolds(Apply(s, a))
  {
    var t := Apply(s, a);
    forall id | id in t.queue || AtDispatcher(t, id) || DispatcherOwns(t, id) ensures SubmitAt(t, id, Queued) {
      ReadWasQueued(s, a, id);
      if SubmitAt(s, id, Queued) {
        QueuedStays(s, a, id);
      }
    }
  }

  lemma ReadWasQueued(s: State, a: Action, id: JobId)
    requires Enabled(s, a)
    requires var t := Apply(s, a); id in t.queue || AtDispatcher(t, id) || DispatcherOwns(t, id)
    ensures id in s.queue || AtDispatcher(s, id) || DispatcherOwns(s, id) || a in {Enqueue(id), EnqueueLost(id)}
  {
    if id in Apply(s, a).queue {
      EntryWasQueued(s, a, id);
    } else {
      DispatchedWasQueued(s, a, id);
    }
    hide Apply;
  }

  lemma EntryWasQueued(s: State, a: Action, id: JobId)
    requires Enabled(s, a) && id in Apply(s, a).queue
    ensures id in s.queue || a in {Enqueue(id), EnqueueLost(id)}
  {
    hide Accepts;
    hide Stepped;
    match a {
      case Unlist(i) => WithoutIsWithin(s.queue, i);
      case Dequeue(i) => WithoutIsWithin(s.queue, i);
      case Pop => RestIsWithin(s.queue);
      case LoseEntry => RestIsWithin(s.queue);
      case _ =>
    }
  }

  lemma DispatchedWasQueued(s: State, a: Action, id: JobId)
    requires Enabled(s, a)
    requires AtDispatcher(Apply(s, a), id) || DispatcherOwns(Apply(s, a), id)
    ensures id in s.queue || AtDispatcher(s, id) || DispatcherOwns(s, id)
  {
    hide Accepts;
    hide Without;
    if a.Pop? {
      RestIsWithin(s.queue);
    }
  }

  lemma QueuedStays(s: State, a: Action, id: JobId)
    requires Enabled(s, a) && SubmitAt(s, id, Queued)
    ensures SubmitAt(Apply(s, a), id, Queued)
  {
    hide WithoutJob;
    hide Finalized;
    hide Without;
    hide Drained;
    hide Accepts;
    hide Submitted;
  }

  lemma QueuedIsNotWithdrawn(s: State, id: JobId)
    requires QueueHolds(s) && Enabled(s, Withdraw(id))
    ensures !HasEngine(s.lives[id])
  {
    assert DispatcherOwns(s, id) ==> SubmitAt(s, id, Queued);
  }

  predicate NoneLost(run: seq<Action>) {
    forall a | a in run :: !a.EnqueueLost?
  }

  lemma {:induction false} EnginesStayHeld(s: State, run: seq<Action>, max: nat)
    requires Holds(s, max) && EnginesHold(s) && QueueHolds(s) && ValidRun(s, run) && NoneLost(run)
    ensures Holds(After(s, run), max) && EnginesHold(After(s, run))
    decreases |run|
  {
    hide JobHolds;
    hide Exclusive;
    hide QueueHolds;
    hide EnginesHold;
    hide Apply;
    if run != [] {
      assert run[0] in run && forall a | a in run[1..] :: a in run;
      StepHolds(s, run[0], max);
      OnlyWithdrawFreesEngine(s, run[0]);
      QueueIsKept(s, run[0]);
      if run[0].Withdraw? {
        QueuedIsNotWithdrawn(s, run[0].id);
      }
      EnginesStayHeld(Apply(s, run[0]), run[1..], max);
    }
  }

  /** In every interleaving in which no submit fails after its queue entry is stored, a running rollout's devices stay its
      own: no two engines ever work on the same device. */
  lemma DevicesAreExclusive(max: nat, run: seq<Action>)
    requires ValidRun(Start(max), run) && NoneLost(run)
    ensures var s := After(Start(max), run);
            && (forall id, t | id in s.lives && HasEngine(s.lives[id]) && t in s.lives[id].targets ::
                  t in s.core.held && s.core.held[t] == id)
            && (forall a, b | a in s.lives && b in s.lives && a != b && HasEngine(s.lives[a]) && HasEngine(s.lives[b]) ::
                  s.lives[a].targets !! s.lives[b].targets)
  {
    StartHolds(max);
    EnginesStayHeld(Start(max), run, max);
    var s := After(Start(max), run);
    assert forall id | id in s.lives && HasEngine(s.lives[id]) :: JobHolds(s, id) && id in s.core.jobs;
    forall a, b | a in s.lives && b in s.lives && a != b && HasEngine(s.lives[a]) && HasEngine(s.lives[b])
      ensures s.lives[a].targets !! s.lives[b].targets
    {
      NoSharedDevice(s.core, a, b);
    }
  }

  /** Some run gets from one state to the other. */
  ghost predicate Reaches(s: State, t: State) {
    exists run :: Leads(s, run, t)
  }

  ghost predicate Leads(s: State, run: seq<Action>, t: State) {
    ValidRun(s, run) && After(s, run) == t
  }

  lemma Leap(s: State, a: Action)
    requires Enabled(s, a)
    ensures Reaches(s, Apply(s, a))
  {
    var t := Apply(s, a);
    assert ValidRun(t, []) && After(t, []) == t;
    assert [a][0] == a && [a][1..] == [];
    assert Leads(s, [a], t);
  }

  lemma Join(s: State, t: State, u: State)
    requires Reaches(s, t) && Reaches(t, u)
    ensures Reaches(s, u)
  {
    var first :| Leads(s, first, t);
    var second :| Leads(t, second, u);
    RunsJoin(s, first, second);
    assert Leads(s, first + second, u);
  }

  lemma {:induction false} RunsJoin(s: State, first: seq<Action>, second: seq<Action>)
    requires ValidRun(s, first) && ValidRun(After(s, first), second)
    ensures ValidRun(s, first + second) && After(s, first + second) == After(After(s, first), second)
    decreases |first|
  {
    hide Apply;
    hide Enabled;
    if first == [] {
      assert first + second == second;
    } else {
      RunsJoin(Apply(s, first[0]), first[1..], second);
      assert (first + second)[1..] == first[1..] + second;
    }
  }

  function Recording(s: State, id: JobId, targets: set<Target>): State {
    s.(core := Submitted(s.core, id, targets), lives := s.lives[id := Life(targets, Recorded, Waiting, 0, 0, 0, 0)],
       pending := s.pending + 1)
  }

  lemma CanRecord(s: State, id: JobId, targets: set<Target>)
    requires id !in s.lives && Accepts(s.core, targets)
    ensures Reaches(s, Recording(s, id, targets))
  {
    hide Reaches;
    var s1 := Apply(s, Submit(id, targets));
    Leap(s, Submit(id, targets));
    var s2 := Apply(s1, Count(id));
    Leap(s1, Count(id));
    Leap(s2, Record(id));
    assert Apply(s2, Record(id)) == Recording(s, id, targets);
    Join(s, s1, s2);
    Join(s, s2, Recording(s, id, targets));
  }

  function Starts(s: State, id: JobId): State
    requires Waits(s.core, id) && id in s.lives
  {
    s.(core := ClaimedJob(s.core, id), lives := s.lives[id := Taken(s.lives[id], Dispatcher)], queue := [],
       slots := s.slots - 1, dispatcher := Starting(id))
  }

  lemma CanDispatch(s: State, id: JobId)
    requires s.queue == [id] && s.dispatcher == Free && s.slots > 0 && Dispatches(s.core, id) && id in s.lives
    ensures Reaches(s, Starts(s, id))
  {
    hide Reaches;
    var s1 := Apply(s, Pop);
    Leap(s, Pop);
    var s2 := Apply(s1, TakeSlot);
    Leap(s1, TakeSlot);
    Leap(s2, Dispatch);
    assert Apply(s2, Dispatch) == Starts(s, id);
    Join(s, s1, s2);
    Join(s, s2, Starts(s, id));
  }

  function Started(s: State, id: JobId): State
    requires id in s.lives
  {
    s.(lives := s.lives[id := s.lives[id].(stage := Owned(Dispatcher, Running), starts := s.lives[id].starts + 1)],
       dispatcher := Free, pending := s.pending - 1, active := s.active + 1)
  }

  lemma CanLaunch(s: State, id: JobId)
    requires s.dispatcher == Starting(id) && StageAt(s, id, Dispatcher, Claimed)
    ensures Reaches(s, Started(s, id))
  {
    hide Reaches;
    var s1 := Apply(s, Uncount);
    Leap(s, Uncount);
    var s2 := Apply(s1, Activate);
    Leap(s1, Activate);
    Leap(s2, Launch);
    assert Apply(s2, Launch) == Started(s, id);
    Join(s, s1, s2);
    Join(s, s2, Started(s, id));
  }

  function LostEntry(d: Target): (s: State)
    ensures s.core == Core(map[1 := Entry({d}, false)], map[d := 1], false, false, 0)
    ensures s.lives == map[1 := Life({d}, Failing(true), Waiting, 0, 0, 0, 0)]
    ensures s.queue == [1] && s.slots == 2 && s.dispatcher == Free
  {
    var s := Recording(Start(2), 1, {d});
    assert s.core.held == map[d := 1];
    s.(lives := s.lives[1 := s.lives[1].(submit := Failing(true))], queue := [1])
  }

  lemma LostIsStored(d: Target)
    ensures Reaches(Start(2), LostEntry(d))
  {
    hide Reaches;
    var s0, s1 := Start(2), Recording(Start(2), 1, {d});
    CanRecord(s0, 1, {d});
    assert Apply(s1, EnqueueLost(1)) == LostEntry(d);
    Leap(s1, EnqueueLost(1));
    Join(s0, s1, LostEntry(d));
  }

  /** The first rollout's job, withdrawn while its engine runs: its entry was stored though its enqueue raised. */
  lemma LostEnqueueRuns(d: Target) returns (t: State)
    ensures Reaches(Start(2), t)
    ensures t.core == Core(map[], map[], false, false, 0) && t.queue == [] && t.dispatcher == Free && t.slots == 1
    ensures t.lives.Keys == {1} && HasEngine(t.lives[1]) && t.lives[1].targets == {d}
  {
    hide Reaches;
    hide Recording;
    var s0, s2 := Start(2), LostEntry(d);
    LostIsStored(d);
    var s3 := Starts(s2, 1);
    CanDispatch(s2, 1);
    var s4 := s3.(lives := s3.lives[1 := s3.lives[1].(submit := Withdrawn(true))], core := Core(map[], map[], false, false, 0));
    assert Apply(s3, Withdraw(1)) == s4 by {
      assert WithoutJob(s3.core, 1) == s4.core;
    }
    Leap(s3, Withdraw(1));
    t := Started(s4, 1);
    CanLaunch(s4, 1);
    Join(s0, s2, s3);
    Join(s0, s3, s4);
    Join(s0, s4, t);
  }

  ghost predicate SharesDevice(s: State, d: Target) {
    exists a, b :: a != b && a in s.lives && b in s.lives && HasEngine(s.lives[a]) && HasEngine(s.lives[b])
              && d in s.lives[a].targets * s.lives[b].targets
  }

  /** The one failure left out above does break it, on any device: a second rollout is started on it while the first runs. */
  lemma LostEnqueueSharesDevice(d: Target)
    ensures exists t :: Reaches(Start(2), t) && SharesDevice(t, d)
  {
    hide Reaches;
    var s0 := Start(2);
    var s1 := LostEnqueueRuns(d);
    var s2 := Recording(s1, 2, {d});
    CanRecord(s1, 2, {d});
    var s3 := s2.(lives := s2.lives[2 := s2.lives[2].(submit := Queued)], queue := [2]);
    assert Apply(s2, Enqueue(2)) == s3;
    Leap(s2, Enqueue(2));
    var t := Starts(s3, 2);
    CanDispatch(s3, 2);
    Join(s0, s1, s2);
    Join(s0, s2, s3);
    Join(s0, s3, t);
    assert HasEngine(t.lives[1]) && HasEngine(t.lives[2]);
  }

  // ---------- Once each ----------

  /** Whatever fails, a job is claimed once at most, so it is started or recorded as cancelled and never both, and its results
      are saved once at most. */
  lemma OnceEach(max: nat, run: seq<Action>, id: JobId)
    requires ValidRun(Start(max), run) && id in After(Start(max), run).lives
    ensures var l := After(Start(max), run).lives[id];
            l.claims <= 1 && l.starts + l.notes <= 1 && l.saves <= 1 && (l.saves == 1 ==> l.claims == 1)
  {
    StartHolds(max);
    RunHolds(Start(max), run, max);
    assert JobHolds(After(Start(max), run), id);
  }

  /** The slots are conserved: free ones, those of engines with a thread, and the dispatcher's own make up the maximum. */
  lemma SlotsAreConserved(max: nat, run: seq<Action>)
    requires ValidRun(Start(max), run)
    ensures var s := After(Start(max), run);
            && s.slots + |Ids(s.lives, HasThread)| + SlotsHeld(s.dispatcher) == max
            && |Ids(s.lives, HasThread)| <= max
  {
    StartHolds(max);
    RunHolds(Start(max), run, max);
  }

  // ---------- The counters ----------

  predicate Fails(a: Action) {
    a.StatusFails? || a.NoteFails? || a.FinishFails? || a.UndoFails?
  }

  /** Every step that is only tried does what it should - submits may fail at any of theirs. */
  predicate FailureFree(run: seq<Action>) {
    forall a | a in run :: !Fails(a)
  }

  /** The store counted its submit. */
  predicate IsCounted(l: Life) {
    match l.submit
    case Inserted => false
    case Counted | Recorded | Queued => true
    case Failing(counted) => counted
    case Withdrawn(counted) => counted
    case Unlisted(counted) => counted
    case Undone(counted) => counted
  }

  /** Its withdrawal was counted. */
  predicate IsUndone(l: Life) {
    l.submit == Undone(true)
  }

  predicate IsWithdrawn(l: Life) {
    l.submit.Withdrawn? || l.submit.Unlisted? || l.submit.Undone?
  }

  predicate IsEnded(l: Life) {
    l.stage.Owned? && (l.stage.step.Finished? || l.stage.step.Over?)
  }

  /** Its start, or its end as cancelled, was counted. */
  predicate IsUncounted(l: Life) {
    && l.stage.Owned?
    && (if l.stage.owner.Dispatcher? then !l.stage.step.Claimed? else l.stage.step.Over? && l.saves == 1)
  }

  /** Its start was counted, and its end was not. */
  predicate IsActive(l: Life) {
    && l.stage.Owned? && l.stage.owner.Dispatcher?
    && !l.stage.step.Claimed? && !l.stage.step.Uncounted? && !(IsEnded(l) && l.saves == 1)
  }

  /** A job whose submit is not withdrawn is in the table until its end, and saved by then. */
  ghost predicate Unfailed(s: State) {
    forall id | id in s.lives :: JobUnfailed(s, id)
  }

  ghost predicate JobUnfailed(s: State, id: JobId)
    requires id in s.lives
  {
    !IsWithdrawn(s.lives[id]) ==>
      && (s.lives[id].stage.Waiting? || BeforeEnd(s.lives[id].stage.step) ==> id in s.core.jobs)
      && (IsEnded(s.lives[id]) ==> s.lives[id].saves == 1)
  }

  ghost predicate CountsHold(s: State) {
    && s.pending == |Ids(s.lives, IsCounted)| - |Ids(s.lives, IsUncounted)| - |Ids(s.lives, IsUndone)|
    && s.active == |Ids(s.lives, IsActive)|
  }

  lemma CountsAreKept(s: State, a: Action)
    requires Enabled(s, a) && JobsHold(s) && Unfailed(s) && CountsHold(s) && !Fails(a)
    ensures Unfailed(Apply(s, a)) && CountsHold(Apply(s, a))
  {
    hide Apply;
    hide Enabled;
    hide Ids;
    hide Share;
    hide JobUnfailed;
    hide JobHolds;
    forall id | id in Apply(s, a).lives ensures JobUnfailed(Apply(s, a), id) {
      assert JobHolds(s, id);
      JobStaysUnfailed(s, a, id);
    }
    EachBookSteps(s, a);
    CountChanges(s, a, IsCounted);
    CountChanges(s, a, IsUncounted);
    CountChanges(s, a, IsUndone);
    CountChanges(s, a, IsActive);
  }

  lemma {:induction false} RunCounts(s: State, run: seq<Action>, max: nat)
    requires Holds(s, max) && Unfailed(s) && CountsHold(s) && ValidRun(s, run) && FailureFree(run)
    ensures Holds(After(s, run), max) && Unfailed(After(s, run)) && CountsHold(After(s, run))
    decreases |run|
  {
    hide Apply;
    hide Exclusive;
    hide LifeHolds;
    if run != [] {
      assert run[0] in run && forall a | a in run[1..] :: a in run;
      StepHolds(s, run[0], max);
      CountsAreKept(s, run[0]);
      RunCounts(Apply(s, run[0]), run[1..], max);
    }
  }

  /** No submit, dispatch or end of a job is under way. */
  predicate Quiet(s: State) {
    forall id | id in s.lives ::
      && (s.lives[id].submit.Queued? || s.lives[id].submit.Undone?)
      && (s.lives[id].stage.Owned? ==> BeforeEnd(s.lives[id].stage.step) || IsEnded(s.lives[id]))
  }

  predicate IsQueued(l: Life) {
    l.submit.Queued?
  }

  /** Its submit is withdrawn, and it was started, or ended as cancelled, all the same. */
  predicate TakenAnyway(l: Life) {
    IsWithdrawn(l) && IsUncounted(l)
  }

  predicate LeftActive(l: Life) {
    IsWithdrawn(l) && IsActive(l)
  }

  lemma QuietJob(s: State, id: JobId)
    requires Unfailed(s) && JobsHold(s) && s.core.jobs == map[] && Quiet(s) && id in s.lives
    ensures IsQueued(s.lives[id]) ==> IsCounted(s.lives[id]) && IsUncounted(s.lives[id]) && !IsActive(s.lives[id]) && !IsWithdrawn(s.lives[id])
    ensures !IsQueued(s.lives[id]) ==> IsWithdrawn(s.lives[id]) && (IsCounted(s.lives[id]) <==> IsUndone(s.lives[id]))
    ensures IsUndone(s.lives[id]) ==> !IsQueued(s.lives[id])
  {
    assert JobHolds(s, id) && JobUnfailed(s, id);
  }

  lemma QuietIsBalanced(s: State)
    requires Unfailed(s) && JobsHold(s) && CountsHold(s) && s.core.jobs == map[] && Quiet(s)
    ensures s.pending == -|Ids(s.lives, TakenAnyway)| && s.active == |Ids(s.lives, LeftActive)|
  {
    forall id | id in s.lives
      ensures IsCounted(s.lives[id]) <==> IsQueued(s.lives[id]) || IsUndone(s.lives[id])
      ensures IsUncounted(s.lives[id]) <==> IsQueued(s.lives[id]) || TakenAnyway(s.lives[id])
      ensures IsQueued(s.lives[id]) ==> !IsUndone(s.lives[id]) && !TakenAnyway(s.lives[id])
      ensures IsActive(s.lives[id]) <==> LeftActive(s.lives[id])
    {
      QuietJob(s, id);
    }
    hide *;
    assert CountsHold(s);
    CountsAre(s);
    EitherOr(s.lives, IsCounted, IsQueued, IsUndone);
    EitherOr(s.lives, IsUncounted, IsQueued, TakenAnyway);
    EitherOr(s.lives, IsActive, LeftActive, (l: Life) => false);
    NoIds(s.lives);
  }

  lemma CountsAre(s: State)
    requires CountsHold(s)
    ensures s.pending == |Ids(s.lives, IsCounted)| - |Ids(s.lives, IsUncounted)| - |Ids(s.lives, IsUndone)|
    ensures s.active == |Ids(s.lives, IsActive)|
  {
  }

  lemma EitherOr(lives: map<JobId, Life>, p: Life -> bool, q: Life -> bool, r: Life -> bool)
    requires forall id | id in lives :: (p(lives[id]) <==> q(lives[id]) || r(lives[id])) && !(q(lives[id]) && r(lives[id]))
    ensures |Ids(lives, p)| == |Ids(lives, q)| + |Ids(lives, r)|
  {
    assert Ids(lives, p) == Ids(lives, q) + Ids(lives, r) && Ids(lives, q) !! Ids(lives, r);
  }

  lemma NoIds(lives: map<JobId, Life>)
    ensures |Ids(lives, (l: Life) => false)| == 0
  {
  }

  lemma StartCounts(max: nat)
    ensures Unfailed(Start(max)) && CountsHold(Start(max))
  {
    assert Ids(map[], IsCounted) == {} && Ids(map[], IsUncounted) == {} && Ids(map[], IsUndone) == {} && Ids(map[], IsActive) == {};
  }

  /** Once the table is empty and nothing is under way, the counters are off by the withdrawn jobs that were started or ended all the
      same - back at zero exactly if there are none, whatever submits failed. */
  lemma CountersReturnToZero(max: nat, run: seq<Action>)
    requires ValidRun(Start(max), run) && FailureFree(run)
    ensures var s := After(Start(max), run);
            s.core.jobs == map[] && Quiet(s) ==>
              && s.pending == -|Ids(s.lives, TakenAnyway)| && s.active == |Ids(s.lives, LeftActive)|
              && (s.pending == 0 && s.active == 0 <==> forall id | id in s.lives :: !TakenAnyway(s.lives[id]))
  {
    hide Exclusive;
    hide Unfailed;
    hide CountsHold;
    hide Quiet;
    StartHolds(max);
    StartCounts(max);
    RunCounts(Start(max), run, max);
    var s := After(Start(max), run);
    if s.core.jobs == map[] && Quiet(s) {
      QuietIsBalanced(s);
      NoneIsEmpty(s);
    }
  }

  lemma NoneIsEmpty(s: State)
    ensures |Ids(s.lives, TakenAnyway)| == 0 <==> forall id | id in s.lives :: !TakenAnyway(s.lives[id])
    ensures |Ids(s.lives, TakenAnyway)| == 0 ==> |Ids(s.lives, LeftActive)| == 0
  {
    var taken := Ids(s.lives, TakenAnyway);
    if id :| id in s.lives && TakenAnyway(s.lives[id]) {
      assert id in taken;
    } else {
      assert taken == {} && Ids(s.lives, LeftActive) == {};
    }
    assert Ids(s.lives, LeftActive) <= taken;
  }

  function WithLife(s: State, id: JobId, life: Life): State {
    s.(lives := s.lives[id := life])
  }

  lemma CanCancel(s: State, id: JobId, life: Life)
    requires id in s.lives && s.lives[id] == life && life.stage.Waiting? && Waits(s.core, id)
    ensures Reaches(s, WithLife(s, id, life.(stage := Owned(Canceller, Noted), claims := life.claims + 1, notes := life.notes + 1))
                         .(core := ClaimedJob(s.core, id)))
  {
    hide Reaches;
    var t := Apply(s, Cancel(id));
    Leap(s, Cancel(id));
    Leap(t, Note(id));
    Join(s, t, Apply(t, Note(id)));
    assert Apply(t, Note(id)).lives == s.lives[id := life.(stage := Owned(Canceller, Noted), claims := life.claims + 1, notes := life.notes + 1)];
  }

  lemma CanEnd(s: State, id: JobId, life: Life)
    requires id in s.lives && s.lives[id] == life && life.stage == Owned(Canceller, Noted) && id in s.core.jobs
    ensures Reaches(s, WithLife(s, id, life.(stage := Owned(Canceller, Saving))).(core := Finalized(s.core, id), queue := Without(s.queue, id)))
  {
    hide Reaches;
    var t := Apply(s, Dequeue(id));
    Leap(s, Dequeue(id));
    Leap(t, End(id));
    Join(s, t, Apply(t, End(id)));
    assert Apply(t, End(id)).lives == s.lives[id := life.(stage := Owned(Canceller, Saving))];
  }

  lemma CanSave(s: State, id: JobId, life: Life)
    requires id in s.lives && s.lives[id] == life && life.stage == Owned(Canceller, Saving)
    ensures Reaches(s, WithLife(s, id, life.(stage := Owned(Canceller, Saved), saves := life.saves + 1))
                         .(core := s.core.(saving := s.core.saving - 1)))
  {
    hide Reaches;
    var t := Apply(s, Write(id));
    Leap(s, Write(id));
    Leap(t, EndSave(id));
    Join(s, t, Apply(t, EndSave(id)));
    assert Apply(t, EndSave(id)).lives == s.lives[id := life.(stage := Owned(Canceller, Saved), saves := life.saves + 1)];
  }

  lemma CanFinish(s: State, id: JobId, life: Life)
    requires id in s.lives && s.lives[id] == life && life.stage == Owned(Canceller, Saved)
    ensures Reaches(s, WithLife(s, id, life.(stage := Owned(Canceller, Over))).(pending := s.pending - 1))
  {
    Leap(s, Finish(id));
  }

  lemma CanWithdraw(s: State, id: JobId, life: Life)
    requires id in s.lives && s.lives[id] == life && life.submit == Recorded
    ensures Reaches(s, WithLife(s, id, life.(submit := Undone(true)))
                         .(core := WithoutJob(s.core, id), queue := Without(s.queue, id), pending := s.pending - 1))
  {
    hide Reaches;
    var t := Apply(s, SubmitFails(id));
    var u := Apply(t, Withdraw(id));
    Leap(s, SubmitFails(id));
    Leap(t, Withdraw(id));
    Join(s, t, u);
    CanUndo(u, id);
    assert u.lives == s.lives[id := life.(submit := Withdrawn(true))];
    Join(s, u, WithSubmit(u, id, Undone(true)).(queue := Without(u.queue, id), pending := u.pending - 1));
    assert WithSubmit(u, id, Undone(true)).lives == s.lives[id := life.(submit := Undone(true))];
  }

  lemma CanUndo(s: State, id: JobId)
    requires id in s.lives && s.lives[id].submit == Withdrawn(true)
    ensures Reaches(s, WithSubmit(s, id, Undone(true)).(queue := Without(s.queue, id), pending := s.pending - 1))
  {
    hide Reaches;
    var t := Apply(s, Unlist(id));
    Leap(s, Unlist(id));
    Leap(t, Undo(id));
    Join(s, t, Apply(t, Undo(id)));
    assert Apply(t, Undo(id)).lives == WithSubmit(s, id, Undone(true)).lives;
  }

  /** The other side is reached: a submit that fails after its job was cancelled and has ended takes the pending count below zero. */
  lemma WithdrawnAfterItsEnd(max: nat, id: JobId, targets: set<Target>)
    ensures exists t :: Reaches(Start(max), t) && t.core.jobs == map[] && Quiet(t) && t.pending == -1
  {
    hide Reaches;
    var s := Start(max);
    var life := Life(targets, Recorded, Waiting, 0, 0, 0, 0);
    var t1 := Recording(s, id, targets);
    CanRecord(s, id, targets);
    var noted := life.(stage := Owned(Canceller, Noted), claims := 1, notes := 1);
    var t2 := WithLife(t1, id, noted).(core := ClaimedJob(t1.core, id));
    CanCancel(t1, id, life);
    var saving := noted.(stage := Owned(Canceller, Saving));
    var t3 := WithLife(t2, id, saving).(core := Finalized(t2.core, id), queue := Without(t2.queue, id));
    CanEnd(t2, id, noted);
    var saved := saving.(stage := Owned(Canceller, Saved), saves := 1);
    var t := WithLife(t3, id, saved).(core := t3.core.(saving := t3.core.saving - 1));
    CanSave(t3, id, saving);
    var over := saved.(stage := Owned(Canceller, Over));
    var t4 := WithLife(t, id, over).(pending := t.pending - 1);
    CanFinish(t, id, saved);
    var t5 := WithLife(t4, id, over.(submit := Undone(true)))
      .(core := WithoutJob(t4.core, id), queue := Without(t4.queue, id), pending := t4.pending - 1);
    CanWithdraw(t4, id, over);
    Join(s, t1, t2);
    Join(s, t2, t3);
    Join(s, t3, t);
    Join(s, t, t4);
    Join(s, t4, t5);
    assert t5.core.jobs == map[] && t5.lives.Keys == {id};
  }

  // ---------- Pausing and draining ----------

  ghost predicate AtRest(s: State) {
    s.core.paused && Idle(s.core)
  }

  lemma NoneSaving(s: State, max: nat)
    requires Holds(s, max) && AtRest(s)
    ensures forall id | id in s.lives :: !IsSaving(s.lives[id])
  {
    assert Ids(s.lives, IsSaving) == {};
    forall id | id in s.lives ensures !IsSaving(s.lives[id]) {
      assert id !in Ids(s.lives, IsSaving);
    }
  }

  lemma RestIsKept(s: State, a: Action, max: nat)
    requires Enabled(s, a) && Holds(s, max) && AtRest(s) && a != Resume
    ensures AtRest(Apply(s, a)) && !a.Write? && !a.EndSave?
    ensures forall id | id in s.lives :: id in Apply(s, a).lives && Apply(s, a).lives[id].saves == s.lives[id].saves
  {
    NoneSaving(s, max);
    NothingSaves(s, a);
    hide Apply;
    hide Enabled;
    hide Holds;
    forall id | id in s.lives ensures id in Apply(s, a).lives && Apply(s, a).lives[id].saves == s.lives[id].saves {
      OnlyWriteSaves(s, a, id);
    }
  }

  lemma NothingSaves(s: State, a: Action)
    requires Enabled(s, a) && AtRest(s) && a != Resume && forall id | id in s.lives :: !IsSaving(s.lives[id])
    ensures AtRest(Apply(s, a)) && !a.Write? && !a.EndSave?
  {
    hide Without;
    hide Taken;
  }

  lemma OnlyWriteSaves(s: State, a: Action, id: JobId)
    requires Enabled(s, a) && id in s.lives && a != Write(id)
    ensures id in Apply(s, a).lives && Apply(s, a).lives[id].saves == s.lives[id].saves
  {
    hide Apply;
    hide Enabled;
    EachJobSteps(s, a, id);
  }

  /** While paused, once nothing is in the table or being saved, no step of any run begins or ends a save until a resume. */
  lemma {:induction false} PausedStaysAtRest(s: State, run: seq<Action>, max: nat)
    requires Holds(s, max) && AtRest(s) && ValidRun(s, run) && Resume !in run
    ensures AtRest(After(s, run))
    ensures forall a | a in run :: !a.Write? && !a.EndSave?
    ensures forall id | id in s.lives :: id in After(s, run).lives && After(s, run).lives[id].saves == s.lives[id].saves
    decreases |run|
  {
    hide Holds;
    hide Apply;
    if run != [] {
      StepHolds(s, run[0], max);
      RestIsKept(s, run[0], max);
      PausedStaysAtRest(Apply(s, run[0]), run[1..], max);
      assert run == [run[0]] + run[1..];
    }
  }

  ghost predicate IsDrained(s: State) {
    s.core.draining && forall id | id in s.core.jobs :: s.core.jobs[id].claimed
  }

  /** No job more is the dispatcher's, the table is no larger, and no submit has come in. */
  ghost predicate OnlyShrinks(s: State, t: State) {
    && t.core.jobs.Keys <= s.core.jobs.Keys
    && t.lives.Keys == s.lives.Keys
    && forall id | id in s.lives && !DispatcherOwns(s, id) ::
         !DispatcherOwns(t, id) && t.lives[id].starts == s.lives[id].starts
  }

  lemma DrainIsKept(s: State, a: Action)
    requires Enabled(s, a) && JobsHold(s) && IsDrained(s)
    ensures IsDrained(Apply(s, a)) && OnlyShrinks(s, Apply(s, a))
  {
    forall id | id in s.lives && !DispatcherOwns(s, id)
      ensures !DispatcherOwns(Apply(s, a), id) && Apply(s, a).lives[id].starts == s.lives[id].starts
    {
      assert JobHolds(s, id);
      OnlyDispatchOwns(s, a, id);
    }
  }

  lemma OnlyDispatchOwns(s: State, a: Action, id: JobId)
    requires Enabled(s, a) && JobHolds(s, id) && id in s.lives && !DispatcherOwns(s, id)
    requires !Dispatches(s.core, id)
    ensures id in Apply(s, a).lives && !DispatcherOwns(Apply(s, a), id) && Apply(s, a).lives[id].starts == s.lives[id].starts
  {
    hide Apply;
    hide Enabled;
    EachJobSteps(s, a, id);
  }

  /** After the drain's first step no job that waited ever starts, the table only shrinks, and nothing is accepted again -
      not even after a resume. */
  lemma {:induction false} DrainedOnlyShrinks(s: State, run: seq<Action>, max: nat)
    requires Holds(s, max) && IsDrained(s) && ValidRun(s, run)
    ensures IsDrained(After(s, run)) && OnlyShrinks(s, After(s, run))
    ensures Refuses(After(s, run).core)
    decreases |run|
  {
    hide Apply;
    hide Exclusive;
    hide JobHolds;
    if run != [] {
      StepHolds(s, run[0], max);
      DrainIsKept(s, run[0]);
      DrainedOnlyShrinks(Apply(s, run[0]), run[1..], max);
    }
  }

  lemma DrainStarts(s: State, max: nat)
    requires Holds(s, max)
    ensures Holds(Apply(s, StartDrain), max) && IsDrained(Apply(s, StartDrain))
    ensures forall id | id in s.lives && s.lives[id].stage.Waiting? ::
              !HasEngine(Apply(s, StartDrain).lives[id]) && Apply(s, StartDrain).lives[id].starts == 0
  {
    StepHolds(s, StartDrain, max);
    assert forall id | id in s.lives :: JobHolds(s, id);
  }
}
