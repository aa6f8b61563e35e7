/**
 The rollouts' queue: what becomes of every entry, and that no rollout is forgotten.
 */
module RolloutQueue {
  import opened Options
  import opened Orchestrators
  import opened Rollouts
  import opened RolloutLaws

  /** A job's entries: in the queue, and with the dispatcher. */
  ghost function Entries(s: State, id: JobId): int {
    multiset(s.queue)[id] + One(AtDispatcher(s, id))
  }

  lemma {:induction false} WithoutCounts(queue: seq<JobId>, id: JobId, other: JobId)
    ensures multiset(Without(queue, id))[other] == if other == id then 0 else multiset(queue)[other]
  {
    if queue != [] {
      WithoutCounts(queue[1..], id, other);
      assert queue == [queue[0]] + queue[1..];
    }
  }

  lemma RestCounts(queue: seq<JobId>, other: JobId)
    requires queue != []
    ensures multiset(queue)[other] == multiset(queue[1..])[other] + One(other == queue[0])
  {
    assert queue == [queue[0]] + queue[1..];
  }

  /** How many of a job's entries a step adds, or takes away. */
  ghost function Moves(s: State, a: Action, id: JobId): int
    requires Enabled(s, a)
  {
    if a == Enqueue(id) || a == EnqueueLost(id) then 1
    else if (a.LoseEntry? && s.queue[0] == id) || (a.Dispatch? && s.dispatcher == Holding(id)) then -1
    else if a == Unlist(id) || a == Dequeue(id) then -(multiset(s.queue)[id] as int)
    else 0
  }

  /** Every entry comes from its enqueue, and goes by a dispatch, a cancel, a withdrawal or a loss - each of its own job. */
  lemma EntriesMove(s: State, a: Action, id: JobId)
    requires Enabled(s, a)
    ensures Entries(Apply(s, a), id) == Entries(s, id) + Moves(s, a, id)
  {
    hide Apply;
    hide Enabled;
    if TouchesQueue(a) {
      QueueMoves(s, a, id);
    } else {
      QueueStays(s, a, id);
    }
  }

  predicate TouchesQueue(a: Action) {
    a.Enqueue? || a.EnqueueLost? || a.Unlist? || a.Dequeue? || a.LoseEntry? || a.Pop?
  }

  lemma QueueStays(s: State, a: Action, id: JobId)
    requires Enabled(s, a) && !TouchesQueue(a)
    ensures Apply(s, a).queue == s.queue
    ensures One(AtDispatcher(Apply(s, a), id)) == One(AtDispatcher(s, id)) - One(a.Dispatch? && s.dispatcher == Holding(id))
  {
    hide Accepts;
    hide Submitted;
    hide WithoutJob;
    hide Finalized;
    hide Drained;
    hide Stepped;
  }

  lemma QueueMoves(s: State, a: Action, id: JobId)
    requires Enabled(s, a) && TouchesQueue(a)
    ensures Entries(Apply(s, a), id) == Entries(s, id) + Moves(s, a, id)
  {
    if a.Unlist? || a.Dequeue? {
      EntriesGo(s, a, id);
    } else if a.Enqueue? || a.EnqueueLost? {
      EntryComes(s, a, id);
    } else {
      FirstEntryGoes(s, a, id);
    }
    hide *;
  }

  lemma EntriesGo(s: State, a: Action, id: JobId)
    requires Enabled(s, a) && (a.Unlist? || a.Dequeue?)
    ensures Entries(Apply(s, a), id) == Entries(s, id) + Moves(s, a, id)
  {
    hide Without;
    assert Apply(s, a).queue == Without(s.queue, a.id) && Apply(s, a).dispatcher == s.dispatcher;
    WithoutCounts(s.queue, a.id, id);
    hide Apply;
    hide Enabled;
  }

  lemma EntryComes(s: State, a: Action, id: JobId)
    requires Enabled(s, a) && (a.Enqueue? || a.EnqueueLost?)
    ensures Entries(Apply(s, a), id) == Entries(s, id) + Moves(s, a, id)
  {
    hide Enabled;
    assert Apply(s, a).queue == s.queue + [a.id];
  }

  lemma FirstEntryGoes(s: State, a: Action, id: JobId)
    requires Enabled(s, a) && (a.Pop? || a.LoseEntry?)
    ensures Entries(Apply(s, a), id) == Entries(s, id) + Moves(s, a, id)
  {
    RestCounts(s.queue, id);
  }

  /** Its enqueue is still to come. */
  predicate IsEarly(s: State, id: JobId) {
    id in s.lives ==> s.lives[id].submit.Inserted? || s.lives[id].submit.Counted? || s.lives[id].submit.Recorded?
  }

  /** At most one entry, and none before the enqueue. */
  ghost predicate EntriesHold(s: State, id: JobId) {
    Entries(s, id) <= 1 && (IsEarly(s, id) ==> Entries(s, id) == 0)
  }

  lemma EarlyWasEarly(s: State, a: Action, id: JobId)
    requires Enabled(s, a)
    ensures IsEarly(Apply(s, a), id) ==> IsEarly(s, id) && a != Enqueue(id) && a != EnqueueLost(id)
    ensures a == Enqueue(id) || a == EnqueueLost(id) ==> IsEarly(s, id)
  {
    hide Accepts;
    hide Submitted;
    hide WithoutJob;
    hide Finalized;
    hide Without;
  }

  // ---------- Waiting jobs ----------

  /** Claimed by nobody, and not withdrawn. */
  predicate IsUnclaimed(s: State, id: JobId) {
    id in s.lives && s.lives[id].stage.Waiting? && !IsWithdrawn(s.lives[id])
  }

  /** Submitted whole, too. */
  predicate IsWaiting(s: State, id: JobId) {
    IsUnclaimed(s, id) && s.lives[id].submit.Queued?
  }

  /** A job nobody has claimed is in the table - a drain leaves none - and, once its submit is whole, has its entry. */
  ghost predicate WaitingHolds(s: State, id: JobId) {
    && (IsUnclaimed(s, id) ==> id in s.core.jobs && !s.core.draining)
    && (IsWaiting(s, id) ==> Entries(s, id) == 1)
  }

  lemma UnclaimedStays(s: State, a: Action, id: JobId)
    requires Enabled(s, a) && JobHolds(s, id) && WaitingHolds(s, id) && IsUnclaimed(Apply(s, a), id)
    ensures id in Apply(s, a).core.jobs && !Apply(s, a).core.draining
    ensures IsUnclaimed(s, id) || a.Submit?
    ensures !(a.Dispatch? && s.dispatcher == Holding(id)) && a != Unlist(id) && a != Dequeue(id)
  {
    if OfDispatcher(a) {
      DispatcherLeavesUnclaimed(s, a, id);
    } else if FromOutside(a) {
      OutsideLeavesUnclaimed(s, a, id);
    } else {
      OthersLeaveUnclaimed(s, a, id);
    }
    hide *;
  }

  lemma DispatcherLeavesUnclaimed(s: State, a: Action, id: JobId)
    requires Enabled(s, a) && JobHolds(s, id) && WaitingHolds(s, id) && IsUnclaimed(Apply(s, a), id) && OfDispatcher(a)
    ensures id in Apply(s, a).core.jobs && !Apply(s, a).core.draining && IsUnclaimed(s, id)
    ensures !(a.Dispatch? && s.dispatcher == Holding(id))
  {
    hide Entries;
    hide Drained;
    hide Submitted;
    hide Stepped;
  }

  lemma OutsideLeavesUnclaimed(s: State, a: Action, id: JobId)
    requires Enabled(s, a) && JobHolds(s, id) && WaitingHolds(s, id) && IsUnclaimed(Apply(s, a), id) && FromOutside(a)
    ensures id in Apply(s, a).core.jobs && !Apply(s, a).core.draining && IsUnclaimed(s, id)
  {
    hide Entries;
    hide Submitted;
    hide Stepped;
  }

  lemma OthersLeaveUnclaimed(s: State, a: Action, id: JobId)
    requires Enabled(s, a) && WaitingHolds(s, id) && IsUnclaimed(Apply(s, a), id) && !OfDispatcher(a) && !FromOutside(a)
    ensures id in Apply(s, a).core.jobs && !Apply(s, a).core.draining
    ensures IsUnclaimed(s, id) || a.Submit?
    ensures a != Unlist(id) && a != Dequeue(id)
  {
    hide Entries;
    hide Without;
    hide Drained;
    hide ClaimedJob;
  }

  lemma WaitingWasWaiting(s: State, a: Action, id: JobId)
    requires Enabled(s, a) && IsWaiting(Apply(s, a), id)
    ensures IsWaiting(s, id) || (IsUnclaimed(s, id) && a == Enqueue(id))
  {
    hide Accepts;
    hide Without;
    hide Finalized;
    hide WithoutJob;
  }

  lemma WaitingIsKept(s: State, a: Action, id: JobId)
    requires Enabled(s, a) && JobHolds(s, id) && EntriesHold(s, id) && WaitingHolds(s, id) && !a.LoseEntry?
    ensures EntriesHold(Apply(s, a), id) && WaitingHolds(Apply(s, a), id)
  {
    hide Apply;
    hide Enabled;
    hide JobHolds;
    EntriesMove(s, a, id);
    EarlyWasEarly(s, a, id);
    if IsUnclaimed(Apply(s, a), id) {
      UnclaimedStays(s, a, id);
    }
    if IsWaiting(Apply(s, a), id) {
      WaitingWasWaiting(s, a, id);
    }
  }

  predicate KeepsEntries(run: seq<Action>) {
    forall a | a in run :: !a.LoseEntry?
  }

  lemma {:induction false} RunKeepsWaiting(s: State, run: seq<Action>, id: JobId, max: nat)
    requires Holds(s, max) && EntriesHold(s, id) && WaitingHolds(s, id) && ValidRun(s, run) && KeepsEntries(run)
    ensures EntriesHold(After(s, run), id) && WaitingHolds(After(s, run), id)
    decreases |run|
  {
    hide EntriesHold;
    hide WaitingHolds;
    hide JobHolds;
    hide Exclusive;
    hide Apply;
    hide Enabled;
    if run != [] {
      assert run[0] in run && forall a | a in run[1..] :: a in run;
      StepHolds(s, run[0], max);
      WaitingIsKept(s, run[0], id);
      RunKeepsWaiting(Apply(s, run[0]), run[1..], id, max);
    }
  }

  /** No rollout is forgotten: while the store loses no entry, every rollout submitted whole and claimed by nobody - whatever else
      failed, was cancelled, paused or drained - is in the table, with exactly one entry for the dispatcher to take. */
  lemma NothingIsForgotten(max: nat, run: seq<Action>, id: JobId)
    requires ValidRun(Start(max), run) && KeepsEntries(run)
    ensures var s := After(Start(max), run);
            && Entries(s, id) <= 1
            && (id in s.lives && s.lives[id].submit.Queued? && s.lives[id].stage.Waiting? ==>
                  id in s.core.jobs && !s.core.draining && Entries(s, id) == 1)
  {
    StartHolds(max);
    RunKeepsWaiting(Start(max), run, id, max);
  }

  /** Whether new rollouts are refused: only a pause and a resume change the one flag, and a drain sets the other for good. */
  lemma FlagsAre(s: State, a: Action)
    requires Enabled(s, a)
    ensures var t := Apply(s, a);
            && (t.core.paused <==> a.Pause? || (s.core.paused && !a.Resume?))
            && (t.core.draining <==> a.StartDrain? || s.core.draining)
            && (Refuses(t.core) <==> t.core.paused || t.core.draining)
  {
    hide Accepts;
    hide Without;
    hide Stepped;
  }
}
