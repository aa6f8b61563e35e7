/**
 The orchestrator's job table: what each region under its lock does, as a function of the state the
 lock guards and as the method that does it in place.
 */
module Orchestrators {
  import opened Options

  type JobId = nat
  type Target = string

  /** A job in the table. */
  datatype Entry = Entry(targets: set<Target>, claimed: bool)

  /** The lock's state. A device held names its job; both flags refuse new rollouts, but only a pause ends; `saving` counts the
      jobs out of the table whose save isn't over. */
  datatype Core = Core(jobs: map<JobId, Entry>, held: map<Target, JobId>, draining: bool, paused: bool, saving: int)

  // ---------- The regions ----------

  predicate Refuses(core: Core) {
    core.draining || core.paused
  }

  /** The held ones among these devices, each with its holder. */
  function Conflicts(core: Core, targets: set<Target>): map<Target, JobId> {
    map t | t in targets && t in core.held :: core.held[t]
  }

  predicate Accepts(core: Core, targets: set<Target>) {
    !Refuses(core) && forall t | t in targets :: t !in core.held
  }

  function Submitted(core: Core, id: JobId, targets: set<Target>): Core {
    core.(jobs := core.jobs[id := Entry(targets, false)],
          held := core.held + (map t | t in targets :: id))
  }

  /** Without the job: no device is left that names it as its holder. */
  function WithoutJob(core: Core, id: JobId): Core {
    core.(jobs := core.jobs - {id}, held := map t | t in core.held && core.held[t] != id :: core.held[t])
  }

  predicate Waits(core: Core, id: JobId) {
    id in core.jobs && !core.jobs[id].claimed
  }

  function ClaimedJob(core: Core, id: JobId): Core
    requires id in core.jobs
  {
    core.(jobs := core.jobs[id := core.jobs[id].(claimed := true)])
  }

  /** The dispatcher may start this job. */
  predicate Dispatches(core: Core, id: JobId) {
    !core.draining && Waits(core, id)
  }

  /** The drain's first step: nothing new is taken, and every waiting job is claimed for it. */
  function Drained(core: Core): Core {
    core.(draining := true, jobs := map id | id in core.jobs :: core.jobs[id].(claimed := true))
  }

  /** A job's end moves it from the table to the saves under way, in one step; without the job nothing changes. */
  function Finalized(core: Core, id: JobId): Core {
    if id in core.jobs then WithoutJob(core, id).(saving := core.saving + 1) else core
  }

  predicate Idle(core: Core) {
    core.jobs == map[] && core.saving <= 0
  }

  // ---------- What every region keeps ----------

  /** A device is held by a job exactly when that job is in the table and targets it - so no two jobs in the table share
      a device, and whoever holds one is in the table. */
  ghost predicate Exclusive(core: Core) {
    && (forall t | t in core.held :: core.held[t] in core.jobs && t in core.jobs[core.held[t]].targets)
    && (forall id, t | id in core.jobs && t in core.jobs[id].targets :: t in core.held && core.held[t] == id)
  }

  lemma NoSharedDevice(core: Core, a: JobId, b: JobId)
    requires Exclusive(core) && a in core.jobs && b in core.jobs && a != b
    ensures core.jobs[a].targets !! core.jobs[b].targets
    ensures core.held.Keys == set id, t | id in core.jobs && t in core.jobs[id].targets :: t
  {
    assert forall t | t in core.jobs[a].targets :: core.held[t] == a;
  }

  /** Submitting and removing keep the table exclusive... */
  lemma SubmitKeepsExclusive(core: Core, id: JobId, targets: set<Target>)
    requires Exclusive(core) && Accepts(core, targets) && id !in core.jobs
    ensures Exclusive(Submitted(core, id, targets))
  {
    var after := Submitted(core, id, targets);
    forall i, t | i in after.jobs && t in after.jobs[i].targets ensures t in after.held && after.held[t] == i {
      if i != id {
        assert t in core.jobs[i].targets && t in core.held;
      }
    }
  }

  lemma RemoveKeepsExclusive(core: Core, id: JobId)
    requires Exclusive(core)
    ensures Exclusive(WithoutJob(core, id))
  {
  }

  /** ... and so does claiming, which changes nothing else. */
  lemma ClaimKeepsExclusive(core: Core, id: JobId)
    requires Exclusive(core)
    ensures id in core.jobs ==> Exclusive(ClaimedJob(core, id))
    ensures Exclusive(Drained(core))
  {
    var drained := Drained(core);
    assert forall i | i in core.jobs :: drained.jobs[i].targets == core.jobs[i].targets;
  }

  lemma AcceptsIffNoConflict(core: Core, targets: set<Target>)
    ensures Accepts(core, targets) <==> !Refuses(core) && Conflicts(core, targets) == map[]
  {
    if t :| t in targets && t in core.held {
      assert t in Conflicts(core, targets);
    }
  }

  // ---------- The regions in place ----------

  /** A rollout: the devices it targets, when it was claimed (None while it waits), and whether its engine is asked to stop. */
  class RolloutJob {
    const id: JobId
    const targets: set<Target>
    var startedAt: Option<int>
    var stopAsked: bool

    constructor (id: JobId, targets: set<Target>)
      ensures this.id == id && this.targets == targets && startedAt == None && !stopAsked
    {
      this.id, this.targets, startedAt, stopAsked := id, targets, None, false;
    }

    /** The first claim sets the time and is the only one to answer yes. */
    method Claim(now: int) returns (queued: bool)
      modifies `startedAt
      ensures queued == old(startedAt).None?
      ensures startedAt == if queued then Some(now) else old(startedAt)
    {
      if startedAt.Some? {
        return false;
      }
      startedAt := Some(now);
      return true;
    }
  }

  datatype Answer = Accepted | Refused | Busy(conflicts: map<Target, JobId>)

  datatype Cancelling = Unknown | Ended(job: RolloutJob) | Asked(job: RolloutJob)

  class Orchestrator {
    var jobs: map<JobId, RolloutJob>
    var held: map<Target, JobId>
    var draining: bool
    var paused: bool
    var saving: int

    ghost function Abstract(): Core
      reads this, jobs.Values
    {
      Core(map id | id in jobs :: Entry(jobs[id].targets, jobs[id].startedAt.Some?), held, draining, paused, saving)
    }

    /** Each job is its own object, under its own id, and the table is exclusive. */
    ghost predicate Valid()
      reads this, jobs.Values
    {
      && (forall id | id in jobs :: jobs[id].id == id)
      && Exclusive(Abstract())
    }

    constructor ()
      ensures Valid() && Abstract() == Core(map[], map[], false, false, 0)
    {
      jobs, held, draining, paused, saving := map[], map[], false, false, 0;
    }

    /** Conflicts as answered: each held device with its holder's object, which does target it. */
    method FindConflicts(targets: set<Target>) returns (found: map<Target, RolloutJob>)
      requires Valid()
      ensures found.Keys == Conflicts(Abstract(), targets).Keys
      ensures forall t | t in found :: found[t].id == Conflicts(Abstract(), targets)[t] && t in found[t].targets
    {
      assert forall t | t in held :: t in Abstract().held;
      found := map t | t in targets && t in held :: jobs[held[t]];
    }

    /** The answer names every conflict there is; the table changes for an accepted job alone, and stays exclusive. */
    method Submit(job: RolloutJob) returns (answer: Answer)
      requires Valid() && job.id !in jobs && job.startedAt == None
      modifies this
      ensures Valid()
      ensures answer == (if Refuses(old(Abstract())) then Refused
                         else if Conflicts(old(Abstract()), job.targets) != map[] then Busy(Conflicts(old(Abstract()), job.targets))
                         else Accepted)
      ensures Abstract() == (if answer == Accepted then Submitted(old(Abstract()), job.id, job.targets) else old(Abstract()))
      ensures answer == Accepted ==> jobs == old(jobs)[job.id := job]
    {
      hide Exclusive;
      if draining || paused {
        return Refused;
      }
      var busy := map t | t in job.targets && t in held :: held[t];
      if busy != map[] {
        return Busy(busy);
      }
      ghost var before := Abstract();
      AcceptsIffNoConflict(before, job.targets);
      Insert(job);
      return Accepted;
    }

    method Insert(job: RolloutJob)
      requires Valid() && job.id !in jobs && job.startedAt == None && Accepts(Abstract(), job.targets)
      modifies this
      ensures Valid() && Abstract() == Submitted(old(Abstract()), job.id, job.targets) && jobs == old(jobs)[job.id := job]
    {
      hide Exclusive;
      ghost var before := Abstract();
      ghost var after := Submitted(before, job.id, job.targets);
      SubmitKeepsExclusive(before, job.id, job.targets);
      jobs := jobs[job.id := job];
      assert Abstract().jobs == after.jobs;
      held := held + (map t | t in job.targets :: job.id);
      assert Abstract() == after.(held := held);
      assert held == after.held;
      hide Submitted;
      hide Accepts;
    }

    /** Answers the job it took out; None leaves the table as it was. */
    method Remove(id: JobId) returns (job: Option<RolloutJob>)
      requires Valid()
      modifies this
      ensures Valid() && Abstract() == WithoutJob(old(Abstract()), id)
      ensures job == if id in old(jobs) then Some(old(jobs)[id]) else None
    {
      ghost var before := Abstract();
      RemoveKeepsExclusive(before, id);
      job := if id in jobs then Some(jobs[id]) else None;
      held := map t | t in held && held[t] != id :: held[t];
      jobs := jobs - {id};
      assert Abstract() == WithoutJob(before, id);
    }

    /** A queued job is claimed at once; a running one is only asked to stop. */
    method Cancel(id: JobId, now: int) returns (cancelling: Cancelling)
      requires Valid()
      modifies jobs.Values
      ensures Valid() && jobs == old(jobs)
      ensures forall other | other in jobs ::
                jobs[other].stopAsked == (old(jobs[other].stopAsked) || (other == id && !Waits(old(Abstract()), id)))
      ensures id !in jobs ==> cancelling == Unknown && Abstract() == old(Abstract())
      ensures id in jobs ==>
                if Waits(old(Abstract()), id) then cancelling == Ended(jobs[id]) && Abstract() == ClaimedJob(old(Abstract()), id)
                else cancelling == Asked(jobs[id]) && Abstract() == old(Abstract())
    {
      if id !in jobs {
        return Unknown;
      }
      ghost var before := Abstract();
      ClaimKeepsExclusive(before, id);
      var job := jobs[id];
      var queued := job.Claim(now);
      if queued {
        assert Abstract() == ClaimedJob(before, id);
        return Ended(job);
      }
      job.stopAsked := true;
      assert Abstract() == before;
      return Asked(job);
    }

    /** The dispatcher's claim of a queue entry; None: gone, claimed, or stopping. */
    method Dispatch(id: JobId, now: int) returns (job: Option<RolloutJob>)
      requires Valid()
      modifies jobs.Values`startedAt
      ensures Valid() && jobs == old(jobs)
      ensures if Dispatches(old(Abstract()), id) then job == Some(jobs[id]) && Abstract() == ClaimedJob(old(Abstract()), id)
              else job == None && Abstract() == old(Abstract())
    {
      if id !in jobs || draining {
        return None;
      }
      ghost var before := Abstract();
      ClaimKeepsExclusive(before, id);
      var queued := jobs[id].Claim(now);
      if !queued {
        assert Abstract() == before;
        return None;
      }
      assert Abstract() == ClaimedJob(before, id);
      return Some(jobs[id]);
    }

    /** The drain's first step; the jobs it claimed are the caller's to record as cancelled. */
    method StartDrain(now: int) returns (queued: set<RolloutJob>)
      requires Valid()
      modifies this, jobs.Values`startedAt
      ensures Valid() && jobs == old(jobs) && Abstract() == Drained(old(Abstract()))
      ensures queued == set id | id in jobs && Waits(old(Abstract()), id) :: jobs[id]
    {
      hide Exclusive;
      ghost var before := Abstract();
      ClaimKeepsExclusive(before, 0);
      draining := true;
      queued := {};
      var left := jobs.Keys;
      while left != {}
        invariant left <= jobs.Keys
        invariant jobs == old(jobs) && held == old(held) && draining && paused == old(paused) && saving == old(saving)
        invariant forall id | id in jobs && id in left :: jobs[id].startedAt == old(jobs[id].startedAt)
        invariant forall id | id in jobs && id !in left :: jobs[id].startedAt.Some?
        invariant queued <= jobs.Values
        invariant forall id | id in jobs :: jobs[id] in queued <==> id !in left && old(jobs[id].startedAt).None?
        decreases left
      {
        var id :| id in left;
        var claimed := jobs[id].Claim(now);
        if claimed {
          queued := queued + {jobs[id]};
        }
        left := left - {id};
      }
      assert Abstract().jobs == Drained(before).jobs;
    }

    /** The first step of a job's end; None: it wasn't here. */
    method StartFinalize(id: JobId) returns (job: Option<RolloutJob>)
      requires Valid()
      modifies this
      ensures Valid() && Abstract() == Finalized(old(Abstract()), id)
      ensures job == if id in old(jobs) then Some(old(jobs)[id]) else None
    {
      ghost var before := Abstract();
      job := Remove(id);
      if job.Some? {
        saving := saving + 1;
      } else {
        assert Abstract() == before;
      }
      assert Abstract() == Finalized(before, id);
    }

    method EndSave()
      requires Valid()
      modifies `saving
      ensures Valid() && Abstract() == old(Abstract()).(saving := old(saving) - 1)
    {
      saving := saving - 1;
    }

    method Pause()
      requires Valid()
      modifies `paused
      ensures Valid() && Abstract() == old(Abstract()).(paused := true)
    {
      paused := true;
    }

    /** Clears the pause and leaves a drain on. */
    method Resume()
      requires Valid()
      modifies `paused
      ensures Valid() && Abstract() == old(Abstract()).(paused := false)
    {
      paused := false;
    }

    method IsIdle() returns (idle: bool)
      requires Valid()
      ensures idle == Idle(Abstract())
    {
      idle := jobs == map[] && saving <= 0;
      assert Abstract().jobs.Keys == jobs.Keys;
    }
  }
}
