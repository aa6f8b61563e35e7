/**
 A new HTTPS port tried next to the one in use: the files the app and the port helper share, and what each
 of their steps reads and writes.
 */
module PortTrials {
  import opened Options

  type Id = string                        // one per request; empty while there is none

  const TRIAL_ENTRY := "config/port-trial.yaml"
  const TRIAL_SECONDS: int := 120

  /** The install's own settings: the port published, and its compose files. */
  datatype Env = Env(port: int, compose: seq<string>)

  /** What the app asks for (None: not a number), and the port nginx redirects to. */
  datatype Site = Site(request: Option<int>, id: Id, confirmed: Id, inUse: Option<int>)

  datatype ApplyState = Trying | Applied | RolledBack | Failed | Unknown

  /** The helper's last answer. */
  datatype Status = Status(id: Id, state: ApplyState, port: Option<int>, trying: Option<int>, deadline: Option<int>)

  const NO_STATUS := Status("", Unknown, None, None, None)

  /** `trial`: the port in the trial's compose file. */
  datatype Files = Files(env: Env, site: Site, status: Option<Status>, trial: Option<int>)

  datatype Outcome = Keep | Rollback | Fail

  datatype Step = Nothing | Wait(trying: Option<int>, id: Id) | Try(port: int, id: Id) | End(outcome: Outcome, trying: Option<int>, id: Id)

  function Read(status: Option<Status>): Status {
    if status.None? then NO_STATUS else status.value
  }

  predicate Usable(port: int) {
    1 <= port <= 65535 && port != 80
  }

  predicate ValidPort(port: int) {
    1 <= port <= 65535
  }

  // ---------- The helper ----------

  /** What the helper does next. */
  function NextStep(f: Files, busy: set<int>, now: int): Step {
    var status, id := Read(f.status), f.site.id;
    if status.state == Trying then
      if status.id != id then End(Rollback, status.trying, status.id)
      else if f.site.confirmed == id then End(Keep, status.trying, id)
      else if now > Or(status.deadline, 0) then End(Rollback, status.trying, id)
      else Wait(status.trying, id)
    else if id == "" || status.id == id then Nothing
    else if f.site.request.None? || !Usable(f.site.request.value) then Nothing
    else if f.site.request.value == f.env.port || f.site.request.value in busy then Nothing
    else Try(f.site.request.value, id)
  }

  function Or(value: Option<int>, default: int): int {
    if value.None? then default else value.value
  }

  /** The status after a look: a request with nothing to try gets its answer there and then. */
  function Looked(f: Files, busy: set<int>, now: int): Files {
    var status, id := Read(f.status), f.site.id;
    if status.state == Trying || id == "" || status.id == id || NextStep(f, busy, now).Try? then f
    else
      f.(status := Some(Status(id, if f.site.request == Some(f.env.port) && Usable(f.env.port) then Applied else Failed,
                               Some(f.env.port), None, None)))
  }

  function EntryWithout(compose: seq<string>): seq<string> {
    if compose == [] then []
    else (if compose[0] == TRIAL_ENTRY then [] else [compose[0]]) + EntryWithout(compose[1..])
  }

  function EntryAdded(f: Files): Files {
    if TRIAL_ENTRY in f.env.compose then f else f.(env := f.env.(compose := f.env.compose + [TRIAL_ENTRY]))
  }

  /** A port that can be tried next to the one in use. */
  predicate CanTry(f: Files, busy: set<int>, port: int) {
    1 <= port <= 65535 && port != 80 && port != f.env.port && port !in busy
  }

  /** A request without an answer yet. */
  predicate IsNew(f: Files) {
    Read(f.status).state != Trying && f.site.id != "" && Read(f.status).id != f.site.id
  }

  /** The two writes that open one: the file first, then its place in the list. */
  function FileWritten(f: Files, port: int): Files {
    f.(trial := Some(port))
  }

  function Opened(f: Files, port: int): Files {
    EntryAdded(FileWritten(f, port))
  }

  function Tried(f: Files, port: int, id: Id, now: int): Files {
    f.(status := Some(Status(id, Trying, Some(f.env.port), Some(port), Some(now + TRIAL_SECONDS))))
  }

  /** The writes that end a trial, in their order. */
  function PortSet(f: Files, port: int): Files {
    f.(env := f.env.(port := port))
  }

  function InUseSet(f: Files, port: int): Files {
    f.(site := f.site.(inUse := Some(port)))
  }

  function EntryRemoved(f: Files): Files {
    if TRIAL_ENTRY in f.env.compose then f.(env := f.env.(compose := EntryWithout(f.env.compose))) else f
  }

  function FileRemoved(f: Files): Files {
    f.(trial := None)
  }

  function Reported(f: Files, outcome: Outcome, id: Id): Files {
    f.(status := Some(Status(id, match outcome case Keep => Applied case Rollback => RolledBack case Fail => Failed,
                             Some(f.env.port), None, None)))
  }

  /** The port a trial's end keeps. */
  function KeptPort(f: Files, outcome: Outcome): Option<int> {
    var trying := Read(f.status).trying;
    if outcome == Keep && trying.Some? && trying.value != 0 then trying else None
  }

  function Closed(f: Files, outcome: Outcome, id: Id): Files {
    var kept := KeptPort(f, outcome);
    var changed := if kept.Some? then InUseSet(PortSet(f, kept.value), kept.value) else f;
    Reported(FileRemoved(EntryRemoved(changed)), outcome, id)
  }

  // ---------- The app ----------

  function Requested(site: Site, port: int, id: Id): Site {
    site.(request := Some(port), id := id, confirmed := "")
  }

  /** The request of before, put back. */
  function PutBack(site: Site, previous: Site): Site {
    site.(request := previous.request, id := previous.id, confirmed := previous.confirmed)
  }

  datatype Answer = Confirmed | NoTrial | OtherPort | TooLate

  function ConfirmAnswer(f: Files, id: Id, reached: int, now: int): Answer {
    var status := Read(f.status);
    if status.state != Trying || id == "" || status.id != id then NoTrial
    else if status.trying.None? || !ValidPort(status.trying.value) || status.trying.value != reached then OtherPort
    else if status.deadline.Some? && status.deadline.value != 0 && now > status.deadline.value then TooLate
    else Confirmed
  }

  /** The port people reach the app on now. */
  function ServingPort(f: Files, published: int): int {
    var status := Read(f.status);
    if status.state == Trying && status.id != "" && status.id == f.site.confirmed && status.trying.Some? && ValidPort(status.trying.value)
    then status.trying.value
    else if status.port.Some? && ValidPort(status.port.value) then status.port.value
    else published
  }

  // ---------- In place ----------

  class Install {
    var env: Env
    var site: Site
    var status: Option<Status>
    var trial: Option<int>
    ghost const own: seq<string>         // the install's own compose files

    /** Whatever is on trial, the install's own compose files are listed, in their order. */
    ghost predicate Valid()
      reads this
    {
      EntryWithout(env.compose) == own
    }

    ghost function Abstract(): Files
      reads this
    {
      Files(env, site, status, trial)
    }

    constructor (env: Env)
      ensures Valid() && Abstract() == Files(env, Site(None, "", "", None), None, None)
    {
      this.env, site, status, trial := env, Site(None, "", "", None), None, None;
      own := EntryWithout(env.compose);
    }

    /** Whenever there is nothing to do, looking again finds nothing either; a request's answer is in the status by then. */
    method Next(busy: set<int>, now: int) returns (step: Step)
      requires Valid()
      modifies `status
      ensures Valid()
      ensures step == Nothing ==>
                forall other: set<int>, later: int :: NextStep(Abstract(), other, later) == Nothing && Looked(Abstract(), other, later) == Abstract()
      ensures step == NextStep(old(Abstract()), busy, now)
      ensures Abstract() == Looked(old(Abstract()), busy, now)
      ensures step.Try? <==> IsNew(old(Abstract())) && site.request.Some? && CanTry(Abstract(), busy, site.request.value)
      ensures step.Try? ==> step == Try(site.request.value, site.id)
      ensures status != old(status) ==>
                && IsNew(old(Abstract())) && !step.Try?
                && status == Some(Status(site.id, if site.request == Some(env.port) && env.port != 80 && ValidPort(env.port) then Applied else Failed,
                                         Some(env.port), None, None))
      ensures IsNew(old(Abstract())) && !step.Try? ==> !IsNew(Abstract())
      ensures Read(status).state == Trying ==>
                && (step == Wait(Read(status).trying, site.id) <==>
                      Read(status).id == site.id && site.confirmed != site.id && now <= Or(Read(status).deadline, 0))
                && (step == End(Keep, Read(status).trying, site.id) <==> Read(status).id == site.id && site.confirmed == site.id)
                && (step.Wait? || step.End?) && (step.End? && step.outcome != Keep ==> step == End(Rollback, Read(status).trying, Read(status).id))
      ensures Read(status).state != Trying ==> step.Try? || step == Nothing
    {
      var read := Read(status);
      if read.state == Trying {
        if read.id != site.id {
          return End(Rollback, read.trying, read.id);
        }
        if site.confirmed == site.id {
          return End(Keep, read.trying, site.id);
        }
        if now > Or(read.deadline, 0) {
          return End(Rollback, read.trying, site.id);
        }
        return Wait(read.trying, site.id);
      }
      if site.id == "" || read.id == site.id {
        return Nothing;
      }
      var answer := Failed;
      if site.request.Some? && Usable(site.request.value) {
        if site.request.value == env.port {
          answer := Applied;
        } else if site.request.value !in busy {
          return Try(site.request.value, site.id);
        }
      }
      status := Some(Status(site.id, answer, Some(env.port), None, None));
      return Nothing;
    }

    /** The trial's entry is listed once, after the others; opened again, nothing more changes. */
    method Open(port: int)
      requires Valid()
      modifies `env, `trial
      ensures Valid() && Abstract() == Opened(old(Abstract()), port)
      ensures TRIAL_ENTRY in env.compose && env.port == old(env).port && trial == Some(port)
      ensures TRIAL_ENTRY !in old(env).compose ==> env.compose == own + [TRIAL_ENTRY]
      ensures Opened(Abstract(), port) == Abstract()
    {
      WithoutNone(env.compose);
      WithoutJoins(env.compose, [TRIAL_ENTRY]);
      assert EntryWithout([TRIAL_ENTRY]) == [];
      trial := Some(port);
      if TRIAL_ENTRY !in env.compose {
        env := env.(compose := env.compose + [TRIAL_ENTRY]);
      }
    }

    /** From now on the trial can be confirmed, from its own port and in its time alone. */
    method StartTrial(port: int, id: Id, now: int)
      requires Valid()
      modifies `status
      ensures Valid() && Abstract() == Tried(old(Abstract()), port, id, now)
      ensures id != "" && ValidPort(port) ==>
                forall which: Id, reached: int, at: int ::
                  ConfirmAnswer(Abstract(), which, reached, at) == Confirmed <==>
                    which == id && reached == port && (at <= now + 120 || now + 120 == 0)
    {
      status := Some(Status(id, Trying, Some(env.port), Some(port), Some(now + TRIAL_SECONDS)));
    }

    /** The trial ends: nothing of it is left, and the port is changed by a keep alone, to the one tried. */
    method Close(outcome: Outcome, id: Id)
      requires Valid()
      modifies this
      ensures Valid() && Abstract() == Closed(old(Abstract()), outcome, id)
      ensures env.compose == own && trial == None && status.Some? && status.value.id == id && status.value.state != Trying
      ensures var tried := Or(Read(old(status)).trying, 0);
              if outcome == Keep && tried != 0 then env.port == tried && site == old(site).(inUse := Some(tried))
              else env.port == old(env).port && site == old(site)
      ensures status.value.port == Some(env.port)
      ensures status.value.state == Applied <==> outcome == Keep
      ensures status.value.state == RolledBack <==> outcome == Rollback
      ensures outcome != Keep ==> site == old(site)
    {
      WithoutNone(env.compose);
      WithoutNone(own);
      var trying := Read(status).trying;
      if outcome == Keep && trying.Some? && trying.value != 0 {
        env := env.(port := trying.value);
        site := site.(inUse := Some(trying.value));
      }
      ghost var changed := Abstract();
      var compose, without := env.compose, [];
      for i := 0 to |compose|
        invariant without == EntryWithout(compose[..i]) && Abstract() == changed
      {
        WithoutOneMore(compose, i);
        if compose[i] != TRIAL_ENTRY {
          without := without + [compose[i]];
        }
      }
      assert compose[..|compose|] == compose;
      if TRIAL_ENTRY in compose {
        env := env.(compose := without);
      }
      trial := None;
      status := Some(Status(id, match outcome case Keep => Applied case Rollback => RolledBack case Fail => Failed,
                            Some(env.port), None, None));
    }

    /** Ask for a port, by an id of its own: no confirm counts for it yet, and an undo would give the site back as it was. */
    method RequestPort(port: int, id: Id) returns (previous: Option<Site>)
      requires Valid()
      modifies `site
      ensures Valid() && site == if ValidPort(port) then Requested(old(site), port, id) else old(site)
      ensures previous.Some? <==> ValidPort(port)
      ensures previous.Some? ==> PutBack(site, previous.value) == old(site)
      ensures previous.Some? && id != "" ==>
                forall busy: set<int>, now: int :: !(NextStep(Abstract(), busy, now).End? && NextStep(Abstract(), busy, now).outcome == Keep)
    {
      if !ValidPort(port) {
        return None;
      }
      previous := Some(site);
      site := site.(request := Some(port), id := id, confirmed := "");
    }

    /** Only the request goes back: the port in use stays as the helper left it. */
    method Undo(previous: Site)
      requires Valid()
      modifies `site
      ensures Valid() && site == PutBack(old(site), previous)
      ensures site.inUse == old(site).inUse
      ensures forall port: int, id: Id | old(site) == Requested(previous, port, id) :: site == previous
    {
      site := site.(request := previous.request, id := previous.id, confirmed := previous.confirmed);
    }

    /** An admin's browser came in through `reached`: the helper is told to keep the trial's port. */
    method Confirm(id: Id, reached: int, now: int) returns (answer: Answer)
      requires Valid()
      modifies `site
      ensures Valid() && answer == ConfirmAnswer(old(Abstract()), id, reached, now)
      ensures answer == Confirmed <==>
                && status.Some? && status.value.state == Trying && id != "" && status.value.id == id
                && status.value.trying == Some(reached) && ValidPort(reached)
                && (Or(status.value.deadline, 0) == 0 || now <= Or(status.value.deadline, 0))
      ensures answer == NoTrial <==> status.None? || status.value.state != Trying || id == "" || status.value.id != id
      ensures answer == TooLate <==>
                && status.Some? && status.value.state == Trying && id != "" && status.value.id == id
                && status.value.trying == Some(reached) && ValidPort(reached)
                && Or(status.value.deadline, 0) != 0 && now > Or(status.value.deadline, 0)
      ensures answer != Confirmed ==> site == old(site)
      ensures answer == Confirmed ==>
                && site == old(site).(confirmed := id)
                && (site.id == id ==> forall busy: set<int>, later: int :: NextStep(Abstract(), busy, later) == End(Keep, Some(reached), id))
    {
      var read := Read(status);
      if read.state != Trying || id == "" || read.id != id {
        return NoTrial;
      }
      if read.trying.None? || !ValidPort(read.trying.value) || read.trying.value != reached {
        return OtherPort;
      }
      if read.deadline.Some? && read.deadline.value != 0 && now > read.deadline.value {
        return TooLate;
      }
      site := site.(confirmed := id);
      return Confirmed;
    }
  }

  lemma {:induction false} WithoutOneMore(compose: seq<string>, i: nat)
    requires i < |compose|
    ensures EntryWithout(compose[..i + 1])
         == EntryWithout(compose[..i]) + (if compose[i] == TRIAL_ENTRY then [] else [compose[i]])
  {
    assert compose[..i + 1] == compose[..i] + [compose[i]];
    WithoutJoins(compose[..i], [compose[i]]);
  }

  lemma {:induction false} WithoutJoins(a: seq<string>, b: seq<string>)
    ensures EntryWithout(a + b) == EntryWithout(a) + EntryWithout(b)
  {
    if a == [] {
      assert a + b == b;
    } else {
      assert (a + b)[1..] == a[1..] + b;
      WithoutJoins(a[1..], b);
    }
  }

  lemma {:induction false} WithoutNone(compose: seq<string>)
    ensures TRIAL_ENTRY !in EntryWithout(compose)
    ensures TRIAL_ENTRY !in compose ==> EntryWithout(compose) == compose
  {
    if compose != [] {
      WithoutNone(compose[1..]);
      assert compose == [compose[0]] + compose[1..];
    }
  }

  /** A trial's files and back: opening one and ending it other than by keeping it leaves the install's settings as they were. */
  lemma ClosedUndoesOpened(f: Files, port: int, id: Id, now: int, outcome: Outcome)
    requires TRIAL_ENTRY !in f.env.compose && outcome != Keep
    ensures var g := Closed(Tried(Opened(f, port), port, id, now), outcome, id);
            g.env == f.env && g.site == f.site && g.trial == None
  {
    WithoutJoins(f.env.compose, [TRIAL_ENTRY]);
    WithoutNone(f.env.compose);
  }
}
