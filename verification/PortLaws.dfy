/**
 Every interleaving of the app and the port helper over a new HTTPS port: requests, undos and confirms on one
 side, the helper's passes - which may die anywhere - on the other.
 */
module PortLaws {
  import opened Options
  import opened PortTrials

  /** Where a trial's end is, write by write. */
  datatype EndAt = SettingPort | ReadingSite | WritingSite(read: Site) | RemovingEntry | RemovingFile | Reporting

  datatype Helper =
    | Idle
    | Waiting(id: Id)                     // for the confirm, by its own stopwatch
    | Opening(port: int, id: Id)          // the trial's file not written yet
    | Listing(port: int, id: Id)          // written, not listed yet
    | Answering(port: int, id: Id)        // listed: nginx is to answer on both ports
    | Ending(outcome: Outcome, id: Id, kept: Option<int>, at: EndAt)

  /** A confirm that was accepted, and the status it was checked against. */
  datatype Acceptance = Acceptance(id: Id, reached: int, status: Status)

  /** `requests`, `accepted` and `kept` are history: every request made, every confirm accepted, every port set. */
  datatype State = State(
    files: Files, helper: Helper,
    seen: set<Site>,                      // read by the app, for an undo
    confirming: set<Id>,                  // accepted, not written yet
    requests: map<Id, int>, accepted: set<Acceptance>, kept: seq<int>)

  datatype Action =
    // the app
    | Peek | Request(id: Id, port: int) | Undo(previous: Site)
    | CheckConfirm(id: Id, reached: int, now: int) | WriteConfirm(id: Id)
    // the helper
    | Look(busy: set<int>, now: int) | SeeConfirmed | TimeOut
    | WriteFile | List | OpenFails | Start(now: int) | StartFails
    | EndStep | Die

  function Begin(env: Env): State {
    State(Files(env, Site(None, "", "", None), None, None), Idle, {}, {}, map[], {}, [])
  }

  predicate Enabled(s: State, a: Action) {
    match a
    case Peek => true
    case Request(id, port) => id != "" && id !in s.requests && ValidPort(port)
    case Undo(previous) => previous in s.seen
    case CheckConfirm(_, _, _) => true
    case WriteConfirm(id) => id in s.confirming
    case Look(_, _) => s.helper.Idle?
    case SeeConfirmed => s.helper.Waiting? && s.files.site.confirmed == s.helper.id
    case TimeOut => s.helper.Waiting?
    case WriteFile => s.helper.Opening?
    case List => s.helper.Listing?
    case OpenFails => s.helper.Opening? || s.helper.Listing?
    case Start(_) => s.helper.Answering?
    case StartFails => s.helper.Answering?
    case EndStep => s.helper.Ending?
    case Die => true
  }

  /** The trial's end begins with what the status says is tried. */
  function EndBegun(f: Files, outcome: Outcome, id: Id): Helper {
    var kept := KeptPort(f, outcome);
    Ending(outcome, id, kept, if kept.Some? then SettingPort else RemovingEntry)
  }

  function EndApplied(s: State): State
    requires s.helper.Ending?
  {
    var h := s.helper;
    match h.at
    case SettingPort =>
      if h.kept.None? then s.(helper := h.(at := RemovingEntry))
      else s.(files := PortSet(s.files, h.kept.value), kept := s.kept + [h.kept.value], helper := h.(at := ReadingSite))
    case ReadingSite => s.(helper := h.(at := WritingSite(s.files.site)))
    case WritingSite(read) => s.(files := s.files.(site := read.(inUse := h.kept)), helper := h.(at := RemovingEntry))
    case RemovingEntry => s.(files := EntryRemoved(s.files), helper := h.(at := RemovingFile))
    case RemovingFile => s.(files := FileRemoved(s.files), helper := h.(at := Reporting))
    case Reporting => s.(files := Reported(s.files, h.outcome, h.id), helper := Idle)
  }

  function Apply(s: State, a: Action): State
    requires Enabled(s, a)
  {
    match a
    case Peek => s.(seen := s.seen + {s.files.site})
    case Request(id, port) =>
      s.(files := s.files.(site := Requested(s.files.site, port, id)), requests := s.requests[id := port])
    case Undo(previous) => s.(files := s.files.(site := PutBack(s.files.site, previous)))
    case CheckConfirm(id, reached, now) =>
      if ConfirmAnswer(s.files, id, reached, now) == Confirmed then
        s.(confirming := s.confirming + {id}, accepted := s.accepted + {Acceptance(id, reached, Read(s.files.status))})
      else s
    case WriteConfirm(id) => s.(files := s.files.(site := s.files.site.(confirmed := id)))
    case Look(busy, now) =>
      s.(files := Looked(s.files, busy, now),
         helper := match NextStep(s.files, busy, now)
                   case Nothing => Idle
                   case Wait(_, id) => Waiting(id)
                   case Try(port, id) => Opening(port, id)
                   case End(outcome, _, id) => EndBegun(s.files, outcome, id))
    case SeeConfirmed => s.(helper := Idle)
    case TimeOut => s.(helper := EndBegun(s.files, Rollback, s.helper.id))
    case WriteFile => s.(files := FileWritten(s.files, s.helper.port), helper := Listing(s.helper.port, s.helper.id))
    case List => s.(files := EntryAdded(s.files), helper := Answering(s.helper.port, s.helper.id))
    case OpenFails => s.(helper := EndBegun(s.files, Fail, s.helper.id))
    case Start(now) => s.(files := Tried(s.files, s.helper.port, s.helper.id, now), helper := Idle)
    case StartFails => s.(helper := EndBegun(s.files, Fail, s.helper.id))
    case EndStep => EndApplied(s)
    case Die => s.(helper := Idle)
  }

  predicate ValidRun(s: State, run: seq<Action>)
    decreases |run|
  {
    run == [] || (Enabled(s, run[0]) && ValidRun(Apply(s, run[0]), run[1..]))
  }

  function After(s: State, run: seq<Action>): State
    requires ValidRun(s, run)
    decreases |run|
  {
    if run == [] then s else After(Apply(s, run[0]), run[1..])
  }

  function EndSteps(n: nat): seq<Action> {
    if n == 0 then [] else [EndStep] + EndSteps(n - 1)
  }

  /** A trial's end, write by write. */
  function WholeEnd(f: Files, outcome: Outcome): seq<Action> {
    EndSteps(if KeptPort(f, outcome).Some? then 6 else 3)
  }

  /** Left alone, a trial's end does what Closed says. */
  lemma EndIsClosed(s: State, outcome: Outcome, id: Id)
    requires s.helper == EndBegun(s.files, outcome, id)
    ensures var run := WholeEnd(s.files, outcome);
            ValidRun(s, run) && After(s, run).files == Closed(s.files, outcome, id) && After(s, run).helper == Idle
  {
    if KeptPort(s.files, outcome).Some? {
      var s1 := EndApplied(s);
      var s2 := EndApplied(s1);
      RemovalEnds(EndApplied(s2));
      First(s2, EndStep, EndSteps(3));
      First(s1, EndStep, EndSteps(4));
      First(s, EndStep, EndSteps(5));
    } else {
      RemovalEnds(s);
    }
    hide ValidRun;
    hide After;
  }

  lemma RemovalEnds(s: State)
    requires s.helper.Ending? && s.helper.at == RemovingEntry
    ensures ValidRun(s, EndSteps(3))
    ensures After(s, EndSteps(3)).files == Reported(FileRemoved(EntryRemoved(s.files)), s.helper.outcome, s.helper.id)
    ensures After(s, EndSteps(3)).helper == Idle
  {
    var s1 := EndApplied(s);
    var s2 := EndApplied(s1);
    First(s2, EndStep, EndSteps(0));
    First(s1, EndStep, EndSteps(1));
    First(s, EndStep, EndSteps(2));
  }

  lemma First(s: State, a: Action, rest: seq<Action>)
    requires Enabled(s, a) && ValidRun(Apply(s, a), rest)
    ensures ValidRun(s, [a] + rest) && After(s, [a] + rest) == After(Apply(s, a), rest)
  {
    assert ([a] + rest)[1..] == rest;
  }

  /** A run and one step more. */
  lemma {:induction false} Then(s: State, run: seq<Action>, a: Action)
    requires ValidRun(s, run) && Enabled(After(s, run), a)
    ensures ValidRun(s, run + [a]) && After(s, run + [a]) == Apply(After(s, run), a)
    decreases |run|
  {
    hide Apply;
    hide Enabled;
    if run == [] {
      var one := run + [a];
      assert one[0] == a && one[1..] == [];
      assert ValidRun(Apply(s, a), one[1..]) && After(Apply(s, a), one[1..]) == Apply(s, a);
    } else {
      Then(Apply(s, run[0]), run[1..], a);
      assert (run + [a])[1..] == run[1..] + [a];
    }
  }

  // ---------- Only a confirmed port is kept ----------

  /** This port was confirmed from itself while it was on trial for this request. */
  ghost predicate WasAccepted(s: State, id: Id, port: int) {
    exists a :: a in s.accepted && IsFor(a, id, port)
  }

  predicate IsFor(a: Acceptance, id: Id, port: int) {
    a.id == id && a.reached == port && a.status.state == Trying && a.status.id == id && a.status.trying == Some(port)
  }

  ghost predicate SiteHolds(s: State, site: Site) {
    && (site.id != "" ==> site.id in s.requests && site.request == Some(s.requests[site.id]))
    && (site.confirmed != "" ==> Approved(s, site.confirmed))
  }

  ghost predicate Approved(s: State, id: Id) {
    id in s.requests && WasAccepted(s, id, s.requests[id])
  }

  ghost predicate StatusHolds(s: State) {
    var status := Read(s.files.status);
    status.state == Trying ==> status.id != "" && status.id in s.requests && status.trying == Some(s.requests[status.id])
  }

  ghost predicate HelperHolds(s: State) {
    match s.helper
    case Idle => true
    case Waiting(_) => true
    case Opening(port, id) => id != "" && id in s.requests && s.requests[id] == port
    case Listing(port, id) => id != "" && id in s.requests && s.requests[id] == port
    case Answering(port, id) => id != "" && id in s.requests && s.requests[id] == port
    case Ending(outcome, id, kept, at) =>
      && (kept.Some? ==> outcome == Keep && WasAccepted(s, id, kept.value) && Read(s.files.status).state == Trying
                         && Read(s.files.status).id == id && Read(s.files.status).trying == kept)
      && (at.WritingSite? ==> SiteHolds(s, at.read))
  }

  ghost predicate Holds(s: State) {
    && SiteHolds(s, s.files.site)
    && (forall site | site in s.seen :: SiteHolds(s, site))
    && (forall id | id in s.confirming :: Approved(s, id))
    && StatusHolds(s)
    && HelperHolds(s)
  }

  /** What history only grows by doesn't spoil it. */
  lemma SiteStillHolds(s: State, t: State, site: Site)
    requires SiteHolds(s, site) && s.accepted <= t.accepted
    requires forall id | id in s.requests :: id in t.requests && t.requests[id] == s.requests[id]
    ensures SiteHolds(t, site)
  {
    if site.confirmed != "" {
      ApprovedStill(s, t, site.confirmed);
    }
  }

  lemma ApprovedStill(s: State, t: State, id: Id)
    requires Approved(s, id) && s.accepted <= t.accepted
    requires forall i | i in s.requests :: i in t.requests && t.requests[i] == s.requests[i]
    ensures Approved(t, id)
  {
    var a :| a in s.accepted && IsFor(a, id, s.requests[id]);
    assert a in t.accepted && IsFor(a, id, t.requests[id]);
  }

  lemma HistoryGrows(s: State, a: Action)
    requires Enabled(s, a)
    ensures var t := Apply(s, a);
            s.accepted <= t.accepted && forall id | id in s.requests :: id in t.requests && t.requests[id] == s.requests[id]
  {
  }

  lemma StepHolds(s: State, a: Action)
    requires Enabled(s, a) && Holds(s)
    ensures Holds(Apply(s, a))
  {
    var t := Apply(s, a);
    HistoryGrows(s, a);
    forall site | SiteHolds(s, site) ensures SiteHolds(t, site) {
      SiteStillHolds(s, t, site);
    }
    forall id | Approved(s, id) ensures Approved(t, id) {
      ApprovedStill(s, t, id);
    }
    StepHoldsNow(s, a);
  }

  lemma StepHoldsNow(s: State, a: Action)
    requires Enabled(s, a) && Holds(s)
    requires forall site | SiteHolds(s, site) :: SiteHolds(Apply(s, a), site)
    requires forall id | Approved(s, id) :: Approved(Apply(s, a), id)
    ensures Holds(Apply(s, a))
  {
    hide SiteHolds;
    hide Approved;
    hide StatusHolds;
    hide HelperHolds;
    SiteIsKept(s, a);
    SeenIsKept(s, a);
    ConfirmingIsKept(s, a);
    StatusIsKept(s, a);
    HelperIsKept(s, a);
  }

  lemma SiteIsKept(s: State, a: Action)
    requires Enabled(s, a) && Holds(s) && (forall site | SiteHolds(s, site) :: SiteHolds(Apply(s, a), site))
    requires forall id | Approved(s, id) :: Approved(Apply(s, a), id)
    ensures SiteHolds(Apply(s, a), Apply(s, a).files.site)
  {
    var t := Apply(s, a);
    hide Approved;
    assert SiteHolds(t, s.files.site);
    match a {
      case Undo(previous) => assert SiteHolds(t, previous);
      case WriteConfirm(id) => assert Approved(t, id);
      case EndStep =>
        if s.helper.at.WritingSite? {
          assert SiteHolds(t, s.helper.at.read);
        }
      case _ =>
    }
  }

  lemma SeenIsKept(s: State, a: Action)
    requires Enabled(s, a) && Holds(s) && (forall site | SiteHolds(s, site) :: SiteHolds(Apply(s, a), site))
    ensures forall site | site in Apply(s, a).seen :: SiteHolds(Apply(s, a), site)
  {
    hide SiteHolds;
    hide StatusHolds;
    hide HelperHolds;
  }

  lemma ConfirmingIsKept(s: State, a: Action)
    requires Enabled(s, a) && Holds(s) && (forall id | Approved(s, id) :: Approved(Apply(s, a), id))
    ensures forall id | id in Apply(s, a).confirming :: Approved(Apply(s, a), id)
  {
    hide SiteHolds;
    hide HelperHolds;
    var t := Apply(s, a);
    forall id | id in t.confirming ensures Approved(t, id) {
      if id !in s.confirming {
        var made := Acceptance(id, a.reached, Read(s.files.status));
        assert made in t.accepted && IsFor(made, id, t.requests[id]);
      }
    }
  }

  lemma StatusIsKept(s: State, a: Action)
    requires Enabled(s, a) && Holds(s)
    ensures StatusHolds(Apply(s, a))
  {
    hide SiteHolds;
    hide Approved;
    hide WasAccepted;
  }

  lemma HelperIsKept(s: State, a: Action)
    requires Enabled(s, a) && Holds(s) && (forall site | SiteHolds(s, site) :: SiteHolds(Apply(s, a), site))
    requires forall id | Approved(s, id) :: Approved(Apply(s, a), id)
    ensures HelperHolds(Apply(s, a))
  {
    var t := Apply(s, a);
    assert SiteHolds(t, s.files.site);
    if s.helper.Ending? && s.helper.kept.Some? {
      StillAccepted(s, a, s.helper.id, s.helper.kept.value);
    }
    if a.Look? && NextStep(s.files, a.busy, a.now).End? && NextStep(s.files, a.busy, a.now).outcome == Keep {
      assert Approved(s, s.files.site.confirmed);
      StillAccepted(s, a, s.files.site.confirmed, s.requests[s.files.site.confirmed]);
    }
    hide WasAccepted;
  }

  lemma StillAccepted(s: State, a: Action, id: Id, port: int)
    requires Enabled(s, a) && WasAccepted(s, id, port)
    ensures WasAccepted(Apply(s, a), id, port)
  {
    HistoryGrows(s, a);
    var was :| was in s.accepted && IsFor(was, id, port);
    assert was in Apply(s, a).accepted;
  }

  lemma {:induction false} RunHolds(s: State, run: seq<Action>)
    requires Holds(s) && ValidRun(s, run)
    ensures Holds(After(s, run))
    decreases |run|
  {
    hide Holds;
    hide Apply;
    hide Enabled;
    if run != [] {
      StepHolds(s, run[0]);
      RunHolds(Apply(s, run[0]), run[1..]);
    }
  }

  /** In every run, the port changes only to one an admin confirmed from that port, while it was on trial for the request the
      helper now ends - wherever the helper dies, and whatever is requested or undone meanwhile. */
  lemma PortChangesOnlyIfConfirmed(env: Env, run: seq<Action>, a: Action)
    requires ValidRun(Begin(env), run) && Enabled(After(Begin(env), run), a)
    ensures var s := After(Begin(env), run);
            var port, status := Apply(s, a).files.env.port, Read(s.files.status);
            port != s.files.env.port ==>
              && s.helper.Ending? && s.helper.outcome == Keep
              && status.state == Trying && status.id == s.helper.id && status.trying == Some(port)
              && WasAccepted(s, s.helper.id, port)
  {
    RunHolds(Begin(env), run);
    hide SiteHolds;
    hide WasAccepted;
  }

  // ---------- A trial ended otherwise leaves everything as it was ----------

  /** Between the helper's passes, nothing is on trial. */
  ghost predicate Quiet(s: State) {
    s.helper.Idle? && Read(s.files.status).state != Trying
  }

  /** While the helper lives: the compose list is `base`, and the trial's entry is last in it exactly while a trial is set up. */
  ghost predicate Tidy(s: State, base: seq<string>) {
    var compose, trying := s.files.env.compose, Read(s.files.status).state == Trying;
    match s.helper
    case Idle => if trying then compose == base + [TRIAL_ENTRY] else compose == base && s.files.trial == None
    case Waiting(_) => trying && compose == base + [TRIAL_ENTRY]
    case Opening(_, _) => !trying && compose == base && s.files.trial == None
    case Listing(_, _) => !trying && compose == base
    case Answering(_, _) => !trying && compose == base + [TRIAL_ENTRY]
    case Ending(_, _, _, at) =>
      if at.Reporting? then compose == base && s.files.trial == None
      else if at.RemovingFile? then compose == base
      else compose == base || compose == base + [TRIAL_ENTRY]
  }

  function PortNow(kept: seq<int>, first: int): int {
    if kept == [] then first else kept[|kept| - 1]
  }

  lemma TidyIsKept(s: State, a: Action, base: seq<string>)
    requires Enabled(s, a) && a != Die && TRIAL_ENTRY !in base && Tidy(s, base)
    ensures Tidy(Apply(s, a), base)
  {
    WithoutNone(base);
    WithoutJoins(base, [TRIAL_ENTRY]);
    assert EntryWithout([TRIAL_ENTRY]) == [];
  }

  lemma {:induction false} RunIsTidy(s: State, run: seq<Action>, base: seq<string>)
    requires ValidRun(s, run) && Die !in run && TRIAL_ENTRY !in base && Tidy(s, base)
    ensures Tidy(After(s, run), base)
    decreases |run|
  {
    hide Tidy;
    if run != [] {
      assert run[0] in run && forall a | a in run[1..] :: a in run;
      TidyIsKept(s, run[0], base);
      RunIsTidy(Apply(s, run[0]), run[1..], base);
    }
  }

  /** An admin confirmed this port from itself, for some request. */
  ghost predicate SomeoneAccepted(s: State, port: int) {
    exists id :: WasAccepted(s, id, port)
  }

  ghost predicate KeptHold(s: State, first: int) {
    && s.files.env.port == PortNow(s.kept, first)
    && forall port | port in s.kept :: SomeoneAccepted(s, port)
  }

  lemma KeptAreKept(s: State, a: Action, first: int)
    requires Enabled(s, a) && Holds(s) && KeptHold(s, first)
    ensures KeptHold(Apply(s, a), first)
  {
    forall port | port in Apply(s, a).kept ensures SomeoneAccepted(Apply(s, a), port) {
      if port in s.kept {
        var id :| WasAccepted(s, id, port);
        StillAccepted(s, a, id, port);
      } else {
        StillAccepted(s, a, s.helper.id, port);
      }
    }
  }

  lemma {:induction false} RunKeepsKept(s: State, run: seq<Action>, first: int)
    requires ValidRun(s, run) && Holds(s) && KeptHold(s, first)
    ensures KeptHold(After(s, run), first) && Holds(After(s, run))
    decreases |run|
  {
    hide Holds;
    hide KeptHold;
    hide Apply;
    if run != [] {
      StepHolds(s, run[0]);
      KeptAreKept(s, run[0], first);
      RunKeepsKept(Apply(s, run[0]), run[1..], first);
    }
  }

  /** In every run, deaths and all, the port is the last one kept - the first one while none was - and every port kept was
      confirmed from itself. */
  lemma PortIsLastKept(env: Env, run: seq<Action>)
    requires ValidRun(Begin(env), run)
    ensures var t := After(Begin(env), run);
            t.files.env.port == PortNow(t.kept, env.port) && forall port | port in t.kept :: SomeoneAccepted(t, port)
  {
    RunKeepsKept(Begin(env), run, env.port);
  }

  /** While the helper doesn't die: between trials the compose list is what it was and no trial file is left - and so are all
      the settings, if every trial was rolled back or failed. */
  lemma OtherEndsChangeNothing(env: Env, run: seq<Action>)
    requires ValidRun(Begin(env), run) && Die !in run && TRIAL_ENTRY !in env.compose
    ensures var t := After(Begin(env), run);
            && (Quiet(t) ==> t.files.env.compose == env.compose && t.files.trial == None)
            && (Quiet(t) && t.kept == [] ==> t.files.env == env)
  {
    RunIsTidy(Begin(env), run, env.compose);
    PortIsLastKept(env, run);
  }

  /** The status shows the port in use - but while a kept port is set and not yet reported. */
  ghost predicate ShowsPort(s: State) {
    && ValidPort(s.files.env.port)
    && (forall id | id in s.requests :: ValidPort(s.requests[id]))
    && (s.files.status.Some? && !(s.helper.Ending? && s.helper.kept.Some? && !s.helper.at.SettingPort?) ==>
          s.files.status.value.port == Some(s.files.env.port))
    && (s.helper.Ending? && s.helper.kept.Some? ==> ValidPort(s.helper.kept.value))
  }

  lemma ShowsPortIsKept(s: State, a: Action)
    requires Enabled(s, a) && a != Die && StatusHolds(s) && ShowsPort(s)
    ensures ShowsPort(Apply(s, a))
  {
  }

  lemma {:induction false} RunShowsPort(s: State, run: seq<Action>)
    requires ValidRun(s, run) && Die !in run && Holds(s) && ShowsPort(s)
    ensures ShowsPort(After(s, run)) && Holds(After(s, run))
    decreases |run|
  {
    hide SiteHolds;
    hide HelperHolds;
    hide ShowsPort;
    hide Apply;
    if run != [] {
      assert run[0] in run && forall a | a in run[1..] :: a in run;
      StepHolds(s, run[0]);
      ShowsPortIsKept(s, run[0]);
      RunShowsPort(Apply(s, run[0]), run[1..]);
    }
  }

  /** Between the helper's steps the app sends people to the port in use - or to a trial's, exactly once it is confirmed. */
  lemma PeopleAreSentRight(env: Env, run: seq<Action>, published: int)
    requires ValidPort(env.port) && ValidRun(Begin(env), run) && Die !in run
    ensures var f := After(Begin(env), run).files;
            f.status.Some? && After(Begin(env), run).helper.Idle? ==>
              ServingPort(f, published)
              == if f.status.value.state == Trying && f.site.confirmed == f.status.value.id then Or(f.status.value.trying, 0)
                 else f.env.port
  {
    RunShowsPort(Begin(env), run);
    hide SiteHolds;
  }

  /** However it dies, the files of the install itself are never lost from the compose list. */
  lemma {:induction false} ComposeIsNeverLost(s: State, run: seq<Action>)
    requires ValidRun(s, run)
    ensures EntryWithout(After(s, run).files.env.compose) == EntryWithout(s.files.env.compose)
    decreases |run|
  {
    if run != [] {
      StepKeepsCompose(s, run[0]);
      hide Apply;
      ComposeIsNeverLost(Apply(s, run[0]), run[1..]);
    }
  }

  lemma StepKeepsCompose(s: State, a: Action)
    requires Enabled(s, a)
    ensures EntryWithout(Apply(s, a).files.env.compose) == EntryWithout(s.files.env.compose)
  {
    var before := s.files.env.compose;
    WithoutNone(before);
    WithoutNone(EntryWithout(before));
    WithoutJoins(before, [TRIAL_ENTRY]);
    assert EntryWithout([TRIAL_ENTRY]) == [];
    hide EntryWithout;
    hide Read;
  }

  // ---------- What a death in the middle of a keep changes ----------

  /** The status of a recorded trial names two ports, and the settings have one of the two. */
  ghost predicate TrialHolds(s: State) {
    var status := Read(s.files.status);
    && (status.state == Trying ==>
          && status.port.Some? && status.trying.Some? && status.port != status.trying
          && s.files.env.port in {status.port.value, status.trying.value})
    && ((s.helper.Opening? || s.helper.Listing? || s.helper.Answering?) ==> s.helper.port != s.files.env.port)
    && (s.helper.Ending? && s.helper.kept.Some? ==> status.state == Trying && status.trying == s.helper.kept)
  }

  lemma TrialIsKept(s: State, a: Action)
    requires Enabled(s, a) && TrialHolds(s)
    ensures TrialHolds(Apply(s, a))
  {
  }

  lemma {:induction false} RunKeepsTrial(s: State, run: seq<Action>)
    requires ValidRun(s, run) && TrialHolds(s)
    ensures TrialHolds(After(s, run))
    decreases |run|
  {
    hide TrialHolds;
    hide Apply;
    if run != [] {
      TrialIsKept(s, run[0]);
      RunKeepsTrial(Apply(s, run[0]), run[1..]);
    }
  }

  /** In every run, a trial ended now other than by keeping it leaves the port it began with exactly if the port tried is not
      the port in use already - a keep that died may have set it. */
  lemma RollbackRestoresIff(env: Env, run: seq<Action>, outcome: Outcome, id: Id)
    requires ValidRun(Begin(env), run) && outcome != Keep
    ensures var f := After(Begin(env), run).files;
            var status := Read(f.status);
            status.state == Trying ==>
              (Some(Closed(f, outcome, id).env.port) == status.port <==> Some(f.env.port) != status.trying)
  {
    RunKeepsTrial(Begin(env), run);
  }

  /** Some run gets from one state to the other. */
  ghost predicate Reaches(s: State, t: State) {
    exists run :: Leads(s, run, t)
  }

  ghost predicate Leads(s: State, run: seq<Action>, t: State) {
    ValidRun(s, run) && After(s, run) == t
  }

  lemma Onward(s: State, t: State, a: Action) returns (u: State)
    requires Reaches(s, t) && Enabled(t, a)
    ensures u == Apply(t, a) && Reaches(s, u)
  {
    var run :| Leads(s, run, t);
    Then(s, run, a);
    u := Apply(t, a);
    assert Leads(s, run + [a], u);
  }

  lemma CanBeTried(env: Env, id: Id, port: int, now: int) returns (t: State)
    requires id != "" && Usable(port) && port != env.port
    ensures Reaches(Begin(env), t) && t.helper == Idle && t.requests == map[id := port] && t.files.env.port == env.port
    ensures t.files.status == Some(Status(id, Trying, Some(env.port), Some(port), Some(now + TRIAL_SECONDS))) && t.files.site.id == id
  {
    assert Leads(Begin(env), [], Begin(env));
    hide Reaches;
    t := Onward(Begin(env), Begin(env), Request(id, port));
    t := Onward(Begin(env), t, Look({}, now));
    t := Onward(Begin(env), t, WriteFile);
    t := Onward(Begin(env), t, List);
    t := Onward(Begin(env), t, Start(now));
  }

  /** It does happen: a death right after a keep set the port, then a newer request, and the trial is rolled back with its port in
      use. */
  lemma KeptPortCanBeRolledBack(env: Env, id: Id, port: int, newer: Id, wanted: int, now: int)
    requires id != "" && newer != "" && newer != id && Usable(port) && port != env.port && ValidPort(wanted)
    ensures exists t :: Reaches(Begin(env), t) && RollsBackKept(t, port)
  {
    var t := DiesKeeping(env, id, port, now);
    hide Reaches;
    t := Onward(Begin(env), t, Request(newer, wanted));
    assert RollsBackKept(t, port);
  }

  /** The port set, and no more. */
  lemma DiesKeeping(env: Env, id: Id, port: int, now: int) returns (t: State)
    requires id != "" && Usable(port) && port != env.port
    ensures Reaches(Begin(env), t) && t.helper == Idle && t.requests == map[id := port] && t.files.env.port == port
    ensures t.files.status == Some(Status(id, Trying, Some(env.port), Some(port), Some(now + TRIAL_SECONDS))) && t.files.site.id == id
  {
    t := CanBeTried(env, id, port, now);
    hide Reaches;
    t := Onward(Begin(env), t, CheckConfirm(id, port, now));
    t := Onward(Begin(env), t, WriteConfirm(id));
    t := Onward(Begin(env), t, Look({}, now));
    t := Onward(Begin(env), t, EndStep);
    t := Onward(Begin(env), t, Die);
  }

  ghost predicate RollsBackKept(s: State, port: int) {
    && s.files.env.port == port && s.files.status.Some? && s.files.status.value.port != Some(port) && s.helper.Idle?
    && forall busy: set<int>, now: int :: NextStep(s.files, busy, now) == End(Rollback, Some(port), s.files.status.value.id)
  }

  // ---------- What a death leaves of a trial ----------

  /** The trial is still set up, and the helper sees nothing to do. */
  ghost predicate Abandoned(s: State) {
    && IsSetUp(s.files) && s.helper.Idle?
    && forall busy: set<int>, now: int :: NextStep(s.files, busy, now) == Nothing && Looked(s.files, busy, now) == s.files
  }

  /** Something of a trial is there: its entry, its file, or both. */
  predicate IsSetUp(f: Files) {
    TRIAL_ENTRY in f.env.compose || f.trial.Some?
  }

  predicate IsClean(f: Files) {
    TRIAL_ENTRY !in f.env.compose && f.trial == None
  }

  /** No trial is recorded, and no request is open. */
  predicate NothingOpen(f: Files) {
    Read(f.status).state != Trying && (f.site.id == "" || Read(f.status).id == f.site.id)
  }

  /** The request asked for can be tried now. */
  predicate CanTry(f: Files, busy: set<int>) {
    f.site.request.Some? && Usable(f.site.request.value) && f.site.request.value != f.env.port && f.site.request.value !in busy
  }

  /** A trial set up is abandoned exactly when none is recorded and no request is open. */
  lemma AbandonedIff(s: State)
    ensures Abandoned(s) <==> IsSetUp(s.files) && s.helper.Idle? && NothingOpen(s.files)
  {
    assert NextStep(s.files, {}, 0) == Nothing && Looked(s.files, {}, 0) == s.files <==> NothingOpen(s.files);
  }

  /** What a death left set up is abandoned by the helper's next look exactly when no trial is recorded and the request is
      answered already or can't be tried; otherwise that look takes it up. */
  lemma NextLookAbandonsIff(s: State, busy: set<int>, now: int)
    requires s.helper.Idle? && IsSetUp(s.files)
    ensures var t := Apply(s, Look(busy, now));
            && (Abandoned(t) <==> Read(s.files.status).state != Trying && (NothingOpen(s.files) || !CanTry(s.files, busy)))
            && (!Abandoned(t) ==> TakenUp(t))
  {
    AbandonedIff(Apply(s, Look(busy, now)));
  }

  /** The trial set up is one the helper is at, or has recorded - or nothing is set up. */
  ghost predicate TakenUp(s: State) {
    var trying := Read(s.files.status).state == Trying;
    match s.helper
    case Idle => trying || IsClean(s.files)
    case Waiting(_) => trying
    case Opening(_, _) => true
    case Listing(_, _) => true
    case Answering(_, _) => true
    case Ending(_, _, _, at) =>
      && (at.RemovingFile? ==> TRIAL_ENTRY !in s.files.env.compose)
      && (at.Reporting? ==> IsClean(s.files))
  }

  lemma TakenUpIsKept(s: State, a: Action)
    requires Enabled(s, a) && a != Die && TakenUp(s)
    ensures TakenUp(Apply(s, a))
  {
    WithoutNone(s.files.env.compose);
  }

  /** Whatever died before: once a trial is recorded, or taken up, it is gone whenever the helper is between trials again. */
  lemma {:induction false} TakenUpIsTakenDown(s: State, run: seq<Action>)
    requires ValidRun(s, run) && Die !in run && TakenUp(s)
    ensures TakenUp(After(s, run))
    ensures Quiet(After(s, run)) ==> IsClean(After(s, run).files)
    decreases |run|
  {
    hide Apply;
    if run != [] {
      assert run[0] in run && forall a | a in run[1..] :: a in run;
      TakenUpIsKept(s, run[0]);
      TakenUpIsTakenDown(Apply(s, run[0]), run[1..]);
    }
  }

  /** A recorded trial's next pass ends it: past the deadline the look does, else the confirm or the stopwatch - and, left
      alone, that end leaves nothing set up. */
  lemma RecordedTrialEnds(s: State, busy: set<int>, now: int)
    requires s.helper.Idle? && Read(s.files.status).state == Trying
    ensures var step, t := NextStep(s.files, busy, now), Apply(s, Look(busy, now));
            && (step.End? || (step.Wait? && now <= Or(Read(s.files.status).deadline, 0)))
            && t.files == s.files
            && var u, outcome := (if step.End? then t else Apply(t, TimeOut)), (if step.End? then step.outcome else Rollback);
            var ends := WholeEnd(s.files, outcome);
            && u.helper.Ending? && ValidRun(u, ends)
            && Quiet(After(u, ends)) && IsClean(After(u, ends).files)
  {
    var step, t := NextStep(s.files, busy, now), Apply(s, Look(busy, now));
    var u, outcome := (if step.End? then t else Apply(t, TimeOut)), (if step.End? then step.outcome else Rollback);
    EndIsClosed(u, outcome, step.id);
    WithoutNone(s.files.env.compose);
    hide ValidRun;
    hide After;
  }

  /** An abandoned trial stays set up for good: only another request, or an undo, can change that. */
  lemma {:induction false} AbandonedForGood(s: State, run: seq<Action>)
    requires Abandoned(s) && ValidRun(s, run) && forall a | a in run :: !a.Request? && !a.Undo?
    ensures Abandoned(After(s, run))
    decreases |run|
  {
    hide Abandoned;
    if run != [] {
      assert run[0] in run && forall a | a in run[1..] :: a in run;
      AbandonedIff(s);
      AbandonedIff(Apply(s, run[0]));
      AbandonedForGood(Apply(s, run[0]), run[1..]);
    }
  }

  /** The helper dies opening a trial: with its file written alone, or listed too. */
  function DiesOpening(id: Id, port: int, listed: bool): seq<Action> {
    [Peek] + [Request(id, port)] + [Look({}, 0)] + [WriteFile] + (if listed then [List] else []) + [Die]
  }

  function Orphan(env: Env, id: Id, port: int, listed: bool): State {
    var s := Begin(env);
    var asked := s.files.(site := Requested(s.files.site, port, id));
    s.(files := if listed then Opened(asked, port) else FileWritten(asked, port),
       seen := {s.files.site}, requests := map[id := port])
  }

  lemma DeathOrphans(env: Env, id: Id, port: int, listed: bool)
    requires id != "" && Usable(port) && port != env.port
    ensures ValidRun(Begin(env), DiesOpening(id, port, listed))
    ensures After(Begin(env), DiesOpening(id, port, listed)) == Orphan(env, id, port, listed)
    ensures IsSetUp(Orphan(env, id, port, listed).files)
  {
    var s := Begin(env);
    var t := AtFile(env, id, port);
    assert ValidRun(s, []) && After(s, []) == s;
    hide ValidRun;
    hide After;
    var run := [Peek] + [Request(id, port)] + [Look({}, 0)] + [WriteFile];
    if listed {
      Then(s, run, List);
      Then(s, run + [List], Die);
    } else {
      Then(s, run, Die);
      assert run + [] == run;
    }
  }

  lemma AtFile(env: Env, id: Id, port: int) returns (t: State)
    requires id != "" && Usable(port) && port != env.port
    ensures var run := [Peek] + [Request(id, port)] + [Look({}, 0)] + [WriteFile];
            ValidRun(Begin(env), run) && After(Begin(env), run) == t
    ensures t == Orphan(env, id, port, false).(helper := Listing(port, id))
  {
    var s := Begin(env);
    assert ValidRun(s, []) && After(s, []) == s;
    hide ValidRun;
    hide After;
    Then(s, [], Peek);
    assert [] + [Peek] == [Peek];
    Then(s, [Peek], Request(id, port));
    Then(s, [Peek] + [Request(id, port)], Look({}, 0));
    Then(s, [Peek] + [Request(id, port)] + [Look({}, 0)], WriteFile);
    t := Apply(Apply(Apply(Apply(s, Peek), Request(id, port)), Look({}, 0)), WriteFile);
  }

  /** Two ways a trial is abandoned after such a death: the request is undone... */
  lemma UndoneRequestAbandons(env: Env, id: Id, port: int, listed: bool)
    requires id != "" && Usable(port) && port != env.port
    ensures var run := DiesOpening(id, port, listed) + [Undo(Begin(env).files.site)];
            ValidRun(Begin(env), run) && Abandoned(After(Begin(env), run))
  {
    DeathOrphans(env, id, port, listed);
    Then(Begin(env), DiesOpening(id, port, listed), Undo(Begin(env).files.site));
    AbandonedIff(Apply(Orphan(env, id, port, listed), Undo(Begin(env).files.site)));
    hide ValidRun;
    hide After;
    hide Abandoned;
    hide DiesOpening;
  }

  /** ... or a newer one can't be tried - the port in use, say. */
  lemma NewerRequestAbandons(env: Env, id: Id, port: int, listed: bool, newer: Id, wanted: int, busy: set<int>, now: int)
    requires id != "" && Usable(port) && port != env.port
    requires newer != "" && newer != id && ValidPort(wanted) && (wanted == env.port || !Usable(wanted) || wanted in busy)
    ensures var run := DiesOpening(id, port, listed) + [Request(newer, wanted)] + [Look(busy, now)];
            ValidRun(Begin(env), run) && Abandoned(After(Begin(env), run))
  {
    DeathOrphans(env, id, port, listed);
    var s := Apply(Orphan(env, id, port, listed), Request(newer, wanted));
    Then(Begin(env), DiesOpening(id, port, listed), Request(newer, wanted));
    Then(Begin(env), DiesOpening(id, port, listed) + [Request(newer, wanted)], Look(busy, now));
    NextLookAbandonsIff(s, busy, now);
    hide ValidRun;
    hide After;
    hide Abandoned;
    hide DiesOpening;
  }
}
