/**
 Every interleaving of a discovery: its port checks, its sign-in workers, and the people who continue or
 cancel it, one lock region or one outcome of the network at a time.
 */
module ScanLaws {
  import opened Options
  import opened Scans

  datatype Stage =
    | Unchecked | Knocking
    | Abandoned                   // its check came after a cancel
    | Shut
    | Open                        // answered, not queued yet
    | Queued
    | Taken(worker: nat)
    | Settled                     // a finding or a line

  datatype Worker =
    | Free
    | Has(address: Address)       // the skip rule is asked
    | Waits(address: Address)     // for its start
    | SigningIn(address: Address, generation: nat)
    | Gone

  datatype Main = Checking | Closing | Over

  /** A sign-in's start, and the Continue count it was made under. */
  datatype Begin = Begin(generation: nat, at: real)

  /** `begins` and `wrong` are history: every start, and per Continue count the sign-ins begun under it that ended
      in wrong credentials. */
  datatype State = State(
    core: Core, stages: seq<Stage>, workers: seq<Worker>, queue: set<Address>, markers: nat, main: Main,
    now: real, begins: seq<Begin>, wrong: multiset<nat>)

  datatype Action =
    | BeginCheck(a: Address) | EndCheck(a: Address, answered: bool) | Enqueue(a: Address)
    | Take(w: nat, a: Address) | Leave(w: nat)
    | Skip(w: nat, reason: Reason) | Ask(w: nat) | Decline(w: nat) | SignIn(w: nat)
    | Wrong(w: nat) | Fails(w: nat, reason: Reason) | Detects(w: nat, found: Detection)
    | Close | Finish
    | Continue | Cancel | Tick(later: real)

  function Start(addresses: nat): State {
    State(FRESH, seq(addresses, _ => Unchecked), seq(SIGN_INS, _ => Free), {}, 0, Checking, 0.0, [], multiset{})
  }

  predicate Enabled(s: State, a: Action) {
    match a
    case BeginCheck(x) => x < |s.stages| && s.stages[x] == Unchecked
    case EndCheck(x, _) => x < |s.stages| && s.stages[x] == Knocking
    case Enqueue(x) => x < |s.stages| && s.stages[x] == Open
    case Take(w, x) => w < |s.workers| && s.workers[w] == Free && x in s.queue && x < |s.stages| && forall y | y in s.queue :: x <= y
    case Leave(w) => w < |s.workers| && s.workers[w] == Free && s.queue == {} && s.markers > 0
    case Skip(w, _) => w < |s.workers| && s.workers[w].Has? && s.workers[w].address < |s.stages|
    case Ask(w) => w < |s.workers| && s.workers[w].Has?
    case Decline(w) => w < |s.workers| && s.workers[w].Waits? && s.workers[w].address < |s.stages| && TurnAt(s.core, s.now) == Refused
    case SignIn(w) => w < |s.workers| && s.workers[w].Waits? && TurnAt(s.core, s.now).Go?
    case Wrong(w) => w < |s.workers| && s.workers[w].SigningIn? && s.workers[w].address < |s.stages|
    case Fails(w, reason) =>
      w < |s.workers| && s.workers[w].SigningIn? && s.workers[w].address < |s.stages| && reason in {HostKeyChanged, TimedOut, Failed}
    case Detects(w, _) => w < |s.workers| && s.workers[w].SigningIn? && s.workers[w].address < |s.stages|
    case Close => s.main == Checking && forall x | 0 <= x < |s.stages| :: IsChecked(s.stages[x])
    case Finish => s.main == Closing && forall w | 0 <= w < |s.workers| :: s.workers[w] == Gone
    case Continue => true
    case Cancel => true
    case Tick(later) => later >= s.now
  }

  /** Its port check is over, and its entry queued if it has one. */
  predicate IsChecked(stage: Stage) {
    !stage.Unchecked? && !stage.Knocking? && !stage.Open?
  }

  function WithStage(s: State, x: Address, stage: Stage): State {
    if x < |s.stages| then s.(stages := s.stages[x := stage]) else s
  }

  function WithWorker(s: State, w: nat, worker: Worker): State {
    if w < |s.workers| then s.(workers := s.workers[w := worker]) else s
  }

  /** A worker's address settled in the books. */
  function Settling(s: State, w: nat, core: Core): State
    requires w < |s.workers| && (s.workers[w].Has? || s.workers[w].Waits? || s.workers[w].SigningIn?)
  {
    WithWorker(WithStage(s, s.workers[w].address, Settled), w, Free).(core := core)
  }

  /** The address map is only kept for small scans. */
  const MAP_LIMIT: nat := 1024

  function Apply(s: State, a: Action): State
    requires Enabled(s, a)
  {
    match a
    case BeginCheck(x) => WithStage(s, x, if s.core.phase == Cancelling then Abandoned else Knocking)
    case EndCheck(x, answered) =>
      WithStage(s, x, if answered then Open else Shut).(core := Checked(s.core, x, answered, |s.stages| <= MAP_LIMIT))
    case Enqueue(x) => WithStage(s, x, Queued).(queue := s.queue + {x})
    case Take(w, x) => WithWorker(WithStage(s, x, Taken(w)), w, Has(x)).(queue := s.queue - {x})
    case Leave(w) => WithWorker(s, w, Gone).(markers := s.markers - 1)
    case Skip(w, reason) => Settling(s, w, Listed(s.core, Line(s.workers[w].address, reason), false, false))
    case Ask(w) => WithWorker(s, w, Waits(s.workers[w].address))
    case Decline(w) => Settling(s, w, Listed(s.core, Line(s.workers[w].address, NotAsked), false, false))
    case SignIn(w) =>
      WithWorker(s, w, SigningIn(s.workers[w].address, s.core.continues))
        .(core := Began(s.core, s.now), begins := s.begins + [Begin(s.core.continues, s.now)])
    case Wrong(w) =>
      Settling(s, w, FailedWith(s.core, s.workers[w].address, s.workers[w].generation))
        .(wrong := s.wrong + multiset{s.workers[w].generation})
    case Fails(w, reason) => Settling(s, w, Listed(s.core, Line(s.workers[w].address, reason), true, false))
    case Detects(w, found) => Settling(s, w, Detected(s.core, s.workers[w].address, found))
    case Close => s.(main := Closing, markers := SIGN_INS)
    case Finish => s.(main := Over, core := Ended(s.core))
    case Continue => s.(core := Proceeded(s.core))
    case Cancel => s.(core := CancelledBy(s.core))
    case Tick(later) => s.(now := later)
  }

  predicate ValidRun(s: State, run: seq<Action>)
    decreases |run|
  {
    run == [] || (Enabled(s, run[0]) && ValidRun(Apply(s, run[0]), run[1..]))
  }

  function After(s: State, run: seq<Action>): State
    requires ValidRun(s, run)
    decreases |run|
  {
    if run == [] then s else After(Apply(s, run[0]), run[1..])
  }

  // ---------- Where each address is ----------

  /** The worker that has an address. */
  predicate HoldsAddress(worker: Worker, x: Address) {
    (worker.Has? || worker.Waits? || worker.SigningIn?) && worker.address == x
  }

  /** How often each address is a line or a finding. */
  ghost function Books(core: Core): multiset<Address> {
    multiset(LineAddresses(core.lines)) + multiset(FindingAddresses(core.findings))
  }

  function LineAddresses(lines: seq<Line>): (addresses: seq<Address>)
    ensures |addresses| == |lines|
    ensures forall i | 0 <= i < |lines| :: addresses[i] == lines[i].address
  {
    seq(|lines|, i requires 0 <= i < |lines| => lines[i].address)
  }

  function FindingAddresses(findings: seq<Finding>): (addresses: seq<Address>)
    ensures |addresses| == |findings|
    ensures forall i | 0 <= i < |findings| :: addresses[i] == findings[i].address
  {
    seq(|findings|, i requires 0 <= i < |findings| => findings[i].address)
  }

  ghost predicate AddressHolds(s: State, x: Address) {
    && (x in s.queue <==> x < |s.stages| && s.stages[x] == Queued)
    && Books(s.core)[x] == (if x < |s.stages| && s.stages[x] == Settled then 1 else 0)
    && (forall w :: HeldBy(s, w, x) <==> x < |s.stages| && s.stages[x] == Taken(w))
  }

  ghost predicate HeldBy(s: State, w: nat, x: Address) {
    w < |s.workers| && HoldsAddress(s.workers[w], x)
  }

  ghost predicate AddressesHold(s: State) {
    forall x: Address :: AddressHolds(s, x)
  }

  lemma LineIsBooked(core: Core, line: Line, ended: bool, signedIn: bool)
    ensures Books(Listed(core, line, ended, signedIn)) == Books(core) + multiset{line.address}
  {
    assert LineAddresses(core.lines + [line]) == LineAddresses(core.lines) + [line.address];
  }

  lemma FailureIsBooked(core: Core, x: Address, generation: nat)
    ensures Books(FailedWith(core, x, generation)) == Books(core) + multiset{x}
  {
    LineIsBooked(core, Line(x, WrongCredentials), true, false);
  }

  lemma DetectionIsBooked(core: Core, x: Address, found: Detection)
    ensures Books(Detected(core, x, found)) == Books(core) + multiset{x}
  {
    if found.platform.None? && found.detected.Some? {
      LineIsBooked(core, Line(x, NotSupported), true, true);
    } else {
      var finding := Finding(|core.findings| + 1, x, found);
      assert FindingAddresses(core.findings + [finding]) == FindingAddresses(core.findings) + [x];
    }
  }

  lemma OthersBookNothing(s: State, a: Action)
    requires Enabled(s, a) && !Settles(a)
    ensures Apply(s, a).core.lines == s.core.lines && Apply(s, a).core.findings == s.core.findings
  {
  }

  predicate Settles(a: Action) {
    a.Skip? || a.Decline? || a.Wrong? || a.Fails? || a.Detects?
  }

  lemma SettledIsBooked(s: State, a: Action)
    requires Enabled(s, a) && Settles(a)
    ensures Books(Apply(s, a).core) == Books(s.core) + multiset{s.workers[a.w].address}
  {
    hide Books;
    var x := s.workers[a.w].address;
    match a {
      case Skip(_, reason) => LineIsBooked(s.core, Line(x, reason), false, false);
      case Decline(_) => LineIsBooked(s.core, Line(x, NotAsked), false, false);
      case Wrong(w) => FailureIsBooked(s.core, x, s.workers[w].generation);
      case Fails(_, reason) => LineIsBooked(s.core, Line(x, reason), true, false);
      case Detects(_, found) => DetectionIsBooked(s.core, x, found);
    }
  }

  lemma AddressIsKept(s: State, a: Action, x: Address)
    requires Enabled(s, a) && AddressHolds(s, x)
    ensures AddressHolds(Apply(s, a), x)
  {
    if Settles(a) {
      SettledIsBooked(s, a);
      SettledIsKept(s, a, x);
    } else {
      OthersBookNothing(s, a);
      UnsettledIsKept(s, a, x);
    }
  }

  lemma SettledIsKept(s: State, a: Action, x: Address)
    requires Enabled(s, a) && AddressHolds(s, x) && Settles(a)
    requires Books(Apply(s, a).core) == Books(s.core) + multiset{s.workers[a.w].address}
    ensures AddressHolds(Apply(s, a), x)
  {
    hide Books;
    var t := Apply(s, a);
    assert HeldBy(s, a.w, x) <==> s.workers[a.w].address == x;
    forall w ensures HeldBy(t, w, x) <==> x < |t.stages| && t.stages[x] == Taken(w) {
      assert HeldBy(s, w, x) <==> x < |s.stages| && s.stages[x] == Taken(w);
    }
  }

  lemma UnsettledIsKept(s: State, a: Action, x: Address)
    requires Enabled(s, a) && AddressHolds(s, x) && !Settles(a)
    requires Apply(s, a).core.lines == s.core.lines && Apply(s, a).core.findings == s.core.findings
    ensures AddressHolds(Apply(s, a), x)
  {
    if WorkerOf(a).Some? {
      WorkersStepKeeps(s, a, x);
    } else {
      AnotherStepKeeps(s, a, x);
    }
    hide *;
  }

  lemma WorkersStepKeeps(s: State, a: Action, x: Address)
    requires Enabled(s, a) && AddressHolds(s, x) && !Settles(a) && WorkerOf(a).Some?
    requires Apply(s, a).core.lines == s.core.lines && Apply(s, a).core.findings == s.core.findings
    ensures AddressHolds(Apply(s, a), x)
  {
    assert Books(Apply(s, a).core) == Books(s.core);
    hide Books;
    hide Told;
    hide FailedWith;
    hide Detected;
    hide Listed;
    var t := Apply(s, a);
    forall w ensures HeldBy(t, w, x) <==> x < |t.stages| && t.stages[x] == Taken(w) {
      assert HeldBy(s, w, x) <==> x < |s.stages| && s.stages[x] == Taken(w);
    }
  }

  lemma AnotherStepKeeps(s: State, a: Action, x: Address)
    requires Enabled(s, a) && AddressHolds(s, x) && !Settles(a) && WorkerOf(a).None?
    requires Apply(s, a).core.lines == s.core.lines && Apply(s, a).core.findings == s.core.findings
    ensures AddressHolds(Apply(s, a), x)
  {
    assert Books(Apply(s, a).core) == Books(s.core);
    hide Books;
    hide Told;
    hide FailedWith;
    hide Detected;
    hide Listed;
    var t := Apply(s, a);
    forall w ensures HeldBy(t, w, x) <==> x < |t.stages| && t.stages[x] == Taken(w) {
      assert HeldBy(s, w, x) <==> x < |s.stages| && s.stages[x] == Taken(w);
    }
  }

  // ---------- Counting workers ----------

  predicate IsSigningIn(worker: Worker) {
    worker.SigningIn?
  }

  function One(b: bool): nat {
    if b then 1 else 0
  }

  function Counted(workers: seq<Worker>, p: Worker -> bool): nat {
    if workers == [] then 0 else One(p(workers[0])) + Counted(workers[1..], p)
  }

  lemma {:induction false} WorkerChanges(workers: seq<Worker>, w: nat, worker: Worker, p: Worker -> bool)
    requires w < |workers|
    ensures Counted(workers[w := worker], p) == Counted(workers, p) - One(p(workers[w])) + One(p(worker))
  {
    if w > 0 {
      assert workers[w := worker][1..] == workers[1..][w - 1 := worker];
      WorkerChanges(workers[1..], w - 1, worker, p);
    }
  }

  lemma {:induction false} CountedIsWithin(workers: seq<Worker>, p: Worker -> bool, q: Worker -> bool)
    requires forall worker :: p(worker) ==> q(worker)
    ensures Counted(workers, p) <= Counted(workers, q) <= |workers|
  {
    if workers != [] {
      CountedIsWithin(workers[1..], p, q);
    }
  }

  lemma {:induction false} CountedNone(workers: seq<Worker>, p: Worker -> bool)
    ensures Counted(workers, p) == 0 <==> forall w | 0 <= w < |workers| :: !p(workers[w])
  {
    if workers != [] {
      CountedNone(workers[1..], p);
    }
  }

  // ---------- The bound on wrong passwords ----------

  function Under(generation: nat): Worker -> bool {
    (worker: Worker) => worker.SigningIn? && worker.generation == generation
  }

  const MOST_WRONG := FAILURES_BEFORE_PAUSE - 1 + SIGN_INS

  /** Under one Continue count: the sign-ins that ended in wrong credentials and those still under way. */
  ghost predicate PhaseHolds(s: State) {
    && |s.workers| == SIGN_INS
    && s.core.failures == s.wrong[s.core.continues]
    && (s.core.phase == Running ==> s.core.failures < FAILURES_BEFORE_PAUSE)
    && (s.core.phase.Done? || s.core.phase.Cancelled? <==> s.main == Over)
    && (s.core.loggedIn <==> s.main != Over)
  }

  ghost predicate SigningInHolds(s: State) {
    s.core.signingIn == Counted(s.workers, IsSigningIn)
  }

  ghost predicate GenerationHolds(s: State, g: nat) {
    && s.wrong[g] + Counted(s.workers, Under(g)) <= MOST_WRONG
    && (g > s.core.continues ==> s.wrong[g] == 0 && Counted(s.workers, Under(g)) == 0)
  }

  ghost predicate GenerationsHold(s: State) {
    forall g: nat :: GenerationHolds(s, g)
  }

  /** What a step does to the worker it is about. */
  function WorkerOf(a: Action): Option<nat> {
    match a
    case Take(w, _) => Some(w)
    case Leave(w) => Some(w)
    case Skip(w, _) => Some(w)
    case Ask(w) => Some(w)
    case Decline(w) => Some(w)
    case SignIn(w) => Some(w)
    case Wrong(w) => Some(w)
    case Fails(w, _) => Some(w)
    case Detects(w, _) => Some(w)
    case _ => None
  }

  lemma OneWorkerChanges(s: State, a: Action, p: Worker -> bool)
    requires Enabled(s, a)
    ensures var t, w := Apply(s, a), WorkerOf(a);
            && |t.workers| == |s.workers|
            && (w.None? ==> t.workers == s.workers)
            && (w.Some? ==> w.value < |s.workers|
                            && Counted(t.workers, p) == Counted(s.workers, p) - One(p(s.workers[w.value])) + One(p(t.workers[w.value])))
  {
    var t, w := Apply(s, a), WorkerOf(a);
    if w.Some? {
      assert t.workers == s.workers[w.value := t.workers[w.value]];
      WorkerChanges(s.workers, w.value, t.workers[w.value], p);
    }
  }

  lemma NoneLater(s: State, g: nat)
    requires GenerationHolds(s, g) && g > s.core.continues
    ensures s.wrong[g] == 0
  {
  }

  lemma PhaseIsKept(s: State, a: Action)
    requires Enabled(s, a) && PhaseHolds(s) && s.wrong[s.core.continues + 1] == 0
    ensures PhaseHolds(Apply(s, a))
  {
    if Settles(a) {
      SettlingKeepsPhase(s, a);
    } else {
      OthersKeepPhase(s, a);
    }
    hide Apply;
  }

  lemma SettlingKeepsPhase(s: State, a: Action)
    requires Enabled(s, a) && PhaseHolds(s) && Settles(a)
    ensures PhaseHolds(Apply(s, a))
  {
  }

  lemma OthersKeepPhase(s: State, a: Action)
    requires Enabled(s, a) && PhaseHolds(s) && s.wrong[s.core.continues + 1] == 0 && !Settles(a)
    ensures PhaseHolds(Apply(s, a))
  {
  }

  lemma SigningInIsKept(s: State, a: Action)
    requires Enabled(s, a) && SigningInHolds(s)
    ensures SigningInHolds(Apply(s, a))
  {
    OneWorkerChanges(s, a, IsSigningIn);
    hide WorkerOf;
    hide Counted;
  }

  lemma GenerationIsKept(s: State, a: Action, g: nat)
    requires Enabled(s, a) && PhaseHolds(s) && GenerationHolds(s, g)
    ensures GenerationHolds(Apply(s, a), g)
  {
    OneWorkerChanges(s, a, Under(g));
    if a.SignIn? {
      WorkerChanges(s.workers, a.w, Apply(s, a).workers[a.w], IsSigningIn);
      CountedIsWithin(Apply(s, a).workers, Under(g), IsSigningIn);
    }
    hide Counted;
  }

  // ---------- The end of a scan, its counts and its pace ----------

  predicate IsGone(worker: Worker) {
    worker.Gone?
  }

  /** A worker leaves only when every address is checked and none is queued. */
  ghost predicate EndHolds(s: State) {
    && |s.workers| == SIGN_INS
    && (s.main == Checking ==> s.markers == 0)
    && (s.main != Checking ==> forall x | 0 <= x < |s.stages| :: IsChecked(s.stages[x]))
    && s.markers + Counted(s.workers, IsGone) == (if s.main == Checking then 0 else SIGN_INS)
    && (Counted(s.workers, IsGone) > 0 ==> s.queue == {})
    && (s.main == Over ==> Counted(s.workers, IsGone) == SIGN_INS)
  }

  lemma {:induction false} CountedAll(workers: seq<Worker>, p: Worker -> bool)
    ensures Counted(workers, p) <= |workers|
    ensures Counted(workers, p) == |workers| <==> forall w | 0 <= w < |workers| :: p(workers[w])
  {
    if workers != [] {
      CountedAll(workers[1..], p);
    }
  }

  lemma EndIsKept(s: State, a: Action)
    requires Enabled(s, a) && EndHolds(s)
    ensures EndHolds(Apply(s, a))
  {
    if Settles(a) {
      SettlingKeepsEnd(s, a);
    } else {
      OthersKeepEnd(s, a);
    }
    hide Apply;
    hide EndHolds;
  }

  lemma SettlingKeepsEnd(s: State, a: Action)
    requires Enabled(s, a) && EndHolds(s) && Settles(a)
    ensures EndHolds(Apply(s, a))
  {
    OneWorkerChanges(s, a, IsGone);
    hide Counted;
    hide Told;
    hide FailedWith;
    hide Detected;
    hide Listed;
  }

  lemma OthersKeepEnd(s: State, a: Action)
    requires Enabled(s, a) && EndHolds(s) && !Settles(a)
    ensures EndHolds(Apply(s, a))
  {
    OneWorkerChanges(s, a, IsGone);
    CountedNone(s.workers, IsGone);
    CountedAll(s.workers, IsGone);
    hide Counted;
  }

  predicate HasAnswered(stage: Stage) {
    stage.Open? || stage.Queued? || stage.Taken? || stage.Settled?
  }

  function Answered(stages: seq<Stage>): set<Address> {
    set x | 0 <= x < |stages| && HasAnswered(stages[x])
  }

  ghost predicate AnsweredHolds(s: State) {
    s.core.answered == |Answered(s.stages)|
  }

  lemma AnsweredIsKept(s: State, a: Action)
    requires Enabled(s, a) && AddressesHold(s) && AnsweredHolds(s)
    ensures AnsweredHolds(Apply(s, a))
  {
    hide Books;
    hide Apply;
    var before := Answered(s.stages);
    if a.EndCheck? {
      CheckAnswers(s, a.a, a.answered);
    } else {
      if Settles(a) {
        assert AddressHolds(s, s.workers[a.w].address);
      } else if a.Take? {
        assert AddressHolds(s, a.a);
      }
      AnsweredStay(s, a);
    }
  }

  lemma CheckAnswers(s: State, x: Address, answered: bool)
    requires Enabled(s, EndCheck(x, answered)) && AnsweredHolds(s)
    ensures AnsweredHolds(Apply(s, EndCheck(x, answered)))
  {
    assert Answered(Apply(s, EndCheck(x, answered)).stages) == Answered(s.stages) + (if answered then {x} else {});
  }

  lemma AnsweredStay(s: State, a: Action)
    requires Enabled(s, a) && !a.EndCheck?
    requires Settles(a) ==> AddressHolds(s, s.workers[a.w].address)
    requires a.Take? ==> AddressHolds(s, a.a)
    ensures Answered(Apply(s, a).stages) == Answered(s.stages) && Apply(s, a).core.answered == s.core.answered
  {
    hide Books;
    if Settles(a) {
      assert HeldBy(s, a.w, s.workers[a.w].address);
    }
  }

  /** Each start is at least the gap after the one before it. */
  ghost predicate BeginsHold(s: State) {
    && (s.begins != [] ==> s.core.nextStart == s.begins[|s.begins| - 1].at + SIGN_IN_GAP)
    && (forall i | 0 < i < |s.begins| :: s.begins[i].at >= s.begins[i - 1].at + SIGN_IN_GAP)
    && (forall begin | begin in s.begins :: begin.generation <= s.core.continues)
  }

  lemma BeginsAreKept(s: State, a: Action)
    requires Enabled(s, a) && BeginsHold(s)
    ensures BeginsHold(Apply(s, a))
  {
    if a.SignIn? {
      SignInKeepsPace(s, a.w);
    } else {
      OthersBeginNothing(s, a);
      hide Apply;
    }
  }

  lemma SignInKeepsPace(s: State, w: nat)
    requires Enabled(s, SignIn(w)) && BeginsHold(s)
    ensures BeginsHold(Apply(s, SignIn(w)))
  {
  }

  lemma OthersBeginNothing(s: State, a: Action)
    requires Enabled(s, a) && !a.SignIn?
    ensures var t := Apply(s, a);
            t.begins == s.begins && t.core.nextStart == s.core.nextStart && t.core.continues >= s.core.continues
  {
  }

  // ---------- Every run ----------

  ghost predicate Holds(s: State) {
    AddressesHold(s) && PhaseHolds(s) && SigningInHolds(s) && GenerationsHold(s) && EndHolds(s) && AnsweredHolds(s) && BeginsHold(s)
  }

  lemma StepHolds(s: State, a: Action)
    requires Enabled(s, a) && Holds(s)
    ensures Holds(Apply(s, a))
  {
    hide Apply;
    hide Enabled;
    hide AddressHolds;
    hide GenerationHolds;
    hide PhaseHolds;
    hide SigningInHolds;
    hide EndHolds;
    hide AnsweredHolds;
    hide BeginsHold;
    forall x: Address ensures AddressHolds(Apply(s, a), x) {
      AddressIsKept(s, a, x);
    }
    forall g: nat ensures GenerationHolds(Apply(s, a), g) {
      GenerationIsKept(s, a, g);
    }
    assert s.wrong[s.core.continues + 1] == 0 by {
      NoneLater(s, s.core.continues + 1);
    }
    PhaseIsKept(s, a);
    SigningInIsKept(s, a);
    EndIsKept(s, a);
    AnsweredIsKept(s, a);
    BeginsAreKept(s, a);
  }

  lemma StartHolds(addresses: nat)
    ensures Holds(Start(addresses))
  {
    var s := Start(addresses);
    CountedNone(s.workers, IsSigningIn);
    CountedNone(s.workers, IsGone);
    assert Answered(s.stages) == {};
    forall g: nat ensures GenerationHolds(s, g) {
      CountedNone(s.workers, Under(g));
    }
  }

  lemma {:induction false} RunHolds(s: State, run: seq<Action>)
    requires Holds(s) && ValidRun(s, run)
    ensures Holds(After(s, run))
    decreases |run|
  {
    hide Holds;
    hide Apply;
    hide Enabled;
    if run != [] {
      StepHolds(s, run[0]);
      RunHolds(Apply(s, run[0]), run[1..]);
    }
  }

  /** Under one Continue count, six sign-ins at most end in wrong credentials - those under way counted in. */
  lemma AtMostSixWrong(addresses: nat, run: seq<Action>, g: nat)
    requires ValidRun(Start(addresses), run)
    ensures var s := After(Start(addresses), run);
            s.wrong[g] + Counted(s.workers, Under(g)) <= 6
  {
    StartHolds(addresses);
    RunHolds(Start(addresses), run);
    assert GenerationHolds(After(Start(addresses), run), g);
  }

  /** A running scan pauses exactly at the third wrong password begun since the last Continue: an older one never counts. */
  lemma PausesAtTheThird(addresses: nat, run: seq<Action>, a: Action)
    requires ValidRun(Start(addresses), run) && Enabled(After(Start(addresses), run), a)
    ensures var s := After(Start(addresses), run);
            s.core.phase == Running ==>
              (Apply(s, a).core.phase == Paused
               <==> a.Wrong? && s.workers[a.w].generation == s.core.continues && s.wrong[s.core.continues] == 2)
  {
    StartHolds(addresses);
    RunHolds(Start(addresses), run);
    hide Counted;
  }

  /** When a scan ends: each address that answered is one finding or one line, no other address is either, nothing is
      being signed in to - and at no time were more than four. */
  lemma EveryAnswerSettles(addresses: nat, run: seq<Action>)
    requires ValidRun(Start(addresses), run)
    ensures var s := After(Start(addresses), run);
            && 0 <= s.core.signingIn <= SIGN_INS
            && (s.core.phase in {Done, Scans.Cancelled} ==>
                  && s.core.signingIn == 0
                  && (forall x: Address :: Books(s.core)[x] == One(x in Answered(s.stages)))
                  && |s.core.lines| + |s.core.findings| == s.core.answered == |Answered(s.stages)|)
  {
    StartHolds(addresses);
    RunHolds(Start(addresses), run);
    var s := After(Start(addresses), run);
    CountedIsWithin(s.workers, IsSigningIn, IsSigningIn);
    if s.main == Over {
      AllSettle(s);
    }
  }

  lemma AllSettle(s: State)
    requires Holds(s) && s.main == Over
    ensures s.core.signingIn == 0
    ensures forall x: Address :: Books(s.core)[x] == One(x in Answered(s.stages))
    ensures |s.core.lines| + |s.core.findings| == |Answered(s.stages)|
  {
    hide Books;
    CountedAll(s.workers, IsGone);
    CountedNone(s.workers, IsSigningIn);
    forall x: Address ensures Books(s.core)[x] == One(x in Answered(s.stages)) {
      assert AddressHolds(s, x);
      var w := if x < |s.stages| && s.stages[x].Taken? then s.stages[x].worker else 0;
      assert !HeldBy(s, w, x);
    }
    OncePerMember(Books(s.core), Answered(s.stages));
    BooksAreAll(s.core);
  }

  lemma BooksAreAll(core: Core)
    ensures |Books(core)| == |core.lines| + |core.findings|
  {
  }

  lemma OncePerMember(m: multiset<Address>, all: set<Address>)
    requires forall x: Address :: m[x] == One(x in all)
    ensures |m| == |all|
  {
    assert m == multiset(all);
  }

  /** Once the phase is no longer Running, no sign-in starts until a Continue. */
  lemma {:induction false} NoStartUnlessRunning(s: State, run: seq<Action>)
    requires ValidRun(s, run) && s.core.phase != Running && Continue !in run
    ensures After(s, run).begins == s.begins && After(s, run).core.phase != Running
    decreases |run|
  {
    if run != [] {
      assert run[0] != Continue && forall a | a in run[1..] :: a in run;
      NoStartUnlessRunning(Apply(s, run[0]), run[1..]);
    }
  }

  /** Cancelled, or about to be. */
  predicate IsCancelling(s: State) {
    s.core.phase == Cancelling || (s.core.phase == Cancelled && s.main == Over)
  }

  /** Once cancelled, a scan neither begins a check nor starts a sign-in any more, whatever Continue or anyone else does. */
  lemma {:induction false} CancelledBeginsNothing(s: State, run: seq<Action>)
    requires Holds(s) && ValidRun(s, run) && IsCancelling(s)
    ensures var t := After(s, run);
            && IsCancelling(t) && t.begins == s.begins && |t.stages| == |s.stages|
            && forall x | 0 <= x < |s.stages| && t.stages[x].Knocking? :: s.stages[x].Knocking?
    decreases |run|
  {
    hide Apply;
    hide Enabled;
    hide Holds;
    if run != [] {
      StepHolds(s, run[0]);
      CancelledStepBeginsNothing(s, run[0]);
      CancelledBeginsNothing(Apply(s, run[0]), run[1..]);
    }
  }

  lemma CancelledStepBeginsNothing(s: State, a: Action)
    requires Enabled(s, a) && Holds(s) && IsCancelling(s)
    ensures var t := Apply(s, a);
            && IsCancelling(t) && t.begins == s.begins && |t.stages| == |s.stages|
            && forall x | 0 <= x < |s.stages| && t.stages[x].Knocking? :: s.stages[x].Knocking?
  {
    assert EndHolds(s);
    if s.main != Checking {
      AllCheckedWhenOver(s);
    }
    if Settles(a) {
      SettlingBeginsNothing(s, a);
    } else {
      CancelledOthersBeginNothing(s, a);
    }
    hide *;
  }

  lemma SettlingBeginsNothing(s: State, a: Action)
    requires Enabled(s, a) && IsCancelling(s) && Settles(a)
    ensures var t := Apply(s, a);
            && IsCancelling(t) && t.begins == s.begins && |t.stages| == |s.stages|
            && forall x | 0 <= x < |s.stages| && t.stages[x].Knocking? :: s.stages[x].Knocking?
  {
  }

  lemma CancelledOthersBeginNothing(s: State, a: Action)
    requires Enabled(s, a) && IsCancelling(s) && !Settles(a)
    requires s.main != Checking ==> forall x | 0 <= x < |s.stages| :: IsChecked(s.stages[x])
    ensures var t := Apply(s, a);
            && IsCancelling(t) && t.begins == s.begins && |t.stages| == |s.stages|
            && forall x | 0 <= x < |s.stages| && t.stages[x].Knocking? :: s.stages[x].Knocking?
  {
    hide FailedWith;
    hide Detected;
    hide Listed;
  }

  lemma AllCheckedWhenOver(s: State)
    requires EndHolds(s) && s.main != Checking
    ensures forall x | 0 <= x < |s.stages| :: IsChecked(s.stages[x])
  {
  }

  /** The (j - i) gaps between two starts lie between them. */
  lemma StartsAreApart(addresses: nat, run: seq<Action>, i: nat, j: nat)
    requires ValidRun(Start(addresses), run) && i < j < |After(Start(addresses), run).begins|
    ensures var begins := After(Start(addresses), run).begins;
            begins[j].at - begins[i].at >= 0.5 * ((j - i) as real)
  {
    StartHolds(addresses);
    RunHolds(Start(addresses), run);
    ApartBy(After(Start(addresses), run), i, j);
  }

  lemma {:induction false} ApartBy(s: State, i: nat, j: nat)
    requires BeginsHold(s) && i < j < |s.begins|
    ensures s.begins[j].at - s.begins[i].at >= SIGN_IN_GAP * ((j - i) as real)
  {
    if i < j - 1 {
      ApartBy(s, i, j - 1);
    }
  }

  // ---------- Six is reached ----------

  ghost predicate Reaches(s: State, t: State) {
    exists run :: Leads(s, run, t)
  }

  ghost predicate Leads(s: State, run: seq<Action>, t: State) {
    ValidRun(s, run) && After(s, run) == t
  }

  lemma {:induction false} RunGoesOn(s: State, run: seq<Action>, a: Action)
    requires ValidRun(s, run) && Enabled(After(s, run), a)
    ensures Leads(s, run + [a], Apply(After(s, run), a))
    decreases |run|
  {
    hide Apply;
    hide Enabled;
    if run == [] {
      var one := run + [a];
      assert one[0] == a && one[1..] == [];
      assert ValidRun(Apply(s, a), one[1..]) && After(Apply(s, a), one[1..]) == Apply(s, a);
    } else {
      RunGoesOn(Apply(s, run[0]), run[1..], a);
      assert (run + [a])[1..] == run[1..] + [a];
    }
  }

  lemma Next(s: State, t: State, a: Action) returns (u: State)
    requires Reaches(s, t) && Enabled(t, a)
    ensures u == Apply(t, a) && Reaches(s, u)
  {
    var run :| Leads(s, run, t);
    RunGoesOn(s, run, a);
    u := Apply(t, a);
    assert Leads(s, run + [a], u);
  }

  /** The first k addresses queued, nothing else done. */
  ghost predicate Queueing(s: State, k: nat) {
    && |s.stages| == 6 && k <= 6 && s.core.phase == Running && s.core.loggedIn
    && s.core.continues == s.core.failures == 0 && s.wrong[0] == 0
    && (forall x | k <= x < 6 :: s.stages[x] == Unchecked)
    && (forall x: Address :: x in s.queue <==> x < k)
    && s.workers == [Free, Free, Free, Free]
  }

  lemma {:induction false} CanQueue(s: State, k: nat) returns (t: State)
    requires k <= 6 && s == Start(6)
    ensures Reaches(s, t) && Queueing(t, k)
  {
    if k == 0 {
      assert Leads(s, [], s);
      t := s;
    } else {
      t := CanQueue(s, k - 1);
      t := CanQueueOne(s, t, k - 1);
    }
  }

  lemma CanQueueOne(s: State, t: State, k: nat) returns (u: State)
    requires k < 6 && Reaches(s, t) && Queueing(t, k)
    ensures Reaches(s, u) && Queueing(u, k + 1)
  {
    hide Reaches;
    var t1 := Next(s, t, BeginCheck(k));
    var t2 := Next(s, t1, EndCheck(k, true));
    u := Next(s, t2, Enqueue(k));
  }

  lemma CanSignIn(s: State, t: State, w: nat, x: Address) returns (u: State)
    requires Reaches(s, t) && t.core.phase == Running && t.core.loggedIn
    requires w < |t.workers| && t.workers[w] == Free && x in t.queue && x < |t.stages| && (forall y | y in t.queue :: x <= y)
    ensures Reaches(s, u)
    ensures u.workers == t.workers[w := SigningIn(x, t.core.continues)] && u.queue == t.queue - {x} && u.wrong == t.wrong
    ensures |u.stages| == |t.stages| && u.core.phase == Running && u.core.loggedIn
    ensures u.core.continues == t.core.continues && u.core.failures == t.core.failures
  {
    hide Reaches;
    var t1 := Next(s, t, Take(w, x));
    var t2 := Next(s, t1, Ask(w));
    var t3 := Next(s, t2, Tick(if t2.now < t2.core.nextStart then t2.core.nextStart else t2.now));
    u := Next(s, t3, SignIn(w));
  }

  lemma CanBeWrong(s: State, t: State, w: nat) returns (u: State)
    requires Reaches(s, t) && w < |t.workers| && t.workers[w].SigningIn? && t.workers[w].address < |t.stages|
    requires t.workers[w].generation == t.core.continues == 0
    ensures Reaches(s, u)
    ensures u.workers == t.workers[w := Free] && u.queue == t.queue && u.wrong[0] == t.wrong[0] + 1
    ensures |u.stages| == |t.stages| && u.core.loggedIn == t.core.loggedIn
    ensures u.core.continues == 0 && u.core.failures == t.core.failures + 1
    ensures u.core.failures < FAILURES_BEFORE_PAUSE ==> u.core.phase == t.core.phase
  {
    hide Reaches;
    u := Next(s, t, Wrong(w));
  }

  /** The bound is exact: six sign-ins of one Continue count can end in wrong credentials. */
  lemma SixCanBeWrong()
    ensures exists t :: Reaches(Start(6), t) && t.wrong[0] == 6
  {
    hide Reaches;
    var s := Start(6);
    var t := CanQueue(s, 6);
    t := CanSignIn(s, t, 0, 0);
    t := CanSignIn(s, t, 1, 1);
    t := CanBeWrong(s, t, 0);
    t := CanBeWrong(s, t, 1);
    t := CanSignIn(s, t, 0, 2);
    t := CanSignIn(s, t, 1, 3);
    t := CanSignIn(s, t, 2, 4);
    t := CanSignIn(s, t, 3, 5);
    t := CanBeWrong(s, t, 0);
    t := CanBeWrong(s, t, 1);
    t := CanBeWrong(s, t, 2);
    t := CanBeWrong(s, t, 3);
  }
}
