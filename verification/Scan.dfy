/**
 One discovery's books: what each region under the scan's lock does, as a function of the state the lock
 guards and as the method that does it in place.
 */
module Scans {
  import opened Options

  type Address = nat                      // its index among the scan's addresses

  const SIGN_INS: nat := 4                // sign-ins at once
  const FAILURES_BEFORE_PAUSE: nat := 3   // under one Continue count
  const SIGN_IN_GAP: real := 0.5          // no start comes sooner after another

  datatype Phase = Running | Paused | Cancelling | Done | Cancelled

  /** What a line says of its address. */
  datatype Reason =
    | WrongCredentials | TimedOut | Failed | NotSupported | InInventory | InRollout | HostKeyChanged | NotAsked

  datatype Line = Line(address: Address, reason: Reason)
  datatype Detection = Detection(platform: Option<string>, detected: Option<string>)
  datatype Finding = Finding(id: nat, address: Address, detection: Detection)

  datatype News =
    | OfPort(address: Address, answered: bool)
    | OfLine(line: Line)
    | OfFinding(finding: Finding)
    | OfPhase(phase: Phase)

  datatype Event = Event(seqNo: nat, news: News)

  /** What the lock guards. */
  datatype Core = Core(
    phase: Phase, continues: nat, failures: nat, nextStart: real, loggedIn: bool,
    checked: nat, answered: nat, signingIn: int, signedIn: nat,
    lines: seq<Line>, findings: seq<Finding>, events: seq<Event>)

  const FRESH := Core(Running, 0, 0, 0.0, true, 0, 0, 0, 0, [], [], [])

  // ---------- The regions ----------

  function Told(core: Core, news: News): Core {
    core.(events := core.events + [Event(|core.events| + 1, news)])
  }

  function InPhase(core: Core, phase: Phase): Core {
    Told(core.(phase := phase), OfPhase(phase))
  }

  function Proceeded(core: Core): Core {
    if core.phase != Paused then core
    else InPhase(core.(continues := core.continues + 1, failures := 0), Running)
  }

  function CancelledBy(core: Core): Core {
    if core.phase != Running && core.phase != Paused then core else InPhase(core, Cancelling)
  }

  /** `mapped`: the scan is small enough for the page's address map. */
  function Checked(core: Core, address: Address, answered: bool, mapped: bool): Core {
    var counted := core.(checked := core.checked + 1, answered := core.answered + (if answered then 1 else 0));
    if mapped then Told(counted, OfPort(address, answered)) else counted
  }

  /** What a sign-in waiting for its start is told. */
  datatype Turn = Blocked | Refused | Later(delay: real) | Go(generation: nat)

  function TurnAt(core: Core, now: real): Turn {
    if core.phase == Paused then Blocked
    else if core.phase != Running || !core.loggedIn then Refused
    else if now >= core.nextStart then Go(core.continues)
    else Later(core.nextStart - now)
  }

  function Began(core: Core, now: real): Core {
    core.(nextStart := now + SIGN_IN_GAP, signingIn := core.signingIn + 1)
  }

  function Listed(core: Core, line: Line, ended: bool, signedIn: bool): Core {
    Told(core.(signingIn := core.signingIn - (if ended then 1 else 0),
               signedIn := core.signedIn + (if signedIn then 1 else 0), lines := core.lines + [line]),
         OfLine(line))
  }

  function FailedWith(core: Core, address: Address, generation: nat): Core {
    var listed := Listed(core, Line(address, WrongCredentials), true, false);
    if generation != core.continues then listed
    else
      var counted := listed.(failures := core.failures + 1);
      if counted.failures >= FAILURES_BEFORE_PAUSE && core.phase == Running then InPhase(counted, Paused) else counted
  }

  function Detected(core: Core, address: Address, found: Detection): Core {
    if found.platform.None? && found.detected.Some? then Listed(core, Line(address, NotSupported), true, true)
    else
      var finding := Finding(|core.findings| + 1, address, found);
      Told(core.(signingIn := core.signingIn - 1, signedIn := core.signedIn + 1, findings := core.findings + [finding]),
           OfFinding(finding))
  }

  function Ended(core: Core): Core {
    InPhase(core.(loggedIn := false), if core.phase == Cancelling then Cancelled else Done)
  }

  /** The events a page that has the first `since` is given. */
  function EventsAfter(core: Core, since: int): seq<Event> {
    var from := if since > 0 then since else 0;
    if from <= |core.events| then core.events[from..] else []
  }

  // ---------- The page ----------

  /** What a page shows, from the events alone. */
  datatype Page = Page(phase: Phase, lines: seq<Line>, findings: seq<Finding>)

  function With(page: Page, news: News): Page {
    match news
    case OfPort(_, _) => page
    case OfLine(line) => page.(lines := page.lines + [line])
    case OfFinding(finding) => page.(findings := page.findings + [finding])
    case OfPhase(phase) => page.(phase := phase)
  }

  function Shown(page: Page, events: seq<Event>): Page
    decreases |events|
  {
    if events == [] then page else Shown(With(page, events[0].news), events[1..])
  }

  const BLANK := Page(Running, [], [])

  /** The events tell the whole story, numbered from 1. */
  ghost predicate Story(core: Core) {
    && Shown(BLANK, core.events) == Page(core.phase, core.lines, core.findings)
    && (forall i | 0 <= i < |core.events| :: core.events[i].seqNo == i + 1)
    && (forall i | 0 <= i < |core.findings| :: core.findings[i].id == i + 1)
  }

  lemma {:induction false} ShownOn(page: Page, first: seq<Event>, more: seq<Event>)
    ensures Shown(page, first + more) == Shown(Shown(page, first), more)
    decreases |first|
  {
    if first == [] {
      assert first + more == more;
    } else {
      assert (first + more)[1..] == first[1..] + more;
      ShownOn(With(page, first[0].news), first[1..], more);
    }
  }

  /** A page that only ever asks for the events after those it has shows what the scan holds. */
  lemma PageFollows(core: Core, since: int)
    requires Story(core) && 0 <= since <= |core.events|
    ensures Shown(Shown(BLANK, core.events[..since]), EventsAfter(core, since)) == Page(core.phase, core.lines, core.findings)
  {
    ShownOn(BLANK, core.events[..since], core.events[since..]);
    assert core.events[..since] + core.events[since..] == core.events;
  }

  lemma ToldIsShown(core: Core, news: News)
    ensures Shown(BLANK, Told(core, news).events)
         == With(Shown(BLANK, core.events), news)
  {
    ShownOn(BLANK, core.events, [Event(|core.events| + 1, news)]);
  }

  datatype Counts = Counts(
    checked: nat, answered: nat, signingIn: int, signedIn: nat, found: nat, reasons: multiset<Reason>, continues: nat)

  /** The first k lines that give this reason. */
  function Giving(lines: seq<Line>, k: nat, reason: Reason): set<nat>
    requires k <= |lines|
  {
    set i: nat | i < k && lines[i].reason == reason
  }

  lemma GivingOneMore(lines: seq<Line>, k: nat, reason: Reason)
    requires k < |lines|
    ensures |Giving(lines, k + 1, reason)| == |Giving(lines, k, reason)| + (if lines[k].reason == reason then 1 else 0)
  {
    var before, after := Giving(lines, k, reason), Giving(lines, k + 1, reason);
    assert after == if lines[k].reason == reason then before + {k} else before;
  }

  // ---------- The regions in place ----------

  class DiscoveryScan {
    var phase: Phase
    var continues: nat
    var failures: nat
    var nextStart: real
    var loggedIn: bool
    var checked: nat
    var answered: nat
    var signingIn: int
    var signedIn: nat
    var lines: seq<Line>
    var findings: map<nat, Finding>
    var events: seq<Event>

    ghost predicate Valid()
      reads this
    {
      && (forall id :: id in findings <==> 1 <= id <= |findings|)
      && Story(Abstract())
    }

    ghost function Found(): (found: seq<Finding>)
      reads this`findings
      requires forall id :: id in findings <==> 1 <= id <= |findings|
    {
      var all := findings;
      seq(|all|, i requires 0 <= i < |all| && i + 1 in all => all[i + 1])
    }

    ghost function Abstract(): Core
      reads this
      requires forall id :: id in findings <==> 1 <= id <= |findings|
    {
      Core(phase, continues, failures, nextStart, loggedIn, checked, answered, signingIn, signedIn, lines, Found(), events)
    }

    constructor ()
      ensures Valid() && Abstract() == FRESH
    {
      phase, continues, failures, nextStart, loggedIn := Running, 0, 0, 0.0, true;
      checked, answered, signingIn, signedIn := 0, 0, 0, 0;
      lines, findings, events := [], map[], [];
    }

    method Tell(news: News)
      modifies `events
      requires forall id :: id in findings <==> 1 <= id <= |findings|
      ensures Abstract() == Told(old(Abstract()), news)
    {
      events := events + [Event(|events| + 1, news)];
    }

    method SetPhase(to: Phase)
      modifies `phase, `events
      requires Valid()
      ensures Valid() && Abstract() == InPhase(old(Abstract()), to)
    {
      ToldIsShown(Abstract().(phase := to), OfPhase(to));
      phase := to;
      Tell(OfPhase(to));
    }

    /** `was` tells whether it was paused; then it runs on, with one more Continue and no failure counted. */
    method Proceed() returns (was: bool)
      modifies this
      requires Valid()
      ensures Valid() && Abstract() == Proceeded(old(Abstract())) && was == (old(phase) == Paused)
      ensures if was then phase == Running && failures == 0 && continues == old(continues) + 1 else Abstract() == old(Abstract())
    {
      if phase != Paused {
        return false;
      }
      continues := continues + 1;
      failures := 0;
      SetPhase(Running);
      return true;
    }

    method Cancel() returns (was: bool)
      modifies this
      requires Valid()
      ensures Valid() && Abstract() == CancelledBy(old(Abstract())) && was == (old(phase) in {Running, Paused})
      ensures phase == if was then Cancelling else old(phase)
    {
      if phase != Running && phase != Paused {
        return false;
      }
      SetPhase(Cancelling);
      return true;
    }

    method Status(since: int) returns (at: Phase, counts: Counts, upTo: nat, news: seq<Event>)
      requires Valid()
      ensures at == phase && upTo == |events| && news == EventsAfter(Abstract(), since)
      ensures counts.checked == checked && counts.answered == answered && counts.signingIn == signingIn
      ensures counts.signedIn == signedIn && counts.continues == continues && counts.found == |findings|
      ensures forall reason: Reason :: counts.reasons[reason] == |Giving(lines, |lines|, reason)|
      ensures 0 <= since <= upTo ==> Shown(Shown(BLANK, events[..since]), news) == Page(phase, lines, Found())
    {
      var from := if since > 0 then since else 0;
      news := if from <= |events| then events[from..] else [];
      var reasons := multiset{};
      for k := 0 to |lines|
        invariant forall reason: Reason :: reasons[reason] == |Giving(lines, k, reason)|
      {
        forall reason: Reason ensures |Giving(lines, k + 1, reason)| == |Giving(lines, k, reason)| + (if lines[k].reason == reason then 1 else 0) {
          GivingOneMore(lines, k, reason);
        }
        reasons := reasons + multiset{lines[k].reason};
      }
      at, upTo := phase, |events|;
      counts := Counts(checked, answered, signingIn, signedIn, |findings|, reasons, continues);
      if 0 <= since <= |events| {
        PageFollows(Abstract(), since);
      }
    }

    method RecordCheck(address: Address, isOpen: bool, mapped: bool)
      modifies this
      requires Valid()
      ensures Valid() && Abstract() == Checked(old(Abstract()), address, isOpen, mapped)
      ensures checked == old(checked) + 1 && answered == old(answered) + (if isOpen then 1 else 0)
      ensures |events| == |old(events)| + (if mapped then 1 else 0) && (mapped ==> events[|events| - 1].news == OfPort(address, isOpen))
    {
      hide Shown;
      ToldIsShown(Abstract(), OfPort(address, isOpen));
      checked := checked + 1;
      if isOpen {
        answered := answered + 1;
      }
      if mapped {
        Tell(OfPort(address, isOpen));
      }
    }

    /** One look of a sign-in waiting for its start. */
    method TakeTurn(now: real) returns (turn: Turn)
      modifies `nextStart, `signingIn
      requires Valid()
      ensures Valid() && turn == TurnAt(old(Abstract()), now)
      ensures Abstract() == if turn.Go? then Began(old(Abstract()), now) else old(Abstract())
      ensures turn == Blocked <==> phase == Paused
      ensures turn == Refused <==> phase != Paused && (phase != Running || !loggedIn)
      ensures turn.Later? ==> turn.delay > 0.0 && TurnAt(Abstract(), now + turn.delay) == Go(continues)
                              && forall sooner: real | sooner < now + turn.delay :: !TurnAt(Abstract(), sooner).Go?
      ensures turn.Go? ==> turn.generation == continues && forall soon: real | soon < now + SIGN_IN_GAP :: !TurnAt(Abstract(), soon).Go?
    {
      if phase == Paused {
        return Blocked;
      }
      if phase != Running || !loggedIn {
        return Refused;
      }
      if now >= nextStart {
        nextStart := now + SIGN_IN_GAP;
        signingIn := signingIn + 1;
        return Go(continues);
      }
      return Later(nextStart - now);
    }

    method AddLine(line: Line, ended: bool, hasSignedIn: bool)
      modifies `lines, `events, `signingIn, `signedIn
      requires Valid()
      ensures Valid() && Abstract() == Listed(old(Abstract()), line, ended, hasSignedIn)
      ensures lines == old(lines) + [line] && signingIn == old(signingIn) - (if ended then 1 else 0)
      ensures signedIn == old(signedIn) + (if hasSignedIn then 1 else 0)
    {
      hide Shown;
      ToldIsShown(Abstract(), OfLine(line));
      if ended {
        signingIn := signingIn - 1;
      }
      if hasSignedIn {
        signedIn := signedIn + 1;
      }
      lines := lines + [line];
      Tell(OfLine(line));
    }

    /** Only a sign-in begun under the present Continue count is counted; the third counted pauses a running scan. */
    method Fail(address: Address, generation: nat)
      modifies this
      requires Valid()
      ensures Valid() && Abstract() == FailedWith(old(Abstract()), address, generation)
      ensures lines == old(lines) + [Line(address, WrongCredentials)] && signingIn == old(signingIn) - 1
      ensures failures == old(failures) + (if generation == continues then 1 else 0)
      ensures phase == if generation == continues && failures >= FAILURES_BEFORE_PAUSE && old(phase) == Running then Paused else old(phase)
    {
      AddLine(Line(address, WrongCredentials), true, false);
      if generation == continues {
        failures := failures + 1;
        if failures >= FAILURES_BEFORE_PAUSE && phase == Running {
          SetPhase(Paused);
        }
      }
    }

    /** Either a finding with the next id, or a line that says the platform is not supported. */
    method Detect(address: Address, detection: Detection)
      modifies this
      requires Valid()
      ensures Valid() && Abstract() == Detected(old(Abstract()), address, detection)
      ensures signingIn == old(signingIn) - 1 && signedIn == old(signedIn) + 1
      ensures if detection.detected.Some? && detection.platform.None? then lines == old(lines) + [Line(address, NotSupported)]
                && findings == old(findings)
              else lines == old(lines) && findings == old(findings)[|old(findings)| + 1 := Finding(|old(findings)| + 1, address, detection)]
    {
      hide Shown;
      if detection.platform.None? && detection.detected.Some? {
        AddLine(Line(address, NotSupported), true, true);
        return;
      }
      ghost var before := Abstract();
      var finding := Finding(|findings| + 1, address, detection);
      ToldIsShown(before, OfFinding(finding));
      signingIn := signingIn - 1;
      signedIn := signedIn + 1;
      AddFinding(finding);
      Tell(OfFinding(finding));
    }

    method AddFinding(finding: Finding)
      modifies `findings
      requires finding.id == |findings| + 1 && forall id :: id in findings <==> 1 <= id <= |findings|
      ensures forall id :: id in findings <==> 1 <= id <= |findings|
      ensures Abstract() == old(Abstract()).(findings := old(Found()) + [finding])
      ensures findings == old(findings)[finding.id := finding]
    {
      findings := findings[finding.id := finding];
      assert Found() == old(Found()) + [finding];
    }

    method End()
      modifies this
      requires Valid()
      ensures Valid() && Abstract() == Ended(old(Abstract()))
      ensures !loggedIn && phase == if old(phase) == Cancelling then Cancelled else Done
    {
      loggedIn := false;
      SetPhase(if phase == Cancelling then Cancelled else Done);
    }
  }
}
