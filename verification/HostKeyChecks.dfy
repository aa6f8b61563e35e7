/**
 One connection's host key check, and the retries around it.
 */
module HostKeyChecks {
  import opened Options
  import opened HostKeyStore

  /** What a device's connections are checked against. */
  datatype Policy = Policy(known: seq<Key>, learn: bool)

  const OFF := Policy([], false)

  /** Checking off; or the target's accepted keys; or, with none, learning. */
  function PolicyFor(on: bool, accepted: seq<Key>, learn: bool): Policy {
    if !on then OFF else Policy(accepted, learn && accepted == [])
  }

  function Pinned(key: Key): Policy {
    Policy([key], false)
  }

  /** One key per type, as the connection's own known-hosts file holds them. */
  type Loaded = map<string, Key>

  function FirstOfEach(known: seq<Key>): Loaded {
    if known == [] then map[]
    else
      var rest := FirstOfEach(known[..|known| - 1]);
      var last := known[|known| - 1];
      if last.kind in rest then rest else rest[last.kind := last]
  }

  /** What a connection's device does: show a key - and then perhaps time out setting up - or not answer. */
  datatype Answer = Shows(key: Key, timesOut: bool) | Unreachable

  datatype Result =
    | Connected(key: Key)
    | NotAccepted(offered: Key)          // refused: a key it does not know
    | Unsettled(offered: Key)            // the accepted keys, each tried, came in turn
    | Failed                             // any other error

  /** One connection: a password is sent exactly when the key shown is let through. */
  datatype Attempt = Up(key: Key) | TimedOut(key: Key) | BadKey(offered: Key) | Broken

  function Once(known: seq<Key>, loaded: Loaded, answer: Answer): Attempt {
    match answer
    case Unreachable => Broken
    case Shows(key, timesOut) =>
      if known != [] && key !in loaded.Values then BadKey(key) else if timesOut then TimedOut(key) else Up(key)
  }

  /** A connection, once more when its setup timed out: how it ended, and how many connections it took. */
  function Tried(known: seq<Key>, loaded: Loaded, device: nat -> Answer, n: nat): (Attempt, nat) {
    var first := Once(known, loaded, device(n));
    if first.TimedOut? then (Once(known, loaded, device(n + 1)), n + 2) else (first, n + 1)
  }

  /** The keys not tried yet. */
  ghost function Left(known: seq<Key>, tried: set<Key>): set<Key> {
    (set key | key in known) - tried
  }

  /** How connecting ends, from the n-th connection on. */
  ghost function Outcome(known: seq<Key>, loaded: Loaded, tried: set<Key>, device: nat -> Answer, n: nat): Result
    decreases |Left(known, tried)|
  {
    var (attempt, next) := Tried(known, loaded, device, n);
    match attempt
    case Up(key) => Connected(key)
    case TimedOut(_) => Failed
    case Broken => Failed
    case BadKey(offered) =>
      if offered in known && offered !in tried then
        assert Left(known, tried + {offered}) == Left(known, tried) - {offered};
        Outcome(known, loaded[offered.kind := offered], tried + {offered}, device, next)
      else if offered in known then Unsettled(offered)
      else NotAccepted(offered)
  }

  ghost function OutcomeOf(policy: Policy, device: nat -> Answer): Result {
    Outcome(policy.known, FirstOfEach(policy.known), FirstOfEach(policy.known).Values, device, 0)
  }

  /** For each type of known key, one known key of that type. */
  ghost predicate OneOfEach(known: seq<Key>, loaded: Loaded) {
    && (forall kind | kind in loaded :: loaded[kind] in known && loaded[kind].kind == kind)
    && (forall key | key in known :: key.kind in loaded)
  }

  lemma {:induction false} FirstIsOneOfEach(known: seq<Key>)
    ensures OneOfEach(known, FirstOfEach(known))
  {
    if known != [] {
      FirstIsOneOfEach(known[..|known| - 1]);
      assert known == known[..|known| - 1] + [known[|known| - 1]];
    }
  }

  /** Of the known keys of one type it is the first that is loaded. */
  lemma {:induction false} FirstIsLoaded(known: seq<Key>, i: nat)
    requires i < |known| && forall j | 0 <= j < i :: known[j].kind != known[i].kind
    ensures known[i].kind in FirstOfEach(known) && FirstOfEach(known)[known[i].kind] == known[i]
    decreases |known|
  {
    var rest := known[..|known| - 1];
    if i < |known| - 1 {
      FirstIsLoaded(rest, i);
    } else {
      FirstIsOneOfEach(rest);
      assert forall key | key in rest :: exists j :: 0 <= j < i && known[j] == key;
    }
  }

  // ---------- In place ----------

  class HostKeyCheck {
    const known: seq<Key>
    var loaded: Loaded
    var tried: set<Key>
    ghost var loads: seq<Key>            // every key put into the file, in turn

    ghost predicate Valid()
      reads this
    {
      && OneOfEach(known, loaded)
      && loaded.Values <= tried
      && (forall key :: key in tried <==> key in loads)
      && (forall i, j | 0 <= i < j < |loads| :: loads[i] != loads[j])
      && (forall key | key in loads :: key in known)
    }

    constructor (known: seq<Key>)
      ensures this.known == known && loaded == FirstOfEach(known) && tried == loaded.Values && Valid()
    {
      FirstIsOneOfEach(known);
      this.known := known;
      loaded := FirstOfEach(known);
      tried := FirstOfEach(known).Values;
      loads := Listed(FirstOfEach(known).Values);
      ListedIs(FirstOfEach(known).Values);
    }

    /** Loads a known key in place of the one of its kind, if it hasn't been tried before. */
    method Alternative(offered: Key) returns (again: bool)
      requires Valid()
      modifies this
      ensures Valid() && again == (offered in known && offered !in old(tried))
      ensures again ==> loaded == old(loaded)[offered.kind := offered] && tried == old(tried) + {offered} && loads == old(loads) + [offered]
      ensures !again ==> loaded == old(loaded) && tried == old(tried) && loads == old(loads)
    {
      if offered !in known || offered in tried {
        return false;
      }
      tried := tried + {offered};
      loaded := loaded[offered.kind := offered];
      loads := loads + [offered];
      return true;
    }
  }

  ghost function Listed(keys: set<Key>): seq<Key> {
    if keys == {} then [] else var key :| key in keys; [key] + Listed(keys - {key})
  }

  lemma {:induction false} ListedIs(keys: set<Key>)
    ensures forall key :: key in Listed(keys) <==> key in keys
    ensures forall i, j | 0 <= i < j < |Listed(keys)| :: Listed(keys)[i] != Listed(keys)[j]
  {
    if keys != {} {
      var listed := Listed(keys);
      ListedIs(keys - {listed[0]});
      assert listed == [listed[0]] + Listed(keys - {listed[0]});
    }
  }

  /** Connecting: again with the other accepted key while the device offers one not tried yet. `sent`: the keys a password
      was sent to. */
  method Connect(policy: Policy, device: nat -> Answer) returns (result: Result, sent: seq<Key>, ghost loads: seq<Key>)
    ensures result == OutcomeOf(policy, device)
    ensures policy.known != [] ==> forall key | key in sent :: key in policy.known
    ensures result.Connected? ==> result.key in sent
    ensures (forall i, j | 0 <= i < j < |loads| :: loads[i] != loads[j]) && forall key | key in loads :: key in policy.known
  {
    hide OneOfEach;
    hide FirstOfEach;
    var check := new HostKeyCheck(policy.known);
    sent := [];
    var n: nat := 0;
    while true
      invariant check.Valid() && check.known == policy.known
      invariant Outcome(policy.known, check.loaded, check.tried, device, n) == OutcomeOf(policy, device)
      invariant policy.known != [] ==> forall key | key in sent :: key in policy.known
      decreases Left(policy.known, check.tried)
    {
      var attempt := Once(policy.known, check.loaded, device(n));
      n := n + 1;
      if attempt.TimedOut? {
        sent := sent + [attempt.key];
        attempt := Once(policy.known, check.loaded, device(n));
        n := n + 1;
      }
      match attempt {
        case Up(key) => return Connected(key), sent + [key], check.loads;
        case TimedOut(key) => return Failed, sent + [key], check.loads;
        case Broken => return Failed, sent, check.loads;
        case BadKey(offered) =>
          ghost var before := Left(policy.known, check.tried);
          var again := check.Alternative(offered);
          if !again {
            return if offered in policy.known then Unsettled(offered) else NotAccepted(offered), sent, check.loads;
          }
          assert offered in before && Left(policy.known, check.tried) == before - {offered};
      }
    }
  }

  // ---------- What a connection can rely on ----------

  /** With keys known, a connection that comes up is to a device that showed one of them; one refused showed another. */
  lemma {:induction false} OnlyKnownComeUp(known: seq<Key>, loaded: Loaded, tried: set<Key>, device: nat -> Answer, n: nat)
    requires known != [] && OneOfEach(known, loaded)
    ensures var r := Outcome(known, loaded, tried, device, n);
            && (r.Connected? ==> r.key in known)
            && (r.NotAccepted? ==> r.offered !in known)
            && (r.Unsettled? ==> r.offered in known)
    decreases |Left(known, tried)|
  {
    var (attempt, next) := Tried(known, loaded, device, n);
    if attempt.BadKey? && attempt.offered in known && attempt.offered !in tried {
      var offered := attempt.offered;
      assert Left(known, tried + {offered}) == Left(known, tried) - {offered};
      OnlyKnownComeUp(known, loaded[offered.kind := offered], tried + {offered}, device, next);
    }
  }

  /** Either unit of a pair is reached: a device that always shows the same accepted key comes up, whichever keys the
      connection began with - and one that always shows another is refused. */
  lemma SteadyDeviceSettles(policy: Policy, key: Key)
    requires policy.known != []
    ensures OutcomeOf(policy, (_: nat) => Shows(key, false)) == if key in policy.known then Connected(key) else NotAccepted(key)
  {
    var known, device := policy.known, (_: nat) => Shows(key, false);
    var loaded := FirstOfEach(known);
    FirstIsOneOfEach(known);
    if key in known && key !in loaded.Values {
      var again := loaded[key.kind := key];
      assert again[key.kind] == key;
      assert Outcome(known, again, loaded.Values + {key}, device, 1) == Connected(key);
    } else if key !in known {
      assert key !in loaded.Values;
    }
  }

  /** Once a key is learned, the device's later connections come up with that key alone. */
  lemma PinnedStays(key: Key, device: nat -> Answer)
    ensures var r := OutcomeOf(Pinned(key), device); r.Connected? ==> r.key == key
  {
    FirstIsOneOfEach([key]);
    OnlyKnownComeUp([key], FirstOfEach([key]), FirstOfEach([key]).Values, device, 0);
  }

  /** From the stored rows to the connection and back: with checking on, a connection comes up with an accepted key of its
      target, or - when it has none - learns the key it saw as the only one. */
  lemma ConnectionTrusts(s: State, target: Target, device: nat -> Answer)
    requires Valid(s)
    ensures var accepted := AcceptedKeys(s.rows, target);
            var policy := PolicyFor(true, accepted, true);
            var r := OutcomeOf(policy, device);
            && (policy.learn <==> accepted == [])
            && (r.Connected? ==>
              var after := AcceptedKeys(Apply(s, Saw(target, r.key, policy.learn)).rows, target);
              r.key in after && after == if accepted == [] then [r.key] else accepted)
  {
    var accepted := AcceptedKeys(s.rows, target);
    var r := OutcomeOf(PolicyFor(true, accepted, true), device);
    if accepted != [] {
      FirstIsOneOfEach(accepted);
      OnlyKnownComeUp(accepted, FirstOfEach(accepted), FirstOfEach(accepted).Values, device, 0);
    } else if r.Connected? {
      FirstIsLearned(s.rows, target, r.key, s.nextId, target);
    }
  }

  /** A connection that times out setting up is made once more, and only once; one the device doesn't answer is not. */
  lemma TimeoutIsRetriedOnce(policy: Policy, key: Key, device: nat -> Answer)
    requires policy.known == [] || key in FirstOfEach(policy.known).Values
    ensures device(0) == Shows(key, true) && device(1) == Shows(key, false) ==> OutcomeOf(policy, device) == Connected(key)
    ensures device(0) == Shows(key, true) && (device(1) == Shows(key, true) || device(1) == Unreachable) ==> OutcomeOf(policy, device) == Failed
    ensures device(0) == Shows(key, false) ==> OutcomeOf(policy, device) == Connected(key)
    ensures device(0) == Unreachable ==> OutcomeOf(policy, device) == Failed
  {
    hide FirstOfEach;
  }

  /** With checking off, whichever key comes is let through, and none is learned. */
  lemma OffAdmitsAny(accepted: seq<Key>, learn: bool, key: Key, device: nat -> Answer)
    ensures device(0) == Shows(key, false) ==> OutcomeOf(PolicyFor(false, accepted, learn), device) == Connected(key)
    ensures !PolicyFor(false, accepted, learn).learn
  {
    TimeoutIsRetriedOnce(OFF, key, device);
  }
}
