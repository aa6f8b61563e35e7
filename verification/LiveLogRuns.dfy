/**
 Every interleaving of a log's writers, one reader and the job's end.
 */
module LiveLogRuns {
  import opened LiveLogs

  datatype Reader =
    | Away
    | Subscribed(inbox: seq<nat>)                 // the numbers of the messages it has got
    | Reading(start: nat, late: bool, inbox: seq<nat>)   // it has read the history: `start` lines; late: already removed

  /** `log`: every line ever added. `pending`: those added but not published yet. `lost`: never published, Redis failed. */
  datatype State = State(log: seq<string>, pending: set<nat>, lost: set<nat>, over: bool, reader: Reader)

  datatype Action =
    | Push(line: string) | Publish(n: nat) | PublishFails(n: nat)
    | Subscribe | ReadHistory | Close

  const EMPTY := State([], {}, {}, false, Away)

  predicate Enabled(s: State, a: Action) {
    match a
    case Push(_) => !s.over
    case Publish(n) => n in s.pending
    case PublishFails(n) => n in s.pending
    case Subscribe => s.reader.Away?
    case ReadHistory => s.reader.Subscribed?
    case Close => !s.over && s.pending == {}
  }

  function Got(reader: Reader, n: nat): Reader {
    match reader
    case Away => Away
    case Subscribed(inbox) => Subscribed(inbox + [n])
    case Reading(start, late, inbox) => Reading(start, late, inbox + [n])
  }

  function Apply(s: State, a: Action): State
    requires Enabled(s, a)
  {
    match a
    case Push(line) => s.(log := s.log + [line], pending := s.pending + {|s.log| + 1})
    case Publish(n) => s.(pending := s.pending - {n}, reader := Got(s.reader, n))
    case PublishFails(n) => s.(pending := s.pending - {n}, lost := s.lost + {n})
    case Subscribe => s.(reader := Subscribed([]))
    case ReadHistory => s.(reader := Reading(if s.over then 0 else |s.log|, s.over, s.reader.inbox))
    case Close => s.(over := true)
  }

  predicate ValidRun(s: State, run: seq<Action>)
    decreases |run|
  {
    run == [] || (Enabled(s, run[0]) && ValidRun(Apply(s, run[0]), run[1..]))
  }

  function After(s: State, run: seq<Action>): State
    requires ValidRun(s, run)
    decreases |run|
  {
    if run == [] then s else After(Apply(s, run[0]), run[1..])
  }

  /** Each line is added by one thread after the other: none is added before the last is published. */
  predicate Serial(s: State, run: seq<Action>)
    requires ValidRun(s, run)
    decreases |run|
  {
    run == [] || ((run[0].Push? ==> s.pending == {}) && !run[0].PublishFails? && Serial(Apply(s, run[0]), run[1..]))
  }

  /** The messages it has got, by their numbers. */
  function Inbox(reader: Reader): seq<nat> {
    if reader.Away? then [] else reader.inbox
  }

  ghost predicate Distinct(numbers: seq<nat>) {
    forall i, j | 0 <= i < j < |numbers| :: numbers[i] != numbers[j]
  }

  ghost predicate Holds(s: State) {
    && Within(Inbox(s.reader), s.log)
    && Distinct(Inbox(s.reader))
    && (forall n | n in s.pending :: 1 <= n <= |s.log| && n !in Inbox(s.reader) && n !in s.lost)
    && (forall n | n in s.lost :: 1 <= n <= |s.log| && n !in Inbox(s.reader))
    && (s.reader.Reading? ==> s.reader.start <= |s.log|)
    && (s.reader.Reading? && !s.reader.late ==>
          forall n | s.reader.start < n <= |s.log| :: n in s.pending || n in s.lost || n in s.reader.inbox)
  }

  lemma StepHolds(s: State, a: Action)
    requires Enabled(s, a) && Holds(s)
    ensures Holds(Apply(s, a))
  {
  }

  lemma {:induction false} RunHolds(s: State, run: seq<Action>)
    requires Holds(s) && ValidRun(s, run)
    ensures Holds(After(s, run))
    decreases |run|
  {
    hide Holds;
    if run != [] {
      StepHolds(s, run[0]);
      RunHolds(Apply(s, run[0]), run[1..]);
    }
  }

  // ---------- What the reader has shown ----------

  function Range(a: nat, b: nat): (numbers: seq<nat>)
    ensures forall n :: n in numbers <==> a < n <= b
    ensures Rising(numbers)
    decreases b - a
  {
    if a >= b then []
    else
      var rest := Range(a + 1, b);
      assert forall k | 0 <= k < |rest| :: rest[k] in rest;
      [a + 1] + rest
  }

  /** The lines a reader has shown, by number: the history's, and the messages it didn't skip. */
  function ShownNumbers(reader: Reader): seq<nat>
    requires reader.Reading?
  {
    Range(0, reader.start) + Fresh(reader.start, reader.inbox)
  }

  lemma PickedOneMore(log: seq<string>, n: nat, rest: seq<nat>)
    requires Within([n] + rest, log) && Within(rest, log)
    ensures n in [n] + rest && Picked(log, [n] + rest) == [log[n - 1]] + Picked(log, rest)
  {
    assert ([n] + rest)[0] == n;
  }

  lemma {:induction false} PickedRange(log: seq<string>, a: nat, b: nat)
    requires a <= b <= |log|
    ensures Picked(log, Range(a, b)) == log[a..b]
    decreases b - a
  {
    hide Rising;
    if a < b {
      PickedRange(log, a + 1, b);
      assert Range(a, b) == [a + 1] + Range(a + 1, b);
      PickedOneMore(log, a + 1, Range(a + 1, b));
    }
  }

  /** The lines a reader that has read this much of the log yields, from all it gets. */
  function YieldedLines(log: seq<string>, start: nat, arrivals: seq<Arrival>): seq<string>
    requires start <= |log|
  {
    LinesOf(AsYielded(log[..start]) + Heard(start, arrivals))
  }

  /** However adding, publishing, subscribing and reading interleave - from several threads, with messages lost, and wherever the
      reader is among the messages it has got - it yields lines of the log, each once at most and in the log's order. */
  lemma NeverTwice(run: seq<Action>, k: nat, arrivals: seq<Arrival>)
    requires ValidRun(EMPTY, run) && After(EMPTY, run).reader.Reading? && k <= |After(EMPTY, run).reader.inbox|
    ensures var s := After(EMPTY, run);
            var got := s.reader.inbox[..k];
            var shown := Range(0, s.reader.start) + Fresh(s.reader.start, got);
            && Within(got, s.log) && Rising(shown) && Within(shown, s.log) && s.reader.start <= |s.log|
            && (Bring(arrivals, s.log, got) ==> YieldedLines(s.log, s.reader.start, arrivals) == Picked(s.log, shown))
  {
    RunHolds(EMPTY, run);
    var s := After(EMPTY, run);
    var got := s.reader.inbox[..k];
    assert forall n | n in got :: n in s.reader.inbox;
    ShownRises(s.log, s.reader.start, got);
    if Bring(arrivals, s.log, got) {
      ShownIs(s.log, s.reader.start, got, arrivals);
    }
  }

  lemma ShownRises(log: seq<string>, start: nat, inbox: seq<nat>)
    requires start <= |log| && Within(inbox, log)
    ensures var shown := Range(0, start) + Fresh(start, inbox); Rising(shown) && Within(shown, log)
  {
    FreshIsWithin(start, inbox);
    RisingJoin(Range(0, start), Fresh(start, inbox), start);
  }

  lemma ShownIs(log: seq<string>, start: nat, inbox: seq<nat>, arrivals: seq<Arrival>)
    requires start <= |log| && Within(inbox, log) && Bring(arrivals, log, inbox)
    ensures var shown := Range(0, start) + Fresh(start, inbox);
            && Rising(shown) && Within(shown, log) && YieldedLines(log, start, arrivals) == Picked(log, shown)
  {
    hide Heard;
    hide Bring;
    var unseen := Fresh(start, inbox);
    FreshIsWithin(start, inbox);
    HeardIsFresh(log, start, inbox, arrivals);
    PickedRange(log, 0, start);
    RisingJoin(Range(0, start), unseen, start);
    assert Picked(log, Range(0, start) + unseen) == Picked(log, Range(0, start)) + Picked(log, unseen);
    LinesJoin(AsYielded(log[..start]), Heard(start, arrivals));
    LinesYielded(log[..start]);
    assert log[0..start] == log[..start];
  }

  lemma RisingJoin(a: seq<nat>, b: seq<nat>, between: nat)
    requires Rising(a) && Rising(b) && (forall n | n in a :: n <= between) && (forall n | n in b :: n > between)
    ensures Rising(a + b)
  {
    var all := a + b;
    forall i, j | 0 <= i < j < |all| ensures all[i] < all[j] {
      if i < |a| <= j {
        assert a[i] in a && b[j - |a|] in b;
      }
    }
  }

  lemma {:induction false} RisingIsRange(numbers: seq<nat>, a: nat, b: nat)
    requires Rising(numbers) && forall n :: n in numbers <==> a < n <= b
    ensures numbers == Range(a, b)
    decreases |numbers|
  {
    if numbers == [] {
      assert a < b ==> a + 1 in numbers;
    } else {
      RisingSplits(numbers);
      assert numbers[0] in numbers && a + 1 in numbers;
      hide Rising;
      var rest := numbers[1..];
      assert numbers[0] == a + 1;
      forall n ensures n in rest <==> a + 1 < n <= b {
        assert n in rest <==> n in numbers && n != numbers[0];
      }
      RisingIsRange(rest, a + 1, b);
    }
  }

  lemma RisingSplits(numbers: seq<nat>)
    requires Rising(numbers) && numbers != []
    ensures Rising(numbers[1..])
    ensures forall n | n in numbers :: numbers[0] <= n
    ensures forall n :: n in numbers[1..] <==> n in numbers && n != numbers[0]
  {
    assert numbers == [numbers[0]] + numbers[1..];
    assert forall k | 0 <= k < |numbers| - 1 :: numbers[1..][k] == numbers[k + 1] && numbers[0] < numbers[k + 1];
  }

  lemma RestIsDistinct(numbers: seq<nat>)
    requires Distinct(numbers) && numbers != []
    ensures Distinct(numbers[1..]) && numbers[0] !in numbers[1..]
  {
    assert forall k | 0 <= k < |numbers| - 1 :: numbers[1..][k] == numbers[k + 1];
  }

  lemma {:induction false} AllFreshIsBeyond(seen: nat, numbers: seq<nat>)
    requires Distinct(numbers) && forall n | n in Beyond(seen, numbers) :: n in Fresh(seen, numbers)
    ensures Fresh(seen, numbers) == Beyond(seen, numbers)
    decreases |numbers|
  {
    hide Distinct;
    hide Rising;
    if numbers != [] {
      var n, rest := numbers[0], numbers[1..];
      RestIsDistinct(numbers);
      BeyondIs(seen, rest);
      if n <= seen {
        assert Beyond(seen, numbers) == Beyond(seen, rest);
        AllFreshIsBeyond(seen, rest);
      } else {
        var beyond := Beyond(seen, rest);
        assert Beyond(seen, numbers) == [n] + beyond;
        FreshIsWithin(n, rest);
        forall m | m in beyond ensures m in Fresh(n, rest) && m > n {
          assert m in [n] + beyond;
          assert m in [n] + Fresh(n, rest);
        }
        BeyondFrom(seen, n, rest);
        AllFreshIsBeyond(n, rest);
      }
    }
  }

  /** A line that isn't published is lost to a reader whose history doesn't hold it. */
  ghost predicate NoneMissed(s: State)
    requires s.reader.Reading?
  {
    forall n | n in s.lost :: n <= s.reader.start
  }

  /** Once no line is still to be published, a reader that read the history before the job's end has shown every line exactly
      if its history holds every line that failed to be published, and the messages beyond it came in the order of the lines. */
  lemma CompleteIffInOrder(run: seq<Action>)
    requires ValidRun(EMPTY, run)
    ensures var s := After(EMPTY, run);
            s.reader.Reading? && !s.reader.late && s.pending == {} ==>
              (ShownNumbers(s.reader) == Range(0, |s.log|) <==>
                 NoneMissed(s) && Rising(Beyond(s.reader.start, s.reader.inbox)))
  {
    RunHolds(EMPTY, run);
    var s := After(EMPTY, run);
    if s.reader.Reading? && !s.reader.late && s.pending == {} {
      var start, inbox := s.reader.start, s.reader.inbox;
      BeyondIs(start, inbox);
      NoneSkippedIffRising(start, inbox);
      if NoneMissed(s) && Rising(Beyond(start, inbox)) {
        RisingIsRange(Beyond(start, inbox), start, |s.log|);
        RangesJoin(0, start, |s.log|);
      }
      if ShownNumbers(s.reader) == Range(0, |s.log|) {
        CompleteShowsAll(s);
        AllFreshIsBeyond(start, inbox);
      }
    }
  }

  lemma CompleteShowsAll(s: State)
    requires Holds(s) && s.reader.Reading? && ShownNumbers(s.reader) == Range(0, |s.log|)
    ensures NoneMissed(s)
    ensures forall n | n in Beyond(s.reader.start, s.reader.inbox) :: n in Fresh(s.reader.start, s.reader.inbox)
  {
    hide Distinct;
    hide Rising;
    var start, inbox := s.reader.start, s.reader.inbox;
    BeyondIs(start, inbox);
    FreshIsWithin(start, inbox);
    forall n | n > start && n in Range(0, |s.log|) ensures n in Fresh(start, inbox) && n in inbox {
      assert n !in Range(0, start);
    }
  }

  lemma {:induction false} RangesJoin(a: nat, b: nat, c: nat)
    requires a <= b <= c
    ensures Range(a, b) + Range(b, c) == Range(a, c)
    decreases b - a
  {
    if a < b {
      RangesJoin(a + 1, b, c);
    }
  }

  // ---------- Serial writers ----------

  /** Messages come in the order of their lines, and the one still to be published is the last. */
  ghost predicate InOrder(s: State) {
    && Rising(Inbox(s.reader))
    && (forall n | n in s.pending :: n == |s.log|)
    && s.lost == {}
  }

  lemma {:induction false} SerialIsInOrder(s: State, run: seq<Action>)
    requires ValidRun(s, run) && Serial(s, run) && Holds(s) && InOrder(s)
    ensures InOrder(After(s, run))
    decreases |run|
  {
    if run != [] {
      StepHolds(s, run[0]);
      StepInOrder(s, run[0]);
      SerialIsInOrder(Apply(s, run[0]), run[1..]);
    }
  }

  lemma StepInOrder(s: State, a: Action)
    requires Enabled(s, a) && Holds(s) && InOrder(s) && (a.Push? ==> s.pending == {}) && !a.PublishFails?
    ensures InOrder(Apply(s, a))
  {
    if a.Publish? {
      var inbox := Inbox(s.reader);
      forall k | 0 <= k < |inbox| ensures inbox[k] < a.n {
        assert inbox[k] in inbox;
      }
    }
  }

  /** With one writer at a time and no failure, a reader that read the history before the job's end, once it has got every message,
      yields every line, once and in order - whatever heartbeats come between and however it ends. */
  lemma SerialIsComplete(run: seq<Action>, arrivals: seq<Arrival>)
    requires ValidRun(EMPTY, run) && Serial(EMPTY, run)
    ensures var s := After(EMPTY, run);
            s.reader.Reading? && !s.reader.late && s.pending == {} ==>
              && Within(s.reader.inbox, s.log) && s.reader.start <= |s.log|
              && (Bring(arrivals, s.log, s.reader.inbox) ==> YieldedLines(s.log, s.reader.start, arrivals) == s.log)
  {
    SerialIsInOrder(EMPTY, run);
    RunHolds(EMPTY, run);
    var s := After(EMPTY, run);
    if s.reader.Reading? && !s.reader.late && s.pending == {} && Bring(arrivals, s.log, s.reader.inbox) {
      ShownIs(s.log, s.reader.start, s.reader.inbox, arrivals);
      CompleteIffInOrder(run);
      BeyondIs(s.reader.start, s.reader.inbox);
      PickedRange(s.log, 0, |s.log|);
      assert s.log[0..|s.log|] == s.log;
    }
  }

  lemma First(s: State, a: Action, rest: seq<Action>)
    requires Enabled(s, a) && ValidRun(Apply(s, a), rest)
    ensures ValidRun(s, [a] + rest) && After(s, [a] + rest) == After(Apply(s, a), rest)
  {
    assert ([a] + rest)[1..] == rest;
  }

  /** Two threads adding at once can make a reader miss a line for good: the second line's message came first. */
  lemma TwoWritersCanLoseALine(first: string, second: string)
    ensures var run := [Subscribe, ReadHistory, Push(first), Push(second), Publish(2), Publish(1)];
            && ValidRun(EMPTY, run)
            && var s := After(EMPTY, run);
            && s.log == [first, second] && s.pending == s.lost == {}
            && s.reader.Reading? && !s.reader.late && ShownNumbers(s.reader) == [2]
  {
    var run := [Subscribe, ReadHistory, Push(first), Push(second), Publish(2), Publish(1)];
    var s1 := Apply(EMPTY, Subscribe);
    var s2 := Apply(s1, ReadHistory);
    var s3 := Apply(s2, Push(first));
    var s4 := Apply(s3, Push(second));
    var s5 := Apply(s4, Publish(2));
    var s6 := Apply(s5, Publish(1));
    First(s5, Publish(1), []);
    First(s4, Publish(2), [Publish(1)]);
    First(s3, Push(second), run[4..]);
    First(s2, Push(first), run[3..]);
    First(s1, ReadHistory, run[2..]);
    First(EMPTY, Subscribe, run[1..]);
    assert [Publish(1)] + [] == [Publish(1)] && [Publish(2)] + [Publish(1)] == run[4..];
    assert run == [Subscribe] + run[1..];
    assert s4.pending == {1, 2} && s6.pending == {};
    assert s6.reader.inbox == [2, 1] && [2, 1][1..] == [1];
    assert Fresh(0, [2, 1]) == [2] + Fresh(2, [1]) && Fresh(2, [1]) == [];
  }

  /** A failed publish loses the line to a reader that is there already, however the writers take turns. */
  lemma FailedPublishLosesALine(line: string)
    ensures var run := [Subscribe, ReadHistory, Push(line), PublishFails(1)];
            && ValidRun(EMPTY, run)
            && var s := After(EMPTY, run);
            && s.log == [line] && s.pending == {} && s.reader.Reading? && !s.reader.late && ShownNumbers(s.reader) == []
  {
    var run := [Subscribe, ReadHistory, Push(line), PublishFails(1)];
    var s1 := Apply(EMPTY, Subscribe);
    var s2 := Apply(s1, ReadHistory);
    var s3 := Apply(s2, Push(line));
    First(s3, PublishFails(1), []);
    First(s2, Push(line), run[3..]);
    First(s1, ReadHistory, run[2..]);
    First(EMPTY, Subscribe, run[1..]);
    assert [PublishFails(1)] + [] == [PublishFails(1)] == run[3..] && run == [Subscribe] + run[1..];
    assert s3.pending == {1};
  }
}
