/**
 A job's live log: numbered messages, the history a late reader catches up on, and the reader that joins the two.
 */
module LiveLogs {
  import opened Options

  const DONE := "__done__"

  // ---------- Numbered messages ----------

  function Digit(d: nat): char
    requires d < 10
  {
    '0' + d as char
  }

  predicate IsDigit(ch: char) {
    '0' <= ch <= '9'
  }

  function Decimal(n: nat): (digits: string)
    ensures digits != "" && forall ch | ch in digits :: IsDigit(ch)
  {
    if n < 10 then [Digit(n)] else Decimal(n / 10) + [Digit(n % 10)]
  }

  function Value(digits: string): nat
    requires forall ch | ch in digits :: IsDigit(ch)
  {
    if digits == "" then 0
    else
      assert IsDigit(digits[|digits| - 1]);
      10 * Value(digits[..|digits| - 1]) + (digits[|digits| - 1] - '0') as nat
  }

  /** The number first - the line's place in the log, from 1 - and a tab before the line. */
  function Numbered(n: nat, line: string): string {
    Decimal(n) + "\t" + line
  }

  /** Where the first tab is; the length when there is none. */
  function Tab(data: string): (k: nat)
    ensures k <= |data| && '\t' !in data[..k] && (k < |data| ==> data[k] == '\t')
  {
    if data == "" || data[0] == '\t' then 0 else 1 + Tab(data[1..])
  }

  function Unnumbered(data: string): (Option<nat>, string) {
    var k := Tab(data);
    if k < |data| && k > 0 && forall ch | ch in data[..k] :: IsDigit(ch) then (Some(Value(data[..k])), data[k + 1..])
    else (None, data)
  }

  lemma {:induction false} ValueOfDecimal(n: nat)
    ensures Value(Decimal(n)) == n
  {
    if n >= 10 {
      ValueOfDecimal(n / 10);
      assert Decimal(n)[..|Decimal(n)| - 1] == Decimal(n / 10);
    }
  }

  lemma {:induction false} TabAfter(head: string, line: string)
    requires '\t' !in head
    ensures Tab(head + "\t" + line) == |head|
  {
    if head == "" {
      assert head + "\t" + line == "\t" + line;
    } else {
      assert (head + "\t" + line)[1..] == head[1..] + "\t" + line;
      TabAfter(head[1..], line);
    }
  }

  /** What a reader reads back is the number and the line, whatever the line holds; and it is never the end's message. */
  lemma NumberedRoundTrip(n: nat, line: string)
    ensures Unnumbered(Numbered(n, line)) == (Some(n), line)
    ensures Numbered(n, line) != DONE
  {
    var head, data := Decimal(n), Numbered(n, line);
    TabAfter(head, line);
    ValueOfDecimal(n);
    assert data[..|head|] == head && data[|head| + 1..] == line;
    assert data[|head|] == '\t';
    assert forall k | 0 <= k < |DONE| :: DONE[k] != '\t';
  }

  // ---------- The reader ----------

  /** What a wait for a message brings: one, or nothing - then the job may be over. */
  datatype Arrival = Message(data: string) | Nothing(over: bool)

  /** What a reader that has shown `seen` lines yields; None: a heartbeat. */
  function Heard(seen: nat, arrivals: seq<Arrival>): seq<Option<string>>
    decreases |arrivals|
  {
    if arrivals == [] then []
    else
      match arrivals[0]
      case Nothing(over) => if over then [] else [None] + Heard(seen, arrivals[1..])
      case Message(data) =>
        if data == DONE then []
        else
          var (n, line) := Unnumbered(data);
          if n.Some? && n.value <= seen then Heard(seen, arrivals[1..])
          else [Some(line)] + Heard(if n.Some? then n.value else seen, arrivals[1..])
  }

  function AsYielded(lines: seq<string>): seq<Option<string>> {
    if lines == [] then [] else [Some(lines[0])] + AsYielded(lines[1..])
  }

  /** The reader's loop: the history, then what arrives. */
  method Follow(history: seq<string>, arrivals: seq<Arrival>) returns (yielded: seq<Option<string>>)
    ensures yielded == AsYielded(history) + Heard(|history|, arrivals)
  {
    yielded := AsYielded(history);
    var seen: nat := |history|;
    var k: nat := 0;
    ghost var all := AsYielded(history) + Heard(|history|, arrivals);
    assert arrivals[0..] == arrivals;
    while k < |arrivals|
      invariant k <= |arrivals|
      invariant yielded + Heard(seen, arrivals[k..]) == all
    {
      HeardInTurn(seen, arrivals, k, yielded);
      match arrivals[k] {
        case Nothing(over) =>
          if over {
            return;
          }
          yielded := yielded + [None];
        case Message(data) =>
          if data == DONE {
            return;
          }
          var (n, line) := Unnumbered(data);
          if n.None? || n.value > seen {
            if n.Some? {
              seen := n.value;
            }
            yielded := yielded + [Some(line)];
          }
      }
      k := k + 1;
    }
  }

  lemma HeardInTurn(seen: nat, arrivals: seq<Arrival>, k: nat, before: seq<Option<string>>)
    requires k < |arrivals|
    ensures before + Heard(seen, arrivals[k..])
         == match arrivals[k]
            case Nothing(over) => if over then before else before + [None] + Heard(seen, arrivals[k + 1..])
            case Message(data) =>
              if data == DONE then before
              else
                var (n, line) := Unnumbered(data);
                if n.Some? && n.value <= seen then before + Heard(seen, arrivals[k + 1..])
                else before + [Some(line)] + Heard(if n.Some? then n.value else seen, arrivals[k + 1..])
  {
    assert arrivals[k..][1..] == arrivals[k + 1..];
  }

  // ---------- Which lines a reader shows ----------

  /** The numbers a reader that has shown `seen` lines doesn't skip. */
  function Fresh(seen: nat, numbers: seq<nat>): seq<nat>
    decreases |numbers|
  {
    if numbers == [] then []
    else if numbers[0] <= seen then Fresh(seen, numbers[1..])
    else [numbers[0]] + Fresh(numbers[0], numbers[1..])
  }

  ghost predicate Rising(numbers: seq<nat>) {
    forall i, j | 0 <= i < j < |numbers| :: numbers[i] < numbers[j]
  }

  /** The numbers are of lines in the log. */
  ghost predicate Within(numbers: seq<nat>, log: seq<string>) {
    forall n | n in numbers :: 1 <= n <= |log|
  }

  function Picked(log: seq<string>, numbers: seq<nat>): seq<string>
    requires Within(numbers, log)
  {
    seq(|numbers|, i requires 0 <= i < |numbers| => assert numbers[i] in numbers; log[numbers[i] - 1])
  }

  /** The arrivals bring exactly the messages of these numbers, in this order, with waits in between in which nothing came; once
      they are all there, the end may come - and whatever comes after it is never looked at. */
  predicate Bring(arrivals: seq<Arrival>, log: seq<string>, numbers: seq<nat>)
    requires Within(numbers, log)
    decreases |arrivals|
  {
    if arrivals == [] then numbers == []
    else if arrivals[0] == Nothing(false) then Bring(arrivals[1..], log, numbers)
    else if arrivals[0] == Nothing(true) || arrivals[0] == Message(DONE) then numbers == []
    else
      && numbers != []
      && (assert numbers[0] in numbers; arrivals[0] == Message(Numbered(numbers[0], log[numbers[0] - 1])))
      && (assert forall n | n in numbers[1..] :: n in numbers; Bring(arrivals[1..], log, numbers[1..]))
  }

  /** What was yielded without the heartbeats. */
  function LinesOf(yielded: seq<Option<string>>): seq<string> {
    if yielded == [] then []
    else (if yielded[0].Some? then [yielded[0].value] else []) + LinesOf(yielded[1..])
  }

  lemma {:induction false} LinesJoin(a: seq<Option<string>>, b: seq<Option<string>>)
    ensures LinesOf(a + b) == LinesOf(a) + LinesOf(b)
  {
    if a == [] {
      assert a + b == b;
    } else {
      assert (a + b)[1..] == a[1..] + b;
      LinesJoin(a[1..], b);
    }
  }

  lemma {:induction false} LinesYielded(lines: seq<string>)
    ensures LinesOf(AsYielded(lines)) == lines
  {
    if lines != [] {
      LinesYielded(lines[1..]);
    }
  }

  lemma {:induction false} FreshIsWithin(seen: nat, numbers: seq<nat>)
    ensures Rising(Fresh(seen, numbers))
    ensures forall n | n in Fresh(seen, numbers) :: n > seen && n in numbers
    decreases |numbers|
  {
    if numbers != [] {
      if numbers[0] <= seen {
        FreshIsWithin(seen, numbers[1..]);
      } else {
        FreshIsWithin(numbers[0], numbers[1..]);
        var rest := Fresh(numbers[0], numbers[1..]);
        assert forall k | 0 <= k < |rest| :: rest[k] in rest;
      }
    }
  }

  /** The lines heard of what arrives are the fresh ones, whatever heartbeats come between and however it ends. */
  lemma {:induction false} HeardIsFresh(log: seq<string>, seen: nat, numbers: seq<nat>, arrivals: seq<Arrival>)
    requires Within(numbers, log) && Bring(arrivals, log, numbers)
    ensures Within(Fresh(seen, numbers), log)
    ensures LinesOf(Heard(seen, arrivals)) == Picked(log, Fresh(seen, numbers))
    decreases |arrivals|
  {
    hide Unnumbered;
    hide Numbered;
    FreshIsWithin(seen, numbers);
    if arrivals == [] || arrivals[0] == Nothing(true) {
    } else if arrivals[0] == Nothing(false) {
      HeardIsFresh(log, seen, numbers, arrivals[1..]);
    } else if numbers != [] {
      var n, rest := numbers[0], numbers[1..];
      assert n in numbers && forall m | m in rest :: m in numbers;
      NumberedRoundTrip(n, log[n - 1]);
      HeardIsFresh(log, if n <= seen then seen else n, rest, arrivals[1..]);
      FreshIsWithin(if n <= seen then seen else n, rest);
      if n > seen {
        assert Picked(log, Fresh(seen, numbers)) == [log[n - 1]] + Picked(log, Fresh(n, rest));
      }
    }
  }

  // ---------- Messages without a number ----------

  /** A number, a tab, and the rest. */
  predicate IsNumbered(data: string, digits: string, rest: string) {
    digits != "" && (forall ch | ch in digits :: IsDigit(ch)) && data == digits + "\t" + rest
  }

  /** A message is read as numbered exactly if it is, by that number; any other is the line itself. */
  lemma UnnumberedIff(data: string)
    ensures forall digits, rest | IsNumbered(data, digits, rest) :: Unnumbered(data) == (Some(Value(digits)), rest)
    ensures (forall digits, rest :: !IsNumbered(data, digits, rest)) ==> Unnumbered(data) == (None, data)
  {
    forall digits, rest | IsNumbered(data, digits, rest) ensures Unnumbered(data) == (Some(Value(digits)), rest) {
      TabAfter(digits, rest);
      assert data[..|digits|] == digits && data[|digits| + 1..] == rest && data[|digits|] == '\t';
    }
    var k := Tab(data);
    if k < |data| {
      assert data == data[..k] + "\t" + data[k + 1..];
      assert IsNumbered(data, data[..k], data[k + 1..]) || k == 0 || exists ch :: ch in data[..k] && !IsDigit(ch);
    }
  }

  /** One that is not numbered is shown as it is, whatever was shown before, and counts for nothing. */
  lemma PlainIsShown(seen: nat, data: string, arrivals: seq<Arrival>)
    requires data != DONE && forall digits, rest :: !IsNumbered(data, digits, rest)
    ensures Heard(seen, [Message(data)] + arrivals) == [Some(data)] + Heard(seen, arrivals)
  {
    UnnumberedIff(data);
    assert ([Message(data)] + arrivals)[1..] == arrivals;
  }

  // ---------- Nothing lost ----------

  function Beyond(seen: nat, numbers: seq<nat>): seq<nat> {
    if numbers == [] then []
    else (if numbers[0] > seen then [numbers[0]] else []) + Beyond(seen, numbers[1..])
  }

  lemma {:induction false} BeyondIs(seen: nat, numbers: seq<nat>)
    ensures forall n :: n in Beyond(seen, numbers) <==> n in numbers && n > seen
    ensures Rising(numbers) ==> Rising(Beyond(seen, numbers))
  {
    if numbers != [] {
      assert numbers == [numbers[0]] + numbers[1..];
      BeyondIs(seen, numbers[1..]);
      if Rising(numbers) {
        var rest := Beyond(seen, numbers[1..]);
        forall k | 0 <= k < |rest| ensures numbers[0] < rest[k] {
          assert rest[k] in rest;
        }
      }
    }
  }

  /** A reader shows every new number exactly when they arrive in rising order. */
  lemma {:induction false} NoneSkippedIffRising(seen: nat, numbers: seq<nat>)
    ensures Fresh(seen, numbers) == Beyond(seen, numbers) <==> Rising(Beyond(seen, numbers))
    decreases |numbers|
  {
    FreshIsWithin(seen, numbers);
    if numbers != [] {
      var n, rest := numbers[0], numbers[1..];
      if n <= seen {
        NoneSkippedIffRising(seen, rest);
        assert Beyond(seen, numbers) == Beyond(seen, rest);
      } else {
        NoneSkippedIffRising(n, rest);
        var all := Beyond(seen, numbers);
        assert all == [n] + Beyond(seen, rest);
        if Rising(all) {
          assert all[1..] == Beyond(seen, rest);
          assert forall k | 0 <= k < |all| - 1 :: all[0] < all[k + 1] && all[1..][k] == all[k + 1];
          BeyondFrom(seen, n, rest);
          assert Rising(Beyond(seen, rest));
        }
      }
    }
  }

  lemma {:induction false} BeyondFrom(seen: nat, n: nat, numbers: seq<nat>)
    requires seen <= n && forall m | m in Beyond(seen, numbers) :: m > n
    ensures Beyond(n, numbers) == Beyond(seen, numbers)
  {
    if numbers != [] {
      var rest := Beyond(seen, numbers[1..]);
      assert Beyond(seen, numbers) == (if numbers[0] > seen then [numbers[0]] else []) + rest;
      assert numbers[0] > seen ==> numbers[0] in Beyond(seen, numbers);
      assert forall m | m in rest :: m in Beyond(seen, numbers);
      BeyondFrom(seen, n, numbers[1..]);
    }
  }
}
