/**
 Who made each changed line, told from the claims and the lines alone - and that no change is lost.
 */
module JudgeMakers {
  import opened Config
  import opened Snapshots
  import opened Verdicts
  import opened JudgeFacts

  /** Command i claims this changed line. */
  ghost predicate Claims(c: Case, commands: seq<Typed>, i: nat, line: Claim)
    requires WellTyped(commands)
  {
    i < |commands| && ClaimAt(c, commands, i) == line
  }

  /** The line command i claims opens a section this path is in. */
  ghost predicate Encloses(c: Case, commands: seq<Typed>, i: nat, path: Path)
    requires WellTyped(commands)
  {
    || (exists k: nat :: k < |c.added| && Claims(c, commands, i, OnAdded(k)) && c.added[k].path + [c.added[k].text] <= path)
    || (exists k: nat :: k < |c.removed| && Claims(c, commands, i, OnRemoved(k)) && c.removed[k].path + [c.removed[k].text] <= path)
  }

  /** Two lines of a section whose first two words are equal, or one of which begins with all of the other's. */
  predicate TakesPlaceOf(g: Grammar, line: Line, gone: Line) {
    var was, now := WordsOf(g, gone.text), WordsOf(g, line.text);
    line.path == gone.path && ((|was| >= 2 && |now| >= 2 && was[..2] == now[..2]) || was <= now)
  }

  /** The added line command i claims took the place of this removed one. */
  ghost predicate TakesPlace(c: Case, commands: seq<Typed>, i: nat, gone: Line)
    requires WellTyped(commands)
  {
    exists k: nat :: k < |c.added| && Claims(c, commands, i, OnAdded(k)) && TakesPlaceOf(c.g, c.added[k], gone)
  }

  /** Who made a changed line: whoever claims it; or else whoever claims a line that opens a section around it; or else, for a
      removed one, whoever claims an added line that took its place. */
  ghost predicate Makes(c: Case, commands: seq<Typed>, i: nat, change: Claim, line: Line)
    requires WellTyped(commands) && !change.NoClaim?
  {
    if exists j :: Claims(c, commands, j, change) then Claims(c, commands, i, change)
    else if exists j :: Encloses(c, commands, j, line.path) then Encloses(c, commands, i, line.path)
    else change.OnRemoved? && TakesPlace(c, commands, i, line)
  }

  lemma {:induction false} CommonIs(a: seq<string>, b: seq<string>)
    ensures |CommonPrefix(a, b)| >= 1 <==> |a| >= 1 && |b| >= 1 && a[0] == b[0]
    ensures |CommonPrefix(a, b)| >= 2 <==> |a| >= 2 && |b| >= 2 && a[..2] == b[..2]
    ensures CommonPrefix(a, b) == a <==> a <= b
  {
    if a != [] && b != [] && a[0] == b[0] {
      CommonIs(a[1..], b[1..]);
      assert a == [a[0]] + a[1..] && b == [b[0]] + b[1..];
      if |a| >= 2 && |b| >= 2 {
        assert a[..2] == [a[0], a[1]] && b[..2] == [b[0], b[1]];
      }
    } else if |a| >= 2 && |b| >= 2 {
      assert a[..2][0] == a[0] && b[..2][0] == b[0];
    }
  }

  lemma ReplacesIs(c: Case, line: Line, gone: Line)
    ensures Replaces(c, line, gone) <==> TakesPlaceOf(c.g, line, gone)
  {
    CommonIs(WordsOf(c.g, gone.text), WordsOf(c.g, line.text));
  }

  lemma ByClaims(c: Case, commands: seq<Typed>, claims: seq<Claim>, i: nat, line: Line, change: Claim)
    requires WellTyped(commands) && |claims| == |commands| && !change.NoClaim?
    requires forall j | 0 <= j < |commands| :: claims[j] == ClaimAt(c, commands, j)
    ensures i in ClaimedBy(claims, change) <==> Claims(c, commands, i, change)
    ensures i in ByBlock(c, claims, line) <==> Encloses(c, commands, i, line.path)
    ensures i in ReplacedBy(c, claims, line) <==> TakesPlace(c, commands, i, line)
  {
    hide ClaimAt;
    if i < |claims| && claims[i].OnAdded? && ClaimWithin(c, claims[i]) {
      ReplacesIs(c, c.added[claims[i].index], line);
    }
    hide Replaces;
    hide TakesPlaceOf;
  }

  lemma MakersAre(c: Case, commands: seq<Typed>, claims: seq<Claim>, k: nat, i: nat)
    requires WellTyped(commands) && |claims| == |commands|
    requires forall j | 0 <= j < |commands| :: claims[j] == ClaimAt(c, commands, j)
    ensures k < |c.added| ==> (i in MadeAdded(c, claims, k) <==> Makes(c, commands, i, OnAdded(k), c.added[k]))
    ensures k < |c.removed| ==> (i in MadeRemoved(c, claims, k) <==> Makes(c, commands, i, OnRemoved(k), c.removed[k]))
  {
    hide Claims;
    hide Encloses;
    hide TakesPlace;
    hide ClaimedBy;
    hide ByBlock;
    hide ReplacedBy;
    if k < |c.added| {
      forall j: nat ensures (j in ClaimedBy(claims, OnAdded(k)) <==> Claims(c, commands, j, OnAdded(k)))
                            && (j in ByBlock(c, claims, c.added[k]) <==> Encloses(c, commands, j, c.added[k].path)) {
        ByClaims(c, commands, claims, j, c.added[k], OnAdded(k));
      }
      Inhabited(ClaimedBy(claims, OnAdded(k)), ByBlock(c, claims, c.added[k]));
    }
    if k < |c.removed| {
      forall j: nat ensures (j in ClaimedBy(claims, OnRemoved(k)) <==> Claims(c, commands, j, OnRemoved(k)))
                            && (j in ByBlock(c, claims, c.removed[k]) <==> Encloses(c, commands, j, c.removed[k].path))
                            && (j in ReplacedBy(c, claims, c.removed[k]) <==> TakesPlace(c, commands, j, c.removed[k])) {
        ByClaims(c, commands, claims, j, c.removed[k], OnRemoved(k));
      }
      Inhabited(ClaimedBy(claims, OnRemoved(k)), ByBlock(c, claims, c.removed[k]));
    }
  }

  lemma Inhabited(a: set<nat>, b: set<nat>)
    ensures a != {} <==> exists j :: j in a
    ensures b != {} <==> exists j :: j in b
  {
  }

  // ---------- The changes of a push ----------

  /** Change n of a push: first every added line, then every removed one, then the device's own. */
  ghost predicate IsChange(c: Case, commands: seq<Typed>, n: nat, change: Change)
    requires WellTyped(commands)
  {
    var a, r := |c.added|, |c.removed|;
    if n < a then
      && change.sign == '+' && change.line == c.added[n] && !change.device
      && forall i :: i in change.makers <==> Makes(c, commands, i, OnAdded(n), c.added[n])
    else if n < a + r then
      && change.sign == '-' && change.line == c.removed[n - a] && !change.device
      && forall i :: i in change.makers <==> Makes(c, commands, i, OnRemoved(n - a), c.removed[n - a])
    else
      && n < a + r + |c.churned| && change.device && change.makers == {}
      && change.sign == c.churned[n - a - r].0 && change.line == c.churned[n - a - r].1
  }

  predicate IsOthers(change: Change) {
    change.makers == {} && !change.device
  }

  predicate Ascend(at: seq<nat>) {
    forall l, m | 0 <= l < m < |at| :: at[l] < at[m]
  }

  /** The changes at these places, in order. */
  predicate ArePicked(changes: seq<Change>, at: seq<nat>, picked: seq<Change>) {
    |at| == |picked| && forall m | 0 <= m < |at| :: at[m] < |changes| && picked[m] == changes[at[m]]
  }

  predicate AreOthers(changes: seq<Change>, at: seq<nat>) {
    forall n | 0 <= n < |changes| :: n in at <==> IsOthers(changes[n])
  }

  /** The places one further on. */
  function Later(at: seq<nat>): (later: seq<nat>)
    ensures |later| == |at| && forall m | 0 <= m < |at| :: later[m] == at[m] + 1
  {
    seq(|at|, m requires 0 <= m < |at| => at[m] + 1)
  }

  lemma LaterAre(at: seq<nat>, n: nat)
    ensures n in Later(at) <==> n > 0 && n - 1 in at
  {
    if n > 0 && n - 1 in at {
      var m :| 0 <= m < |at| && at[m] == n - 1;
      assert Later(at)[m] == n;
    }
  }

  lemma OthersOneMore(changes: seq<Change>, at: seq<nat>)
    requires changes != [] && AreOthers(changes[1..], at)
    ensures AreOthers(changes, (if IsOthers(changes[0]) then [0] else []) + Later(at))
  {
    hide IsOthers;
    forall n | 0 <= n < |changes| ensures n in (if IsOthers(changes[0]) then [0] else []) + Later(at) <==> IsOthers(changes[n]) {
      LaterAre(at, n);
      assert n > 0 ==> changes[n] == changes[1..][n - 1];
    }
  }

  lemma PickedOneMore(changes: seq<Change>, at: seq<nat>, picked: seq<Change>)
    requires changes != [] && ArePicked(changes[1..], at, picked) && Ascend(at)
    ensures ArePicked(changes, Later(at), picked) && ArePicked(changes, [0] + Later(at), [changes[0]] + picked)
    ensures Ascend(Later(at)) && Ascend([0] + Later(at))
  {
    assert forall m | 0 <= m < |at| :: changes[Later(at)[m]] == changes[1..][at[m]];
  }

  lemma UnexplainedOneMore(changes: seq<Change>)
    requires changes != []
    ensures Unexplained(changes) == if IsOthers(changes[0]) then [changes[0]] + Unexplained(changes[1..]) else Unexplained(changes[1..])
  {
  }

  lemma {:induction false} UnexplainedArePicked(changes: seq<Change>) returns (at: seq<nat>)
    ensures ArePicked(changes, at, Unexplained(changes)) && Ascend(at) && AreOthers(changes, at)
    decreases |changes|
  {
    if changes == [] {
      at := [];
    } else {
      hide *;
      var rest := UnexplainedArePicked(changes[1..]);
      PickedOneMore(changes, rest, Unexplained(changes[1..]));
      OthersOneMore(changes, rest);
      UnexplainedOneMore(changes);
      assert [] + Later(rest) == Later(rest);
      at := if IsOthers(changes[0]) then [0] + Later(rest) else Later(rest);
    }
  }

  /** Every change of a push has exactly the makers its claims and lines give it - and what is reported as other people's is, in
      order, exactly what has none and is not the device's own. */
  lemma ChangesAreMade(c: Case, commands: seq<Typed>, replied: seq<bool>)
    requires WellTyped(commands)
    ensures var o := OutcomeOf(c, commands, replied);
            && |o.changes| == |c.added| + |c.removed| + |c.churned|
            && (forall n | 0 <= n < |o.changes| :: IsChange(c, commands, n, o.changes[n]))
            && exists at :: ArePicked(o.changes, at, o.other) && Ascend(at) && AreOthers(o.changes, at)
  {
    hide LedgerOf;
    hide MadeAdded;
    hide MadeRemoved;
    hide AddedReview;
    hide RemovedReview;
    hide Makes;
    hide ClaimAt;
    hide FinalOf;
    var o, l := OutcomeOf(c, commands, replied), LedgerOf(c, commands, replied);
    LedgerIsKept(c, commands, replied);
    forall i | 0 <= i < |commands| ensures l.claims[i] == ClaimAt(c, commands, i) {
      LedgerAt(c, commands, replied, i);
    }
    forall k: nat, i: nat
      ensures k < |c.added| ==> (i in MadeAdded(c, l.claims, k) <==> Makes(c, commands, i, OnAdded(k), c.added[k]))
      ensures k < |c.removed| ==> (i in MadeRemoved(c, l.claims, k) <==> Makes(c, commands, i, OnRemoved(k), c.removed[k]))
    {
      MakersAre(c, commands, l.claims, k, i);
    }
    var at := UnexplainedArePicked(o.changes);
  }

  // ---------- No change is lost ----------

  function Signed(sign: char, lines: seq<Line>): seq<(char, Line)> {
    seq(|lines|, k requires 0 <= k < |lines| => (sign, lines[k]))
  }

  /** The lines that are noise, in order. */
  function NoiseIn(g: Grammar, lines: seq<Line>, noise: set<Churn>): (own: seq<Line>)
    ensures forall line | line in own :: IsNoise(g, line, noise)
  {
    if lines == [] then []
    else
      var rest := NoiseIn(g, lines[1..], noise);
      if IsNoise(g, lines[0], noise) then [lines[0]] + rest else rest
  }

  lemma {:induction false} OnlyNoiseIs(g: Grammar, sign: char, lines: seq<Line>, noise: set<Churn>)
    ensures OnlyNoise(g, sign, lines, noise) == Signed(sign, NoiseIn(g, lines, noise))
  {
    hide IsNoise;
    if lines != [] {
      OnlyNoiseIs(g, sign, lines[1..], noise);
    }
  }

  lemma MultisetOneMore(first: Line, rest: seq<Line>)
    ensures multiset([first] + rest) == multiset{first} + multiset(rest)
  {
  }

  lemma {:induction false} NoiseIsSetApart(g: Grammar, lines: seq<Line>, noise: set<Churn>)
    ensures multiset(WithoutNoise(g, lines, noise)) + multiset(NoiseIn(g, lines, noise)) == multiset(lines)
  {
    hide IsNoise;
    if lines != [] {
      NoiseIsSetApart(g, lines[1..], noise);
      assert lines == [lines[0]] + lines[1..];
      MultisetOneMore(lines[0], lines[1..]);
      MultisetOneMore(lines[0], WithoutNoise(g, lines[1..], noise));
      MultisetOneMore(lines[0], NoiseIn(g, lines[1..], noise));
      assert [] + WithoutNoise(g, lines[1..], noise) == WithoutNoise(g, lines[1..], noise);
    }
  }

  /** Every line the two snapshots differ in is a change once: a command's or other people's if it is no noise, the device's own
      if it is. */
  lemma NoChangeIsLost(g: Grammar, before: seq<Line>, after: seq<Line>, noise: set<Churn>, blocks: bool, view: seq<Line>,
                       negation: set<string>)
    ensures var c, d := CaseOf(g, before, after, noise, blocks, view, negation), Difference(before, after);
            exists came, went ::
              && c.churned == Signed('+', came) + Signed('-', went)
              && multiset(c.added) + multiset(came) == multiset(d.added)
              && multiset(c.removed) + multiset(went) == multiset(d.removed)
              && (forall line | line in c.added || line in c.removed :: !IsNoise(g, line, noise))
              && (forall line | line in came || line in went :: IsNoise(g, line, noise))
  {
    hide *;
    var d := Difference(before, after);
    CaseIs(g, before, after, noise, blocks, view, negation);
    NoiseIsSetApart(g, d.added, noise);
    NoiseIsSetApart(g, d.removed, noise);
    OnlyNoiseIs(g, '+', d.added, noise);
    OnlyNoiseIs(g, '-', d.removed, noise);
    NoiseOnlyDrops(g, d.added, noise);
    NoiseOnlyDrops(g, d.removed, noise);
    var came, went := NoiseIn(g, d.added, noise), NoiseIn(g, d.removed, noise);
    assert CaseOf(g, before, after, noise, blocks, view, negation).churned == Signed('+', came) + Signed('-', went);
  }

  lemma CaseIs(g: Grammar, before: seq<Line>, after: seq<Line>, noise: set<Churn>, blocks: bool, view: seq<Line>,
               negation: set<string>)
    ensures var c, d := CaseOf(g, before, after, noise, blocks, view, negation), Difference(before, after);
            && c.added == WithoutNoise(g, d.added, noise) && c.removed == WithoutNoise(g, d.removed, noise)
            && c.churned == OnlyNoise(g, '+', d.added, noise) + OnlyNoise(g, '-', d.removed, noise)
  {
  }
}
