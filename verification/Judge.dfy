/**
 The judge as the program runs it: one object walks the commands, claims changed lines, and
 rewrites the judgments pass by pass. Each method is proved against `Verdicts`.
 */
module Judges {
  import opened Config
  import opened Snapshots
  import opened Words
  import opened Verdicts
  import opened Options

  /** What the judge writes down while it walks: where it is, which commands rest on which changed
      lines, and the commands in review with their sections. */
  datatype Books = Books(
    context: Option<Path>, added: map<nat, seq<nat>>, removed: map<nat, seq<nat>>, reviews: map<nat, Option<Path>>)

  function Get(m: map<nat, seq<nat>>, k: nat): seq<nat> {
    if k in m then m[k] else []
  }

  function Noted(m: map<nat, seq<nat>>, k: nat, i: nat): map<nat, seq<nat>> {
    m[k := Get(m, k) + [i]]
  }

  /** The books once command i was ruled on. */
  function Record(b: Books, i: nat, ruling: Ruling, said: bool): Books {
    match ruling
    case ByAdded(k, context, _) => b.(context := context, added := Noted(b.added, k, i))
    case ByRemoved(k, _, _) => b.(removed := Noted(b.removed, k, i))
    case ByUnchanged(_, context) => b.(context := context)
    case _ => if Reviewed(ruling, said) then b.(reviews := b.reviews[i := b.context]) else b
  }

  /** The claims of one kind among the first n commands, as the books hold them. */
  function AddedClaims(claims: seq<Claim>, n: nat): map<nat, seq<nat>>
    requires n <= |claims|
  {
    if n == 0 then map[]
    else
      var before := AddedClaims(claims, n - 1);
      if claims[n - 1].OnAdded? then Noted(before, claims[n - 1].index, n - 1) else before
  }

  function RemovedClaims(claims: seq<Claim>, n: nat): map<nat, seq<nat>>
    requires n <= |claims|
  {
    if n == 0 then map[]
    else
      var before := RemovedClaims(claims, n - 1);
      if claims[n - 1].OnRemoved? then Noted(before, claims[n - 1].index, n - 1) else before
  }

  function ReviewsOf(l: Ledger, n: nat): map<nat, Option<Path>>
    requires n <= |l.reviewed| == |l.heres|
  {
    map i | 0 <= i < n && l.reviewed[i] :: l.heres[i]
  }

  /** The books before command n. */
  ghost predicate BooksAre(b: Books, c: Case, commands: seq<Typed>, l: Ledger, n: nat) {
    && WellTyped(commands) && n <= |commands| == |l.claims| == |l.heres| == |l.reviewed|
    && b.context == WalkTo(c, commands, n).context
    && b.added == AddedClaims(l.claims, n) && b.added.Keys == WalkTo(c, commands, n).added
    && b.removed == RemovedClaims(l.claims, n) && b.removed.Keys == WalkTo(c, commands, n).removed
    && b.reviews == ReviewsOf(l, n)
  }

  lemma NotedIs(m: map<nat, seq<nat>>, k: nat, i: nat, other: nat, j: nat)
    ensures j in Get(Noted(m, k, i), other) <==> j in Get(m, other) || (other == k && j == i)
  {
  }

  lemma {:induction false} AddedClaimIs(claims: seq<Claim>, n: nat, k: nat, i: nat)
    requires n <= |claims|
    ensures i in Get(AddedClaims(claims, n), k) <==> i < n && claims[i] == OnAdded(k)
  {
    if n > 0 {
      AddedClaimIs(claims, n - 1, k, i);
      if claims[n - 1].OnAdded? {
        NotedIs(AddedClaims(claims, n - 1), claims[n - 1].index, n - 1, k, i);
      }
      hide Noted;
    }
  }

  lemma AddedClaimsAre(claims: seq<Claim>, n: nat)
    requires n <= |claims|
    ensures var m := AddedClaims(claims, n);
            && (forall k | k in m :: forall i | i in m[k] :: i < n && claims[i] == OnAdded(k))
            && (forall i | 0 <= i < n && claims[i].OnAdded? :: claims[i].index in m && i in m[claims[i].index])
  {
    var m := AddedClaims(claims, n);
    forall k, i | k in m && i in m[k] ensures i < n && claims[i] == OnAdded(k) {
      AddedClaimIs(claims, n, k, i);
    }
    forall i | 0 <= i < n && claims[i].OnAdded? ensures claims[i].index in m && i in m[claims[i].index] {
      AddedClaimIs(claims, n, claims[i].index, i);
    }
    hide AddedClaims;
  }

  lemma {:induction false} RemovedClaimIs(claims: seq<Claim>, n: nat, k: nat, i: nat)
    requires n <= |claims|
    ensures i in Get(RemovedClaims(claims, n), k) <==> i < n && claims[i] == OnRemoved(k)
  {
    if n > 0 {
      RemovedClaimIs(claims, n - 1, k, i);
      if claims[n - 1].OnRemoved? {
        NotedIs(RemovedClaims(claims, n - 1), claims[n - 1].index, n - 1, k, i);
      }
      hide Noted;
    }
  }

  lemma RemovedClaimsAre(claims: seq<Claim>, n: nat)
    requires n <= |claims|
    ensures var m := RemovedClaims(claims, n);
            && (forall k | k in m :: forall i | i in m[k] :: i < n && claims[i] == OnRemoved(k))
            && (forall i | 0 <= i < n && claims[i].OnRemoved? :: claims[i].index in m && i in m[claims[i].index])
  {
    var m := RemovedClaims(claims, n);
    forall k, i | k in m && i in m[k] ensures i < n && claims[i] == OnRemoved(k) {
      RemovedClaimIs(claims, n, k, i);
    }
    forall i | 0 <= i < n && claims[i].OnRemoved? ensures claims[i].index in m && i in m[claims[i].index] {
      RemovedClaimIs(claims, n, claims[i].index, i);
    }
    hide RemovedClaims;
  }

  lemma {:induction false} ClaimKeysAre(claims: seq<Claim>, n: nat)
    requires n <= |claims|
    ensures forall k: nat :: k in AddedClaims(claims, n) <==> exists i :: 0 <= i < n && claims[i] == OnAdded(k)
    ensures forall k: nat :: k in RemovedClaims(claims, n) <==> exists i :: 0 <= i < n && claims[i] == OnRemoved(k)
  {
    if n > 0 {
      ClaimKeysAre(claims, n - 1);
      forall k: nat | k in AddedClaims(claims, n) && k !in AddedClaims(claims, n - 1)
        ensures exists i :: 0 <= i < n && claims[i] == OnAdded(k)
      {
        assert claims[n - 1] == OnAdded(k);
      }
      forall k: nat | k in RemovedClaims(claims, n) && k !in RemovedClaims(claims, n - 1)
        ensures exists i :: 0 <= i < n && claims[i] == OnRemoved(k)
      {
        assert claims[n - 1] == OnRemoved(k);
      }
    }
  }

  lemma BooksGiveWalk(b: Books, c: Case, commands: seq<Typed>, l: Ledger, n: nat)
    requires WellTyped(commands) && n <= |commands| && BooksAre(b, c, commands, l, n)
    ensures Walk(b.context, b.added.Keys, b.removed.Keys) == WalkTo(c, commands, n)
  {
  }

  lemma StartOfBooks(c: Case, commands: seq<Typed>, l: Ledger)
    requires WellTyped(commands) && Kept(c, l, |commands|)
    ensures BooksAre(Books(Some([]), map[], map[], map[]), c, commands, l, 0)
  {
  }

  /** One ruling written down keeps the books those of the walk. */
  lemma BooksInTurn(b: Books, c: Case, commands: seq<Typed>, l: Ledger, n: nat, ruling: Ruling, said: bool)
    requires WellTyped(commands) && n < |commands| && Judged(commands[n]) && ruling == RulingAt(c, commands, n)
    requires BooksAre(b, c, commands, l, n)
    requires l.claims[n] == ClaimOf(ruling) && l.heres[n] == b.context && l.reviewed[n] == Reviewed(ruling, said)
    ensures BooksAre(Record(b, n, ruling, said), c, commands, l, n + 1)
  {
    hide RulingAt;
    var after := Record(b, n, ruling, said);
    assert after.reviews == ReviewsOf(l, n + 1);
    assert WalkTo(c, commands, n + 1) == Moved(WalkTo(c, commands, n), ruling);
  }

  /** A command that isn't judged only moves the walk. */
  lemma BooksPassedBy(b: Books, c: Case, commands: seq<Typed>, l: Ledger, n: nat)
    requires WellTyped(commands) && n < |commands| && !Judged(commands[n])
    requires BooksAre(b, c, commands, l, n)
    requires l.claims[n] == NoClaim && !l.reviewed[n]
    ensures BooksAre(b.(context := WalkTo(c, commands, n + 1).context), c, commands, l, n + 1)
  {
    hide RulingAt;
    hide Left;
    assert b.reviews == ReviewsOf(l, n + 1);
  }

  /** A set has two members or more just when two of its members differ. */
  lemma TwoMembers<T>(s: set<T>)
    ensures |s| > 1 <==> exists a, b :: a in s && b in s && a != b
  {
    if |s| > 1 {
      var a :| a in s;
      var rest := s - {a};
      assert |rest| == |s| - 1;
      var b :| b in rest;
    }
    if a, b :| a in s && b in s && a != b {
      assert {a, b} <= s;
      assert |{a, b}| == 2;
      assert |s| == |{a, b}| + |s - {a, b}|;
    }
  }

  ghost predicate Disputed(g: Grammar, results: seq<Judgment>, who: seq<nat>) {
    exists a, b :: a in who && b in who && a < |results| && b < |results|
                   && g.normalize(results[a].command) != g.normalize(results[b].command)
  }

  /** A line is disputed just when the claim of each command resting on it is contested. */
  lemma ContestedIffDisputed(g: Grammar, l: Ledger, i: nat, who: seq<nat>)
    requires i < |l.claims| == |l.first| && l.claims[i] != NoClaim
    requires forall j :: j in who <==> 0 <= j < |l.claims| && l.claims[j] == l.claims[i]
    ensures Disputed(g, l.first, who) <==> Contested(g, l, i)
  {
    if j :| 0 <= j < |l.claims| && l.claims[j] == l.claims[i]
            && g.normalize(l.first[j].command) != g.normalize(l.first[i].command) {
      assert i in who && j in who;
    }
  }

  /** What looking at the defaults view makes of command i's judgment: only a command in review can change. */
  lemma DefaultIsDue(c: Case, commands: seq<Typed>, l: Ledger, i: nat)
    requires i < |commands| && Kept(c, l, |commands|)
    ensures var j, k := AfterConflicts(c, l, i), DefaultLine(c, commands[i].words, l.heres[i]);
            && (ByDefault(c, commands, l, i) <==> l.reviewed[i] && k < |c.view|)
            && (l.reviewed[i] ==> j.note == Plain)
            && AfterDefaults(c, commands, l, i)
               == if ByDefault(c, commands, l, i) then Proven(j.command, InPlace, InBoth(c.view[k]), ShownWithDefaults) else j
  {
    if l.reviewed[i] {
      NoClaimIsUncontested(c.g, l, i);
    }
    hide Contested;
    hide First;
  }

  lemma NoClaimIsUncontested(g: Grammar, l: Ledger, i: nat)
    requires i < |l.claims| == |l.first| && l.claims[i] == NoClaim
    ensures !Contested(g, l, i)
  {
  }

  ghost function OpenReviews(c: Case, commands: seq<Typed>, l: Ledger, n: nat): map<nat, Option<Path>>
    requires n <= |commands| == |l.reviewed| == |l.heres|
  {
    map i | 0 <= i < n && Open(c, commands, l, i) :: l.heres[i]
  }

  ghost predicate Rising(ks: seq<nat>) {
    forall i, j | 0 <= i < j < |ks| :: ks[i] < ks[j]
  }

  lemma RisingByOneMore(ks: seq<nat>, n: nat)
    requires Rising(ks) && forall k | k in ks :: k < n
    ensures Rising(ks + [n])
  {
    assert forall i | 0 <= i < |ks| :: ks[i] in ks;
  }

  lemma {:induction false} FreeIsRising(c: Case, claims: seq<Claim>, here: Option<Path>, n: nat, m: nat)
    requires n <= |c.added| && m <= |c.removed|
    ensures Rising(FreeAdded(c, claims, here, n)) && Rising(FreeRemoved(c, claims, here, m))
    decreases n + m
  {
    if n > 0 {
      FreeIsRising(c, claims, here, n - 1, m);
      RisingByOneMore(FreeAdded(c, claims, here, n - 1), n - 1);
    } else if m > 0 {
      FreeIsRising(c, claims, here, n, m - 1);
      RisingByOneMore(FreeRemoved(c, claims, here, m - 1), m - 1);
    }
  }

  lemma ShownIsRising(c: Case, claims: seq<Claim>, here: Option<Path>)
    ensures Rising(ShownAdded(c, claims, here)) && Rising(ShownRemoved(c, claims, here))
  {
    FreeIsRising(c, claims, here, |c.added|, |c.removed|);
  }

  lemma NoneClaim(claims: seq<Claim>, claim: Claim)
    ensures ClaimedBy(claims, claim) == {} <==> !exists i :: 0 <= i < |claims| && claims[i] == claim
  {
    if i :| 0 <= i < |claims| && claims[i] == claim {
      assert i in ClaimedBy(claims, claim);
    }
  }

  /** What a reply to the command itself does. */
  function ToItself(replied: seq<bool>, i: nat, j: Judgment): Judgment {
    if j.verdict == Verdict.Review && Said(replied, i) then Judgment(j.command, Rejected, j.evidence, Unproven, j.section) else j
  }

  lemma ClosedBy(commands: seq<Typed>, i: nat, k: nat)
    requires i <= k < |commands| && commands[k].navigation && forall m | i <= m < k :: !commands[m].navigation
    ensures ClosedAt(commands, i) == k
    decreases k - i
  {
    if i < k {
      ClosedBy(commands, i + 1, k);
    }
  }

  lemma NeverClosed(commands: seq<Typed>, i: nat)
    requires i <= |commands| && forall m | i <= m < |commands| :: !commands[m].navigation
    ensures ClosedAt(commands, i) == |commands|
    decreases |commands| - i
  {
    if i < |commands| {
      NeverClosed(commands, i + 1);
    }
  }

  /** The judgments after the conflicts on one sign's lines. */
  ghost predicate Settles(g: Grammar, before: seq<Judgment>, after: seq<Judgment>, claims: map<nat, seq<nat>>, evidence: seq<string>) {
    && |after| == |before|
    && (forall k | k in claims :: k < |evidence| && forall i | i in claims[k] :: i < |before|)
    && (forall i | 0 <= i < |before| :: after[i].command == before[i].command)
    && (forall k | k in claims :: forall i | i in claims[k] ::
          after[i] == if Disputed(g, before, claims[k]) then Demoted(before[i], evidence[k]) else before[i])
    && (forall i | 0 <= i < |before| && (forall k | k in claims :: i !in claims[k]) :: after[i] == before[i])
  }

  lemma SettledLength(g: Grammar, before: seq<Judgment>, after: seq<Judgment>, claims: map<nat, seq<nat>>, evidence: seq<string>)
    requires Settles(g, before, after, claims, evidence)
    ensures |after| == |before|
  {
  }

  lemma ConflictSettled(c: Case, l: Ledger, half: seq<Judgment>, after: seq<Judgment>, plus: seq<string>, minus: seq<string>, i: nat)
    requires Kept(c, l, |l.claims|) && i < |l.claims|
    requires |plus| == |c.added| && forall k | 0 <= k < |plus| :: plus[k] == Added(c.added[k])
    requires |minus| == |c.removed| && forall k | 0 <= k < |minus| :: minus[k] == Gone(c.removed[k])
    requires Settles(c.g, l.first, half, AddedClaims(l.claims, |l.claims|), plus)
    requires Settles(c.g, half, after, RemovedClaims(l.claims, |l.claims|), minus)
    ensures i < |after| && after[i] == AfterConflicts(c, l, i)
  {
    hide Contested;
    var added, removed := AddedClaims(l.claims, |l.claims|), RemovedClaims(l.claims, |l.claims|);
    AddedClaimsAre(l.claims, |l.claims|);
    RemovedClaimsAre(l.claims, |l.claims|);
    if l.claims[i].OnAdded? {
      ContestedIffDisputed(c.g, l, i, added[l.claims[i].index]);
    } else if l.claims[i].OnRemoved? {
      var who := removed[l.claims[i].index];
      ContestedIffDisputed(c.g, l, i, who);
      SameCommandsSameDispute(c.g, l.first, half, who);
    } else {
      NoClaimIsUncontested(c.g, l, i);
    }
  }

  lemma SameCommandsSameDispute(g: Grammar, a: seq<Judgment>, b: seq<Judgment>, who: seq<nat>)
    requires |a| == |b| && forall i | 0 <= i < |a| :: a[i].command == b[i].command
    ensures Disputed(g, a, who) <==> Disputed(g, b, who)
  {
  }

  lemma NavigationIsNotReviewed(c: Case, commands: seq<Typed>, l: Ledger, i: nat)
    requires Kept(c, l, |commands|) && i < |commands| && l.claims[i] == NoClaim && !l.reviewed[i]
    ensures AfterEvidence(c, commands, l, i).verdict != Verdict.Review
  {
    NoClaimIsUncontested(c.g, l, i);
  }

  lemma ClaimedKeys(claims: seq<Claim>)
    ensures forall k: nat :: k in AddedClaims(claims, |claims|) <==> ClaimedBy(claims, OnAdded(k)) != {}
    ensures forall k: nat :: k in RemovedClaims(claims, |claims|) <==> ClaimedBy(claims, OnRemoved(k)) != {}
  {
    ClaimKeysAre(claims, |claims|);
    forall claim ensures ClaimedBy(claims, claim) == {} <==> !exists i :: 0 <= i < |claims| && claims[i] == claim {
      NoneClaim(claims, claim);
    }
  }

  /** The evidence noted once the commands before n had theirs gathered. */
  ghost predicate AddedShown(evidence: map<nat, seq<nat>>, c: Case, commands: seq<Typed>, l: Ledger, n: nat)
    requires n <= |commands| && Kept(c, l, |commands|)
  {
    forall k :: Get(evidence, k) == AddedReview(c, commands, l, k, n)
  }

  ghost predicate RemovedShown(evidence: map<nat, seq<nat>>, c: Case, commands: seq<Typed>, l: Ledger, n: nat)
    requires n <= |commands| && Kept(c, l, |commands|)
  {
    forall k :: Get(evidence, k) == RemovedReview(c, commands, l, k, n)
  }

  lemma NothingShown(c: Case, commands: seq<Typed>, l: Ledger)
    requires Kept(c, l, |commands|)
    ensures AddedShown(map[], c, commands, l, 0) && RemovedShown(map[], c, commands, l, 0)
  {
  }

  /** Command i's number noted at the lines it shows, and nowhere else. */
  ghost predicate NotedAt(before: map<nat, seq<nat>>, after: map<nat, seq<nat>>, lines: seq<nat>, i: nat) {
    forall k :: Get(after, k) == Get(before, k) + (if k in lines then [i] else [])
  }

  lemma ShownInTurn(plus: map<nat, seq<nat>>, minus: map<nat, seq<nat>>, plus': map<nat, seq<nat>>, minus': map<nat, seq<nat>>,
                    c: Case, commands: seq<Typed>, l: Ledger, i: nat)
    requires i < |commands| && Kept(c, l, |commands|)
    requires AddedShown(plus, c, commands, l, i) && RemovedShown(minus, c, commands, l, i)
    requires if Open(c, commands, l, i) then
               && NotedAt(plus, plus', ShownAdded(c, l.claims, l.heres[i]), i)
               && NotedAt(minus, minus', ShownRemoved(c, l.claims, l.heres[i]), i)
             else plus' == plus && minus' == minus
    ensures AddedShown(plus', c, commands, l, i + 1) && RemovedShown(minus', c, commands, l, i + 1)
  {
    hide Open;
    hide ShownAdded;
    hide ShownRemoved;
  }

  class Judge {
    const c: Case
    const replied: seq<bool>
    const sections: set<Path>              // those with lines in them
    const printed: map<Path, string>       // a header as printed, by the path it opens

    var claimsAdded: map<nat, seq<nat>>    // index of an added line -> its claimants
    var claimsRemoved: map<nat, seq<nat>>
    var context: Option<Path>              // the section of the next command; None: lost
    var reviews: map<nat, Option<Path>>    // commands in review -> their section
    var evidenceAdded: map<nat, seq<nat>>  // line index -> the commands in review that show it
    var evidenceRemoved: map<nat, seq<nat>>

    ghost predicate Valid() {
      && sections == (set line | line in c.before + c.after + c.view :: line.path)
      && printed == HeaderTexts(c.before + c.after)
    }

    function Held(): Books
      reads this
    {
      Books(context, claimsAdded, claimsRemoved, reviews)
    }

    function Walked(): Walk
      reads this
    {
      Walk(context, claimsAdded.Keys, claimsRemoved.Keys)
    }

    constructor (g: Grammar, before: seq<Line>, after: seq<Line>, noise: set<Churn>, blocks: bool,
                 replied: seq<bool>, view: seq<Line>, negation: set<string>)
      ensures Valid() && fresh(this)
      ensures c == CaseOf(g, before, after, noise, blocks, view, negation) && this.replied == replied
      ensures Held() == Books(Some([]), map[], map[], map[])
      ensures evidenceAdded == map[] && evidenceRemoved == map[]
    {
      var diff := Compare(before, after);
      this.c := Case(g, before, after, view,
        WithoutNoise(g, diff.added, noise), WithoutNoise(g, diff.removed, noise), diff.kept,
        OnlyNoise(g, '+', diff.added, noise) + OnlyNoise(g, '-', diff.removed, noise), negation, blocks);
      this.replied := replied;
      sections := set line | line in before + after + view :: line.path;
      printed := HeaderTexts(before + after);
      claimsAdded, claimsRemoved, reviews := map[], map[], map[];
      evidenceAdded, evidenceRemoved := map[], map[];
      context := Some([]);
    }

    /** One section left, or all of them: never one entered, and an unknown one stays unknown but for a way to the top. */
    method Navigate(command: Typed)
      modifies `context
      ensures context == Left(c, old(context), command.words)
      ensures context.Some? && old(context).Some? ==> context.value <= old(context).value
      ensures context == old(context) <==> command.words == [] || old(context) == Some([]) || (context.None? && old(context).None?)
      ensures old(context).None? && context != None ==> context == Some([])
    {
      if command.words == [] {
        return;
      }
      var word := command.words[0];
      if word in {"return", "root"} || (word == "end" && !c.blocks) {
        context := Some([]);
      } else if context.Some? && context.value != [] {
        context := Some(context.value[..|context.value| - 1]);
      }
    }

    method FindFirst(lines: seq<Line>, test: Test, level: Option<Path>) returns (k: nat)
      ensures k == First(c, lines, test, level) && k <= |lines|
    {
      k := 0;
      while k < |lines| && !(At(lines[k], level) && Fits(c, test, lines[k]))
        invariant k <= |lines| && First(c, lines, test, level, k) == First(c, lines, test, level)
      {
        k := k + 1;
      }
    }

    method FindRemoved(test: Test, levels: seq<Option<Path>>) returns (found: Option<nat>)
      ensures found == FindGone(c, test, levels)
    {
      assert levels[0..] == levels;
      for l := 0 to |levels|
        invariant FindGone(c, test, levels[l..]) == FindGone(c, test, levels)
      {
        assert levels[l..][1..] == levels[l + 1..];
        var r := FindFirst(c.removed, test, levels[l]);
        if r < |c.removed| {
          return Some(r);
        }
      }
      return None;
    }

    method FindPresent(words: seq<string>, levels: seq<Option<Path>>) returns (found: Found)
      ensures found == FindLine(c, words, levels)
    {
      assert levels[0..] == levels;
      for l := 0 to |levels|
        invariant FindLine(c, words, levels[l..]) == FindLine(c, words, levels)
      {
        assert levels[l..][1..] == levels[l + 1..];
        var a := FindFirst(c.added, Holding(words), levels[l]);
        if a < |c.added| {
          return Changed(a, levels[l]);
        }
        var k := FindFirst(c.kept, Being(words), levels[l]);
        if k < |c.kept| {
          return Unchanged(k, levels[l]);
        }
      }
      return Nowhere;
    }

    method Heads(line: Line) returns (header: bool)
      requires Valid()
      ensures header == IsHeader(c, line)
    {
      header := line.Inside() in sections;
    }

    /** The context becomes the line's inside if the line has one, or else `level`. */
    method Enter(line: Line, level: Option<Path>)
      requires Valid()
      modifies `context
      ensures context == Entered(c, line, level)
    {
      var header := Heads(line);
      if header {
        context := Some(line.Inside());
      } else {
        context := if level.None? then Some(line.path) else level;
      }
    }

    method OpensBlock(following: Option<seq<string>>) returns (block: Option<nat>)
      requires Valid()
      ensures block ==
              if following.None? || following.value == [] then None
              else
                var k := OpenedBlock(c, claimsAdded.Keys, context, following.value);
                if k < |c.added| then Some(k) else None
    {
      if following.None? || following.value == [] {
        return None;
      }
      var k := 0;
      while k < |c.added|
        invariant k <= |c.added|
        invariant OpenedBlock(c, claimsAdded.Keys, context, following.value, k)
                  == OpenedBlock(c, claimsAdded.Keys, context, following.value)
      {
        var header := Heads(c.added[k]);
        if k !in claimsAdded && At(c.added[k], context) && header {
          if exists line | line in c.added :: line.path == c.added[k].Inside() && Fits(c, Holding(following.value), line) {
            return Some(k);
          }
        }
        k := k + 1;
      }
      return None;
    }

    method Review(i: nat, command: Typed) returns (j: Judgment)
      requires Valid()
      modifies `reviews
      ensures reviews == old(reviews)[i := context]
      ensures j == Judgment(command.sent, Verdict.Review, [], Note.Plain, SectionOf(HeaderTexts(c.before + c.after), context))
    {
      reviews := reviews[i := context];
      j := Judgment(command.sent, Verdict.Review, [], Note.Plain, SectionOf(printed, context));
    }

    method Setting(i: nat, command: Typed, following: Option<seq<string>>) returns (j: Judgment)
      requires Valid() && command.words != []
      modifies `context, `claimsAdded, `claimsRemoved, `reviews
      ensures var ruling := RuleSetting(c, old(Walked()), command.words, following);
              && Held() == Record(old(Held()), i, ruling, Said(replied, i))
              && j == Verdict0(c, command.sent, ruling, Said(replied, i),
                        SectionOf(HeaderTexts(c.before + c.after), old(context)))
    {
      var levels := Levels(context);
      var found := FindPresent(command.words, levels);
      match found {
        case Changed(k, level) =>
          claimsAdded := Noted(claimsAdded, k, i);
          Enter(c.added[k], level);
          return Proven(command.sent, TookEffect, Added(c.added[k]), Note.Plain);
        case Unchanged(k, level) =>
          Enter(c.kept[k], level);
          return Proven(command.sent, InPlace, InBoth(c.kept[k]), Note.Plain);
        case Nowhere =>
      }
      var gone := FindRemoved(Negating(command.words), levels);
      if gone.Some? {
        claimsRemoved := Noted(claimsRemoved, gone.value, i);
        return Proven(command.sent, TookEffect, Gone(c.removed[gone.value]), NegationRemoved);
      }
      var block := OpensBlock(following);
      if block.Some? {
        var header := c.added[block.value];
        claimsAdded := Noted(claimsAdded, block.value, i);
        context := Some(header.Inside());
        return Proven(command.sent, TookEffect, Added(header), NamedByDevice(header.raw));
      }
      j := Review(i, command);
    }

    method Removal(i: nat, command: Typed) returns (j: Judgment)
      requires Valid() && command.words != []
      modifies `context, `claimsAdded, `claimsRemoved, `reviews
      ensures var ruling := RuleRemoval(c, old(Walked()), command.words);
              && Held() == Record(old(Held()), i, ruling, Said(replied, i))
              && j == Verdict0(c, command.sent, ruling, Said(replied, i),
                        SectionOf(HeaderTexts(c.before + c.after), old(context)))
    {
      var levels, target := Levels(context), command.words[1..];
      var gone := FindRemoved(Naming(target), levels);
      if gone.Some? {
        claimsRemoved := Noted(claimsRemoved, gone.value, i);
        return Proven(command.sent, Removed, Gone(c.removed[gone.value]), Note.Plain);
      }
      var found := FindPresent(command.words, levels);
      match found {
        case Changed(k, _) =>
          claimsAdded := Noted(claimsAdded, k, i);
          return Proven(command.sent, TookEffect, Added(c.added[k]), Note.Plain);
        case Unchanged(k, _) =>
          return Proven(command.sent, InPlace, InBoth(c.kept[k]), Note.Plain);
        case Nowhere =>
      }
      if target != [] && !Said(replied, i) && !HeldSomewhere(c, target, levels) {
        return Judgment(command.sent, InPlace, [], AlreadyAbsent, Some([]));
      }
      j := Review(i, command);
    }

    method JudgeCommand(commands: seq<Typed>, i: nat) returns (j: Judgment)
      requires Valid() && WellTyped(commands) && i < |commands| && Walked() == WalkTo(c, commands, i)
      modifies `context, `claimsAdded, `claimsRemoved, `reviews
      ensures Judged(commands[i]) ==> Held() == Record(old(Held()), i, RulingAt(c, commands, i), Said(replied, i))
      ensures !Judged(commands[i]) ==> Held() == old(Held()).(context := WalkTo(c, commands, i + 1).context)
      ensures j == FirstJudgment(c, commands, replied, i)
    {
      hide RuleSetting;
      hide RuleRemoval;
      hide Verdict0;
      hide Record;
      var command := commands[i];
      if command.exec {
        j := Judgment(command.sent, Exec, [], Note.Plain, Some([]));
      } else if command.navigation {
        Navigate(command);
        j := Judgment(command.sent, Navigation, [], Note.Plain, Some([]));
      } else if command.words[0] in c.negation {
        j := Removal(i, command);
      } else {
        j := Setting(i, command, Following(commands, i + 1));
      }
    }

    /** The walk: every command in turn, judged in the section the ones before it led to. */
    method WalkCommands(commands: seq<Typed>) returns (results: seq<Judgment>)
      requires Valid() && WellTyped(commands) && Held() == Books(Some([]), map[], map[], map[])
      modifies `context, `claimsAdded, `claimsRemoved, `reviews
      ensures var l := LedgerOf(c, commands, replied);
              && results == l.first && Kept(c, l, |commands|)
              && BooksAre(Held(), c, commands, l, |commands|)
    {
      hide RulingAt;
      hide FirstJudgment;
      hide Record;
      hide BooksAre;
      hide LedgerOf;
      hide WalkTo;
      LedgerIsKept(c, commands, replied);
      ghost var l := LedgerOf(c, commands, replied);
      StartOfBooks(c, commands, l);
      results := [];
      for i := 0 to |commands|
        invariant results == l.first[..i] && BooksAre(Held(), c, commands, l, i)
      {
        BooksGiveWalk(Held(), c, commands, l, i);
        LedgerAt(c, commands, replied, i);
        if Judged(commands[i]) {
          BooksInTurn(Held(), c, commands, l, i, RulingAt(c, commands, i), Said(replied, i));
        } else {
          BooksPassedBy(Held(), c, commands, l, i);
        }
        var j := JudgeCommand(commands, i);
        results := results + [j];
      }
    }

    // ---------- The passes over the judgments ----------

    method DemoteAll(results: seq<Judgment>, who: seq<nat>, evidence: string) returns (after: seq<Judgment>)
      requires forall i | i in who :: i < |results|
      ensures |after| == |results|
      ensures forall i | 0 <= i < |results| :: after[i] == if i in who then Demoted(results[i], evidence) else results[i]
    {
      after := results;
      for m := 0 to |who|
        invariant |after| == |results|
        invariant forall i | 0 <= i < |results| ::
                    after[i] == if i in who[..m] then Demoted(results[i], evidence) else results[i]
      {
        assert who[m] in who;
        after := after[who[m] := Demoted(after[who[m]], evidence)];
      }
      assert who[..|who|] == who;
    }

    /** Whether the commands resting on one line are not all the same text. */
    method Differ(results: seq<Judgment>, who: seq<nat>) returns (differ: bool)
      requires forall i | i in who :: i < |results|
      ensures differ <==> Disputed(c.g, results, who)
    {
      var texts := set i | i in who :: c.g.normalize(results[i].command);
      differ := |texts| > 1;
      TwoMembers(texts);
      if differ {
        var s, t :| s in texts && t in texts && s != t;
        var a :| a in who && c.g.normalize(results[a].command) == s;
        var b :| b in who && c.g.normalize(results[b].command) == t;
      }
      if a, b :| a in who && b in who && c.g.normalize(results[a].command) != c.g.normalize(results[b].command) {
        assert c.g.normalize(results[a].command) in texts && c.g.normalize(results[b].command) in texts;
      }
    }

    /** The conflicts on the changed lines of one sign. */
    method ConflictsOn(results: seq<Judgment>, claims: map<nat, seq<nat>>, evidence: seq<string>) returns (after: seq<Judgment>)
      requires forall k | k in claims :: k < |evidence|
      requires forall k | k in claims :: forall i | i in claims[k] :: i < |results|
      requires forall k, m | k in claims && m in claims && k != m :: forall i | i in claims[k] :: i !in claims[m]
      ensures Settles(c.g, results, after, claims, evidence)
    {
      hide Disputed;
      after := results;
      for n := 0 to |evidence|
        invariant |after| == |results|
        invariant forall i | 0 <= i < |results| :: after[i].command == results[i].command
        invariant forall k, i | k in claims && i in claims[k] ::
                    after[i] == if k < n && Disputed(c.g, results, claims[k]) then Demoted(results[i], evidence[k]) else results[i]
        invariant forall i | 0 <= i < |results| && (forall k | k in claims :: i !in claims[k]) :: after[i] == results[i]
      {
        if n in claims {
          var differ := Differ(after, claims[n]);
          SameCommandsSameDispute(c.g, results, after, claims[n]);
          if differ {
            after := DemoteAll(after, claims[n], evidence[n]);
          }
        }
      }
    }

    /** Back to review: every command claiming a line that differing texts claim. Added lines first, then removed ones. */
    method Conflicts(ghost l: Ledger, results: seq<Judgment>) returns (after: seq<Judgment>)
      requires Kept(c, l, |results|) && results == l.first
      requires claimsAdded == AddedClaims(l.claims, |results|) && claimsRemoved == RemovedClaims(l.claims, |results|)
      ensures |after| == |results|
      ensures forall i | 0 <= i < |results| :: after[i] == AfterConflicts(c, l, i)
    {
      hide Settles;
      var plus := seq(|c.added|, k requires 0 <= k < |c.added| => Added(c.added[k]));
      var minus := seq(|c.removed|, k requires 0 <= k < |c.removed| => Gone(c.removed[k]));
      AddedClaimsAre(l.claims, |results|);
      RemovedClaimsAre(l.claims, |results|);
      ClaimKeysAre(l.claims, |results|);
      var half := ConflictsOn(results, claimsAdded, plus);
      SettledLength(c.g, results, half, claimsAdded, plus);
      after := ConflictsOn(half, claimsRemoved, minus);
      SettledLength(c.g, half, after, claimsRemoved, minus);
      forall i | 0 <= i < |results| ensures after[i] == AfterConflicts(c, l, i) {
        ConflictSettled(c, l, half, after, plus, minus, i);
      }
    }

    /** A review ends here for a command whose words are a line of the defaults view at its own section, unless it conflicts. */
    method Defaults(commands: seq<Typed>, ghost l: Ledger, results: seq<Judgment>) returns (after: seq<Judgment>)
      requires |results| == |commands| && Kept(c, l, |commands|)
      requires forall i | 0 <= i < |commands| :: results[i] == AfterConflicts(c, l, i)
      requires reviews == ReviewsOf(l, |commands|)
      modifies `reviews
      ensures reviews == OpenReviews(c, commands, l, |commands|)
      ensures |after| == |commands|
      ensures forall i | 0 <= i < |commands| :: after[i] == AfterDefaults(c, commands, l, i)
    {
      hide AfterDefaults;
      hide AfterConflicts;
      hide ByDefault;
      hide First;
      after := results;
      for i := 0 to |commands|
        invariant |after| == |commands|
        invariant forall m :: m in reviews <==> 0 <= m < |commands| && l.reviewed[m] && (m < i ==> !ByDefault(c, commands, l, m))
        invariant forall m | m in reviews :: reviews[m] == l.heres[m]
        invariant forall m | 0 <= m < |commands| ::
                    after[m] == if m < i then AfterDefaults(c, commands, l, m) else results[m]
      {
        DefaultIsDue(c, commands, l, i);
        if i in reviews {
          if reviews[i].Some? && after[i].note != Conflict {
            var k := FindFirst(c.view, Being(commands[i].words), reviews[i]);
            if k < |c.view| {
              reviews := reviews - {i};
              after := after[i := Proven(after[i].command, InPlace, InBoth(c.view[k]), ShownWithDefaults)];
            }
          }
        }
      }
    }

    /** The first changes of a section no command accounts for. */
    method ShowAdded(ghost l: Ledger, here: Option<Path>) returns (shown: seq<nat>)
      requires claimsAdded == AddedClaims(l.claims, |l.claims|)
      ensures shown == ShownAdded(c, l.claims, here)
    {
      ClaimKeysAre(l.claims, |l.claims|);
      var free := [];
      for k := 0 to |c.added|
        invariant free == FreeAdded(c, l.claims, here, k)
      {
        NoneClaim(l.claims, OnAdded(k));
        if k !in claimsAdded && At(c.added[k], here) {
          free := free + [k];
        }
      }
      shown := FirstTen(free);
    }

    method ShowRemoved(ghost l: Ledger, here: Option<Path>) returns (shown: seq<nat>)
      requires forall i | 0 <= i < |l.claims| :: ClaimWithin(c, l.claims[i])
      requires claimsAdded == AddedClaims(l.claims, |l.claims|) && claimsRemoved == RemovedClaims(l.claims, |l.claims|)
      ensures shown == ShownRemoved(c, l.claims, here)
    {
      ClaimKeysAre(l.claims, |l.claims|);
      var free := [];
      for k := 0 to |c.removed|
        invariant free == FreeRemoved(c, l.claims, here, k)
      {
        NoneClaim(l.claims, OnRemoved(k));
        var replacers := Replacers(l, c.removed[k]);
        if k !in claimsRemoved && At(c.removed[k], here) && replacers == {} {
          free := free + [k];
        }
      }
      shown := FirstTen(free);
    }

    /** Collected from the claims of added lines that count as a replacement of `gone`. */
    method Replacers(ghost l: Ledger, gone: Line) returns (who: set<nat>)
      requires forall i | 0 <= i < |l.claims| :: ClaimWithin(c, l.claims[i])
      requires claimsAdded == AddedClaims(l.claims, |l.claims|)
      ensures who == ReplacedBy(c, l.claims, gone)
    {
      AddedClaimsAre(l.claims, |l.claims|);
      who := {};
      for k := 0 to |c.added|
        invariant forall i :: i in who <==> i in ReplacedBy(c, l.claims, gone) && l.claims[i].index < k
      {
        if k in claimsAdded && Replaces(c, c.added[k], gone) {
          who := who + (set i | i in claimsAdded[k]);
        }
      }
    }

    /** Shown in order, ten of each sign at most; the books then name, for each line, the reviews that show it. */
    method ReviewEvidence(commands: seq<Typed>, ghost l: Ledger, results: seq<Judgment>) returns (after: seq<Judgment>)
      requires |results| == |commands| && Kept(c, l, |commands|)
      requires forall i | 0 <= i < |commands| :: results[i] == AfterDefaults(c, commands, l, i)
      requires reviews == OpenReviews(c, commands, l, |commands|)
      requires claimsAdded == AddedClaims(l.claims, |commands|) && claimsRemoved == RemovedClaims(l.claims, |commands|)
      requires evidenceAdded == map[] && evidenceRemoved == map[]
      modifies `evidenceAdded, `evidenceRemoved
      ensures AddedShown(evidenceAdded, c, commands, l, |commands|)
      ensures RemovedShown(evidenceRemoved, c, commands, l, |commands|)
      ensures |after| == |commands|
      ensures forall i | 0 <= i < |commands| :: after[i] == AfterEvidence(c, commands, l, i)
    {
      hide AfterDefaults;
      hide Open;
      hide ShownAdded;
      hide ShownRemoved;
      hide SectionChanges;
      hide WithEvidence;
      hide AddedClaims;
      hide RemovedClaims;
      hide NotedAt;
      NothingShown(c, commands, l);
      hide AddedShown;
      hide RemovedShown;
      assert forall i | 0 <= i < |commands| :: i in reviews <==> Open(c, commands, l, i);
      assert forall i | i in reviews :: i < |commands| && reviews[i] == l.heres[i];
      hide OpenReviews;
      hide ClaimWithin;
      hide Contested;
      hide First;
      hide Settles;
      after := results;
      for i := 0 to |commands|
        invariant |after| == |commands|
        invariant AddedShown(evidenceAdded, c, commands, l, i)
        invariant RemovedShown(evidenceRemoved, c, commands, l, i)
        invariant forall m | 0 <= m < |commands| ::
                    after[m] == if m < i then AfterEvidence(c, commands, l, m) else results[m]
      {
        ghost var plus, minus := evidenceAdded, evidenceRemoved;
        if i in reviews {
          var changes := EvidenceFor(l, i, reviews[i]);
          after := after[i := WithEvidence(after[i], changes)];
        }
        ShownInTurn(plus, minus, evidenceAdded, evidenceRemoved, c, commands, l, i);
      }
    }

    method EvidenceFor(ghost l: Ledger, i: nat, here: Option<Path>) returns (changes: seq<string>)
      requires forall m | 0 <= m < |l.claims| :: ClaimWithin(c, l.claims[m])
      requires claimsAdded == AddedClaims(l.claims, |l.claims|) && claimsRemoved == RemovedClaims(l.claims, |l.claims|)
      modifies `evidenceAdded, `evidenceRemoved
      ensures changes == SectionChanges(c, l.claims, here)
      ensures NotedAt(old(evidenceAdded), evidenceAdded, ShownAdded(c, l.claims, here), i)
      ensures NotedAt(old(evidenceRemoved), evidenceRemoved, ShownRemoved(c, l.claims, here), i)
    {
      var plus := ShowAdded(l, here);
      var minus := ShowRemoved(l, here);
      ShownIsRising(c, l.claims, here);
      evidenceAdded := NoteAll(evidenceAdded, plus, i);
      evidenceRemoved := NoteAll(evidenceRemoved, minus, i);
      changes := seq(|plus|, k requires 0 <= k < |plus| => assert plus[k] in plus; Added(c.added[plus[k]]))
        + seq(|minus|, k requires 0 <= k < |minus| => assert minus[k] in minus; Gone(c.removed[minus[k]]));
    }

    method NoteAll(evidence: map<nat, seq<nat>>, lines: seq<nat>, i: nat) returns (after: map<nat, seq<nat>>)
      requires Rising(lines)
      ensures NotedAt(evidence, after, lines, i)
    {
      after := evidence;
      for n := 0 to |lines|
        invariant forall k :: Get(after, k) == Get(evidence, k) + (if k in lines[..n] then [i] else [])
      {
        assert lines[n] !in lines[..n];
        after := Noted(after, lines[n], i);
        assert lines[..n + 1] == lines[..n] + [lines[n]];
      }
      assert lines[..|lines|] == lines;
    }

    /** A command still in review with a reply - its own, or one to the navigation after it - ends as rejected; no other changes. */
    method Replies(commands: seq<Typed>, results: seq<Judgment>) returns (after: seq<Judgment>)
      requires |results| == |commands|
      requires forall i | 0 <= i < |commands| && commands[i].navigation :: results[i].verdict != Verdict.Review
      ensures |after| == |commands|
      ensures forall i | 0 <= i < |commands| :: after[i] == Replied(commands, replied, i, results[i])
    {
      after := results;
      for i := 0 to |commands|
        invariant |after| == |commands|
        invariant forall m | 0 <= m < |commands| ::
                    after[m] == if m < i then ToItself(replied, m, results[m]) else results[m]
      {
        var j := after[i];
        if j.verdict == Verdict.Review && Said(replied, i) {
          after := after[i := Judgment(j.command, Rejected, j.evidence, Unproven, j.section)];
        }
      }
      var start := 0;
      for k := 0 to |commands|
        invariant 0 <= start <= k && |after| == |commands|
        invariant forall m | start <= m < k :: !commands[m].navigation
        invariant forall m | 0 <= m < |commands| ::
                    after[m] == if m < start then Replied(commands, replied, m, results[m]) else ToItself(replied, m, results[m])
      {
        if commands[k].navigation {
          forall m | start <= m <= k ensures ClosedAt(commands, m) == k {
            ClosedBy(commands, m, k);
          }
          if Said(replied, k) {
            for m := start to k
              invariant |after| == |commands|
              invariant forall i | 0 <= i < |commands| ::
                          after[i] == if i < m then Replied(commands, replied, i, results[i]) else ToItself(replied, i, results[i])
            {
              var j := after[m];
              if j.verdict == Verdict.Review {
                after := after[m := Judgment(j.command, Rejected, j.evidence, UnprovenAtClosing(commands[k].sent), j.section)];
              }
            }
          }
          start := k + 1;
        }
      }
      forall m | start <= m < |commands| ensures after[m] == Replied(commands, replied, m, results[m]) {
        NeverClosed(commands, m);
      }
    }

    /** The commands that opened or removed a block this line is in. */
    method BlockMakers(ghost l: Ledger, line: Line) returns (who: set<nat>)
      requires forall i | 0 <= i < |l.claims| :: ClaimWithin(c, l.claims[i])
      requires claimsAdded == AddedClaims(l.claims, |l.claims|) && claimsRemoved == RemovedClaims(l.claims, |l.claims|)
      ensures who == ByBlock(c, l.claims, line)
    {
      hide AddedClaims;
      hide RemovedClaims;
      AddedClaimsAre(l.claims, |l.claims|);
      RemovedClaimsAre(l.claims, |l.claims|);
      var opening := ClaimantsAround(l, claimsAdded, c.added, line);
      var removed := ClaimantsAround(l, claimsRemoved, c.removed, line);
      who := opening + removed;
    }

    /** The commands noted at a line this one is under. */
    method ClaimantsAround(ghost l: Ledger, claims: map<nat, seq<nat>>, lines: seq<Line>, line: Line) returns (who: set<nat>)
      requires forall k | k in claims :: forall i | i in claims[k] :: i < |l.claims|
      ensures forall i :: i in who <==> exists k :: 0 <= k < |lines| && k in claims && i in claims[k] && lines[k].Inside() <= line.path
    {
      who := {};
      for k := 0 to |lines|
        invariant forall i :: i in who <==> exists m :: 0 <= m < k && m in claims && i in claims[m] && lines[m].Inside() <= line.path
      {
        if k in claims && lines[k].Inside() <= line.path {
          who := who + (set i | i in claims[k]);
        }
      }
    }

    /** One entry per changed line, each with exactly the commands Accounts names - churn none - in the specified order. */
    method Changes(commands: seq<Typed>, ghost l: Ledger) returns (changes: seq<Change>)
      requires Kept(c, l, |commands|)
      requires claimsAdded == AddedClaims(l.claims, |commands|) && claimsRemoved == RemovedClaims(l.claims, |commands|)
      requires AddedShown(evidenceAdded, c, commands, l, |commands|)
      requires RemovedShown(evidenceRemoved, c, commands, l, |commands|)
      ensures changes == ChangesOf(c, commands, l)
    {
      hide AddedReview;
      hide RemovedReview;
      hide MadeAdded;
      hide MadeRemoved;
      hide AddedClaims;
      hide RemovedClaims;
      var plus := AddedChanges(commands, l);
      var minus := RemovedChanges(commands, l);
      changes := plus + minus
        + seq(|c.churned|, k requires 0 <= k < |c.churned| => Change(c.churned[k].0, c.churned[k].1, {}, true, []));
    }

    method AddedChanges(commands: seq<Typed>, ghost l: Ledger) returns (changes: seq<Change>)
      requires Kept(c, l, |commands|)
      requires claimsAdded == AddedClaims(l.claims, |commands|) && claimsRemoved == RemovedClaims(l.claims, |commands|)
      requires AddedShown(evidenceAdded, c, commands, l, |commands|)
      ensures |changes| == |c.added|
      ensures forall k | 0 <= k < |c.added| ::
                changes[k] == Change('+', c.added[k], MadeAdded(c, l.claims, k), false, AddedReview(c, commands, l, k, |commands|))
    {
      hide AddedReview;
      hide ByBlock;
      hide AddedClaims;
      hide RemovedClaims;
      AddedClaimsAre(l.claims, |l.claims|);
      changes := [];
      for k := 0 to |c.added|
        invariant |changes| == k
        invariant forall m | 0 <= m < k ::
                    changes[m] == Change('+', c.added[m], MadeAdded(c, l.claims, m), false, AddedReview(c, commands, l, m, |commands|))
      {
        var own := set i | i in Get(claimsAdded, k);
        assert own == ClaimedBy(l.claims, OnAdded(k));
        var block := BlockMakers(l, c.added[k]);
        changes := changes + [Change('+', c.added[k], if own != {} then own else block, false, Get(evidenceAdded, k))];
      }
    }

    method RemovedChanges(commands: seq<Typed>, ghost l: Ledger) returns (changes: seq<Change>)
      requires Kept(c, l, |commands|)
      requires claimsAdded == AddedClaims(l.claims, |commands|) && claimsRemoved == RemovedClaims(l.claims, |commands|)
      requires RemovedShown(evidenceRemoved, c, commands, l, |commands|)
      ensures |changes| == |c.removed|
      ensures forall k | 0 <= k < |c.removed| ::
                changes[k] == Change('-', c.removed[k], MadeRemoved(c, l.claims, k), false, RemovedReview(c, commands, l, k, |commands|))
    {
      hide RemovedReview;
      hide ByBlock;
      hide ReplacedBy;
      hide AddedClaims;
      hide RemovedClaims;
      RemovedClaimsAre(l.claims, |l.claims|);
      changes := [];
      for k := 0 to |c.removed|
        invariant |changes| == k
        invariant forall m | 0 <= m < k ::
                    changes[m] == Change('-', c.removed[m], MadeRemoved(c, l.claims, m), false, RemovedReview(c, commands, l, m, |commands|))
      {
        var own := set i | i in Get(claimsRemoved, k);
        assert own == ClaimedBy(l.claims, OnRemoved(k));
        var block := BlockMakers(l, c.removed[k]);
        var replacers := Replacers(l, c.removed[k]);
        var makers := if own != {} then own else if block != {} then block else replacers;
        changes := changes + [Change('-', c.removed[k], makers, false, Get(evidenceRemoved, k))];
      }
    }

    /** One push judged: the walk, then the passes over its judgments, then every change attributed. */
    method Run(commands: seq<Typed>) returns (outcome: Outcome)
      requires Valid() && WellTyped(commands) && Held() == Books(Some([]), map[], map[], map[])
      requires evidenceAdded == map[] && evidenceRemoved == map[]
      modifies this
      ensures outcome == OutcomeOf(c, commands, replied)
    {
      var results := WalkCommands(commands);
      ghost var l := LedgerOf(c, commands, replied);
      outcome := Settle(commands, l, results);
      LedgerIsKept(c, commands, replied);
    }

    /** The passes after the walk. */
    method Settle(commands: seq<Typed>, ghost l: Ledger, first: seq<Judgment>) returns (outcome: Outcome)
      requires first == l.first && Kept(c, l, |commands|)
      requires forall i | 0 <= i < |commands| && commands[i].navigation :: l.claims[i] == NoClaim && !l.reviewed[i]
      requires claimsAdded == AddedClaims(l.claims, |commands|) && claimsRemoved == RemovedClaims(l.claims, |commands|)
      requires reviews == ReviewsOf(l, |commands|)
      requires evidenceAdded == map[] && evidenceRemoved == map[]
      modifies `reviews, `evidenceAdded, `evidenceRemoved
      ensures outcome == OutcomeFrom(c, commands, replied, l)
    {
      hide ChangesOf;
      hide FinalOf;
      var results := Passes(commands, l, first);
      var changes := Changes(commands, l);
      ClaimedKeys(l.claims);
      outcome := Outcome(results, Unexplained(changes),
        set k | 0 <= k < |c.added| && k in claimsAdded :: c.added[k].AsKey(),
        set k | 0 <= k < |c.removed| && k in claimsRemoved :: c.removed[k].AsKey(),
        changes);
    }

    method Passes(commands: seq<Typed>, ghost l: Ledger, first: seq<Judgment>) returns (results: seq<Judgment>)
      requires first == l.first && Kept(c, l, |commands|)
      requires forall i | 0 <= i < |commands| && commands[i].navigation :: l.claims[i] == NoClaim && !l.reviewed[i]
      requires claimsAdded == AddedClaims(l.claims, |commands|) && claimsRemoved == RemovedClaims(l.claims, |commands|)
      requires reviews == ReviewsOf(l, |commands|)
      requires evidenceAdded == map[] && evidenceRemoved == map[]
      modifies `reviews, `evidenceAdded, `evidenceRemoved
      ensures |results| == |commands|
      ensures forall i | 0 <= i < |commands| :: results[i] == FinalOf(c, commands, replied, l, i)
      ensures AddedShown(evidenceAdded, c, commands, l, |commands|)
      ensures RemovedShown(evidenceRemoved, c, commands, l, |commands|)
    {
      results := Conflicts(l, first);
      results := Defaults(commands, l, results);
      results := ReviewEvidence(commands, l, results);
      forall i | 0 <= i < |commands| && commands[i].navigation ensures results[i].verdict != Verdict.Review {
        NavigationIsNotReviewed(c, commands, l, i);
      }
      hide AfterEvidence;
      hide Replied;
      results := Replies(commands, results);
    }
  }
}
