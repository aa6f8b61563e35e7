/**
 Every final judgment, told from what its command rests on, the other claims, the view with defaults and the replies.
 */
module JudgeFinals {
  import opened Config
  import opened Snapshots
  import opened Verdicts
  import opened Options
  import opened JudgeFacts
  import opened JudgeMakers

  // ---------- The changes shown for a command in review ----------

  /** An added line of this section no command claims. */
  ghost predicate IsFreeAdded(c: Case, commands: seq<Typed>, here: Option<Path>, k: nat)
    requires WellTyped(commands)
  {
    && k < |c.added| && (here.None? || c.added[k].path == here.value)
    && forall i :: !Claims(c, commands, i, OnAdded(k))
  }

  /** A removed line of this section no command claims, and no claimed one took the place of. */
  ghost predicate IsFreeRemoved(c: Case, commands: seq<Typed>, here: Option<Path>, k: nat)
    requires WellTyped(commands)
  {
    && k < |c.removed| && (here.None? || c.removed[k].path == here.value)
    && forall i :: !Claims(c, commands, i, OnRemoved(k)) && !TakesPlace(c, commands, i, c.removed[k])
  }

  /** It is free, and fewer than ten before it are. */
  ghost predicate IsShown(free: nat -> bool, k: nat) {
    free(k) && |set m: nat | m < k && free(m)| < 10
  }

  ghost predicate AreShownOf(ks: seq<nat>, free: nat -> bool) {
    Ascend(ks) && forall k :: k in ks <==> IsShown(free, k)
  }

  function ElementsOf(ks: seq<nat>): set<nat> {
    set m | m in ks
  }

  lemma {:induction false} AllDiffer(ks: seq<nat>)
    requires Ascend(ks)
    ensures |ElementsOf(ks)| == |ks|
  {
    if ks != [] {
      var init, last := ks[..|ks| - 1], ks[|ks| - 1];
      AllDiffer(init);
      assert ks == init + [last];
      assert ElementsOf(ks) == ElementsOf(init) + {last};
    }
  }

  lemma BeforeAre(ks: seq<nat>, free: nat -> bool, n: nat)
    requires Ascend(ks) && n < |ks| && forall k :: k in ks <==> free(k)
    ensures |set m: nat | m < ks[n] && free(m)| == n
  {
    forall m: nat ensures m < ks[n] && free(m) <==> m in ks[..n] {
      if m in ks[..n] {
        var a :| 0 <= a < n && ks[..n][a] == m;
        assert ks[a] in ks;
      }
      if m in ks && m < ks[n] {
        var a :| 0 <= a < |ks| && ks[a] == m;
        assert ks[..n][a] == m;
      }
    }
    AllDiffer(ks[..n]);
    assert (set m: nat | m < ks[n] && free(m)) == ElementsOf(ks[..n]);
  }

  lemma FirstTenAre(ks: seq<nat>, free: nat -> bool)
    requires Ascend(ks) && forall k :: k in ks <==> free(k)
    ensures AreShownOf(FirstTen(ks), free)
  {
    var shown := FirstTen(ks);
    forall n | 0 <= n < |ks| ensures IsShown(free, ks[n]) <==> n < 10 {
      assert ks[n] in ks;
      BeforeAre(ks, free, n);
    }
    forall k: nat ensures k in shown <==> IsShown(free, k) {
      if k in shown {
        var n :| 0 <= n < |shown| && shown[n] == k;
        assert ks[n] == k;
      }
      if IsShown(free, k) {
        assert k in ks;
        var n :| 0 <= n < |ks| && ks[n] == k;
        assert shown[n] == k;
      }
    }
  }

  lemma AscendOneMore(ks: seq<nat>, k: nat)
    requires Ascend(ks) && forall shown | shown in ks :: shown < k
    ensures Ascend(ks + [k])
  {
    assert forall m | 0 <= m < |ks| :: ks[m] in ks;
  }

  ghost predicate AreClaims(c: Case, commands: seq<Typed>, claims: seq<Claim>)
    requires WellTyped(commands)
  {
    |claims| == |commands| && forall i | 0 <= i < |commands| :: claims[i] == ClaimAt(c, commands, i)
  }

  lemma IsUnclaimed(c: Case, commands: seq<Typed>, claims: seq<Claim>, line: Claim)
    requires WellTyped(commands) && AreClaims(c, commands, claims) && !line.NoClaim?
    ensures ClaimedBy(claims, line) == {} <==> forall i :: !Claims(c, commands, i, line)
  {
    assert forall i | Claims(c, commands, i, line) :: i in ClaimedBy(claims, line);
    assert forall i | i in ClaimedBy(claims, line) :: Claims(c, commands, i, line);
    hide Claims;
    Inhabited(ClaimedBy(claims, line), {});
  }

  lemma IsUnreplaced(c: Case, commands: seq<Typed>, claims: seq<Claim>, gone: Line)
    requires WellTyped(commands) && AreClaims(c, commands, claims)
    ensures ReplacedBy(c, claims, gone) == {} <==> forall i :: !TakesPlace(c, commands, i, gone)
  {
    forall i: nat ensures i in ReplacedBy(c, claims, gone) <==> TakesPlace(c, commands, i, gone) {
      ByClaims(c, commands, claims, i, gone, OnAdded(0));
    }
    hide ReplacedBy;
    if i: nat :| TakesPlace(c, commands, i, gone) {
      assert i in ReplacedBy(c, claims, gone);
    }
    Inhabited(ReplacedBy(c, claims, gone), {});
  }

  lemma FreeAddedIs(c: Case, commands: seq<Typed>, claims: seq<Claim>, here: Option<Path>, k: nat)
    requires WellTyped(commands) && AreClaims(c, commands, claims) && k < |c.added|
    ensures IsFreeAdded(c, commands, here, k) <==> At(c.added[k], here) && ClaimedBy(claims, OnAdded(k)) == {}
  {
    IsUnclaimed(c, commands, claims, OnAdded(k));
    hide AreClaims;
    hide Claims;
    hide ClaimedBy;
  }

  lemma FreeRemovedIs(c: Case, commands: seq<Typed>, claims: seq<Claim>, here: Option<Path>, k: nat)
    requires WellTyped(commands) && AreClaims(c, commands, claims) && k < |c.removed|
    ensures IsFreeRemoved(c, commands, here, k) <==>
              At(c.removed[k], here) && ClaimedBy(claims, OnRemoved(k)) == {} && ReplacedBy(c, claims, c.removed[k]) == {}
  {
    IsUnclaimed(c, commands, claims, OnRemoved(k));
    IsUnreplaced(c, commands, claims, c.removed[k]);
    hide AreClaims;
    hide Claims;
    hide TakesPlace;
    hide ClaimedBy;
    hide ReplacedBy;
  }

  lemma ListOneMore(ks: seq<nat>, k: nat, free: bool)
    requires Ascend(ks) && forall shown | shown in ks :: shown < k
    ensures var more := ks + (if free then [k] else []);
            Ascend(more) && forall m :: m in more <==> m in ks || (free && m == k)
  {
    AscendOneMore(ks, k);
    assert ks + [] == ks;
  }

  lemma NoneIsFree(c: Case, claims: seq<Claim>, here: Option<Path>)
    ensures FreeAdded(c, claims, here, 0) == FreeRemoved(c, claims, here, 0) == []
  {
  }

  lemma NoneAscends()
    ensures Ascend([])
  {
  }

  lemma FreeAddedOneMore(c: Case, commands: seq<Typed>, claims: seq<Claim>, here: Option<Path>, n: nat)
    requires WellTyped(commands) && AreClaims(c, commands, claims) && n < |c.added|
    ensures FreeAdded(c, claims, here, n + 1)
         == FreeAdded(c, claims, here, n) + (if IsFreeAdded(c, commands, here, n) then [n] else [])
    ensures forall k | k in FreeAdded(c, claims, here, n) :: k < n
  {
    FreeAddedIs(c, commands, claims, here, n);
    hide AreClaims;
    hide IsFreeAdded;
    hide ClaimedBy;
    hide ReplacedBy;
    hide At;
  }

  lemma {:induction false} FreeAddedAre(c: Case, commands: seq<Typed>, claims: seq<Claim>, here: Option<Path>, n: nat)
    requires WellTyped(commands) && AreClaims(c, commands, claims) && n <= |c.added|
    ensures Ascend(FreeAdded(c, claims, here, n))
    ensures forall k: nat :: k in FreeAdded(c, claims, here, n) <==> k < n && IsFreeAdded(c, commands, here, k)
  {
    hide *;
    if n == 0 {
      NoneIsFree(c, claims, here);
      NoneAscends();
    } else {
      FreeAddedAre(c, commands, claims, here, n - 1);
      FreeAddedOneMore(c, commands, claims, here, n - 1);
      ListOneMore(FreeAdded(c, claims, here, n - 1), n - 1, IsFreeAdded(c, commands, here, n - 1));
    }
  }

  lemma FreeRemovedOneMore(c: Case, commands: seq<Typed>, claims: seq<Claim>, here: Option<Path>, n: nat)
    requires WellTyped(commands) && AreClaims(c, commands, claims) && n < |c.removed|
    ensures FreeRemoved(c, claims, here, n + 1)
         == FreeRemoved(c, claims, here, n) + (if IsFreeRemoved(c, commands, here, n) then [n] else [])
    ensures forall k | k in FreeRemoved(c, claims, here, n) :: k < n
  {
    FreeRemovedIs(c, commands, claims, here, n);
    hide AreClaims;
    hide IsFreeRemoved;
    hide ClaimedBy;
    hide ReplacedBy;
    hide At;
  }

  lemma {:induction false} FreeRemovedAre(c: Case, commands: seq<Typed>, claims: seq<Claim>, here: Option<Path>, n: nat)
    requires WellTyped(commands) && AreClaims(c, commands, claims) && n <= |c.removed|
    ensures Ascend(FreeRemoved(c, claims, here, n))
    ensures forall k: nat :: k in FreeRemoved(c, claims, here, n) <==> k < n && IsFreeRemoved(c, commands, here, k)
  {
    hide *;
    if n == 0 {
      NoneIsFree(c, claims, here);
      NoneAscends();
    } else {
      FreeRemovedAre(c, commands, claims, here, n - 1);
      FreeRemovedOneMore(c, commands, claims, here, n - 1);
      ListOneMore(FreeRemoved(c, claims, here, n - 1), n - 1, IsFreeRemoved(c, commands, here, n - 1));
    }
  }

  /** What is shown for a section: of the free lines there, the first ten added and the first ten removed. */
  ghost predicate AreShown(c: Case, commands: seq<Typed>, here: Option<Path>, plus: seq<nat>, minus: seq<nat>)
    requires WellTyped(commands)
  {
    && AreShownOf(plus, (k: nat) => IsFreeAdded(c, commands, here, k))
    && AreShownOf(minus, (k: nat) => IsFreeRemoved(c, commands, here, k))
  }

  lemma ShownAre(c: Case, commands: seq<Typed>, claims: seq<Claim>, here: Option<Path>)
    requires WellTyped(commands) && AreClaims(c, commands, claims)
    ensures AreShown(c, commands, here, ShownAdded(c, claims, here), ShownRemoved(c, claims, here))
  {
    FreeAddedAre(c, commands, claims, here, |c.added|);
    FreeRemovedAre(c, commands, claims, here, |c.removed|);
    hide AreClaims;
    hide Claims;
    hide TakesPlace;
    hide Ascend;
    hide AreShownOf;
    FirstTenAre(FreeAdded(c, claims, here, |c.added|), (k: nat) => IsFreeAdded(c, commands, here, k));
    FirstTenAre(FreeRemoved(c, claims, here, |c.removed|), (k: nat) => IsFreeRemoved(c, commands, here, k));
  }

  // ---------- The replies ----------

  /** The device replied to the command, or to the first one after it that only moves. */
  ghost predicate HasReply(commands: seq<Typed>, replied: seq<bool>, i: nat) {
    || (i < |replied| && replied[i])
    || exists k: nat :: ClosesFor(commands, i, k) && k < |replied| && replied[k]
  }

  ghost predicate ClosesFor(commands: seq<Typed>, i: nat, k: nat) {
    i <= k < |commands| && commands[k].navigation && forall m | i <= m < k :: !commands[m].navigation
  }

  lemma {:induction false} ClosedAtIs(commands: seq<Typed>, i: nat)
    requires i <= |commands|
    ensures var k := ClosedAt(commands, i);
            if k < |commands| then ClosesFor(commands, i, k) else forall m | i <= m < |commands| :: !commands[m].navigation
    decreases |commands| - i
  {
    if i < |commands| && !commands[i].navigation {
      ClosedAtIs(commands, i + 1);
    }
  }

  /** An unproven judgment, rejected just when there is a reply; else as it was. */
  ghost predicate IsOpen(j: Judgment, sent: string, evidence: seq<string>, note: Note, rejected: bool) {
    && j.command == sent && j.evidence == evidence
    && j.verdict == (if rejected then Rejected else Review)
    && (if rejected then j.note.Unproven? || j.note.UnprovenAtClosing? else j.note == note)
  }

  lemma RepliedIs(commands: seq<Typed>, replied: seq<bool>, i: nat, j: Judgment)
    requires i < |commands|
    ensures var k := Replied(commands, replied, i, j);
            if j.verdict == Review then
              IsOpen(k, j.command, j.evidence, j.note, HasReply(commands, replied, i)) && k.section == j.section
            else k == j
  {
    ClosedAtIs(commands, i);
    var k := ClosedAt(commands, i);
    forall m: nat | ClosesFor(commands, i, m) ensures m == k {
    }
    if k < |commands| && Said(replied, k) {
      assert ClosesFor(commands, i, k) && k < |replied| && replied[k];
    }
  }

  // ---------- The final judgments ----------

  /** Another command, not the same text, claims the same line. */
  ghost predicate IsContested(c: Case, commands: seq<Typed>, i: nat)
    requires WellTyped(commands) && i < |commands|
  {
    exists k :: 0 <= k < |commands| && ClaimAt(c, commands, k) == ClaimAt(c, commands, i)
      && c.g.normalize(commands[k].sent) != c.g.normalize(commands[i].sent)
  }

  /** Line k is the first of the defaults view that is, right in this section, these words. */
  ghost predicate IsDefault(c: Case, words: seq<string>, here: Option<Path>, k: nat) {
    && here.Some? && k < |c.view| && c.view[k].path == here.value && Fits(c, Being(words), c.view[k])
    && forall m | 0 <= m < k :: !(c.view[m].path == here.value && Fits(c, Being(words), c.view[m]))
  }

  /** The line a ruling goes by, as shown, and the verdict it is worth. */
  ghost predicate IsProven(c: Case, r: Ruling, j: Judgment, sent: string)
    requires RulingWithin(c, r)
  {
    && j.command == sent && j.section == Some([])
    && (if r.ByAdded? then j.verdict == TookEffect && j.evidence == ["+ " + c.added[r.index].raw] && j.note == r.note
        else if r.ByRemoved? then j.verdict == r.verdict && j.evidence == ["- " + c.removed[r.index].raw] && j.note == r.note
        else if r.ByUnchanged? then j.verdict == InPlace && j.evidence == ["  " + r.line.raw] && j.note == Plain
        else r.NothingToRemove? && j.verdict == InPlace && j.evidence == [] && j.note == AlreadyAbsent)
  }

  ghost predicate ShowsDefault(c: Case, words: seq<string>, here: Option<Path>, j: Judgment, sent: string) {
    exists k: nat :: IsDefault(c, words, here, k) && j == Judgment(sent, InPlace, ["  " + c.view[k].raw], ShownWithDefaults, Some([]))
  }

  ghost predicate ShowsSection(c: Case, commands: seq<Typed>, here: Option<Path>, j: Judgment, sent: string, rejected: bool)
    requires WellTyped(commands)
  {
    exists plus, minus, evidence :: AreShown(c, commands, here, plus, minus) && AreTexts(c, plus, minus, evidence)
      && IsOpen(j, sent, evidence, if plus + minus == [] then NoChangeInSection else Plain, rejected)
  }

  ghost predicate AreTexts(c: Case, plus: seq<nat>, minus: seq<nat>, texts: seq<string>) {
    && |texts| == |plus| + |minus|
    && (forall n | 0 <= n < |plus| :: plus[n] < |c.added| && texts[n] == "+ " + c.added[plus[n]].raw)
    && (forall n | 0 <= n < |minus| :: minus[n] < |c.removed| && texts[|plus| + n] == "- " + c.removed[minus[n]].raw)
  }

  /** A ruling that proves its command: a changed line no other text claims, an unchanged line, or - to a silent device -
      nothing to remove. */
  ghost predicate Settles(c: Case, commands: seq<Typed>, i: nat, r: Ruling, said: bool)
    requires WellTyped(commands) && i < |commands|
  {
    if r.ByAdded? || r.ByRemoved? then !IsContested(c, commands, i) else r.ByUnchanged? || (r.NothingToRemove? && !said)
  }

  /** The final judgment of a judged command. */
  ghost predicate IsFinal(c: Case, commands: seq<Typed>, replied: seq<bool>, i: nat, j: Judgment)
    requires WellTyped(commands) && i < |commands| && Judged(commands[i])
  {
    var r, sent, words := RulingAt(c, commands, i), commands[i].sent, commands[i].words;
    var here, rejected := WalkTo(c, commands, i).context, HasReply(commands, replied, i);
    if Settles(c, commands, i, r, i < |replied| && replied[i]) then IsProven(c, r, j, sent)
    else if r.ByAdded? then IsOpen(j, sent, ["+ " + c.added[r.index].raw], Conflict, rejected)
    else if r.ByRemoved? then IsOpen(j, sent, ["- " + c.removed[r.index].raw], Conflict, rejected)
    else if exists k: nat :: IsDefault(c, words, here, k) then ShowsDefault(c, words, here, j, sent)
    else ShowsSection(c, commands, here, j, sent, rejected)
  }

  lemma DefaultIs(c: Case, words: seq<string>, here: Option<Path>)
    ensures var k := DefaultLine(c, words, here);
            if k < |c.view| then IsDefault(c, words, here, k) else forall m: nat :: !IsDefault(c, words, here, m)
  {
    hide Fits;
    if here.Some? {
      FirstIs(c, c.view, Being(words), here, 0);
    }
  }

  lemma TextsAre(c: Case, claims: seq<Claim>, here: Option<Path>)
    ensures var plus, minus := ShownAdded(c, claims, here), ShownRemoved(c, claims, here);
            AreTexts(c, plus, minus, SectionChanges(c, claims, here))
  {
    hide ShownAdded;
    hide ShownRemoved;
    var plus, minus := ShownAdded(c, claims, here), ShownRemoved(c, claims, here);
    assert forall n | 0 <= n < |plus| :: plus[n] in plus;
    assert forall n | 0 <= n < |minus| :: minus[n] in minus;
  }

  /** The ledger's entry of command i. */
  lemma EntryIs(c: Case, commands: seq<Typed>, replied: seq<bool>, i: nat)
    requires WellTyped(commands) && i < |commands| && Judged(commands[i])
    ensures var l, r, said := LedgerOf(c, commands, replied), RulingAt(c, commands, i), i < |replied| && replied[i];
            && |l.claims| == |l.heres| == |l.first| == |l.reviewed| == |commands|
            && AreClaims(c, commands, l.claims)
            && l.claims[i] == ClaimOf(r) && l.heres[i] == WalkTo(c, commands, i).context
            && l.reviewed[i] == (r.NoEvidence? || (r.NothingToRemove? && said))
            && l.first[i].command == commands[i].sent
            && (if l.reviewed[i] then l.first[i].verdict == Review && l.first[i].note == Plain
                else IsProven(c, r, l.first[i], commands[i].sent))
            && (Contested(c.g, l, i) <==> (r.ByAdded? || r.ByRemoved?) && IsContested(c, commands, i))
  {
    hide RulingAt;
    hide WalkTo;
    hide SectionOf;
    hide HeaderTexts;
    LedgerAt(c, commands, replied, i);
    var l := LedgerOf(c, commands, replied);
    forall k | 0 <= k < |commands|
      ensures l.claims[k] == ClaimAt(c, commands, k) && l.first[k].command == commands[k].sent
    {
      LedgerAt(c, commands, replied, k);
    }
    hide ClaimAt;
    hide FirstJudgment;
  }

  lemma ProvenStays(c: Case, commands: seq<Typed>, replied: seq<bool>, l: Ledger, i: nat)
    requires i < |commands| && Kept(c, l, |commands|) && !l.reviewed[i] && !Contested(c.g, l, i)
    ensures FinalOf(c, commands, replied, l, i) == l.first[i]
  {
    hide Contested;
  }

  lemma ContestedIsOpen(c: Case, commands: seq<Typed>, replied: seq<bool>, l: Ledger, i: nat)
    requires i < |commands| && Kept(c, l, |commands|) && !l.reviewed[i] && Contested(c.g, l, i)
    ensures IsOpen(FinalOf(c, commands, replied, l, i), l.first[i].command, [ClaimedText(c, l.claims[i])], Conflict,
                   HasReply(commands, replied, i))
  {
    hide HasReply;
    hide Replied;
    hide ClaimedText;
    RepliedIs(commands, replied, i, AfterEvidence(c, commands, l, i));
  }

  lemma DefaultIsShown(c: Case, commands: seq<Typed>, replied: seq<bool>, l: Ledger, i: nat)
    requires i < |commands| && Kept(c, l, |commands|) && l.reviewed[i]
    requires exists k: nat :: IsDefault(c, commands[i].words, l.heres[i], k)
    ensures ShowsDefault(c, commands[i].words, l.heres[i], FinalOf(c, commands, replied, l, i), l.first[i].command)
  {
    hide IsDefault;
    hide DefaultLine;
    DefaultIs(c, commands[i].words, l.heres[i]);
  }

  lemma SectionIsShown(c: Case, commands: seq<Typed>, replied: seq<bool>, l: Ledger, i: nat)
    requires i < |commands| && Kept(c, l, |commands|) && l.reviewed[i] && WellTyped(commands) && AreClaims(c, commands, l.claims)
    requires forall k: nat :: !IsDefault(c, commands[i].words, l.heres[i], k)
    ensures ShowsSection(c, commands, l.heres[i], FinalOf(c, commands, replied, l, i), l.first[i].command, HasReply(commands, replied, i))
  {
    hide IsDefault;
    hide DefaultLine;
    hide AreClaims;
    hide AreShown;
    hide AreTexts;
    hide HasReply;
    hide Replied;
    hide ShownAdded;
    hide ShownRemoved;
    hide SectionChanges;
    var here := l.heres[i];
    DefaultIs(c, commands[i].words, here);
    ShownAre(c, commands, l.claims, here);
    TextsAre(c, l.claims, here);
    SectionChangesAre(c, l.claims, here);
    RepliedIs(commands, replied, i, AfterEvidence(c, commands, l, i));
  }

  lemma SectionChangesAre(c: Case, claims: seq<Claim>, here: Option<Path>)
    ensures |SectionChanges(c, claims, here)| == |ShownAdded(c, claims, here) + ShownRemoved(c, claims, here)|
  {
    hide ShownAdded;
    hide ShownRemoved;
  }

  /** After every pass: a command's final judgment is what its ruling, the claims of the others, the view with defaults and the
      replies make it, and nothing else. */
  lemma JudgmentsAreFinal(c: Case, commands: seq<Typed>, replied: seq<bool>, i: nat)
    requires WellTyped(commands) && i < |commands|
    ensures var j := OutcomeOf(c, commands, replied).commands[i];
            if commands[i].exec then j == Judgment(commands[i].sent, Exec, [], Plain, Some([]))
            else if commands[i].navigation then j == Judgment(commands[i].sent, Navigation, [], Plain, Some([]))
            else IsFinal(c, commands, replied, i, j)
  {
    hide LedgerOf;
    hide FinalOf;
    hide RulingAt;
    hide WalkTo;
    var l := LedgerOf(c, commands, replied);
    LedgerIsKept(c, commands, replied);
    LedgerAt(c, commands, replied, i);
    if Judged(commands[i]) {
      JudgedIsFinal(c, commands, replied, l, i);
    } else {
      ProvenStays(c, commands, replied, l, i);
    }
  }

  lemma JudgedIsFinal(c: Case, commands: seq<Typed>, replied: seq<bool>, l: Ledger, i: nat)
    requires WellTyped(commands) && i < |commands| && Judged(commands[i])
    requires l == LedgerOf(c, commands, replied) && Kept(c, l, |commands|)
    ensures IsFinal(c, commands, replied, i, FinalOf(c, commands, replied, l, i))
  {
    hide LedgerOf;
    hide FinalOf;
    hide RulingAt;
    hide WalkTo;
    hide IsContested;
    hide Contested;
    hide IsDefault;
    hide ShowsDefault;
    hide ShowsSection;
    hide HasReply;
    hide AreClaims;
    EntryIs(c, commands, replied, i);
    if l.reviewed[i] {
      if exists k: nat :: IsDefault(c, commands[i].words, l.heres[i], k) {
        DefaultIsShown(c, commands, replied, l, i);
      } else {
        SectionIsShown(c, commands, replied, l, i);
      }
    } else if Contested(c.g, l, i) {
      ContestedIsOpen(c, commands, replied, l, i);
    } else {
      ProvenStays(c, commands, replied, l, i);
    }
  }

  // ---------- The changes shown as evidence ----------

  /** Nothing proves command i, it contests no claim, and the view with defaults doesn't have it. */
  ghost predicate IsInReview(c: Case, commands: seq<Typed>, replied: seq<bool>, i: nat)
    requires WellTyped(commands)
  {
    && i < |commands| && Judged(commands[i])
    && (RulingAt(c, commands, i).NoEvidence? || (RulingAt(c, commands, i).NothingToRemove? && i < |replied| && replied[i]))
    && forall k: nat :: !IsDefault(c, commands[i].words, WalkTo(c, commands, i).context, k)
  }

  lemma {:induction false} ReviewsAre(c: Case, commands: seq<Typed>, l: Ledger, k: nat, n: nat)
    requires n <= |commands| && Kept(c, l, |commands|)
    ensures Ascend(AddedReview(c, commands, l, k, n)) && Ascend(RemovedReview(c, commands, l, k, n))
    ensures forall i: nat :: i in AddedReview(c, commands, l, k, n) <==>
                               i < n && Open(c, commands, l, i) && k in ShownAdded(c, l.claims, l.heres[i])
    ensures forall i: nat :: i in RemovedReview(c, commands, l, k, n) <==>
                               i < n && Open(c, commands, l, i) && k in ShownRemoved(c, l.claims, l.heres[i])
  {
    hide Open;
    hide ShownAdded;
    hide ShownRemoved;
    hide Ascend;
    if n == 0 {
      NoneAscends();
    } else {
      ReviewsAre(c, commands, l, k, n - 1);
      var i := n - 1;
      ListOneMore(AddedReview(c, commands, l, k, i), i, Open(c, commands, l, i) && k in ShownAdded(c, l.claims, l.heres[i]));
      ListOneMore(RemovedReview(c, commands, l, k, i), i, Open(c, commands, l, i) && k in ShownRemoved(c, l.claims, l.heres[i]));
    }
  }

  lemma OpenIs(c: Case, commands: seq<Typed>, replied: seq<bool>, l: Ledger, i: nat)
    requires WellTyped(commands) && i < |commands| && l == LedgerOf(c, commands, replied) && Kept(c, l, |commands|)
    ensures Open(c, commands, l, i) <==> IsInReview(c, commands, replied, i)
  {
    hide LedgerOf;
    hide RulingAt;
    hide WalkTo;
    hide IsDefault;
    hide DefaultLine;
    LedgerAt(c, commands, replied, i);
    DefaultIs(c, commands[i].words, l.heres[i]);
  }

  /** A changed line names, in order, exactly the commands in review it is shown for. */
  lemma ReviewsAreShown(c: Case, commands: seq<Typed>, replied: seq<bool>, n: nat)
    requires WellTyped(commands) && n < |c.added| + |c.removed|
    ensures var o := OutcomeOf(c, commands, replied);
            && n < |o.changes| && Ascend(o.changes[n].review)
            && forall i: nat :: i in o.changes[n].review <==>
                 && IsInReview(c, commands, replied, i)
                 && var here := WalkTo(c, commands, i).context;
                    if n < |c.added| then IsShown((k: nat) => IsFreeAdded(c, commands, here, k), n)
                    else IsShown((k: nat) => IsFreeRemoved(c, commands, here, k), n - |c.added|)
  {
    hide LedgerOf;
    hide MadeAdded;
    hide MadeRemoved;
    hide FinalOf;
    hide Open;
    hide ShownAdded;
    hide ShownRemoved;
    hide IsShown;
    hide IsInReview;
    hide WalkTo;
    hide Ascend;
    var o, l := OutcomeOf(c, commands, replied), LedgerOf(c, commands, replied);
    LedgerIsKept(c, commands, replied);
    var k := if n < |c.added| then n else n - |c.added|;
    ReviewsAre(c, commands, l, k, |commands|);
    hide AddedReview;
    hide RemovedReview;
    forall i: nat
      ensures IsInReview(c, commands, replied, i) ==> i < |commands|
      ensures i < |commands| ==> (Open(c, commands, l, i) <==> IsInReview(c, commands, replied, i))
                                 && l.heres[i] == WalkTo(c, commands, i).context
    {
      ReviewIsWithin(c, commands, replied, i);
      if i < |commands| {
        OpenIs(c, commands, replied, l, i);
        LedgerAt(c, commands, replied, i);
      }
    }
    forall here: Option<Path>
      ensures k in ShownAdded(c, l.claims, here) <==> IsShown((k: nat) => IsFreeAdded(c, commands, here, k), k)
      ensures k in ShownRemoved(c, l.claims, here) <==> IsShown((k: nat) => IsFreeRemoved(c, commands, here, k), k)
    {
      LedgerClaims(c, commands, replied);
      ShownAre(c, commands, l.claims, here);
    }
  }

  lemma ReviewIsWithin(c: Case, commands: seq<Typed>, replied: seq<bool>, i: nat)
    requires WellTyped(commands)
    ensures IsInReview(c, commands, replied, i) ==> i < |commands|
  {
  }

  lemma LedgerClaims(c: Case, commands: seq<Typed>, replied: seq<bool>)
    requires WellTyped(commands)
    ensures AreClaims(c, commands, LedgerOf(c, commands, replied).claims)
  {
  }

  /** A command in review names its own section, each level by a header one of the snapshots printed - whatever came of it. */
  lemma ReviewNamesItsSection(c: Case, commands: seq<Typed>, replied: seq<bool>, i: nat)
    requires WellTyped(commands) && IsInReview(c, commands, replied, i) && Grounded(c)
    ensures var j, here := OutcomeOf(c, commands, replied).commands[i], WalkTo(c, commands, i).context;
            here.Some? && j.section.Some? && PrintedHeaders(c, here.value, j.section.value)
  {
    hide LedgerOf;
    hide FinalOf;
    hide RulingAt;
    hide WalkTo;
    hide IsDefault;
    hide PrintedHeaders;
    hide SectionOf;
    hide Grounded;
    hide Open;
    var l := LedgerOf(c, commands, replied);
    LedgerIsKept(c, commands, replied);
    LedgerAt(c, commands, replied, i);
    OpenIs(c, commands, replied, l, i);
    FirstSection(c, commands, replied, i);
    OpenKeepsSection(c, commands, replied, l, i);
    WalkedSectionIsPrinted(c, commands, i);
  }

  lemma OpenKeepsSection(c: Case, commands: seq<Typed>, replied: seq<bool>, l: Ledger, i: nat)
    requires i < |commands| && Kept(c, l, |commands|) && Open(c, commands, l, i)
    ensures FinalOf(c, commands, replied, l, i).section == l.first[i].section
  {
    hide SectionChanges;
    hide DefaultLine;
  }

  /** What the outcome keeps of the push is exactly the lines some command claims. */
  lemma ClaimedLinesAreKept(c: Case, commands: seq<Typed>, replied: seq<bool>, key: Key)
    requires WellTyped(commands)
    ensures var o := OutcomeOf(c, commands, replied);
            && (key in o.added <==> exists i, k: nat :: Claims(c, commands, i, OnAdded(k)) && k < |c.added| && c.added[k].AsKey() == key)
            && (key in o.removed <==>
                  exists i, k: nat :: Claims(c, commands, i, OnRemoved(k)) && k < |c.removed| && c.removed[k].AsKey() == key)
  {
    hide LedgerOf;
    hide FinalOf;
    hide ChangesOf;
    hide AreClaims;
    hide ClaimedBy;
    hide Claims;
    var l := LedgerOf(c, commands, replied);
    LedgerIsKept(c, commands, replied);
    LedgerClaims(c, commands, replied);
    forall k: nat
      ensures ClaimedBy(l.claims, OnAdded(k)) == {} <==> forall i :: !Claims(c, commands, i, OnAdded(k))
      ensures ClaimedBy(l.claims, OnRemoved(k)) == {} <==> forall i :: !Claims(c, commands, i, OnRemoved(k))
    {
      IsUnclaimed(c, commands, l.claims, OnAdded(k));
      IsUnclaimed(c, commands, l.claims, OnRemoved(k));
    }
  }
}
