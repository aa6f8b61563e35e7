/**
 What a judged push means: laws over every push, every pair of snapshots and every reply.
 */
module JudgeLaws {
  import opened Config
  import opened Snapshots
  import opened Words
  import opened Verdicts
  import opened Options

  predicate IsProof(j: Judgment) {
    j.verdict == TookEffect || j.verdict == Removed
  }

  predicate IsUnproven(j: Judgment) {
    j.verdict == Review || j.verdict == Rejected
  }

  // ---------- Replies never prove anything ----------

  /** The one ruling of a proof that a reply may overturn. */
  predicate FoundNothing(c: Case, commands: seq<Typed>, i: nat)
    requires WellTyped(commands) && i < |commands|
  {
    Judged(commands[i]) && RulingAt(c, commands, i).NothingToRemove?
  }

  /** The same change, made by the same commands; what it is evidence for may differ. */
  predicate SameChange(a: Change, b: Change) {
    a.sign == b.sign && a.line == b.line && a.makers == b.makers && a.device == b.device
  }

  predicate SameChanges(a: seq<Change>, b: seq<Change>) {
    |a| == |b| && forall k | 0 <= k < |a| :: SameChange(a[k], b[k])
  }

  /** What two judgments of one command may differ in when only the replies do. */
  predicate DifferOnlyInReview(a: Judgment, b: Judgment, foundNothing: bool) {
    && a.command == b.command
    && (IsProof(a) || IsProof(b) ==> a == b)
    && (a.verdict == b.verdict
        || (IsUnproven(a) && IsUnproven(b))
        || (foundNothing && (a.verdict == InPlace || IsUnproven(a)) && (b.verdict == InPlace || IsUnproven(b))))
    && (!foundNothing ==> a.evidence == b.evidence && a.section == b.section)
    && (!foundNothing && a.verdict == b.verdict && !IsUnproven(a) ==> a == b)
  }

  lemma LedgersAgree(c: Case, commands: seq<Typed>, a: seq<bool>, b: seq<bool>, i: nat)
    requires WellTyped(commands) && i < |commands|
    ensures var l, m := LedgerOf(c, commands, a), LedgerOf(c, commands, b);
            && l.claims[i] == m.claims[i] && l.heres[i] == m.heres[i]
            && l.first[i].command == m.first[i].command
            && (!FoundNothing(c, commands, i) ==> l.first[i] == m.first[i] && l.reviewed[i] == m.reviewed[i])
            && (FoundNothing(c, commands, i) ==>
                  && l.claims[i] == NoClaim
                  && (l.reviewed[i] || l.first[i].verdict == InPlace) && (m.reviewed[i] || m.first[i].verdict == InPlace))
  {
    hide RulingAt;
    hide WalkTo;
    LedgerAt(c, commands, a, i);
    LedgerAt(c, commands, b, i);
  }

  lemma FinalsAgree(c: Case, commands: seq<Typed>, a: seq<bool>, b: seq<bool>, l: Ledger, m: Ledger, i: nat, foundNothing: bool)
    requires i < |commands| && Kept(c, l, |commands|) && Kept(c, m, |commands|)
    requires l.claims == m.claims && l.heres == m.heres
    requires forall k | 0 <= k < |commands| :: l.first[k].command == m.first[k].command
    requires !foundNothing ==> l.first[i] == m.first[i] && l.reviewed[i] == m.reviewed[i]
    requires foundNothing ==> l.claims[i] == NoClaim
                              && (l.reviewed[i] || l.first[i].verdict == InPlace)
                              && (m.reviewed[i] || m.first[i].verdict == InPlace)
    ensures DifferOnlyInReview(FinalOf(c, commands, a, l, i), FinalOf(c, commands, b, m, i), foundNothing)
  {
    hide SectionChanges;
    hide ClaimedText;
    assert Contested(c.g, l, i) <==> Contested(c.g, m, i);
  }

  lemma {:induction false} UnexplainedAgree(a: seq<Change>, b: seq<Change>)
    requires SameChanges(a, b)
    ensures SameChanges(Unexplained(a), Unexplained(b))
  {
    if a != [] {
      assert SameChange(a[0], b[0]);
      UnexplainedAgree(a[1..], b[1..]);
    }
  }

  /** Replies never prove anything: whatever the device said, the same commands are proven, by the same lines, and every
      change has the same makers. A reply moves a command only between review and rejected - or, for a removal that
      found nothing, away from "already absent". */
  lemma RepliesProveNothing(c: Case, commands: seq<Typed>, a: seq<bool>, b: seq<bool>)
    requires WellTyped(commands)
    ensures var o, p := OutcomeOf(c, commands, a), OutcomeOf(c, commands, b);
            && (forall i | 0 <= i < |commands| ::
                  DifferOnlyInReview(o.commands[i], p.commands[i], FoundNothing(c, commands, i)))
            && o.added == p.added && o.removed == p.removed
            && SameChanges(o.changes, p.changes) && SameChanges(o.other, p.other)
  {
    hide LedgerOf;
    hide FinalOf;
    hide DifferOnlyInReview;
    hide FoundNothing;
    var l, m := LedgerOf(c, commands, a), LedgerOf(c, commands, b);
    LedgerIsKept(c, commands, a);
    LedgerIsKept(c, commands, b);
    forall i | 0 <= i < |commands| ensures l.claims[i] == m.claims[i] && l.heres[i] == m.heres[i] {
      LedgersAgree(c, commands, a, b, i);
    }
    assert l.claims == m.claims && l.heres == m.heres;
    forall i | 0 <= i < |commands|
      ensures DifferOnlyInReview(FinalOf(c, commands, a, l, i), FinalOf(c, commands, b, m, i), FoundNothing(c, commands, i))
    {
      LedgersAgree(c, commands, a, b, i);
      FinalsAgree(c, commands, a, b, l, m, i, FoundNothing(c, commands, i));
    }
    UnexplainedAgree(ChangesOf(c, commands, l), ChangesOf(c, commands, m));
  }

  // ---------- Evidence is never shared ----------

  function TextOf(change: Change): string {
    [change.sign] + " " + change.line.raw
  }

  /** Where among the changes a claimed line is. */
  function SupportOf(c: Case, claim: Claim): nat {
    match claim
    case OnAdded(k) => k
    case OnRemoved(k) => |c.added| + k
    case NoClaim => 0
  }

  function Support(c: Case, commands: seq<Typed>, i: nat): nat
    requires WellTyped(commands) && i < |commands|
  {
    SupportOf(c, ClaimAt(c, commands, i))
  }

  function ProvenTexts(g: Grammar, o: Outcome): set<string> {
    set i | 0 <= i < |o.commands| && IsProof(o.commands[i]) :: g.normalize(o.commands[i].command)
  }

  /** A command is proven in the end just when it claimed a line no other command contests. */
  lemma ProofIsUncontestedClaim(c: Case, commands: seq<Typed>, replied: seq<bool>, l: Ledger, i: nat)
    requires i < |commands| && Kept(c, l, |commands|)
    requires IsProof(l.first[i]) <==> l.claims[i] != NoClaim
    ensures var j := FinalOf(c, commands, replied, l, i);
            && (IsProof(j) <==> l.claims[i] != NoClaim && !Contested(c.g, l, i))
            && (IsProof(j) ==> j == l.first[i])
  {
    hide SectionChanges;
    hide ClaimedText;
  }

  lemma FirstProofIsClaim(c: Case, commands: seq<Typed>, replied: seq<bool>, i: nat)
    requires WellTyped(commands) && i < |commands|
    ensures var j, claim := FirstJudgment(c, commands, replied, i), ClaimAt(c, commands, i);
            && (IsProof(j) <==> claim != NoClaim)
            && (IsProof(j) ==> j.evidence == [ClaimedText(c, claim)])
  {
    hide RuleSetting;
    hide RuleRemoval;
  }

  /** The change of a claimed line: its text is the evidence, and the commands claiming it made it. */
  lemma SupportIsChange(c: Case, commands: seq<Typed>, l: Ledger, i: nat)
    requires i < |commands| && Kept(c, l, |commands|) && l.claims[i] != NoClaim
    ensures var changes, k := ChangesOf(c, commands, l), SupportOf(c, l.claims[i]);
            && k < |c.added| + |c.removed| <= |changes|
            && !changes[k].device
            && TextOf(changes[k]) == ClaimedText(c, l.claims[i])
            && changes[k].makers == ClaimedBy(l.claims, l.claims[i]) && i in changes[k].makers
  {
    hide AddedReview;
    hide RemovedReview;
    hide ByBlock;
    hide ReplacedBy;
    assert i in ClaimedBy(l.claims, l.claims[i]);
  }

  /** Each line below n stands for one text at most, so there are no more texts than lines. */
  lemma {:induction false} NoMoreTextsThanLines(texts: set<string>, line: string -> nat, n: nat)
    requires forall t | t in texts :: line(t) < n
    requires forall t, u | t in texts && u in texts && line(t) == line(u) :: t == u
    ensures |texts| <= n
  {
    if n == 0 {
      assert forall t | t in texts :: false;
      assert texts == {};
    } else if t :| t in texts && line(t) == n - 1 {
      NoMoreTextsThanLines(texts - {t}, line, n - 1);
    } else {
      NoMoreTextsThanLines(texts, line, n - 1);
    }
  }

  /** Evidence is never shared: each proven command is a maker of the change it shows as evidence, every maker of that
      change is the same command text, and so no more texts are proven than lines changed. */
  lemma EvidenceIsNeverShared(c: Case, commands: seq<Typed>, replied: seq<bool>)
    requires WellTyped(commands)
    ensures var o := OutcomeOf(c, commands, replied);
            && (forall i | 0 <= i < |commands| && IsProof(o.commands[i]) ::
                  var k := Support(c, commands, i);
                  && k < |c.added| + |c.removed| <= |o.changes| && !o.changes[k].device
                  && o.commands[i].evidence == [TextOf(o.changes[k])]
                  && i in o.changes[k].makers
                  && forall j | j in o.changes[k].makers ::
                       j < |commands| && c.g.normalize(commands[j].sent) == c.g.normalize(commands[i].sent))
            && |ProvenTexts(c.g, o)| <= |c.added| + |c.removed|
  {
    hide LedgerOf;
    hide ClaimAt;
    hide FirstJudgment;
    hide FinalOf;
    hide ChangesOf;
    hide SupportOf;
    hide ClaimedText;
    var o, l := OutcomeOf(c, commands, replied), LedgerOf(c, commands, replied);
    LedgerIsKept(c, commands, replied);
    forall i | 0 <= i < |commands| && IsProof(o.commands[i])
      ensures var k := Support(c, commands, i);
              && k < |c.added| + |c.removed| <= |o.changes| && !o.changes[k].device
              && o.commands[i].evidence == [TextOf(o.changes[k])]
              && i in o.changes[k].makers
              && forall j | j in o.changes[k].makers ::
                   j < |commands| && c.g.normalize(commands[j].sent) == c.g.normalize(commands[i].sent)
    {
      LedgerAt(c, commands, replied, i);
      FirstProofIsClaim(c, commands, replied, i);
      ProofIsUncontestedClaim(c, commands, replied, l, i);
      SupportIsChange(c, commands, l, i);
    }
    forall i | 0 <= i < |commands| ensures o.commands[i].command == commands[i].sent {
      LedgerAt(c, commands, replied, i);
    }
    var all := seq(|commands|, i requires 0 <= i < |commands| => Support(c, commands, i));
    TextsAreFew(c, commands, o, all);
  }

  lemma TextsAreFew(c: Case, commands: seq<Typed>, o: Outcome, support: seq<nat>)
    requires |o.commands| == |commands| == |support|
    requires forall i | 0 <= i < |commands| :: o.commands[i].command == commands[i].sent
    requires forall i | 0 <= i < |commands| && IsProof(o.commands[i]) ::
               && support[i] < |c.added| + |c.removed| <= |o.changes|
               && i in o.changes[support[i]].makers
               && forall j | j in o.changes[support[i]].makers ::
                    j < |commands| && c.g.normalize(commands[j].sent) == c.g.normalize(commands[i].sent)
    ensures |ProvenTexts(c.g, o)| <= |c.added| + |c.removed|
  {
    var texts := ProvenTexts(c.g, o);
    var line := (t: string) =>
      if exists i :: 0 <= i < |commands| && IsProof(o.commands[i]) && c.g.normalize(o.commands[i].command) == t
      then (var i :| 0 <= i < |commands| && IsProof(o.commands[i]) && c.g.normalize(o.commands[i].command) == t; support[i])
      else 0;
    NoMoreTextsThanLines(texts, line, |c.added| + |c.removed|);
  }
}
