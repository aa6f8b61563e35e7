/**
 Exactly what two snapshots with nothing pushed in between teach: no more than the changes between them.
 */
module NoiseLaws {
  import opened Config
  import opened Snapshots

  /** Some new line of its section begins with these words. */
  ghost predicate Begins(g: Grammar, path: Path, words: seq<string>, added: seq<Line>) {
    exists line | line in added :: line.path == path && words <= WordsOf(g, line.text)
  }

  /** The longest start of a gone line that a new line of its section begins with; the whole line when none has its first word. */
  ghost predicate IsLead(g: Grammar, gone: Line, added: seq<Line>, lead: seq<string>) {
    var words := WordsOf(g, gone.text);
    if words != [] && Begins(g, gone.path, words[..1], added) then
      && lead != [] && lead <= words && Begins(g, gone.path, lead, added)
      && (|lead| < |words| ==> !Begins(g, gone.path, words[..|lead| + 1], added))
    else lead == words
  }

  lemma {:induction false} CommonPrefixIs(a: seq<string>, b: seq<string>, n: nat)
    requires n <= |a|
    ensures a[..n] <= b <==> n <= |CommonPrefix(a, b)|
  {
    if n > 0 && b != [] && a[0] == b[0] {
      CommonPrefixIs(a[1..], b[1..], n - 1);
      assert a[..n] == [a[0]] + a[1..][..n - 1] && b == [b[0]] + b[1..];
      assert a[1..][..n - 1] <= b[1..] ==> a[..n] <= b;
      assert a[..n] <= b ==> a[..n][1..] <= b[1..] && a[..n][1..] == a[1..][..n - 1];
    } else if n > 0 && b != [] {
      assert a[..n][0] == a[0];
    }
  }

  lemma BeginsLess(g: Grammar, path: Path, words: seq<string>, m: nat, n: nat, added: seq<Line>)
    requires m <= n <= |words|
    ensures Begins(g, path, words[..n], added) ==> Begins(g, path, words[..m], added)
  {
    assert words[..m] <= words[..n];
  }

  lemma OneLead(g: Grammar, gone: Line, added: seq<Line>, a: seq<string>, b: seq<string>)
    requires IsLead(g, gone, added, a) && IsLead(g, gone, added, b) && |a| <= |b|
    ensures a == b
  {
    hide Begins;
    var words := WordsOf(g, gone.text);
    var n := if |b| <= |words| then |b| else 0;
    var m := if |a| < n then |a| + 1 else n;
    BeginsLess(g, gone.path, words, m, n, added);
    assert b <= words ==> b == words[..n];
    assert a <= words ==> a == words[..|a|];
  }

  /** What the search holds after some of the new lines. */
  ghost predicate BestOf(g: Grammar, gone: Line, seen: seq<Line>, best: seq<string>, longest: nat) {
    var words := WordsOf(g, gone.text);
    && longest <= |words| && best == (if longest == 0 then words else words[..longest])
    && (longest > 0 ==> Begins(g, gone.path, words[..longest], seen))
    && forall n | longest < n <= |words| :: !Begins(g, gone.path, words[..n], seen)
  }

  lemma BeginsOneMore(g: Grammar, path: Path, words: seq<string>, seen: seq<Line>, other: Line)
    ensures Begins(g, path, words, seen + [other]) <==> Begins(g, path, words, seen) || (other.path == path && words <= WordsOf(g, other.text))
  {
    assert other in seen + [other];
    assert forall line | line in seen :: line in seen + [other];
  }

  lemma BestOneMore(g: Grammar, gone: Line, seen: seq<Line>, other: Line, best: seq<string>, longest: nat)
    requires BestOf(g, gone, seen, best, longest)
    ensures var common := CommonPrefix(WordsOf(g, gone.text), WordsOf(g, other.text));
            if other.path == gone.path && |common| > longest then BestOf(g, gone, seen + [other], common, |common|)
            else BestOf(g, gone, seen + [other], best, longest)
  {
    var words := WordsOf(g, gone.text);
    var common := CommonPrefix(words, WordsOf(g, other.text));
    forall n | 0 <= n <= |words|
      ensures Begins(g, gone.path, words[..n], seen + [other]) <==>
                Begins(g, gone.path, words[..n], seen) || (other.path == gone.path && n <= |common|)
    {
      BeginsOneMore(g, gone.path, words[..n], seen, other);
      CommonPrefixIs(words, WordsOf(g, other.text), n);
    }
    assert common == words[..|common|];
    hide Begins;
  }

  lemma {:induction false} BestLeadIs(g: Grammar, gone: Line, seen: seq<Line>, added: seq<Line>, best: seq<string>, longest: nat)
    requires BestOf(g, gone, seen, best, longest)
    ensures IsLead(g, gone, seen + added, BestLead(g, gone, added, best, longest))
    decreases |added|
  {
    if added == [] {
      assert seen + [] == seen;
      var words := WordsOf(g, gone.text);
      if words != [] && longest > 0 {
        BeginsLess(g, gone.path, words, 1, longest, seen);
      }
      hide Begins;
    } else {
      hide IsLead;
      hide BestOf;
      var common := CommonPrefix(WordsOf(g, gone.text), WordsOf(g, added[0].text));
      BestOneMore(g, gone, seen, added[0], best, longest);
      assert seen + [added[0]] + added[1..] == seen + added;
      if added[0].path == gone.path && |common| > longest {
        BestLeadIs(g, gone, seen + [added[0]], added[1..], common, |common|);
      } else {
        BestLeadIs(g, gone, seen + [added[0]], added[1..], best, longest);
      }
    }
  }

  lemma LeadIs(g: Grammar, gone: Line, added: seq<Line>, lead: seq<string>)
    ensures IsLead(g, gone, added, lead) <==> LeadOf(g, gone, added) == Churn(gone.path, lead)
  {
    BestLeadIs(g, gone, [], added, WordsOf(g, gone.text), 0);
    assert [] + added == added;
    var best := LeadOf(g, gone, added).lead;
    if IsLead(g, gone, added, lead) {
      hide IsLead;
      if |best| <= |lead| {
        OneLead(g, gone, added, best, lead);
      } else {
        OneLead(g, gone, added, lead, best);
      }
    }
  }

  function Whole(g: Grammar, line: Line): Churn {
    Churn(line.path, WordsOf(g, line.text))
  }

  /** New line k begins with no earlier one of its section. */
  predicate IsFirst(g: Grammar, added: seq<Line>, k: nat)
    requires k < |added|
  {
    forall m | 0 <= m < k :: !(added[m].path == added[k].path && WordsOf(g, added[m].text) <= WordsOf(g, added[k].text))
  }

  ghost predicate IsWhole(g: Grammar, added: seq<Line>, found: set<Churn>, churn: Churn) {
    exists k | 0 <= k < |added| :: churn == Whole(g, added[k]) && !IsNoise(g, added[k], found) && IsFirst(g, added, k)
  }

  lemma NoiseOneMore(g: Grammar, line: Line, found: set<Churn>, other: Line)
    ensures IsNoise(g, line, found + {Whole(g, other)}) <==> IsNoise(g, line, found) || StartsWith(g, line, Whole(g, other))
  {
  }

  lemma WholeOneMore(g: Grammar, added: seq<Line>, found: set<Churn>, churn: Churn)
    requires added != []
    ensures IsNoise(g, added[0], found) ==> (IsWhole(g, added, found, churn) <==> IsWhole(g, added[1..], found, churn))
    ensures !IsNoise(g, added[0], found) ==>
              (IsWhole(g, added, found, churn)
               <==> churn == Whole(g, added[0]) || IsWhole(g, added[1..], found + {Whole(g, added[0])}, churn))
  {
    var rest, next := added[1..], found + {Whole(g, added[0])};
    forall k | 0 <= k < |rest|
      ensures rest[k] == added[k + 1]
      ensures IsFirst(g, added, k + 1) <==> IsFirst(g, rest, k) && !StartsWith(g, rest[k], Whole(g, added[0]))
      ensures IsNoise(g, added[0], found) && StartsWith(g, rest[k], Whole(g, added[0])) ==> IsNoise(g, rest[k], found)
      ensures IsNoise(g, rest[k], next) <==> IsNoise(g, rest[k], found) || StartsWith(g, rest[k], Whole(g, added[0]))
    {
      FirstOneMore(g, added, k);
      NoiseOneMore(g, rest[k], found, added[0]);
      if IsNoise(g, added[0], found) && StartsWith(g, rest[k], Whole(g, added[0])) {
        NoiseBeyond(g, added[0], rest[k], found);
      }
    }
    hide IsNoise;
    hide StartsWith;
    assert IsFirst(g, added, 0);
    hide IsFirst;
    if IsWhole(g, added, found, churn) {
      var k :| 0 <= k < |added| && churn == Whole(g, added[k]) && !IsNoise(g, added[k], found) && IsFirst(g, added, k);
      assert k > 0 ==> rest[k - 1] == added[k];
    }
    if IsWhole(g, rest, found, churn) && IsNoise(g, added[0], found) {
      var k :| 0 <= k < |rest| && churn == Whole(g, rest[k]) && !IsNoise(g, rest[k], found) && IsFirst(g, rest, k);
      assert added[k + 1] == rest[k];
    }
    if IsWhole(g, rest, next, churn) {
      var k :| 0 <= k < |rest| && churn == Whole(g, rest[k]) && !IsNoise(g, rest[k], next) && IsFirst(g, rest, k);
      assert added[k + 1] == rest[k];
    }
  }

  lemma FirstOneMore(g: Grammar, added: seq<Line>, k: nat)
    requires k + 1 < |added|
    ensures IsFirst(g, added, k + 1) <==> IsFirst(g, added[1..], k) && !StartsWith(g, added[k + 1], Whole(g, added[0]))
  {
    var rest := added[1..];
    assert forall m | 0 <= m < |rest| :: rest[m] == added[m + 1];
    if IsFirst(g, rest, k) && !StartsWith(g, added[k + 1], Whole(g, added[0])) {
      forall m | 0 <= m < k + 1
        ensures !(added[m].path == added[k + 1].path && WordsOf(g, added[m].text) <= WordsOf(g, added[k + 1].text))
      {
        assert m > 0 ==> rest[m - 1] == added[m];
      }
    }
  }

  lemma NoiseBeyond(g: Grammar, line: Line, longer: Line, found: set<Churn>)
    requires IsNoise(g, line, found) && StartsWith(g, longer, Whole(g, line))
    ensures IsNoise(g, longer, found)
  {
    var churn :| churn in found && StartsWith(g, line, churn);
    assert StartsWith(g, longer, churn);
  }

  lemma {:induction false} WithWholeIs(g: Grammar, added: seq<Line>, found: set<Churn>, churn: Churn)
    ensures churn in WithWhole(g, added, found) <==> churn in found || IsWhole(g, added, found, churn)
    decreases |added|
  {
    hide IsNoise;
    if added != [] {
      hide IsWhole;
      WholeOneMore(g, added, found, churn);
      if IsNoise(g, added[0], found) {
        WithWholeIs(g, added[1..], found, churn);
      } else {
        WithWholeIs(g, added[1..], found + {Whole(g, added[0])}, churn);
      }
    }
  }

  /** What is learned is, exactly: for each line that went, its lead; and each new line that begins with no such lead of its
      section, and with no earlier new line of its section, as a whole. */
  lemma NoiseIs(g: Grammar, after: seq<Line>, again: seq<Line>, churn: Churn)
    ensures var d := Difference(after, again);
            churn in Noise(g, after, again) <==>
              || (exists gone | gone in d.removed :: churn.path == gone.path && IsLead(g, gone, d.added, churn.lead))
              || (exists k | 0 <= k < |d.added| :: churn == Whole(g, d.added[k]) && IsFirst(g, d.added, k) && NoLead(g, d, d.added[k]))
  {
    var d := Difference(after, again);
    var leads := Leads(g, d.removed, d.added);
    WithWholeIs(g, d.added, leads, churn);
    forall gone, lead ensures IsLead(g, gone, d.added, lead) <==> LeadOf(g, gone, d.added) == Churn(gone.path, lead) {
      LeadIs(g, gone, d.added, lead);
    }
    hide IsLead;
    hide LeadOf;
    hide IsFirst;
    forall line ensures NoLead(g, d, line) <==> !IsNoise(g, line, leads) {
      NoLeadIs(g, d, line);
    }
    hide NoLead;
    hide IsNoise;
    assert churn in leads <==> exists gone | gone in d.removed :: churn.path == gone.path && IsLead(g, gone, d.added, churn.lead) by {
      if gone :| gone in d.removed && churn.path == gone.path && IsLead(g, gone, d.added, churn.lead) {
        assert LeadOf(g, gone, d.added) == churn;
      }
      if churn in leads {
        var gone :| gone in d.removed && LeadOf(g, gone, d.added) == churn;
        LeadOfPath(g, gone, d.added);
        assert IsLead(g, gone, d.added, churn.lead);
      }
    }
  }

  lemma LeadOfPath(g: Grammar, gone: Line, added: seq<Line>)
    ensures LeadOf(g, gone, added).path == gone.path
  {
  }

  /** No line that went has a lead this line begins with. */
  ghost predicate NoLead(g: Grammar, d: Diff, line: Line) {
    forall gone, lead: seq<string> | gone in d.removed && gone.path == line.path && IsLead(g, gone, d.added, lead) ::
      !(lead <= WordsOf(g, line.text))
  }

  lemma NoLeadIs(g: Grammar, d: Diff, line: Line)
    ensures NoLead(g, d, line) <==> !IsNoise(g, line, Leads(g, d.removed, d.added))
  {
    var leads := Leads(g, d.removed, d.added);
    if IsNoise(g, line, leads) {
      var churn :| churn in leads && StartsWith(g, line, churn);
      var gone :| gone in d.removed && LeadOf(g, gone, d.added) == churn;
      LeadIs(g, gone, d.added, churn.lead);
    }
    if !NoLead(g, d, line) {
      var gone, lead :| gone in d.removed && gone.path == line.path && IsLead(g, gone, d.added, lead) && lead <= WordsOf(g, line.text);
      LeadIs(g, gone, d.added, lead);
      assert LeadOf(g, gone, d.added) in leads && StartsWith(g, line, LeadOf(g, gone, d.added));
    }
  }

  /** A line of a section nothing changed in between the two is no noise. */
  lemma QuietSectionIsNoNoise(g: Grammar, after: seq<Line>, again: seq<Line>, line: Line)
    requires var d := Difference(after, again); forall changed | changed in d.added + d.removed :: changed.path != line.path
    ensures !IsNoise(g, line, Noise(g, after, again))
  {
    var d, noise := Difference(after, again), Noise(g, after, again);
    assert forall k | 0 <= k < |d.added| :: d.added[k] in d.added + d.removed;
    hide IsLead;
    hide NoLead;
    forall churn | churn in noise ensures churn.path != line.path {
      NoiseIs(g, after, again, churn);
    }
  }
}
