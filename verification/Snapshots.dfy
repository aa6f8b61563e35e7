/**
 The multiset difference of two snapshots, and which changes a third one shows to be noise.
 */
module Snapshots {
  import opened Config

  /** `kept`: the lines that are in both. */
  datatype Diff = Diff(added: seq<Line>, removed: seq<Line>, kept: seq<Line>)

  /** How often each line is in a snapshot, within its section. */
  function Keys(lines: seq<Line>): multiset<Key> {
    multiset(seq(|lines|, i requires 0 <= i < |lines| => lines[i].AsKey()))
  }

  /** The lines a stock of keys doesn't cover, first come first served... */
  function Surplus(lines: seq<Line>, stock: multiset<Key>): seq<Line> {
    if lines == [] then []
    else if lines[0].AsKey() in stock then Surplus(lines[1..], stock - multiset{lines[0].AsKey()})
    else [lines[0]] + Surplus(lines[1..], stock)
  }

  /** ... and the ones it covers. */
  function Covered(lines: seq<Line>, stock: multiset<Key>): seq<Line> {
    if lines == [] then []
    else if lines[0].AsKey() in stock then [lines[0]] + Covered(lines[1..], stock - multiset{lines[0].AsKey()})
    else Covered(lines[1..], stock)
  }

  function Difference(before: seq<Line>, after: seq<Line>): Diff {
    var kept := Covered(after, Keys(before));
    Diff(Surplus(after, Keys(before)), Surplus(before, Keys(kept)), kept)
  }

  lemma KeysOfCons(line: Line, rest: seq<Line>)
    ensures Keys([line] + rest) == multiset{line.AsKey()} + Keys(rest)
  {
    var all := [line] + rest;
    var ks := seq(|all|, i requires 0 <= i < |all| => all[i].AsKey());
    assert ks == [line.AsKey()] + seq(|rest|, i requires 0 <= i < |rest| => rest[i].AsKey());
  }

  lemma KeysOfSplit(lines: seq<Line>)
    requires lines != []
    ensures Keys(lines) == multiset{lines[0].AsKey()} + Keys(lines[1..])
  {
    assert lines == [lines[0]] + lines[1..];
    KeysOfCons(lines[0], lines[1..]);
  }

  /** What the split means, key by key. */
  lemma {:induction false} KeysOfSurplus(lines: seq<Line>, stock: multiset<Key>)
    ensures Keys(Surplus(lines, stock)) == Keys(lines) - stock
    ensures Keys(Covered(lines, stock)) == Keys(lines) * stock
  {
    if lines != [] {
      KeysOfSplit(lines);
      var key := lines[0].AsKey();
      if key in stock {
        KeysOfSurplus(lines[1..], stock - multiset{key});
        KeysOfCons(lines[0], Covered(lines[1..], stock - multiset{key}));
      } else {
        KeysOfSurplus(lines[1..], stock);
        KeysOfCons(lines[0], Surplus(lines[1..], stock));
      }
    }
  }

  /** The diff is exact: with what is unchanged, the added lines make up the second snapshot and the removed
      ones the first, and no line is both added and removed. */
  lemma DifferenceIsExact(before: seq<Line>, after: seq<Line>)
    ensures var d := Difference(before, after);
            && Keys(d.added) + Keys(d.kept) == Keys(after)
            && Keys(d.removed) + Keys(d.kept) == Keys(before)
            && Keys(d.added) == Keys(after) - Keys(before)
            && Keys(d.removed) == Keys(before) - Keys(after)
            && Keys(d.added) !! Keys(d.removed)
  {
    hide Keys;
    KeysOfSurplus(after, Keys(before));
    KeysOfSurplus(before, Keys(Covered(after, Keys(before))));
    MeetAndRest(Keys(after), Keys(before));
  }

  lemma MeetAndRest<T>(a: multiset<T>, b: multiset<T>)
    ensures (a - b) + (a * b) == a
    ensures (b - a * b) + (a * b) == b
    ensures b - a * b == b - a
    ensures (a - b) !! (b - a)
  {
  }

  lemma {:induction false} SplitIsWithin(lines: seq<Line>, stock: multiset<Key>)
    ensures forall line | line in Surplus(lines, stock) || line in Covered(lines, stock) :: line in lines
    ensures forall line | line in lines :: line in Surplus(lines, stock) || line in Covered(lines, stock)
  {
    if lines != [] {
      SplitIsWithin(lines[1..], stock);
      SplitIsWithin(lines[1..], stock - multiset{lines[0].AsKey()});
    }
  }

  /** The diff's lines are lines of the snapshot they came from, as it printed them. */
  lemma DifferenceIsWithin(before: seq<Line>, after: seq<Line>)
    ensures var d := Difference(before, after);
            && (forall line | line in d.added :: line in after)
            && (forall line | line in d.kept :: line in after)
            && (forall line | line in d.removed :: line in before)
  {
    SplitIsWithin(after, Keys(before));
    SplitIsWithin(before, Keys(Covered(after, Keys(before))));
  }

  /** Of a line printed more than once in its section, it is the first ones the other snapshot's cover, and the order stays. */
  lemma {:induction false} LastOnesAreSurplus(lines: seq<Line>, last: Line, stock: multiset<Key>)
    ensures var covered := Keys(lines)[last.AsKey()] < stock[last.AsKey()];
            && Surplus(lines + [last], stock) == Surplus(lines, stock) + (if covered then [] else [last])
            && Covered(lines + [last], stock) == Covered(lines, stock) + (if covered then [last] else [])
  {
    if lines == [] {
      assert [] + [last] == [last] && [last][1..] == [];
    } else {
      assert (lines + [last])[1..] == lines[1..] + [last];
      KeysOfSplit(lines);
      var key := lines[0].AsKey();
      if key in stock {
        LastOnesAreSurplus(lines[1..], last, stock - multiset{key});
      } else {
        LastOnesAreSurplus(lines[1..], last, stock);
      }
    }
  }

  lemma KeyOfLine(lines: seq<Line>, line: Line)
    requires line in lines
    ensures line.AsKey() in Keys(lines)
  {
    var i :| 0 <= i < |lines| && lines[i] == line;
    var ks := seq(|lines|, j requires 0 <= j < |lines| => lines[j].AsKey());
    assert ks[i] == line.AsKey();
  }

  lemma LineOfKey(lines: seq<Line>, key: Key) returns (line: Line)
    requires key in Keys(lines)
    ensures line in lines && line.AsKey() == key
  {
    var ks := seq(|lines|, j requires 0 <= j < |lines| => lines[j].AsKey());
    var i :| 0 <= i < |lines| && ks[i] == key;
    line := lines[i];
  }

  /** Splits a snapshot by a stock of keys with one counter, as the program counts lines. */
  method Split(lines: seq<Line>, stock: multiset<Key>) returns (surplus: seq<Line>, covered: seq<Line>)
    ensures surplus == Surplus(lines, stock) && covered == Covered(lines, stock)
  {
    var remaining := stock;
    surplus, covered := [], [];
    assert lines[0..] == lines;
    for i := 0 to |lines|
      invariant surplus + Surplus(lines[i..], remaining) == Surplus(lines, stock)
      invariant covered + Covered(lines[i..], remaining) == Covered(lines, stock)
    {
      SplitInTurn(lines, i, remaining, surplus, covered);
      var key := lines[i].AsKey();
      if remaining[key] > 0 {
        remaining := remaining - multiset{key};
        covered := covered + [lines[i]];
      } else {
        surplus := surplus + [lines[i]];
      }
    }
  }

  lemma SplitInTurn(lines: seq<Line>, i: nat, stock: multiset<Key>, surplus: seq<Line>, covered: seq<Line>)
    requires i < |lines|
    ensures var key := lines[i].AsKey();
            if key in stock then
              && surplus + Surplus(lines[i..], stock) == surplus + Surplus(lines[i + 1..], stock - multiset{key})
              && covered + Covered(lines[i..], stock) == covered + [lines[i]] + Covered(lines[i + 1..], stock - multiset{key})
            else
              && surplus + Surplus(lines[i..], stock) == surplus + [lines[i]] + Surplus(lines[i + 1..], stock)
              && covered + Covered(lines[i..], stock) == covered + Covered(lines[i + 1..], stock)
  {
    var line, rest := lines[i], lines[i + 1..];
    assert lines[i..] == [line] + rest;
    SplitHead(line, rest, stock);
    hide Surplus;
    hide Covered;
    Joined(covered, line, Covered(rest, stock - multiset{line.AsKey()}));
    Joined(surplus, line, Surplus(rest, stock));
  }

  lemma SplitHead(line: Line, rest: seq<Line>, stock: multiset<Key>)
    ensures var key := line.AsKey();
            if key in stock then
              && Surplus([line] + rest, stock) == Surplus(rest, stock - multiset{key})
              && Covered([line] + rest, stock) == [line] + Covered(rest, stock - multiset{key})
            else Surplus([line] + rest, stock) == [line] + Surplus(rest, stock) && Covered([line] + rest, stock) == Covered(rest, stock)
  {
    assert ([line] + rest)[1..] == rest;
  }

  lemma Joined(before: seq<Line>, line: Line, rest: seq<Line>)
    ensures before + ([line] + rest) == before + [line] + rest
  {
  }

  method Compare(before: seq<Line>, after: seq<Line>) returns (diff: Diff)
    ensures diff == Difference(before, after)
  {
    var added, kept := Split(after, Keys(before));
    var removed, _ := Split(before, Keys(kept));
    diff := Diff(added, removed, kept);
  }

  // ---------- The device's own churn ----------

  /** A section and the leading words of a line the device changes by itself. */
  datatype Churn = Churn(path: Path, lead: seq<string>)

  function CommonPrefix(a: seq<string>, b: seq<string>): (common: seq<string>)
    ensures common <= a && common <= b
  {
    if a == [] || b == [] || a[0] != b[0] then [] else [a[0]] + CommonPrefix(a[1..], b[1..])
  }

  /** The longest start a gone line shares with a new one of its section: the first longest, found left to right
      from `best`, which shares `longest` words. */
  function BestLead(g: Grammar, gone: Line, added: seq<Line>, best: seq<string>, longest: nat): (lead: seq<string>)
    requires best <= WordsOf(g, gone.text)
    ensures lead <= WordsOf(g, gone.text)
  {
    if added == [] then best
    else
      var common := CommonPrefix(WordsOf(g, gone.text), WordsOf(g, added[0].text));
      if added[0].path == gone.path && |common| > longest then BestLead(g, gone, added[1..], common, |common|)
      else BestLead(g, gone, added[1..], best, longest)
  }

  function LeadOf(g: Grammar, gone: Line, added: seq<Line>): Churn {
    Churn(gone.path, BestLead(g, gone, added, WordsOf(g, gone.text), 0))
  }

  predicate StartsWith(g: Grammar, line: Line, churn: Churn) {
    line.path == churn.path && churn.lead <= WordsOf(g, line.text)
  }

  predicate IsNoise(g: Grammar, line: Line, noise: set<Churn>) {
    exists churn | churn in noise :: StartsWith(g, line, churn)
  }

  /** The leads of the lines that went... */
  function Leads(g: Grammar, removed: seq<Line>, added: seq<Line>): set<Churn> {
    set gone | gone in removed :: LeadOf(g, gone, added)
  }

  /** ... and each new line none of them covers, whole. */
  function WithWhole(g: Grammar, added: seq<Line>, found: set<Churn>): set<Churn> {
    if added == [] then found
    else if IsNoise(g, added[0], found) then WithWhole(g, added[1..], found)
    else WithWhole(g, added[1..], found + {Churn(added[0].path, WordsOf(g, added[0].text))})
  }

  /** What the device changes by itself, from two snapshots with nothing pushed in between. */
  function Noise(g: Grammar, after: seq<Line>, again: seq<Line>): set<Churn> {
    var d := Difference(after, again);
    WithWhole(g, d.added, Leads(g, d.removed, d.added))
  }

  method LearnNoise(g: Grammar, after: seq<Line>, again: seq<Line>) returns (found: set<Churn>)
    ensures found == Noise(g, after, again)
    ensures forall line | line in Difference(after, again).added || line in Difference(after, again).removed ::
              IsNoise(g, line, found)
  {
    var diff := Compare(after, again);
    found := {};
    for i := 0 to |diff.removed|
      invariant found == Leads(g, diff.removed[..i], diff.added)
    {
      var gone := diff.removed[i];
      var best := WordsOf(g, gone.text);
      var longest: nat := 0;
      assert diff.added[0..] == diff.added;
      for j := 0 to |diff.added|
        invariant best <= WordsOf(g, gone.text)
        invariant Churn(gone.path, BestLead(g, gone, diff.added[j..], best, longest)) == LeadOf(g, gone, diff.added)
      {
        assert diff.added[j..][1..] == diff.added[j + 1..];
        var other := diff.added[j];
        if other.path == gone.path {
          var common := CommonPrefix(WordsOf(g, gone.text), WordsOf(g, other.text));
          if |common| > longest {
            best, longest := common, |common|;
          }
        }
      }
      assert diff.removed[..i + 1] == diff.removed[..i] + [gone];
      found := found + {Churn(gone.path, best)};
    }
    assert diff.removed[..|diff.removed|] == diff.removed;
    assert diff.added[0..] == diff.added;
    for i := 0 to |diff.added|
      invariant WithWhole(g, diff.added[i..], found) == Noise(g, after, again)
    {
      assert diff.added[i..][1..] == diff.added[i + 1..];
      if !IsNoise(g, diff.added[i], found) {
        found := found + {Churn(diff.added[i].path, WordsOf(g, diff.added[i].text))};
      }
    }
    NoiseCoversEveryChange(g, after, again);
  }

  lemma {:induction false} WholeIsNoise(g: Grammar, added: seq<Line>, found: set<Churn>)
    ensures found <= WithWhole(g, added, found)
    ensures forall line | line in added :: IsNoise(g, line, WithWhole(g, added, found))
  {
    if added != [] {
      var whole := Churn(added[0].path, WordsOf(g, added[0].text));
      WholeIsNoise(g, added[1..], found);
      WholeIsNoise(g, added[1..], found + {whole});
      assert StartsWith(g, added[0], whole);
      assert IsNoise(g, added[0], WithWhole(g, added, found));
    }
  }

  /** No change between the two snapshots escapes the noise learned from them. */
  lemma NoiseCoversEveryChange(g: Grammar, after: seq<Line>, again: seq<Line>)
    ensures var d := Difference(after, again);
            forall line | line in d.added || line in d.removed :: IsNoise(g, line, Noise(g, after, again))
  {
    var d := Difference(after, again);
    var leads := Leads(g, d.removed, d.added);
    WholeIsNoise(g, d.added, leads);
    forall line | line in d.removed ensures IsNoise(g, line, Noise(g, after, again)) {
      assert LeadOf(g, line, d.added) in leads;
      assert StartsWith(g, line, LeadOf(g, line, d.added));
    }
  }

  /** A line is noise by its section and words alone. */
  lemma NoiseByKey(g: Grammar, a: Line, b: Line, noise: set<Churn>)
    requires a.AsKey() == b.AsKey() && IsNoise(g, a, noise)
    ensures IsNoise(g, b, noise)
  {
    var churn :| churn in noise && StartsWith(g, a, churn);
    assert StartsWith(g, b, churn);
  }

  /** When the third snapshot is the first again, every change of the push is the device's own. */
  lemma RevertedIsAllNoise(g: Grammar, before: seq<Line>, after: seq<Line>)
    ensures var d := Difference(before, after);
            forall line | line in d.added || line in d.removed :: IsNoise(g, line, Noise(g, after, before))
  {
    var there, back := Difference(before, after), Difference(after, before);
    DifferenceIsExact(before, after);
    DifferenceIsExact(after, before);
    NoiseCoversEveryChange(g, after, before);
    forall line | line in there.added || line in there.removed ensures IsNoise(g, line, Noise(g, after, before)) {
      if line in there.added {
        KeyOfLine(there.added, line);
        var same := LineOfKey(back.removed, line.AsKey());
        NoiseByKey(g, same, line, Noise(g, after, before));
      } else {
        KeyOfLine(there.removed, line);
        var same := LineOfKey(back.added, line.AsKey());
        NoiseByKey(g, same, line, Noise(g, after, before));
      }
    }
  }
}
