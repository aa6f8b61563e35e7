/**
 What a verdict says about the device: proven commands are in the difference of the two snapshots,
 unproven ones are not, and every section named is one the device printed.
 */
module JudgeFacts {
  import opened Config
  import opened Snapshots
  import opened Words
  import opened Verdicts
  import opened Options
  import opened JudgeLaws

  // ---------- The case of two snapshots ----------

  /** The changed lines are the snapshots' own, and really changed: counted within its section, an added line is in
      the second snapshot more often than in the first, a removed one less often. */
  ghost predicate Grounded(c: Case) {
    && Opened(c.after)
    && (forall line | line in c.added :: line in c.after && MoreIn(c.after, c.before, line))
    && (forall line | line in c.removed :: line in c.before && MoreIn(c.before, c.after, line))
    && (forall line | line in c.kept :: line in c.after && line.AsKey() in Keys(c.before))
  }

  ghost predicate MoreIn(a: seq<Line>, b: seq<Line>, line: Line) {
    Keys(a)[line.AsKey()] > Keys(b)[line.AsKey()]
  }

  lemma {:induction false} NoiseOnlyDrops(g: Grammar, lines: seq<Line>, noise: set<Churn>)
    ensures forall line :: line in WithoutNoise(g, lines, noise) <==> line in lines && !IsNoise(g, line, noise)
  {
    if lines != [] {
      NoiseOnlyDrops(g, lines[1..], noise);
      assert lines == [lines[0]] + lines[1..];
    }
  }

  lemma CaseIsGrounded(g: Grammar, before: seq<Line>, after: seq<Line>, noise: set<Churn>, blocks: bool,
                       view: seq<Line>, negation: set<string>)
    requires Opened(after)
    ensures Grounded(CaseOf(g, before, after, noise, blocks, view, negation))
  {
    var d := Difference(before, after);
    DifferenceIsExact(before, after);
    DifferenceIsWithin(before, after);
    NoiseOnlyDrops(g, d.added, noise);
    NoiseOnlyDrops(g, d.removed, noise);
    forall line | line in d.added ensures MoreIn(after, before, line) {
      KeyOfLine(d.added, line);
    }
    forall line | line in d.removed ensures MoreIn(before, after, line) {
      KeyOfLine(d.removed, line);
    }
    forall line | line in d.kept ensures line.AsKey() in Keys(before) {
      KeyOfLine(d.kept, line);
    }
  }

  // ---------- What the searches find ----------

  lemma {:induction false} FirstIs(c: Case, lines: seq<Line>, test: Test, level: Option<Path>, from: nat)
    requires from <= |lines|
    ensures var k := First(c, lines, test, level, from);
            && (k < |lines| ==> At(lines[k], level) && Fits(c, test, lines[k]))
            && forall m | from <= m < k :: !(At(lines[m], level) && Fits(c, test, lines[m]))
    decreases |lines| - from
  {
    hide Fits;
    if from < |lines| && !(At(lines[from], level) && Fits(c, test, lines[from])) {
      FirstIs(c, lines, test, level, from + 1);
    }
  }

  predicate Answers(c: Case, lines: seq<Line>, test: Test, level: Option<Path>) {
    exists line | line in lines :: At(line, level) && Fits(c, test, line)
  }

  predicate Present(c: Case, words: seq<string>, level: Option<Path>) {
    Answers(c, c.added, Holding(words), level) || Answers(c, c.kept, Being(words), level)
  }

  lemma FirstAnswers(c: Case, lines: seq<Line>, test: Test, level: Option<Path>)
    ensures First(c, lines, test, level) < |lines| <==> Answers(c, lines, test, level)
  {
    hide Fits;
    var k := First(c, lines, test, level);
    FirstIs(c, lines, test, level, 0);
    if k < |lines| {
      assert lines[k] in lines;
    }
  }

  /** The line found is at the first level that has one; none is found only where there is none. */
  lemma {:induction false} FindLineIs(c: Case, words: seq<string>, levels: seq<Option<Path>>)
    ensures match FindLine(c, words, levels)
            case Changed(k, level) =>
              && At(c.added[k], level) && Fits(c, Holding(words), c.added[k])
              && exists m :: 0 <= m < |levels| && levels[m] == level && forall n | 0 <= n < m :: !Present(c, words, levels[n])
            case Unchanged(k, level) =>
              && At(c.kept[k], level) && Fits(c, Being(words), c.kept[k])
              && exists m :: 0 <= m < |levels| && levels[m] == level && forall n | 0 <= n < m :: !Present(c, words, levels[n])
            case Nowhere => forall n | 0 <= n < |levels| :: !Present(c, words, levels[n])
  {
    hide Fits;
    hide Answers;
    if levels != [] {
      FirstIs(c, c.added, Holding(words), levels[0], 0);
      FirstIs(c, c.kept, Being(words), levels[0], 0);
      FirstAnswers(c, c.added, Holding(words), levels[0]);
      FirstAnswers(c, c.kept, Being(words), levels[0]);
      if !Present(c, words, levels[0]) {
        FindLineIs(c, words, levels[1..]);
        var found := FindLine(c, words, levels[1..]);
        if !found.Nowhere? {
          var m :| 0 <= m < |levels[1..]| && levels[1..][m] == found.level
                   && forall n | 0 <= n < m :: !Present(c, words, levels[1..][n]);
          assert levels[m + 1] == found.level;
          forall n | 0 <= n < m + 1 ensures !Present(c, words, levels[n]) {
            assert n == 0 || levels[n] == levels[1..][n - 1];
          }
        } else {
          forall n | 0 <= n < |levels| ensures !Present(c, words, levels[n]) {
            assert n == 0 || levels[n] == levels[1..][n - 1];
          }
        }
      }
    }
  }

  lemma {:induction false} FindGoneIs(c: Case, test: Test, levels: seq<Option<Path>>)
    ensures var found := FindGone(c, test, levels);
            if found.Some? then
              Fits(c, test, c.removed[found.value]) && exists level | level in levels :: At(c.removed[found.value], level)
            else forall level | level in levels :: !Answers(c, c.removed, test, level)
  {
    hide Fits;
    hide Answers;
    if levels != [] {
      FirstIs(c, c.removed, test, levels[0], 0);
      FirstAnswers(c, c.removed, test, levels[0]);
      FindGoneIs(c, test, levels[1..]);
      assert levels == [levels[0]] + levels[1..];
    }
  }

  lemma LevelsAre(here: Path)
    ensures forall level :: level in Levels(Some(here)) <==> level.Some? && level.value <= here
  {
    var levels := Levels(Some(here));
    forall level: Option<Path> | level.Some? && level.value <= here ensures level in levels {
      assert here[..|level.value|] == level.value;
      assert levels[|here| - |level.value|] == level;
    }
  }

  lemma {:induction false} OpenedBlockIs(c: Case, claimed: set<nat>, here: Option<Path>, following: seq<string>, from: nat)
    requires from <= |c.added|
    ensures var k := OpenedBlock(c, claimed, here, following, from);
            k < |c.added| ==> IsOpenedBlock(c, claimed, here, following, k)
    decreases |c.added| - from
  {
    hide IsOpenedBlock;
    if from < |c.added| && !IsOpenedBlock(c, claimed, here, following, from) {
      OpenedBlockIs(c, claimed, here, following, from + 1);
    }
  }

  // ---------- The judge's section is always real ----------

  /** The top, or a section some line of the second snapshot opens. */
  ghost predicate RealSection(c: Case, here: Option<Path>) {
    here.Some? && (here.value == [] || Opens(c.after, here.value))
  }

  lemma LineOpens(lines: seq<Line>, line: Line)
    requires line in lines
    ensures Opens(lines, line.Inside())
  {
    var j :| 0 <= j < |lines| && lines[j] == line;
  }

  lemma OpenedBy(lines: seq<Line>, path: Path) returns (line: Line)
    requires Opens(lines, path)
    ensures line in lines && line.Inside() == path
  {
    var j :| 0 <= j < |lines| && lines[j].Inside() == path;
    line := lines[j];
  }

  lemma PathIsReal(c: Case, line: Line)
    requires Opened(c.after) && line in c.after
    ensures RealSection(c, Some(line.path))
  {
    var k :| 0 <= k < |c.after| && c.after[k] == line;
    if line.path != [] {
      var j :| 0 <= j < k && c.after[..k][j].Inside() == line.path;
      LineOpens(c.after, c.after[j]);
    }
  }

  lemma EnteredIsReal(c: Case, line: Line, level: Option<Path>)
    requires Opened(c.after) && line in c.after && At(line, level)
    ensures RealSection(c, Entered(c, line, level))
  {
    PathIsReal(c, line);
    LineOpens(c.after, line);
  }

  lemma {:induction false} OuterIsReal(c: Case, here: Path, m: nat)
    requires Opened(c.after) && RealSection(c, Some(here)) && m <= |here|
    ensures RealSection(c, Some(here[..m]))
    decreases |here| - m
  {
    hide Opened;
    hide Opens;
    if m < |here| {
      OuterIsReal(c, here, m + 1);
      var line := OpenedBy(c.after, here[..m + 1]);
      PathIsReal(c, line);
      assert line.path == line.Inside()[..m] == here[..m];
    } else {
      assert here[..m] == here;
    }
  }

  lemma RulingIsReal(c: Case, commands: seq<Typed>, i: nat)
    requires WellTyped(commands) && i < |commands| && Judged(commands[i]) && Grounded(c)
    requires RealSection(c, WalkTo(c, commands, i).context)
    ensures RealSection(c, Moved(WalkTo(c, commands, i), RulingAt(c, commands, i)).context)
  {
    hide WalkTo;
    hide Fits;
    hide IsHeader;
    hide Entered;
    hide IsOpenedBlock;
    var walk, words := WalkTo(c, commands, i), commands[i].words;
    FindLineIs(c, words, Levels(walk.context));
    match FindLine(c, words, Levels(walk.context)) {
      case Changed(k, level) => EnteredIsReal(c, c.added[k], level);
      case Unchanged(k, level) => EnteredIsReal(c, c.kept[k], level);
      case Nowhere =>
        var ruling := RulingAt(c, commands, i);
        if ruling.ByAdded? {
          LineOpens(c.after, c.added[ruling.index]);
        }
    }
  }

  /** At every step the judge is at the top, or in a section the device's second snapshot has. */
  lemma {:induction false} SectionIsReal(c: Case, commands: seq<Typed>, n: nat)
    requires WellTyped(commands) && n <= |commands| && Grounded(c)
    ensures RealSection(c, WalkTo(c, commands, n).context)
  {
    hide RulingAt;
    if n > 0 {
      SectionIsReal(c, commands, n - 1);
      if Judged(commands[n - 1]) {
        RulingIsReal(c, commands, n - 1);
      } else {
        var here := WalkTo(c, commands, n - 1).context.value;
        if here != [] {
          OuterIsReal(c, here, |here| - 1);
        }
      }
    }
  }

  lemma {:induction false} HeaderTextIs(lines: seq<Line>, path: Path)
    ensures path in HeaderTexts(lines) <==> Opens(lines, path)
    ensures path in HeaderTexts(lines) ==>
              exists line | line in lines :: line.Inside() == path && line.raw == HeaderTexts(lines)[path]
  {
    if lines != [] {
      var rest, last := lines[..|lines| - 1], lines[|lines| - 1];
      HeaderTextIs(rest, path);
      assert lines == rest + [last];
      if last.Inside() == path {
        assert lines[|lines| - 1].Inside() == path;
        assert last in lines;
      } else {
        if Opens(rest, path) {
          OpensMore(rest, [last], path);
        }
        if Opens(lines, path) {
          var j :| 0 <= j < |lines| && lines[j].Inside() == path;
          assert rest[j].Inside() == path;
        }
        if path in HeaderTexts(rest) {
          var line :| line in rest && line.Inside() == path && line.raw == HeaderTexts(rest)[path];
          assert line in lines;
        }
      }
    }
  }

  /** `section` names, level by level, the headers of `here` as one of the snapshots printed them. */
  ghost predicate PrintedHeaders(c: Case, here: Path, section: Path) {
    |section| == |here| && forall k | 0 <= k < |here| :: IsPrinted(c, here[..k + 1], section[k])
  }

  ghost predicate IsPrinted(c: Case, path: Path, raw: string) {
    exists line | line in c.before + c.after :: line.Inside() == path && line.raw == raw
  }

  lemma SectionIsPrinted(c: Case, here: Path)
    requires Opened(c.after) && RealSection(c, Some(here))
    ensures var s := SectionOf(HeaderTexts(c.before + c.after), Some(here)); s.Some? && PrintedHeaders(c, here, s.value)
  {
    hide Opened;
    hide Opens;
    hide HeaderTexts;
    var texts := HeaderTexts(c.before + c.after);
    var section := SectionOf(texts, Some(here)).value;
    forall k | 0 <= k < |here| ensures IsPrinted(c, here[..k + 1], section[k]) {
      OuterIsReal(c, here, k + 1);
      var line := OpenedBy(c.after, here[..k + 1]);
      LineOpens(c.before + c.after, line);
      HeaderTextIs(c.before + c.after, here[..k + 1]);
    }
  }

  lemma FinalSection(c: Case, commands: seq<Typed>, replied: seq<bool>, l: Ledger, i: nat)
    requires i < |commands| && Kept(c, l, |commands|)
    requires !l.reviewed[i] ==> l.first[i].section == Some([])
    ensures var j := FinalOf(c, commands, replied, l, i);
            j.section == Some([]) || (l.reviewed[i] && j.section == l.first[i].section)
  {
    hide SectionChanges;
    hide ClaimedText;
  }

  lemma FirstSection(c: Case, commands: seq<Typed>, replied: seq<bool>, i: nat)
    requires WellTyped(commands) && i < |commands|
    ensures var j := FirstJudgment(c, commands, replied, i);
            if Judged(commands[i]) && Reviewed(RulingAt(c, commands, i), Said(replied, i))
            then j.section == SectionOf(HeaderTexts(c.before + c.after), WalkTo(c, commands, i).context)
            else j.section == Some([])
  {
    hide RuleSetting;
    hide RuleRemoval;
    hide SectionOf;
  }

  lemma WalkedSectionIsPrinted(c: Case, commands: seq<Typed>, i: nat)
    requires WellTyped(commands) && i < |commands| && Grounded(c)
    ensures var here := WalkTo(c, commands, i).context;
            var s := SectionOf(HeaderTexts(c.before + c.after), here);
            here.Some? && s.Some? && PrintedHeaders(c, here.value, s.value)
  {
    hide WalkTo;
    hide Opened;
    hide Opens;
    hide HeaderTexts;
    SectionIsReal(c, commands, i);
    SectionIsPrinted(c, WalkTo(c, commands, i).context.value);
  }

  ghost predicate PrintedSection(c: Case, here: Option<Path>, j: Judgment) {
    here.Some? && j.section.Some? && (j.section.value == [] || PrintedHeaders(c, here.value, j.section.value))
  }

  /** No judgment names a section of the judge's making: it is known, and made only of headers the device printed. */
  lemma SectionsArePrinted(c: Case, commands: seq<Typed>, replied: seq<bool>, i: nat)
    requires WellTyped(commands) && i < |commands| && Grounded(c)
    ensures PrintedSection(c, WalkTo(c, commands, i).context, OutcomeOf(c, commands, replied).commands[i])
  {
    hide Grounded;
    hide FirstJudgment;
    hide FinalOf;
    hide LedgerOf;
    hide RulingAt;
    hide WalkTo;
    hide SectionOf;
    hide HeaderTexts;
    hide PrintedHeaders;
    hide ChangesOf;
    var l := LedgerOf(c, commands, replied);
    LedgerIsKept(c, commands, replied);
    LedgerAt(c, commands, replied, i);
    FirstSection(c, commands, replied, i);
    FinalSection(c, commands, replied, l, i);
    WalkedSectionIsPrinted(c, commands, i);
  }

  // ---------- What is proven is in the difference, and what is not is nowhere ----------

  /** In the command's section, or in one around it. */
  predicate InReach(line: Line, here: Option<Path>) {
    here.None? || line.path <= here.value
  }

  /** What a ruling says about the changed lines and the unchanged ones. */
  ghost predicate RulingHolds(c: Case, command: Typed, here: Option<Path>, following: Option<seq<string>>, r: Ruling)
    requires command.words != [] && RulingWithin(c, r)
  {
    match r
    case ByAdded(k, _, note) =>
      && InReach(c.added[k], here)
      && (if note.NamedByDevice? then
            && following.Some? && At(c.added[k], here) && IsHeader(c, c.added[k])
            && exists line | line in c.added :: line.path == c.added[k].Inside() && Fits(c, Holding(following.value), line)
          else Fits(c, Holding(command.words), c.added[k]))
    case ByRemoved(k, verdict, _) =>
      && InReach(c.removed[k], here)
      && Fits(c, if verdict == Removed then Naming(command.words[1..]) else Negating(command.words), c.removed[k])
      && (verdict == Removed <==> command.words[0] in c.negation)
    case ByUnchanged(line, _) => line in c.kept && InReach(line, here) && Fits(c, Being(command.words), line)
    case NothingToRemove =>
      && command.words[0] in c.negation
      && forall line | line in c.before + c.after && InReach(line, here) :: !Fits(c, Holding(command.words[1..]), line)
    case NoEvidence =>
      && (forall line | line in c.added && InReach(line, here) :: !Fits(c, Holding(command.words), line))
      && (forall line | line in c.kept && InReach(line, here) :: !Fits(c, Being(command.words), line))
      && (forall line | line in c.removed && InReach(line, here) ::
            !Fits(c, if command.words[0] in c.negation then Naming(command.words[1..]) else Negating(command.words), line))
  }

  lemma NotAnswered(c: Case, lines: seq<Line>, test: Test, here: Path, line: Line)
    requires line in lines && InReach(line, Some(here))
    requires forall level | level in Levels(Some(here)) :: !Answers(c, lines, test, level)
    ensures !Fits(c, test, line)
  {
    hide Fits;
    LevelsAre(here);
    assert At(line, Some(line.path)) && Some(line.path) in Levels(Some(here));
  }

  lemma AbsentThroughout(c: Case, words: seq<string>, here: Path)
    requires forall n | 0 <= n < |Levels(Some(here))| :: !Present(c, words, Levels(Some(here))[n])
    ensures forall line | line in c.added && InReach(line, Some(here)) :: !Fits(c, Holding(words), line)
    ensures forall line | line in c.kept && InReach(line, Some(here)) :: !Fits(c, Being(words), line)
  {
    hide Fits;
    hide Answers;
    hide Levels;
    forall line | line in c.added && InReach(line, Some(here)) ensures !Fits(c, Holding(words), line) {
      NotAnswered(c, c.added, Holding(words), here, line);
    }
    forall line | line in c.kept && InReach(line, Some(here)) ensures !Fits(c, Being(words), line) {
      NotAnswered(c, c.kept, Being(words), here, line);
    }
  }

  lemma GoneNowhere(c: Case, test: Test, here: Path)
    requires FindGone(c, test, Levels(Some(here))).None?
    ensures forall line | line in c.removed && InReach(line, Some(here)) :: !Fits(c, test, line)
  {
    hide Fits;
    hide Answers;
    hide Levels;
    FindGoneIs(c, test, Levels(Some(here)));
    forall line | line in c.removed && InReach(line, Some(here)) ensures !Fits(c, test, line) {
      NotAnswered(c, c.removed, test, here, line);
    }
  }

  lemma SettingHolds(c: Case, walk: Walk, command: Typed, following: Option<seq<string>>)
    requires command.words != [] && command.words[0] !in c.negation && walk.context.Some?
    ensures RulingHolds(c, command, walk.context, following, RuleSetting(c, walk, command.words, following))
  {
    hide Fits;
    hide Entered;
    hide Levels;
    var here, words := walk.context.value, command.words;
    var levels := Levels(walk.context);
    LevelsAre(here);
    FindLineIs(c, words, levels);
    if FindLine(c, words, levels).Nowhere? {
      AbsentThroughout(c, words, here);
      FindGoneIs(c, Negating(words), levels);
      if FindGone(c, Negating(words), levels).None? {
        GoneNowhere(c, Negating(words), here);
        if following.Some? {
          OpenedBlockIs(c, walk.added, walk.context, following.value, 0);
        }
      }
    }
  }

  lemma RemovalHolds(c: Case, walk: Walk, command: Typed, following: Option<seq<string>>)
    requires command.words != [] && command.words[0] in c.negation && walk.context.Some?
    ensures RulingHolds(c, command, walk.context, following, RuleRemoval(c, walk, command.words))
  {
    hide Fits;
    hide Levels;
    var here, words := walk.context.value, command.words;
    var levels := Levels(walk.context);
    LevelsAre(here);
    FindGoneIs(c, Naming(words[1..]), levels);
    if FindGone(c, Naming(words[1..]), levels).None? {
      GoneNowhere(c, Naming(words[1..]), here);
      FindLineIs(c, words, levels);
      if FindLine(c, words, levels).Nowhere? {
        AbsentThroughout(c, words, here);
        forall line | !HeldSomewhere(c, words[1..], levels) && line in c.before + c.after && InReach(line, walk.context)
          ensures !Fits(c, Holding(words[1..]), line)
        {
          assert At(line, Some(line.path)) && Some(line.path) in levels;
        }
      }
    }
  }

  /** Every ruling is true of the snapshots - and "no evidence" means there is none in reach. */
  lemma RulingsHold(c: Case, commands: seq<Typed>, i: nat)
    requires WellTyped(commands) && i < |commands| && Judged(commands[i]) && Grounded(c)
    ensures RulingHolds(c, commands[i], WalkTo(c, commands, i).context, Following(commands, i + 1), RulingAt(c, commands, i))
  {
    hide RulingHolds;
    hide WalkTo;
    hide RuleSetting;
    hide RuleRemoval;
    var walk := WalkTo(c, commands, i);
    SectionIsReal(c, commands, i);
    if commands[i].words[0] in c.negation {
      RemovalHolds(c, walk, commands[i], Following(commands, i + 1));
    } else {
      SettingHolds(c, walk, commands[i], Following(commands, i + 1));
    }
  }

  /** What a final verdict says about the two snapshots. */
  ghost predicate IsFact(c: Case, command: Typed, here: Option<Path>, j: Judgment)
    requires command.words != []
  {
    match j.verdict
    case TookEffect =>
      || (exists line | line in c.after :: j.evidence == [Added(line)] && MoreIn(c.after, c.before, line) && InReach(line, here)
            && (Fits(c, Holding(command.words), line) || j.note == NamedByDevice(line.raw)))
      || (exists line | line in c.before :: j.evidence == [Gone(line)] && MoreIn(c.before, c.after, line) && InReach(line, here)
            && Fits(c, Negating(command.words), line))
    case Removed =>
      exists line | line in c.before :: j.evidence == [Gone(line)] && MoreIn(c.before, c.after, line) && InReach(line, here)
        && Fits(c, Naming(command.words[1..]), line)
    case InPlace =>
      || (exists line | line in c.after :: j.evidence == [InBoth(line)] && line.AsKey() in Keys(c.before) && InReach(line, here)
            && Fits(c, Being(command.words), line))
      || (exists line | line in c.view :: j.evidence == [InBoth(line)] && j.note == ShownWithDefaults && At(line, here)
            && Fits(c, Being(command.words), line))
      || (j.note == AlreadyAbsent
          && forall line | line in c.before + c.after && InReach(line, here) :: !Fits(c, Holding(command.words[1..]), line))
    case Review => true
    case Rejected => true
    case _ => false
  }

  lemma FirstIsFact(c: Case, command: Typed, here: Option<Path>, following: Option<seq<string>>, r: Ruling, said: bool, section: Option<Path>)
    requires Grounded(c) && command.words != [] && RulingWithin(c, r) && RulingHolds(c, command, here, following, r)
    requires r.ByAdded? && r.note.NamedByDevice? ==> r.note.header == c.added[r.index].raw
    ensures IsFact(c, command, here, Verdict0(c, command.sent, r, said, section))
  {
    hide Fits;
    hide MoreIn;
    hide InReach;
    hide Opened;
  }

  lemma FinalIsFact(c: Case, commands: seq<Typed>, replied: seq<bool>, l: Ledger, i: nat)
    requires i < |commands| && Kept(c, l, |commands|) && commands[i].words != []
    requires IsFact(c, commands[i], l.heres[i], l.first[i])
    ensures IsFact(c, commands[i], l.heres[i], FinalOf(c, commands, replied, l, i))
  {
    hide Fits;
    hide MoreIn;
    hide InReach;
    hide SectionChanges;
    hide Contested;
    hide ClaimedText;
    if ByDefault(c, commands, l, i) {
      FirstIs(c, c.view, Being(commands[i].words), l.heres[i], 0);
    }
  }

  lemma NamedNoteIsHeader(c: Case, commands: seq<Typed>, i: nat)
    requires WellTyped(commands) && i < |commands| && Judged(commands[i])
    ensures var r := RulingAt(c, commands, i); r.ByAdded? && r.note.NamedByDevice? ==> r.note.header == c.added[r.index].raw
  {
    hide FindLine;
    hide FindGone;
    hide OpenedBlock;
    hide Entered;
  }

  /** What the comparison proves is fact: "took effect" and "removed" rest on a line the snapshots really differ in,
      "already in place" on a line both have, one of the defaults, or a removal's words being nowhere in reach. */
  lemma VerdictsAreFacts(c: Case, commands: seq<Typed>, replied: seq<bool>, i: nat)
    requires WellTyped(commands) && i < |commands| && Judged(commands[i]) && Grounded(c)
    ensures IsFact(c, commands[i], WalkTo(c, commands, i).context, OutcomeOf(c, commands, replied).commands[i])
  {
    hide IsFact;
    hide FinalOf;
    hide LedgerOf;
    hide RulingAt;
    hide RulingHolds;
    hide WalkTo;
    hide Verdict0;
    hide Grounded;
    var l, here := LedgerOf(c, commands, replied), WalkTo(c, commands, i).context;
    LedgerIsKept(c, commands, replied);
    LedgerAt(c, commands, replied, i);
    RulingsHold(c, commands, i);
    NamedNoteIsHeader(c, commands, i);
    FirstIsFact(c, commands[i], here, Following(commands, i + 1), RulingAt(c, commands, i), Said(replied, i),
      SectionOf(HeaderTexts(c.before + c.after), here));
    FinalIsFact(c, commands, replied, l, i);
  }

  /** A setting left unproven without a conflict has no evidence in reach: no added line holds its words, no unchanged
      line is it, no removed line was its negation, and no line of the defaults view in its section is it. */
  lemma UnprovenHasNoEvidence(c: Case, commands: seq<Typed>, replied: seq<bool>, i: nat)
    requires WellTyped(commands) && i < |commands| && Judged(commands[i]) && Grounded(c)
    requires commands[i].words[0] !in c.negation
    ensures var j, here := OutcomeOf(c, commands, replied).commands[i], WalkTo(c, commands, i).context;
            IsUnproven(j) && ClaimAt(c, commands, i) == NoClaim ==>
              && (forall line | line in c.added && InReach(line, here) :: !Fits(c, Holding(commands[i].words), line))
              && (forall line | line in c.kept && InReach(line, here) :: !Fits(c, Being(commands[i].words), line))
              && (forall line | line in c.removed && InReach(line, here) :: !Fits(c, Negating(commands[i].words), line))
              && (forall line | line in c.view && At(line, here) :: !Fits(c, Being(commands[i].words), line))
  {
    hide Fits;
    hide FinalOf;
    hide LedgerOf;
    hide RulingAt;
    hide WalkTo;
    hide Grounded;
    var l, here := LedgerOf(c, commands, replied), WalkTo(c, commands, i).context;
    LedgerIsKept(c, commands, replied);
    LedgerAt(c, commands, replied, i);
    RulingsHold(c, commands, i);
    if IsUnproven(OutcomeOf(c, commands, replied).commands[i]) && ClaimAt(c, commands, i) == NoClaim {
      UnprovenWasReviewed(c, commands, replied, l, i);
      FirstAnswers(c, c.view, Being(commands[i].words), here);
      SectionIsReal(c, commands, i);
    }
  }

  lemma UnprovenWasReviewed(c: Case, commands: seq<Typed>, replied: seq<bool>, l: Ledger, i: nat)
    requires i < |commands| && Kept(c, l, |commands|) && l.claims[i] == NoClaim
    requires l.first[i].verdict != Rejected
    ensures IsUnproven(FinalOf(c, commands, replied, l, i)) ==> Open(c, commands, l, i)
  {
    hide SectionChanges;
    hide DefaultLine;
  }

  // ---------- A push the device undid ----------

  lemma {:induction false} AllNoise(g: Grammar, lines: seq<Line>, noise: set<Churn>)
    requires forall line | line in lines :: IsNoise(g, line, noise)
    ensures WithoutNoise(g, lines, noise) == []
  {
    if lines != [] {
      assert lines[0] in lines;
      AllNoise(g, lines[1..], noise);
    }
  }

  lemma {:induction false} DeviceExplains(changes: seq<Change>)
    requires forall change | change in changes :: change.device
    ensures Unexplained(changes) == []
  {
    if changes != [] {
      assert changes[0] in changes;
      DeviceExplains(changes[1..]);
    }
  }

  /** Judged against a third snapshot equal to the first, a push proves nothing: every change is the device's own churn. */
  lemma RevertedPushProvesNothing(g: Grammar, before: seq<Line>, after: seq<Line>, blocks: bool, view: seq<Line>,
                                  negation: set<string>, commands: seq<Typed>, replied: seq<bool>)
    requires WellTyped(commands)
    ensures var o := OutcomeOf(CaseOf(g, before, after, Noise(g, after, before), blocks, view, negation), commands, replied);
            && o.other == [] && o.added == {} && o.removed == {}
            && (forall j | j in o.commands :: !IsProof(j))
            && (forall change | change in o.changes :: change.device)
  {
    hide FinalOf;
    hide LedgerOf;
    var d, noise := Difference(before, after), Noise(g, after, before);
    var c := CaseOf(g, before, after, noise, blocks, view, negation);
    RevertedIsAllNoise(g, before, after);
    AllNoise(g, d.added, noise);
    AllNoise(g, d.removed, noise);
    var o, l := OutcomeOf(c, commands, replied), LedgerOf(c, commands, replied);
    LedgerIsKept(c, commands, replied);
    forall i | 0 <= i < |commands| ensures !IsProof(o.commands[i]) {
      LedgerAt(c, commands, replied, i);
      FirstProofIsClaim(c, commands, replied, i);
      ProofIsUncontestedClaim(c, commands, replied, l, i);
    }
    DeviceExplains(o.changes);
  }
}
