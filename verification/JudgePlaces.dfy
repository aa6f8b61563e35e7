/**
 Where each command is judged, and what it rests on: the walk told from the snapshots alone.
 */
module JudgePlaces {
  import opened Config
  import opened Snapshots
  import opened Words
  import opened Verdicts
  import opened Options
  import opened JudgeFacts

  /** What the four tests ask of a line's words. */
  lemma TestsMean(c: Case, words: seq<string>, line: Line)
    ensures var device := WordsOf(c.g, line.text);
            && (Fits(c, Holding(words), line) <==> exists at :: Embeds(at, words, device, SameWord))
            && (Fits(c, Naming(words), line) <==> exists at :: Embeds(at, words, device, Names))
            && (Fits(c, Being(words), line) <==>
                  |device| == |words| && forall i | 0 <= i < |words| :: SameWord(words[i], device[i]))
            && (Fits(c, Negating(words), line) <==>
                  |device| == |words| + 1 && device[0] in c.negation && forall i | 0 <= i < |words| :: SameWord(words[i], device[i + 1]))
  {
    var device := WordsOf(c.g, line.text);
    ContainsIffEmbeds(words, device, SameWord);
    ContainsIffEmbeds(words, device, Names);
  }

  // ---------- The line a command rests on ----------

  /** Line k is the first of its section to pass the test, and in no deeper section around `here` does any line pass it. */
  ghost predicate IsDeepest(c: Case, lines: seq<Line>, test: Test, here: Path, k: nat) {
    && k < |lines| && lines[k].path <= here && Fits(c, test, lines[k])
    && (forall m | 0 <= m < k :: !(lines[m].path == lines[k].path && Fits(c, test, lines[m])))
    && NoneDeeper(c, lines, test, here, lines[k].path)
  }

  /** No line passes the test in a section around `here` that is deeper than `path`. */
  ghost predicate NoneDeeper(c: Case, lines: seq<Line>, test: Test, here: Path, path: Path) {
    forall line | line in lines && line.path <= here && |line.path| > |path| :: !Fits(c, test, line)
  }

  /** No line passes the test in `here` or a section around it. */
  ghost predicate NoneAround(c: Case, lines: seq<Line>, test: Test, here: Path) {
    forall line | line in lines && line.path <= here :: !Fits(c, test, line)
  }

  ghost predicate IsAdded(c: Case, words: seq<string>, here: Path, k: nat) {
    IsDeepest(c, c.added, Holding(words), here, k) && NoneDeeper(c, c.kept, Being(words), here, c.added[k].path)
  }

  /** An unchanged line counts only where no added line of the same section does. */
  ghost predicate IsUnchanged(c: Case, words: seq<string>, here: Path, k: nat) {
    && IsDeepest(c, c.kept, Being(words), here, k)
    && NoneDeeper(c, c.added, Holding(words), here, c.kept[k].path)
    && (forall line | line in c.added && line.path == c.kept[k].path :: !Fits(c, Holding(words), line))
  }

  ghost predicate IsNowhere(c: Case, words: seq<string>, here: Path) {
    NoneAround(c, c.added, Holding(words), here) && NoneAround(c, c.kept, Being(words), here)
  }

  /** Some line of a snapshot, or of the view with defaults, is in the section this line would open. */
  ghost predicate HasLines(c: Case, line: Line) {
    exists under | under in c.before + c.after + c.view :: under.path == line.path + [line.text]
  }

  /** Where the command after one that rests on this line is. */
  ghost function Past(c: Case, line: Line): Path {
    if HasLines(c, line) then line.path + [line.text] else line.path
  }

  /** An added header at `here`, claimed by none before, with an added line right under it that has the next command's words. */
  ghost predicate IsNamed(c: Case, taken: set<nat>, here: Path, following: seq<string>, k: nat) {
    && k < |c.added| && k !in taken && c.added[k].path == here && HasLines(c, c.added[k])
    && exists line | line in c.added :: line.path == here + [c.added[k].text] && Fits(c, Holding(following), line)
  }

  /** What a setting rests on and where the next command is. `following`: the next judged command's words; `taken`: the added
      lines claimed before. */
  ghost predicate SettingPlaced(c: Case, words: seq<string>, here: Path, following: Option<seq<string>>, taken: set<nat>, r: Ruling,
                                next: Path)
  {
    if r.ByAdded? && r.note.NamedByDevice? then
      && IsNowhere(c, words, here) && NoneAround(c, c.removed, Negating(words), here)
      && following.Some? && following.value != [] && IsNamed(c, taken, here, following.value, r.index)
      && (forall m | 0 <= m < r.index :: !IsNamed(c, taken, here, following.value, m))
      && r.note.header == c.added[r.index].raw && next == here + [c.added[r.index].text]
    else if r.ByAdded? then r.note == Plain && IsAdded(c, words, here, r.index) && next == Past(c, c.added[r.index])
    else if r.ByUnchanged? then exists k: nat :: IsUnchanged(c, words, here, k) && r.line == c.kept[k] && next == Past(c, r.line)
    else if r.ByRemoved? then
      && r.verdict == TookEffect && r.note == NegationRemoved && next == here
      && IsNowhere(c, words, here) && IsDeepest(c, c.removed, Negating(words), here, r.index)
    else
      && r.NoEvidence? && next == here
      && IsNowhere(c, words, here) && NoneAround(c, c.removed, Negating(words), here)
      && (following.None? || following.value == [] || forall m | 0 <= m < |c.added| :: !IsNamed(c, taken, here, following.value, m))
  }

  /** What a removal rests on; it never moves. */
  ghost predicate RemovalPlaced(c: Case, words: seq<string>, here: Path, r: Ruling, next: Path)
    requires words != []
  {
    && next == here
    && (if r.ByRemoved? then r.verdict == Removed && r.note == Plain && IsDeepest(c, c.removed, Naming(words[1..]), here, r.index)
        else
          && NoneAround(c, c.removed, Naming(words[1..]), here)
          && (if r.ByAdded? then r.note == Plain && IsAdded(c, words, here, r.index)
              else if r.ByUnchanged? then exists k: nat :: IsUnchanged(c, words, here, k) && r.line == c.kept[k]
              else
                && IsNowhere(c, words, here)
                && (r.NothingToRemove? <==> words[1..] != [] && NoneAround(c, c.before + c.after, Holding(words[1..]), here))))
  }

  // ---------- The searches ----------

  /** Each section around `here` and `here` itself, the deepest first. */
  lemma LevelsDescend(here: Path)
    ensures var levels := Levels(Some(here));
            |levels| == |here| + 1 && forall n | 0 <= n < |levels| :: levels[n] == Some(here[..|here| - n])
  {
  }

  lemma AroundIsLevel(here: Path, path: Path)
    requires path <= here
    ensures |here| - |path| < |Levels(Some(here))| && Levels(Some(here))[|here| - |path|] == Some(path)
  {
    assert here[..|path|] == path;
  }

  lemma NoneAtAbove(c: Case, lines: seq<Line>, test: Test, here: Path, m: nat)
    requires m <= |here| + 1
    requires forall n | 0 <= n < m :: !Answers(c, lines, test, Levels(Some(here))[n])
    ensures forall line | line in lines && line.path <= here && |line.path| > |here| - m :: !Fits(c, test, line)
  {
    hide Fits;
    hide Levels;
    LevelsDescend(here);
    forall line | line in lines && line.path <= here && |line.path| > |here| - m ensures !Fits(c, test, line) {
      AroundIsLevel(here, line.path);
      assert !Answers(c, lines, test, Levels(Some(here))[|here| - |line.path|]);
      assert At(line, Some(line.path));
    }
  }

  lemma FirstIsDeepest(c: Case, lines: seq<Line>, test: Test, here: Path, m: nat)
    requires m <= |here| && First(c, lines, test, Some(here[..|here| - m])) < |lines|
    requires forall n | 0 <= n < m :: !Answers(c, lines, test, Levels(Some(here))[n])
    ensures IsDeepest(c, lines, test, here, First(c, lines, test, Some(here[..|here| - m])))
  {
    hide Fits;
    FirstIs(c, lines, test, Some(here[..|here| - m]), 0);
    NoneAtAbove(c, lines, test, here, m);
  }

  lemma {:induction false} FindLineAt(c: Case, words: seq<string>, levels: seq<Option<Path>>) returns (m: nat)
    ensures m <= |levels| && forall n | 0 <= n < m :: !Present(c, words, levels[n])
    ensures var found := FindLine(c, words, levels);
            if found.Changed? then
              m < |levels| && found.level == levels[m] && found.index == First(c, c.added, Holding(words), levels[m])
            else if found.Unchanged? then
              && m < |levels| && found.level == levels[m] && found.index == First(c, c.kept, Being(words), levels[m])
              && !Answers(c, c.added, Holding(words), levels[m])
            else m == |levels|
  {
    hide Fits;
    hide Answers;
    m := 0;
    if levels != [] {
      FirstAnswers(c, c.added, Holding(words), levels[0]);
      FirstAnswers(c, c.kept, Being(words), levels[0]);
      if !Present(c, words, levels[0]) {
        var later := FindLineAt(c, words, levels[1..]);
        m := later + 1;
        forall n | 0 <= n < m ensures !Present(c, words, levels[n]) {
          assert n == 0 || levels[n] == levels[1..][n - 1];
        }
      }
    }
  }

  lemma {:induction false} FindGoneAt(c: Case, test: Test, levels: seq<Option<Path>>) returns (m: nat)
    ensures m <= |levels| && forall n | 0 <= n < m :: !Answers(c, c.removed, test, levels[n])
    ensures var found := FindGone(c, test, levels);
            if found.Some? then m < |levels| && found.value == First(c, c.removed, test, levels[m]) else m == |levels|
  {
    hide Fits;
    hide Answers;
    m := 0;
    if levels != [] {
      FirstAnswers(c, c.removed, test, levels[0]);
      if !Answers(c, c.removed, test, levels[0]) {
        var later := FindGoneAt(c, test, levels[1..]);
        m := later + 1;
        forall n | 0 <= n < m ensures !Answers(c, c.removed, test, levels[n]) {
          assert n == 0 || levels[n] == levels[1..][n - 1];
        }
      }
    }
  }

  /** The line found is the deepest; none is found only where there is none. */
  lemma FoundIsDeepest(c: Case, words: seq<string>, here: Path)
    ensures var found := FindLine(c, words, Levels(Some(here)));
            if found.Changed? then IsAdded(c, words, here, found.index) && found.level == Some(c.added[found.index].path)
            else if found.Unchanged? then IsUnchanged(c, words, here, found.index) && found.level == Some(c.kept[found.index].path)
            else IsNowhere(c, words, here)
  {
    hide Fits;
    hide FindLine;
    hide Levels;
    LevelsDescend(here);
    var levels := Levels(Some(here));
    var m := FindLineAt(c, words, levels);
    assert forall n | 0 <= n < m :: !Answers(c, c.added, Holding(words), levels[n]) && !Answers(c, c.kept, Being(words), levels[n]);
    NoneAtAbove(c, c.added, Holding(words), here, m);
    NoneAtAbove(c, c.kept, Being(words), here, m);
    match FindLine(c, words, levels) {
      case Changed(k, level) =>
        FirstIs(c, c.added, Holding(words), level, 0);
      case Unchanged(k, level) =>
        FirstIs(c, c.kept, Being(words), level, 0);
        assert forall line | line in c.added && line.path == c.kept[k].path :: At(line, level);
      case Nowhere =>
    }
  }

  lemma GoneIsDeepest(c: Case, test: Test, here: Path)
    ensures var found := FindGone(c, test, Levels(Some(here)));
            if found.Some? then IsDeepest(c, c.removed, test, here, found.value) else NoneAround(c, c.removed, test, here)
  {
    hide Fits;
    hide FindGone;
    hide Levels;
    LevelsDescend(here);
    var levels := Levels(Some(here));
    var m := FindGoneAt(c, test, levels);
    NoneAtAbove(c, c.removed, test, here, m);
    if m < |levels| {
      FirstIs(c, c.removed, test, levels[m], 0);
    }
  }

  lemma {:induction false} OpenedIsNamed(c: Case, taken: set<nat>, here: Path, following: seq<string>, from: nat)
    requires from <= |c.added|
    ensures var k := OpenedBlock(c, taken, Some(here), following, from);
            && (k < |c.added| ==> IsNamed(c, taken, here, following, k))
            && forall m | from <= m < k :: !IsNamed(c, taken, here, following, m)
    decreases |c.added| - from
  {
    hide Fits;
    if from < |c.added| {
      assert IsNamed(c, taken, here, following, from) <==> IsOpenedBlock(c, taken, Some(here), following, from);
      if !IsNamed(c, taken, here, following, from) {
        OpenedIsNamed(c, taken, here, following, from + 1);
      }
    }
  }

  lemma HeldIsAround(c: Case, words: seq<string>, here: Path)
    ensures HeldSomewhere(c, words, Levels(Some(here))) <==> !NoneAround(c, c.before + c.after, Holding(words), here)
  {
    hide Fits;
    LevelsAre(here);
    hide Levels;
    if line :| line in c.before + c.after && line.path <= here && Fits(c, Holding(words), line) {
      assert At(line, Some(line.path)) && Some(line.path) in Levels(Some(here));
    }
  }

  // ---------- The rulings ----------

  lemma EnteredIsPast(c: Case, line: Line)
    ensures Entered(c, line, Some(line.path)) == Some(Past(c, line))
  {
  }

  lemma SettingIsPlaced(c: Case, walk: Walk, words: seq<string>, following: Option<seq<string>>)
    requires walk.context.Some?
    ensures var r := RuleSetting(c, walk, words, following);
            Moved(walk, r).context.Some?
            && SettingPlaced(c, words, walk.context.value, following, walk.added, r, Moved(walk, r).context.value)
  {
    hide IsAdded;
    hide IsUnchanged;
    hide IsNowhere;
    hide IsDeepest;
    hide NoneAround;
    hide IsNamed;
    hide Entered;
    hide Past;
    hide FindLine;
    hide FindGone;
    hide OpenedBlock;
    var here := walk.context.value;
    FoundIsDeepest(c, words, here);
    GoneIsDeepest(c, Negating(words), here);
    match FindLine(c, words, Levels(Some(here))) {
      case Changed(k, level) => EnteredIsPast(c, c.added[k]);
      case Unchanged(k, level) => EnteredIsPast(c, c.kept[k]);
      case Nowhere =>
        if following.Some? {
          OpenedIsNamed(c, walk.added, here, following.value, 0);
          NamedPath(c, walk.added, here, following.value);
        }
    }
  }

  lemma NamedPath(c: Case, taken: set<nat>, here: Path, following: seq<string>)
    ensures forall k: nat :: IsNamed(c, taken, here, following, k) ==> c.added[k].Inside() == here + [c.added[k].text]
  {
    hide Fits;
  }

  lemma RemovalIsPlaced(c: Case, walk: Walk, words: seq<string>)
    requires walk.context.Some? && words != []
    ensures var r := RuleRemoval(c, walk, words);
            Moved(walk, r).context.Some? && RemovalPlaced(c, words, walk.context.value, r, Moved(walk, r).context.value)
  {
    hide IsAdded;
    hide IsUnchanged;
    hide IsNowhere;
    hide IsDeepest;
    hide NoneAround;
    hide FindLine;
    hide FindGone;
    hide HeldSomewhere;
    var here := walk.context.value;
    FoundIsDeepest(c, words, here);
    GoneIsDeepest(c, Naming(words[1..]), here);
    HeldIsAround(c, words[1..], here);
  }

  // ---------- The walk ----------

  /** The added lines claimed by the commands before i. */
  ghost predicate AreTaken(c: Case, commands: seq<Typed>, i: nat, taken: set<nat>)
    requires WellTyped(commands) && i <= |commands|
  {
    forall k :: k in taken <==> exists j :: 0 <= j < i && ClaimAt(c, commands, j) == OnAdded(k)
  }

  lemma {:induction false} ClaimsAreTaken(c: Case, commands: seq<Typed>, i: nat)
    requires WellTyped(commands) && i <= |commands|
    ensures AreTaken(c, commands, i, WalkTo(c, commands, i).added)
  {
    hide RulingAt;
    if i > 0 {
      ClaimsAreTaken(c, commands, i - 1);
      var before, after := WalkTo(c, commands, i - 1).added, WalkTo(c, commands, i).added;
      forall k ensures k in after <==> k in before || ClaimAt(c, commands, i - 1) == OnAdded(k) {
      }
      hide WalkTo;
      hide ClaimAt;
    }
  }

  /** The words of the first judged command from i on; None after the last. */
  ghost predicate IsFollowing(commands: seq<Typed>, i: nat, following: Option<seq<string>>) {
    if following.None? then forall j | i <= j < |commands| :: commands[j].exec || commands[j].navigation
    else
      exists j :: i <= j < |commands| && !commands[j].exec && !commands[j].navigation && following == Some(commands[j].words)
        && forall k | i <= k < j :: commands[k].exec || commands[k].navigation
  }

  lemma {:induction false} FollowingIs(commands: seq<Typed>, i: nat)
    ensures IsFollowing(commands, i, Following(commands, i))
    decreases |commands| - i
  {
    if i < |commands| && !Judged(commands[i]) {
      FollowingIs(commands, i + 1);
    }
  }

  /** Where a command that only moves leads: one section out, or all the way to the top. */
  ghost predicate MovesTo(c: Case, words: seq<string>, here: Path, next: Path) {
    if words == [] then next == here
    else if words[0] == "return" || words[0] == "root" || (words[0] == "end" && !c.blocks) then next == []
    else if here == [] then next == []
    else |next| == |here| - 1 && next <= here
  }

  /** Each command is judged in a known section, rests on what it is placed on there, and leads to the next one's. */
  ghost predicate IsPlaced(c: Case, commands: seq<Typed>, i: nat, following: Option<seq<string>>, taken: set<nat>)
    requires WellTyped(commands) && i < |commands|
  {
    var context, next := WalkTo(c, commands, i).context, WalkTo(c, commands, i + 1).context;
    && context.Some? && next.Some?
    && var words := commands[i].words;
       if commands[i].exec then next == context
       else if commands[i].navigation then MovesTo(c, words, context.value, next.value)
       else if words[0] in c.negation then RemovalPlaced(c, words, context.value, RulingAt(c, commands, i), next.value)
       else SettingPlaced(c, words, context.value, following, taken, RulingAt(c, commands, i), next.value)
  }

  /** From the top on, every command is placed - whatever the two snapshots, the view and the commands. */
  lemma {:induction false} CommandsArePlaced(c: Case, commands: seq<Typed>, i: nat)
    requires WellTyped(commands) && i < |commands|
    ensures WalkTo(c, commands, 0).context == Some([])
    ensures exists following, taken ::
              && IsFollowing(commands, i + 1, following) && AreTaken(c, commands, i, taken)
              && IsPlaced(c, commands, i, following, taken)
    decreases i
  {
    hide IsFollowing;
    hide AreTaken;
    var following, walk := Following(commands, i + 1), WalkTo(c, commands, i);
    FollowingIs(commands, i + 1);
    ClaimsAreTaken(c, commands, i);
    WalkIsKnown(c, commands, i);
    OneIsPlaced(c, commands, i);
    assert IsPlaced(c, commands, i, following, walk.added);
  }

  lemma OneIsPlaced(c: Case, commands: seq<Typed>, i: nat)
    requires WellTyped(commands) && i < |commands| && WalkTo(c, commands, i).context.Some?
    ensures IsPlaced(c, commands, i, Following(commands, i + 1), WalkTo(c, commands, i).added)
  {
    hide SettingPlaced;
    hide RemovalPlaced;
    hide RuleSetting;
    hide RuleRemoval;
    hide Moved;
    hide Following;
    var walk, words := WalkTo(c, commands, i), commands[i].words;
    if Judged(commands[i]) {
      if words[0] in c.negation {
        RemovalIsPlaced(c, walk, words);
      } else {
        assert RulingAt(c, commands, i) == RuleSetting(c, walk, words, Following(commands, i + 1));
        SettingIsPlaced(c, walk, words, Following(commands, i + 1));
      }
      assert WalkTo(c, commands, i + 1) == Moved(walk, RulingAt(c, commands, i));
    }
  }

  lemma {:induction false} WalkIsKnown(c: Case, commands: seq<Typed>, i: nat)
    requires WellTyped(commands) && i <= |commands|
    ensures WalkTo(c, commands, i).context.Some?
    decreases i
  {
    if i > 0 {
      hide SettingPlaced;
      hide RemovalPlaced;
      hide RulingAt;
      WalkIsKnown(c, commands, i - 1);
      OneIsPlaced(c, commands, i - 1);
    }
  }
}
