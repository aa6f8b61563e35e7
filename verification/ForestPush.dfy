/**
 A configuration typed whole into a device that had none: every command is judged at its own place, and took effect.
 */
module ForestPushes {
  import opened Config
  import opened Snapshots
  import opened Words
  import opened Verdicts
  import opened Options
  import opened Typing
  import opened TypingLaws
  import opened Pushes
  import opened JudgeFacts
  import opened JudgePlaces
  import opened JudgeMakers
  import opened JudgeFinals

  /** A command of the push: it types a line of the configuration, or leaves a section. */
  datatype Planned = Types(line: Line) | Leaves

  /** Each node before the ones under it; a section is left once all of them are typed. */
  function Plan(g: Grammar, forest: seq<Node>, path: Path): seq<Planned> {
    if forest == [] then [] else PlanNode(g, forest[0], path) + Plan(g, forest[1..], path)
  }

  function PlanNode(g: Grammar, node: Node, path: Path): seq<Planned> {
    var text := g.normalize(node.raw);
    [Types(Line(path, text, node.raw))] + Plan(g, node.under, path + [text]) + (if node.under == [] then [] else [Leaves])
  }

  function Commands(plan: seq<Planned>, leave: string): seq<string> {
    seq(|plan|, m requires 0 <= m < |plan| => if plan[m].Types? then plan[m].line.raw else leave)
  }

  /** The lines typed, in order. */
  function LinesIn(plan: seq<Planned>): seq<Line> {
    if plan == [] then [] else (if plan[0].Types? then [plan[0].line] else []) + LinesIn(plan[1..])
  }

  /** How many lines are typed before command m. */
  function Rank(plan: seq<Planned>, m: nat): nat
    requires m <= |plan|
  {
    |LinesIn(plan[..m])|
  }

  /** The next command types a line inside this one's. */
  predicate Heads(plan: seq<Planned>, m: nat)
    requires m < |plan| && plan[m].Types?
  {
    m + 1 < |plan| && plan[m + 1].Types? && plan[m + 1].line.path == plan[m].line.path + [plan[m].line.text]
  }

  // ---------- The lines of a plan ----------

  lemma LinesOneMore(first: Planned, rest: seq<Planned>)
    ensures LinesIn([first] + rest) == if first.Types? then [first.line] + LinesIn(rest) else LinesIn(rest)
  {
    assert ([first] + rest)[1..] == rest;
  }

  lemma {:induction false} LinesJoin(a: seq<Planned>, b: seq<Planned>)
    ensures LinesIn(a + b) == LinesIn(a) + LinesIn(b)
  {
    hide LinesIn;
    if a == [] {
      NoLines();
      assert a + b == b;
    } else {
      LinesJoin(a[1..], b);
      LinesOneMore(a[0], a[1..]);
      LinesOneMore(a[0], a[1..] + b);
      assert [a[0]] + a[1..] == a && [a[0]] + (a[1..] + b) == a + b;
    }
  }

  lemma NoLines()
    ensures LinesIn([]) == []
  {
  }

  lemma {:induction false} PlanIsPreOrder(g: Grammar, forest: seq<Node>, path: Path)
    ensures LinesIn(Plan(g, forest, path)) == PreOrder(g, forest, path)
    decreases forest, 1
  {
    if forest != [] {
      NodeIsPreOrder(g, forest[0], path);
      PlanIsPreOrder(g, forest[1..], path);
      LinesJoin(PlanNode(g, forest[0], path), Plan(g, forest[1..], path));
    }
  }

  lemma {:induction false} NodeIsPreOrder(g: Grammar, node: Node, path: Path)
    ensures LinesIn(PlanNode(g, node, path)) == PreOrderNode(g, node, path)
    decreases node, 0
  {
    var text := g.normalize(node.raw);
    var head, under, last := [Types(Line(path, text, node.raw))], Plan(g, node.under, path + [text]), if node.under == [] then [] else [Leaves];
    PlanIsPreOrder(g, node.under, path + [text]);
    LinesJoin(head, under);
    LinesJoin(head + under, last);
    assert head[1..] == [] && (last != [] ==> last[1..] == []);
  }

  lemma RankIs(plan: seq<Planned>, m: nat)
    requires m < |plan| && plan[m].Types?
    ensures Rank(plan, m) < |LinesIn(plan)| && LinesIn(plan)[Rank(plan, m)] == plan[m].line
    ensures Rank(plan, m + 1) == Rank(plan, m) + 1
  {
    LinesJoin(plan[..m], plan[m..]);
    LinesJoin(plan[..m], [plan[m]]);
    assert plan[..m] + plan[m..] == plan && plan[..m] + [plan[m]] == plan[..m + 1] && [plan[m]][1..] == [];
  }

  lemma RanksRise(plan: seq<Planned>, m: nat, n: nat)
    requires m < n <= |plan| && plan[m].Types?
    ensures Rank(plan, m) < Rank(plan, n)
  {
    RankIs(plan, m);
    LinesJoin(plan[..m + 1], plan[m + 1..n]);
    assert plan[..m + 1] + plan[m + 1..n] == plan[..n];
  }

  lemma {:induction false} RankedBy(plan: seq<Planned>, k: nat) returns (m: nat)
    requires k < |LinesIn(plan)|
    ensures m < |plan| && plan[m].Types? && Rank(plan, m) == k
    decreases |plan|
  {
    var last := |plan| - 1;
    LinesJoin(plan[..last], [plan[last]]);
    assert plan[..last] + [plan[last]] == plan && [plan[last]][1..] == [];
    if k < |LinesIn(plan[..last])| {
      m := RankedBy(plan[..last], k);
      assert plan[..last][..m] == plan[..m];
    } else {
      m := last;
    }
  }

  // ---------- Sections of a plan ----------

  ghost predicate IsParent(plan: seq<Planned>, q: nat, m: nat)
    requires m < |plan| && plan[m].Types?
  {
    q < m && plan[q].Types? && plan[m].line.path == plan[q].line.path + [plan[q].line.text] && Heads(plan, q)
  }

  ghost predicate HasParent(plan: seq<Planned>, m: nat)
    requires m < |plan| && plan[m].Types?
  {
    exists q: nat :: IsParent(plan, q, m)
  }

  /** Every line deeper than `base` has a line before it whose section it is in, and which the next command is inside. */
  ghost predicate Rooted(plan: seq<Planned>, base: Path) {
    forall m | 0 <= m < |plan| && plan[m].Types? :: plan[m].line.path == base || HasParent(plan, m)
  }

  lemma ParentFirst(a: seq<Planned>, b: seq<Planned>, m: nat)
    requires m < |a| && a[m].Types? && HasParent(a, m)
    ensures HasParent(a + b, m)
  {
    var q: nat :| IsParent(a, q, m);
    assert (a + b)[m] == a[m] && (a + b)[q] == a[q] && (a + b)[q + 1] == a[q + 1];
    assert IsParent(a + b, q, m);
  }

  lemma ParentSecond(a: seq<Planned>, b: seq<Planned>, m: nat)
    requires m < |b| && b[m].Types? && HasParent(b, m)
    ensures HasParent(a + b, |a| + m)
  {
    var q: nat :| IsParent(b, q, m);
    assert (a + b)[|a| + m] == b[m] && (a + b)[|a| + q] == b[q] && (a + b)[|a| + q + 1] == b[q + 1];
    assert IsParent(a + b, |a| + q, |a| + m);
  }

  lemma RootedJoin(a: seq<Planned>, b: seq<Planned>, base: Path)
    requires Rooted(a, base) && Rooted(b, base)
    ensures Rooted(a + b, base)
  {
    hide HasParent;
    forall m | 0 <= m < |a + b| && (a + b)[m].Types? && (a + b)[m].line.path != base ensures HasParent(a + b, m) {
      if m < |a| {
        ParentFirst(a, b, m);
      } else {
        ParentSecond(a, b, m - |a|);
      }
    }
  }

  lemma {:induction false} PlanIsRooted(g: Grammar, forest: seq<Node>, path: Path)
    ensures Rooted(Plan(g, forest, path), path)
    ensures forest != [] ==> Plan(g, forest, path) != [] && Plan(g, forest, path)[0].Types? && Plan(g, forest, path)[0].line.path == path
    decreases forest, 1
  {
    if forest != [] {
      NodeIsRooted(g, forest[0], path);
      PlanIsRooted(g, forest[1..], path);
      RootedJoin(PlanNode(g, forest[0], path), Plan(g, forest[1..], path), path);
    }
  }

  lemma {:induction false} NodeIsRooted(g: Grammar, node: Node, path: Path)
    ensures Rooted(PlanNode(g, node, path), path)
    decreases node, 0
  {
    var text := g.normalize(node.raw);
    var head, under := Types(Line(path, text, node.raw)), Plan(g, node.under, path + [text]);
    PlanIsRooted(g, node.under, path + [text]);
    HeadRoots(head, under);
    hide HasParent;
    var plan := [head] + under;
    assert plan + [] == plan;
    forall m | 0 <= m < |plan + [Leaves]| && (plan + [Leaves])[m].Types? && (plan + [Leaves])[m].line.path != path
      ensures HasParent(plan + [Leaves], m)
    {
      ParentFirst(plan, [Leaves], m);
    }
  }

  lemma HeadRoots(head: Planned, under: seq<Planned>)
    requires head.Types? && Rooted(under, head.line.path + [head.line.text])
    requires under != [] ==> under[0].Types? && under[0].line.path == head.line.path + [head.line.text]
    ensures Rooted([head] + under, head.line.path)
  {
    hide HasParent;
    var plan := [head] + under;
    forall m | 0 <= m < |plan| && plan[m].Types? && plan[m].line.path != head.line.path ensures HasParent(plan, m) {
      assert plan[m] == under[m - 1];
      if plan[m].line.path == head.line.path + [head.line.text] {
        HeadIsParent(head, under, m - 1);
      } else {
        ParentSecond([head], under, m - 1);
      }
    }
  }

  lemma HeadIsParent(head: Planned, under: seq<Planned>, m: nat)
    requires head.Types? && m < |under| && under[m].Types? && under[m].line.path == head.line.path + [head.line.text]
    requires under[0].Types? && under[0].line.path == head.line.path + [head.line.text]
    ensures HasParent([head] + under, m + 1)
  {
    var plan := [head] + under;
    assert plan[0] == head && plan[1] == under[0] && plan[m + 1] == under[m];
    assert IsParent(plan, 0, m + 1);
  }

  // ---------- What can be typed ----------

  /** It leaves one section on this platform. */
  predicate LeavesOne(p: Platform, leave: string) {
    var words := WordsOf(p.g, leave);
    && words != [] && words[0] !in p.execWords && Navigates(p.g, words[0])
    && words[0] != "return" && words[0] != "root" && (words[0] != "end" || p.blocks)
  }

  /** Printed as typed: normalising a line twice is normalising it once, and it is neither a move nor for the exec mode. */
  predicate IsSetting(p: Platform, line: Line) {
    var words := WordsOf(p.g, line.raw);
    words != [] && words == WordsOf(p.g, line.text) && words[0] !in p.execWords && !Navigates(p.g, words[0])
  }

  /** No line's words are all in another line of its section. */
  ghost predicate ToldApart(p: Platform, lines: seq<Line>) {
    forall j, k | 0 <= j < |lines| && 0 <= k < |lines| && lines[j].path == lines[k].path
                  && Contains(WordsOf(p.g, lines[j].raw), WordsOf(p.g, lines[k].text), SameWord) :: j == k
  }

  ghost predicate IsTypable(p: Platform, plan: seq<Planned>) {
    && (forall line | line in LinesIn(plan) :: IsSetting(p, line))
    && (forall m | 0 <= m < |plan| && plan[m].Types? && Heads(plan, m) ::
          WordsOf(p.g, plan[m].line.raw) != [] && WordsOf(p.g, plan[m].line.raw)[0] !in p.negation)
    && ToldApart(p, LinesIn(plan))
  }

  /** A first push: nothing before, these lines after. */
  ghost predicate IsFirst(p: Platform, c: Case, lines: seq<Line>) {
    && c.g == p.g && c.blocks == p.blocks && c.negation == p.negation
    && c.before == [] && c.after == lines && c.view == [] && c.added == lines && c.removed == [] && c.kept == [] && c.churned == []
  }

  /** Each command is typed by itself. */
  ghost predicate AreTyped(p: Platform, plan: seq<Planned>, leave: string, typed: seq<Typed>) {
    && |typed| == |plan| && WellTyped(typed)
    && forall m | 0 <= m < |plan| ::
         if plan[m].Types? then
           Judged(typed[m]) && typed[m].sent == plan[m].line.raw && typed[m].words == WordsOf(p.g, plan[m].line.raw)
         else typed[m].navigation && !typed[m].exec && typed[m].sent == leave && typed[m].words == WordsOf(p.g, leave)
  }

  ghost predicate IsPush(p: Platform, c: Case, plan: seq<Planned>, leave: string, typed: seq<Typed>) {
    && IsFirst(p, c, LinesIn(plan)) && AreTyped(p, plan, leave, typed)
    && IsTypable(p, plan) && LeavesOne(p, leave) && Rooted(plan, [])
  }

  lemma LineIsSetting(p: Platform, plan: seq<Planned>, m: nat)
    requires IsTypable(p, plan) && m < |plan| && plan[m].Types?
    ensures IsSetting(p, plan[m].line) && Rank(plan, m) < |LinesIn(plan)| && LinesIn(plan)[Rank(plan, m)] == plan[m].line
  {
    RankIs(plan, m);
    assert plan[m].line in LinesIn(plan);
  }

  lemma PlanIsTyped(p: Platform, plan: seq<Planned>, leave: string)
    requires !p.g.flat && IsTypable(p, plan) && LeavesOne(p, leave)
    ensures AreTyped(p, plan, leave, TypedCommands(p.g, p.execWords, Commands(plan, leave)))
  {
    hide TypedFrom;
    var commands := Commands(plan, leave);
    TypedIsWellTyped(p.g, p.execWords, commands, Some([]));
    forall m | 0 <= m < |plan|
      ensures var typed, words := TypedCommands(p.g, p.execWords, commands)[m], WordsOf(p.g, commands[m]);
              && typed.sent == commands[m] && typed.words == words && words != []
              && (typed.exec <==> words[0] in p.execWords) && (typed.navigation <==> !typed.exec && Navigates(p.g, words[0]))
    {
      EachByItself(p.g, p.execWords, commands, Some([]), m);
      if plan[m].Types? {
        LineIsSetting(p, plan, m);
      }
    }
    forall m | 0 <= m < |plan| && plan[m].Types? ensures IsSetting(p, plan[m].line) {
      LineIsSetting(p, plan, m);
    }
    hide IsTypable;
  }

  // ---------- Each command finds its own line ----------

  lemma OwnLineFits(p: Platform, c: Case, line: Line)
    requires IsSetting(p, line) && c.g == p.g
    ensures Fits(c, Holding(WordsOf(p.g, line.raw)), line)
  {
    var words := WordsOf(p.g, line.raw);
    MatchesThenContains(words, words, words);
  }

  lemma SameLineIsOne(p: Platform, plan: seq<Planned>, q: nat, m: nat)
    requires IsTypable(p, plan) && q < |plan| && m < |plan| && plan[q].Types? && plan[m].Types?
    requires plan[q].line.path == plan[m].line.path && plan[q].line.text == plan[m].line.text
    ensures q == m
  {
    LineIsSetting(p, plan, q);
    LineIsSetting(p, plan, m);
    var words := WordsOf(p.g, plan[q].line.raw);
    MatchesThenContains(words, words, words);
    assert Rank(plan, q) == Rank(plan, m);
    if q < m {
      RanksRise(plan, q, m);
    } else if m < q {
      RanksRise(plan, m, q);
    }
  }

  lemma HeaderHeads(p: Platform, c: Case, plan: seq<Planned>, m: nat)
    requires IsTypable(p, plan) && IsFirst(p, c, LinesIn(plan)) && Rooted(plan, []) && m < |plan| && plan[m].Types?
    ensures HasLines(c, plan[m].line) <==> Heads(plan, m)
  {
    var line := plan[m].line;
    if Heads(plan, m) {
      RankIs(plan, m + 1);
      assert plan[m + 1].line in c.before + c.after + c.view;
    } else if HasLines(c, line) {
      var under :| under in c.before + c.after + c.view && under.path == line.path + [line.text];
      assert under in LinesIn(plan);
      OnlyHeadersHaveLines(p, plan, m, under);
    }
  }

  lemma OnlyHeadersHaveLines(p: Platform, plan: seq<Planned>, m: nat, under: Line)
    requires IsTypable(p, plan) && Rooted(plan, []) && m < |plan| && plan[m].Types?
    requires under in LinesIn(plan) && under.path == plan[m].line.path + [plan[m].line.text]
    ensures Heads(plan, m)
  {
    hide IsTypable;
    var k :| 0 <= k < |LinesIn(plan)| && LinesIn(plan)[k] == under;
    var n := RankedBy(plan, k);
    RankIs(plan, n);
    hide LinesIn;
    hide Rank;
    assert HasParent(plan, n);
    var q: nat :| IsParent(plan, q, n);
    hide Heads;
    PathsEqual(plan[q].line, plan[m].line);
    SameLineIsOne(p, plan, q, m);
  }

  lemma PathsEqual(a: Line, b: Line)
    requires a.path + [a.text] == b.path + [b.text]
    ensures a.path == b.path && a.text == b.text
  {
    assert (a.path + [a.text])[..|a.path|] == a.path && (b.path + [b.text])[..|b.path|] == b.path;
  }

  /** Judged where its line is, a command rests on that line alone, and leads inside it just when the next one types a line there. */
  lemma RestsOnItsLine(p: Platform, c: Case, plan: seq<Planned>, leave: string, typed: seq<Typed>, m: nat)
    requires IsPush(p, c, plan, leave, typed) && m < |plan| && plan[m].Types?
    requires WalkTo(c, typed, m).context == Some(plan[m].line.path)
    ensures var r := RulingAt(c, typed, m); r.ByAdded? && r.index == Rank(plan, m) && r.note == Plain
    ensures WalkTo(c, typed, m + 1).context
         == Some(if Heads(plan, m) then plan[m].line.path + [plan[m].line.text] else plan[m].line.path)
  {
    hide WalkTo;
    hide RulingAt;
    hide Fits;
    hide Heads;
    hide IsFollowing;
    hide AreTaken;
    hide HasLines;
    hide Rooted;
    var line, words := plan[m].line, typed[m].words;
    LineIsSetting(p, plan, m);
    OwnLineFits(p, c, line);
    HeaderHeads(p, c, plan, m);
    CommandsArePlaced(c, typed, m);
    var following, taken :| IsFollowing(typed, m + 1, following) && AreTaken(c, typed, m, taken)
                            && IsPlaced(c, typed, m, following, taken);
    assert line in c.added && line.path <= line.path;
    PlacedOnAdded(c, words, line.path, following, taken, RulingAt(c, typed, m), WalkTo(c, typed, m + 1).context.value, line);
    DeepestIsOwn(p, c, plan, m, RulingAt(c, typed, m).index);
    hide ToldApart;
    hide IsSetting;
    hide LinesIn;
  }

  /** Where an added line has its words, and nothing was removed or unchanged, a command rests on an added line. */
  lemma PlacedOnAdded(c: Case, words: seq<string>, here: Path, following: Option<seq<string>>, taken: set<nat>, r: Ruling, next: Path,
                      line: Line)
    requires c.removed == [] && c.kept == [] && words != []
    requires line in c.added && line.path <= here && Fits(c, Holding(words), line)
    requires if words[0] in c.negation then RemovalPlaced(c, words, here, r, next)
             else SettingPlaced(c, words, here, following, taken, r, next)
    ensures r.ByAdded? && r.note == Plain && IsAdded(c, words, here, r.index)
    ensures next == if words[0] in c.negation then here else Past(c, c.added[r.index])
  {
    hide Fits;
    hide Past;
    hide IsNamed;
  }

  lemma DeepestIsOwn(p: Platform, c: Case, plan: seq<Planned>, m: nat, k: nat)
    requires IsTypable(p, plan) && IsFirst(p, c, LinesIn(plan)) && m < |plan| && plan[m].Types?
    requires IsAdded(c, WordsOf(p.g, plan[m].line.raw), plan[m].line.path, k)
    ensures k == Rank(plan, m)
  {
    var line := plan[m].line;
    LineIsSetting(p, plan, m);
    OwnLineFits(p, c, line);
    assert line in c.added && line.path <= line.path;
    assert c.added[k].path == line.path;
  }

  // ---------- The walk over the plan ----------

  ghost predicate AreJudgedThere(c: Case, plan: seq<Planned>, typed: seq<Typed>, from: nat, to: nat)
    requires WellTyped(typed) && |typed| == |plan| && to <= |plan|
  {
    forall m | from <= m < to && plan[m].Types? :: WalkTo(c, typed, m).context == Some(plan[m].line.path)
  }

  /** The rows from `at` on are these, and none that follows them is inside the last. */
  ghost predicate IsPart(plan: seq<Planned>, part: seq<Planned>, at: nat, path: Path) {
    var end := at + |part|;
    && end <= |plan| && plan[at..end] == part
    && (end < |plan| && plan[end].Types? ==> |plan[end].line.path| <= |path|)
  }

  lemma {:induction false} ForestIsWalked(p: Platform, c: Case, plan: seq<Planned>, leave: string, typed: seq<Typed>,
                                          forest: seq<Node>, path: Path, at: nat)
    requires IsPush(p, c, plan, leave, typed) && IsPart(plan, Plan(p.g, forest, path), at, path)
    requires WalkTo(c, typed, at).context == Some(path)
    ensures var end := at + |Plan(p.g, forest, path)|;
            WalkTo(c, typed, end).context == Some(path) && AreJudgedThere(c, plan, typed, at, end)
    decreases forest, 1
  {
    hide WalkTo;
    hide IsPush;
    if forest != [] {
      var first, rest := PlanNode(p.g, forest[0], path), Plan(p.g, forest[1..], path);
      var middle, end := at + |first|, at + |first| + |rest|;
      PlanIsRooted(p.g, forest[1..], path);
      assert plan[at..end] == first + rest;
      assert plan[at..middle] == plan[at..end][..|first|] && plan[middle..end] == plan[at..end][|first|..];
      assert rest != [] ==> plan[middle] == rest[0];
      PartOfRest(p.g, forest[1..], path);
      NodeIsWalked(p, c, plan, leave, typed, forest[0], path, at);
      ForestIsWalked(p, c, plan, leave, typed, forest[1..], path, middle);
    }
  }

  lemma PartOfRest(g: Grammar, forest: seq<Node>, path: Path)
    ensures Plan(g, forest, path) == [] ==> forest == []
  {
    PlanIsRooted(g, forest, path);
  }

  lemma {:induction false} NodeIsWalked(p: Platform, c: Case, plan: seq<Planned>, leave: string, typed: seq<Typed>,
                                        node: Node, path: Path, at: nat)
    requires IsPush(p, c, plan, leave, typed) && IsPart(plan, PlanNode(p.g, node, path), at, path)
    requires WalkTo(c, typed, at).context == Some(path)
    ensures var end := at + |PlanNode(p.g, node, path)|;
            WalkTo(c, typed, end).context == Some(path) && AreJudgedThere(c, plan, typed, at, end)
    decreases node, 0
  {
    hide WalkTo;
    hide IsPush;
    hide IsPart;
    hide Plan;
    hide PlanNode;
    var text := p.g.normalize(node.raw);
    var inside := path + [text];
    PartsOfNode(p.g, plan, node, path, at);
    RestsOnItsLine(p, c, plan, leave, typed, at);
    if node.under != [] {
      var end := at + 1 + |Plan(p.g, node.under, inside)|;
      ForestIsWalked(p, c, plan, leave, typed, node.under, inside, at + 1);
      LeavingLeaves(p, c, plan, leave, typed, end);
      assert inside[..|inside| - 1] == path;
    }
    hide Heads;
  }

  /** A node's part of a plan, taken apart. */
  lemma PartsOfNode(g: Grammar, plan: seq<Planned>, node: Node, path: Path, at: nat)
    requires IsPart(plan, PlanNode(g, node, path), at, path)
    ensures var text := g.normalize(node.raw);
            && at < |plan| && plan[at] == Types(Line(path, text, node.raw))
            && (Heads(plan, at) <==> node.under != [])
            && (node.under == [] ==> |PlanNode(g, node, path)| == 1)
            && (node.under != [] ==>
                  var under := Plan(g, node.under, path + [text]);
                  && |PlanNode(g, node, path)| == 1 + |under| + 1 && at + 1 + |under| < |plan|
                  && IsPart(plan, under, at + 1, path + [text]) && plan[at + 1 + |under|] == Leaves)
  {
    var text := g.normalize(node.raw);
    var under, part := Plan(g, node.under, path + [text]), PlanNode(g, node, path);
    var head := Types(Line(path, text, node.raw));
    PlanIsRooted(g, node.under, path + [text]);
    hide Rooted;
    assert node.under == [] ==> under == [];
    hide Plan;
    if node.under == [] {
      assert part == [head];
      assert plan[at] == plan[at..at + 1][0];
    } else {
      assert part == [head] + under + [Leaves];
      hide PlanNode;
      PartsOf(plan, head, under, at);
      assert under[0] == plan[at + 1];
    }
  }

  lemma PartsOf(plan: seq<Planned>, head: Planned, under: seq<Planned>, at: nat)
    requires var part := [head] + under + [Leaves]; at + |part| <= |plan| && plan[at..at + |part|] == part
    ensures plan[at] == head && plan[at + 1..at + 1 + |under|] == under && plan[at + 1 + |under|] == Leaves
  {
    var part, slice := [head] + under + [Leaves], plan[at..at + |[head] + under + [Leaves]|];
    assert slice[0] == plan[at] && part[0] == head;
    assert slice[1 + |under|] == plan[at + 1 + |under|] && part[1 + |under|] == Leaves;
    assert part[1..1 + |under|] == under;
    SliceOfSlice(plan, at, |part|, 1, 1 + |under|);
  }

  lemma SliceOfSlice(plan: seq<Planned>, at: nat, length: nat, from: nat, to: nat)
    requires at + length <= |plan| && from <= to <= length
    ensures plan[at..at + length][from..to] == plan[at + from..at + to]
  {
    var a, b := plan[at..at + length][from..to], plan[at + from..at + to];
    assert |a| == |b|;
    assert forall k | 0 <= k < |a| :: a[k] == plan[at + from + k] == b[k];
  }

  lemma LeavingLeaves(p: Platform, c: Case, plan: seq<Planned>, leave: string, typed: seq<Typed>, m: nat)
    requires IsPush(p, c, plan, leave, typed) && m < |plan| && plan[m].Leaves?
    requires WalkTo(c, typed, m).context.Some? && WalkTo(c, typed, m).context.value != []
    ensures var here := WalkTo(c, typed, m).context.value; WalkTo(c, typed, m + 1).context == Some(here[..|here| - 1])
  {
    hide IsFollowing;
    hide AreTaken;
    hide WalkTo;
    hide IsTypable;
    hide Rooted;
    CommandsArePlaced(c, typed, m);
    var here, next := WalkTo(c, typed, m).context.value, WalkTo(c, typed, m + 1).context.value;
    assert MovesTo(c, typed[m].words, here, next);
    assert next <= here && |next| == |here| - 1;
    assert next == here[..|here| - 1] && WalkTo(c, typed, m + 1).context == Some(next);
  }

  // ---------- The push as a whole ----------

  function FirstPush(g: Grammar, forest: seq<Node>, step: nat, leave: string, replied: seq<bool>): Push {
    Push(Commands(Plan(g, forest, []), leave), replied, [], Print(forest, 0, step), None, None)
  }

  lemma {:induction false} AllIsSurplus(lines: seq<Line>)
    ensures Surplus(lines, multiset{}) == lines && Covered(lines, multiset{}) == []
  {
    if lines != [] {
      AllIsSurplus(lines[1..]);
    }
  }

  lemma {:induction false} NothingIsNoise(g: Grammar, sign: char, lines: seq<Line>)
    ensures WithoutNoise(g, lines, {}) == lines && OnlyNoise(g, sign, lines, {}) == []
  {
    if lines != [] {
      NothingIsNoise(g, sign, lines[1..]);
    }
  }

  lemma FirstPushIsPush(p: Platform, forest: seq<Node>, step: nat, leave: string, replied: seq<bool>)
    requires ' ' in p.g.spaces && !p.g.flat && step > 0 && Printable(p.g, forest) && LeavesOne(p, leave)
    requires IsTypable(p, Plan(p.g, forest, []))
    ensures var push, plan := FirstPush(p.g, forest, step, leave, replied), Plan(p.g, forest, []);
            && LinesIn(plan) == Lines(p.g, push.after)
            && IsPush(p, CaseOfPush(p, push), plan, leave, TypedCommands(p.g, p.execWords, push.commands))
  {
    hide IsTypable;
    hide Rooted;
    hide AreTyped;
    hide Print;
    hide Plan;
    var plan, lines := Plan(p.g, forest, []), Lines(p.g, Print(forest, 0, step));
    RoundTrip(p.g, forest, step);
    PlanIsPreOrder(p.g, forest, []);
    PlanIsRooted(p.g, forest, []);
    PlanIsTyped(p, plan, leave);
    FirstIsAllAdded(p, lines);
  }

  lemma FirstIsAllAdded(p: Platform, lines: seq<Line>)
    ensures Lines(p.g, []) == [] && IsFirst(p, CaseOf(p.g, [], lines, {}, p.blocks, [], p.negation), lines)
  {
    assert Keys([]) == multiset{};
    AllIsSurplus(lines);
    NothingIsNoise(p.g, '+', lines);
  }

  /** Command m claims its own line, which no other does. */
  lemma ClaimsItsLine(p: Platform, c: Case, plan: seq<Planned>, leave: string, typed: seq<Typed>, m: nat)
    requires IsPush(p, c, plan, leave, typed) && AreJudgedThere(c, plan, typed, 0, |plan|) && m < |plan| && plan[m].Types?
    ensures Rank(plan, m) < |c.added| && c.added[Rank(plan, m)] == plan[m].line
    ensures var r := RulingAt(c, typed, m); r.ByAdded? && r.index == Rank(plan, m) && r.note == Plain
    ensures forall i :: Claims(c, typed, i, OnAdded(Rank(plan, m))) <==> i == m
  {
    hide WalkTo;
    hide RulingAt;
    LineIsSetting(p, plan, m);
    RestsOnItsLine(p, c, plan, leave, typed, m);
    forall i: nat ensures Claims(c, typed, i, OnAdded(Rank(plan, m))) <==> i == m {
      if i < |plan| && plan[i].Types? {
        RestsOnItsLine(p, c, plan, leave, typed, i);
        if i < m {
          RanksRise(plan, i, m);
        } else if m < i {
          RanksRise(plan, m, i);
        }
      }
    }
  }

  lemma TakesEffect(p: Platform, c: Case, plan: seq<Planned>, leave: string, typed: seq<Typed>, replied: seq<bool>, m: nat)
    requires IsPush(p, c, plan, leave, typed) && AreJudgedThere(c, plan, typed, 0, |plan|) && m < |plan|
    ensures var j := OutcomeOf(c, typed, replied).commands[m];
            j == if plan[m].Types? then Judgment(plan[m].line.raw, TookEffect, ["+ " + plan[m].line.raw], Plain, Some([]))
                 else Judgment(leave, Navigation, [], Plain, Some([]))
  {
    hide WalkTo;
    hide RulingAt;
    hide OutcomeOf;
    hide IsTypable;
    hide Rooted;
    JudgmentsAreFinal(c, typed, replied, m);
    if plan[m].Types? {
      ClaimsItsLine(p, c, plan, leave, typed, m);
      assert ClaimAt(c, typed, m) == OnAdded(Rank(plan, m));
      assert forall i | 0 <= i < |typed| && ClaimAt(c, typed, i) == ClaimAt(c, typed, m) :: Claims(c, typed, i, OnAdded(Rank(plan, m)));
    }
  }

  lemma MadeByItsCommand(p: Platform, c: Case, plan: seq<Planned>, leave: string, typed: seq<Typed>, replied: seq<bool>, m: nat)
    requires IsPush(p, c, plan, leave, typed) && AreJudgedThere(c, plan, typed, 0, |plan|) && m < |plan| && plan[m].Types?
    ensures var o := OutcomeOf(c, typed, replied);
            && |o.changes| == |LinesIn(plan)| && Rank(plan, m) < |o.changes|
            && o.changes[Rank(plan, m)].line == plan[m].line && o.changes[Rank(plan, m)].makers == {m}
  {
    hide OutcomeOf;
    hide IsTypable;
    hide Rooted;
    assert WellTyped(typed);
    hide AreTyped;
    hide Claims;
    ClaimsItsLine(p, c, plan, leave, typed, m);
    ChangesAreMade(c, typed, replied);
    var o, k := OutcomeOf(c, typed, replied), Rank(plan, m);
    assert IsChange(c, typed, k, o.changes[k]);
    assert Claims(c, typed, m, OnAdded(k));
    assert forall i :: i in o.changes[k].makers <==> i == m;
  }

  /** A configuration printed where there was none, typed line by line with each section left again, whatever its depth and whatever
      the device replied: every command is judged at the path of its own line, took effect by that line, and made that change alone;
      nothing is left to anyone else. */
  lemma FirstPushTakesEffect(p: Platform, forest: seq<Node>, step: nat, leave: string, replied: seq<bool>)
    requires ' ' in p.g.spaces && !p.g.flat && step > 0 && Printable(p.g, forest) && LeavesOne(p, leave)
    requires IsTypable(p, Plan(p.g, forest, []))
    ensures var push, plan := FirstPush(p.g, forest, step, leave, replied), Plan(p.g, forest, []);
            var c, typed, o := CaseOfPush(p, push), TypedCommands(p.g, p.execWords, push.commands), OutcomeOfPush(p, push);
            && WellTyped(typed) && |typed| == |plan| == |o.commands| && |o.changes| == |LinesIn(plan)| && o.other == []
            && (forall m | 0 <= m < |plan| ::
                  if plan[m].Types? then
                    && WalkTo(c, typed, m).context == Some(plan[m].line.path)
                    && o.commands[m] == Judgment(plan[m].line.raw, TookEffect, ["+ " + plan[m].line.raw], Plain, Some([]))
                    && Rank(plan, m) < |o.changes| && o.changes[Rank(plan, m)].line == plan[m].line
                    && o.changes[Rank(plan, m)].makers == {m}
                  else o.commands[m] == Judgment(leave, Navigation, [], Plain, Some([])))
  {
    hide OutcomeOf;
    hide CaseOf;
    hide WalkTo;
    hide IsTypable;
    hide TypedFrom;
    hide Rooted;
    hide Plan;
    hide Print;
    var push, plan := FirstPush(p.g, forest, step, leave, replied), Plan(p.g, forest, []);
    var c, typed, o := CaseOfPush(p, push), TypedCommands(p.g, p.execWords, push.commands), OutcomeOfPush(p, push);
    FirstPushIsPush(p, forest, step, leave, replied);
    assert plan[0..|plan|] == plan;
    WalkBegins(c, typed);
    ForestIsWalked(p, c, plan, leave, typed, forest, [], 0);
    hide CaseOfPush;
    hide IsPush;
    EachIsJudged(c, typed, replied);
    forall m | 0 <= m < |plan|
      ensures o.commands[m] == if plan[m].Types? then Judgment(plan[m].line.raw, TookEffect, ["+ " + plan[m].line.raw], Plain, Some([]))
                               else Judgment(leave, Navigation, [], Plain, Some([]))
      ensures plan[m].Types? ==> Rank(plan, m) < |o.changes| && o.changes[Rank(plan, m)].line == plan[m].line
                                 && o.changes[Rank(plan, m)].makers == {m}
    {
      TakesEffect(p, c, plan, leave, typed, replied, m);
      if plan[m].Types? {
        MadeByItsCommand(p, c, plan, leave, typed, replied, m);
      }
    }
    NothingIsOthers(p, c, plan, leave, typed, replied);
  }

  lemma WalkBegins(c: Case, typed: seq<Typed>)
    requires WellTyped(typed)
    ensures WalkTo(c, typed, 0).context == Some([])
  {
  }

  lemma NothingIsOthers(p: Platform, c: Case, plan: seq<Planned>, leave: string, typed: seq<Typed>, replied: seq<bool>)
    requires IsPush(p, c, plan, leave, typed) && AreJudgedThere(c, plan, typed, 0, |plan|)
    ensures var o := OutcomeOf(c, typed, replied); |o.changes| == |LinesIn(plan)| && o.other == []
  {
    hide OutcomeOf;
    hide IsTypable;
    hide Rooted;
    assert WellTyped(typed);
    hide AreTyped;
    hide AreJudgedThere;
    ChangesAreMade(c, typed, replied);
    var o := OutcomeOf(c, typed, replied);
    var at :| ArePicked(o.changes, at, o.other) && Ascend(at) && AreOthers(o.changes, at);
    hide ArePicked;
    hide AreOthers;
    forall k | 0 <= k < |o.changes| ensures !IsOthers(o.changes[k]) {
      var m := RankedBy(plan, k);
      MadeByItsCommand(p, c, plan, leave, typed, replied, m);
      assert m in o.changes[k].makers;
    }
    PickedAreOthers(o.changes, at, o.other);
  }

  lemma PickedAreOthers(changes: seq<Change>, at: seq<nat>, other: seq<Change>)
    requires ArePicked(changes, at, other) && AreOthers(changes, at)
    ensures other == [] || (at != [] && at[0] < |changes| && IsOthers(changes[at[0]]))
  {
    assert at != [] ==> at[0] in at;
  }
}
