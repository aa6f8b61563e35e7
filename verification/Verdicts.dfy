/**
 What each command of a push rests on: the specification the judge is proved against.

 The walk over the commands (where each one is judged and which changed line it claims) never looks at
 the device's replies; they only enter in `FirstJudgment` and the passes after it.
 */
module Verdicts {
  import opened Config
  import opened Snapshots
  import opened Words
  import opened Options

  datatype Verdict = TookEffect | InPlace | Removed | Navigation | Review | Rejected | Exec

  /** Why a judgment has the evidence it has, or none. */
  datatype Note =
    | Plain
    | NegationRemoved
    | NamedByDevice(header: string)
    | AlreadyAbsent
    | Conflict
    | NoChangeInSection
    | ShownWithDefaults
    | Unproven
    | UnprovenAtClosing(closing: string)

  /** `section`: where an unproven command was judged, its headers as printed. */
  datatype Judgment = Judgment(
    command: string, verdict: Verdict, evidence: seq<string>, note: Note, section: Option<Path>)

  /** A command as judged. */
  datatype Typed = Typed(sent: string, words: seq<string>, navigation: bool, exec: bool)

  /** A push's snapshots, compared, and the platform's grammar. */
  datatype Case = Case(
    g: Grammar,
    before: seq<Line>, after: seq<Line>, view: seq<Line>,
    added: seq<Line>, removed: seq<Line>, kept: seq<Line>, churned: seq<(char, Line)>,
    negation: set<string>, blocks: bool)

  predicate WellTyped(commands: seq<Typed>) {
    forall i | 0 <= i < |commands| :: Judged(commands[i]) ==> commands[i].words != []
  }

  predicate Judged(command: Typed) {
    !command.exec && !command.navigation
  }

  // ---------- Looking for a line ----------

  /** The sections a command is looked up in, its own first; None: anywhere. */
  function Levels(context: Option<Path>): seq<Option<Path>> {
    match context
    case None => [None]
    case Some(path) => seq(|path| + 1, k requires 0 <= k <= |path| => Some(path[..|path| - k]))
  }

  predicate At(line: Line, level: Option<Path>) {
    level.None? || line.path == level.value
  }

  /** How a line may answer a command. */
  datatype Test =
    | Holding(words: seq<string>)     // has the words, in order
    | Being(words: seq<string>)       // is the words
    | Negating(words: seq<string>)    // is a negation of the words
    | Naming(words: seq<string>)      // is what a removal names

  predicate Fits(c: Case, test: Test, line: Line) {
    var words := WordsOf(c.g, line.text);
    match test
    case Holding(typed) => Contains(typed, words, SameWord)
    case Being(typed) => Matches(typed, words)
    case Negating(typed) => words != [] && words[0] in c.negation && Matches(typed, words[1..])
    case Naming(typed) => Contains(typed, words, Names)
  }

  /** The first line that answers, from `from` on; |lines| when none does. */
  function First(c: Case, lines: seq<Line>, test: Test, level: Option<Path>, from: nat := 0): (k: nat)
    requires from <= |lines|
    ensures from <= k <= |lines|
    decreases |lines| - from
  {
    if from == |lines| || (At(lines[from], level) && Fits(c, test, lines[from])) then from
    else First(c, lines, test, level, from + 1)
  }

  datatype Found = Changed(index: nat, level: Option<Path>) | Unchanged(index: nat, level: Option<Path>) | Nowhere

  /** Level by level: a line the push added that holds the words, then an unchanged one that is them. */
  function FindLine(c: Case, words: seq<string>, levels: seq<Option<Path>>): (found: Found)
    ensures found.Changed? ==> found.index < |c.added|
    ensures found.Unchanged? ==> found.index < |c.kept|
  {
    if levels == [] then Nowhere
    else
      var a := First(c, c.added, Holding(words), levels[0]);
      if a < |c.added| then Changed(a, levels[0])
      else
        var k := First(c, c.kept, Being(words), levels[0]);
        if k < |c.kept| then Unchanged(k, levels[0]) else FindLine(c, words, levels[1..])
  }

  /** The first removed line to pass the test, the levels searched in turn. */
  function FindGone(c: Case, test: Test, levels: seq<Option<Path>>): (found: Option<nat>)
    ensures found.Some? ==> found.value < |c.removed|
  {
    if levels == [] then None
    else
      var r := First(c, c.removed, test, levels[0]);
      if r < |c.removed| then Some(r) else FindGone(c, test, levels[1..])
  }

  /** Whether any line of either snapshot has the words, at any of the levels. */
  predicate HeldSomewhere(c: Case, words: seq<string>, levels: seq<Option<Path>>) {
    exists level, line | level in levels && line in c.before + c.after :: At(line, level) && Fits(c, Holding(words), line)
  }

  predicate IsHeader(c: Case, line: Line) {
    exists under | under in c.before + c.after + c.view :: under.path == line.Inside()
  }

  /** The first unclaimed header added at `here` with an added line under it that has the words to come; |added| when none. */
  function OpenedBlock(c: Case, claimed: set<nat>, here: Option<Path>, following: seq<string>, from: nat := 0): (k: nat)
    requires from <= |c.added|
    ensures from <= k <= |c.added|
    decreases |c.added| - from
  {
    if from == |c.added| || IsOpenedBlock(c, claimed, here, following, from) then from
    else OpenedBlock(c, claimed, here, following, from + 1)
  }

  predicate IsOpenedBlock(c: Case, claimed: set<nat>, here: Option<Path>, following: seq<string>, k: nat)
    requires k < |c.added|
  {
    && k !in claimed
    && At(c.added[k], here)
    && IsHeader(c, c.added[k])
    && exists line | line in c.added :: line.path == c.added[k].Inside() && Fits(c, Holding(following), line)
  }

  // ---------- What a command rests on ----------

  datatype Ruling =
    | ByAdded(index: nat, context: Option<Path>, note: Note)
    | ByRemoved(index: nat, verdict: Verdict, note: Note)
    | ByUnchanged(line: Line, context: Option<Path>)
    | NothingToRemove                  // nothing has the removal's words, before or after
    | NoEvidence

  predicate RulingWithin(c: Case, ruling: Ruling) {
    && (ruling.ByAdded? ==> ruling.index < |c.added|)
    && (ruling.ByRemoved? ==> ruling.index < |c.removed| && ruling.verdict in {TookEffect, Removed})
  }

  /** Where the next command is after this one matched `line`, found at `level`. */
  function Entered(c: Case, line: Line, level: Option<Path>): Option<Path> {
    if IsHeader(c, line) then Some(line.Inside())
    else if level.None? then Some(line.path)
    else level
  }

  function RuleSetting(c: Case, walk: Walk, words: seq<string>, following: Option<seq<string>>): (r: Ruling)
    ensures RulingWithin(c, r)
  {
    var levels := Levels(walk.context);
    match FindLine(c, words, levels)
    case Changed(k, level) => ByAdded(k, Entered(c, c.added[k], level), Plain)
    case Unchanged(k, level) => ByUnchanged(c.kept[k], Entered(c, c.kept[k], level))
    case Nowhere =>
      var gone := FindGone(c, Negating(words), levels);
      if gone.Some? then ByRemoved(gone.value, TookEffect, NegationRemoved)
      else if following.None? || following.value == [] then NoEvidence
      else
        var k := OpenedBlock(c, walk.added, walk.context, following.value);
        if k < |c.added| then ByAdded(k, Some(c.added[k].Inside()), NamedByDevice(c.added[k].raw)) else NoEvidence
  }

  function RuleRemoval(c: Case, walk: Walk, words: seq<string>): (r: Ruling)
    requires words != []
    ensures RulingWithin(c, r)
  {
    var levels, target := Levels(walk.context), words[1..];
    var gone := FindGone(c, Naming(target), levels);
    if gone.Some? then ByRemoved(gone.value, Removed, Plain)
    else
      match FindLine(c, words, levels)
      case Changed(k, level) => ByAdded(k, walk.context, Plain)
      case Unchanged(k, level) => ByUnchanged(c.kept[k], walk.context)
      case Nowhere => if target != [] && !HeldSomewhere(c, target, levels) then NothingToRemove else NoEvidence
  }

  // ---------- The walk ----------

  /** Where the commands so far have led, and which changed lines they claimed. */
  datatype Walk = Walk(context: Option<Path>, added: set<nat>, removed: set<nat>)

  /** The words of the next command that is judged. */
  function Following(commands: seq<Typed>, from: nat): Option<seq<string>>
    decreases |commands| - from
  {
    if from >= |commands| then None
    else if Judged(commands[from]) then Some(commands[from].words)
    else Following(commands, from + 1)
  }

  function Left(c: Case, context: Option<Path>, words: seq<string>): Option<Path> {
    if words == [] then context
    else if words[0] in {"return", "root"} || (words[0] == "end" && !c.blocks) then Some([])
    else if context.Some? && context.value != [] then Some(context.value[..|context.value| - 1])
    else context
  }

  /** What command i rests on. */
  function RulingAt(c: Case, commands: seq<Typed>, i: nat): (r: Ruling)
    requires WellTyped(commands) && i < |commands| && Judged(commands[i])
    ensures RulingWithin(c, r)
    decreases i, 1
  {
    var walk, words := WalkTo(c, commands, i), commands[i].words;
    if words[0] in c.negation then RuleRemoval(c, walk, words)
    else RuleSetting(c, walk, words, Following(commands, i + 1))
  }

  function Moved(walk: Walk, ruling: Ruling): Walk {
    match ruling
    case ByAdded(k, context, _) => walk.(context := context, added := walk.added + {k})
    case ByRemoved(k, _, _) => walk.(removed := walk.removed + {k})
    case ByUnchanged(_, context) => walk.(context := context)
    case _ => walk
  }

  /** The walk before command n. */
  function WalkTo(c: Case, commands: seq<Typed>, n: nat): Walk
    requires WellTyped(commands) && n <= |commands|
    decreases n, 0
  {
    if n == 0 then Walk(Some([]), {}, {})
    else
      var walk, command := WalkTo(c, commands, n - 1), commands[n - 1];
      if command.exec then walk
      else if command.navigation then walk.(context := Left(c, walk.context, command.words))
      else Moved(walk, RulingAt(c, commands, n - 1))
  }

  /** The changed line command i claims. */
  datatype Claim = NoClaim | OnAdded(index: nat) | OnRemoved(index: nat)

  function ClaimAt(c: Case, commands: seq<Typed>, i: nat): (claim: Claim)
    requires WellTyped(commands) && i < |commands|
    ensures claim.OnAdded? ==> claim.index < |c.added|
    ensures claim.OnRemoved? ==> claim.index < |c.removed|
  {
    if Judged(commands[i]) then ClaimOf(RulingAt(c, commands, i)) else NoClaim
  }

  function ClaimOf(ruling: Ruling): Claim {
    match ruling
    case ByAdded(k, _, _) => OnAdded(k)
    case ByRemoved(k, _, _) => OnRemoved(k)
    case _ => NoClaim
  }

  // ---------- Judgments, pass by pass ----------

  predicate Said(replied: seq<bool>, i: nat) {
    i < |replied| && replied[i]
  }

  /** Each header's text as printed, by the path it opens: the last line's that opens it. */
  function HeaderTexts(lines: seq<Line>): map<Path, string> {
    if lines == [] then map[]
    else HeaderTexts(lines[..|lines| - 1])[lines[|lines| - 1].Inside() := lines[|lines| - 1].raw]
  }

  function SectionOf(printed: map<Path, string>, here: Option<Path>): Option<Path> {
    match here
    case None => None
    case Some(path) =>
      Some(seq(|path|, k requires 0 <= k < |path| =>
        if path[..k + 1] in printed then printed[path[..k + 1]] else path[k]))
  }

  function Added(line: Line): string { "+ " + line.raw }
  function Gone(line: Line): string { "- " + line.raw }
  function InBoth(line: Line): string { "  " + line.raw }

  function Proven(command: string, verdict: Verdict, evidence: string, note: Note): Judgment {
    Judgment(command, verdict, [evidence], note, Some([]))
  }

  /** The judgment a ruling gives; only here does a reply count. */
  function Verdict0(c: Case, sent: string, ruling: Ruling, said: bool, section: Option<Path>): Judgment
    requires RulingWithin(c, ruling)
  {
    match ruling
    case ByAdded(k, _, note) => Proven(sent, TookEffect, Added(c.added[k]), note)
    case ByRemoved(k, verdict, note) => Proven(sent, verdict, Gone(c.removed[k]), note)
    case ByUnchanged(line, _) => Proven(sent, InPlace, InBoth(line), Plain)
    case NothingToRemove =>
      if !said then Judgment(sent, InPlace, [], AlreadyAbsent, Some([])) else Judgment(sent, Review, [], Plain, section)
    case NoEvidence => Judgment(sent, Review, [], Plain, section)
  }

  /** A person decides about it, for now. */
  predicate Reviewed(ruling: Ruling, said: bool) {
    ruling.NoEvidence? || (ruling.NothingToRemove? && said)
  }

  function FirstJudgment(c: Case, commands: seq<Typed>, replied: seq<bool>, i: nat): (j: Judgment)
    requires WellTyped(commands) && i < |commands|
    ensures j.command == commands[i].sent
  {
    var sent := commands[i].sent;
    if commands[i].exec then Judgment(sent, Exec, [], Plain, Some([]))
    else if commands[i].navigation then Judgment(sent, Navigation, [], Plain, Some([]))
    else
      Verdict0(c, sent, RulingAt(c, commands, i), Said(replied, i),
        SectionOf(HeaderTexts(c.before + c.after), WalkTo(c, commands, i).context))
  }

  /** What the walk leaves for the passes: per command, the line it claims, where it was judged, its judgment
      so far, and whether it is in review. */
  datatype Ledger = Ledger(claims: seq<Claim>, heres: seq<Option<Path>>, first: seq<Judgment>, reviewed: seq<bool>)

  function LedgerOf(c: Case, commands: seq<Typed>, replied: seq<bool>): Ledger
    requires WellTyped(commands)
  {
    var n := |commands|;
    Ledger(
      seq(n, i requires 0 <= i < n => ClaimAt(c, commands, i)),
      seq(n, i requires 0 <= i < n => WalkTo(c, commands, i).context),
      seq(n, i requires 0 <= i < n => FirstJudgment(c, commands, replied, i)),
      seq(n, i requires 0 <= i < n => Judged(commands[i]) && Reviewed(RulingAt(c, commands, i), Said(replied, i))))
  }

  lemma LedgerAt(c: Case, commands: seq<Typed>, replied: seq<bool>, i: nat)
    requires WellTyped(commands) && i < |commands|
    ensures var l := LedgerOf(c, commands, replied);
            && l.claims[i] == ClaimAt(c, commands, i)
            && l.heres[i] == WalkTo(c, commands, i).context
            && l.first[i] == FirstJudgment(c, commands, replied, i)
            && l.reviewed[i] == (Judged(commands[i]) && Reviewed(RulingAt(c, commands, i), Said(replied, i)))
  {
  }

  predicate ClaimWithin(c: Case, claim: Claim) {
    && (claim.OnAdded? ==> claim.index < |c.added|)
    && (claim.OnRemoved? ==> claim.index < |c.removed|)
  }

  /** A ledger of n commands: a command in review claims nothing, and no other is in review yet. */
  ghost predicate Kept(c: Case, l: Ledger, n: nat) {
    && |l.claims| == |l.heres| == |l.first| == |l.reviewed| == n
    && (forall i | 0 <= i < n :: ClaimWithin(c, l.claims[i]))
    && (forall i | 0 <= i < n && l.reviewed[i] :: l.claims[i] == NoClaim)
    && (forall i | 0 <= i < n :: l.reviewed[i] <==> l.first[i].verdict == Review)
    && (forall i | 0 <= i < n && l.reviewed[i] :: l.first[i].note == Plain)
  }

  lemma LedgerIsKept(c: Case, commands: seq<Typed>, replied: seq<bool>)
    requires WellTyped(commands)
    ensures Kept(c, LedgerOf(c, commands, replied), |commands|)
    ensures forall i | 0 <= i < |commands| :: LedgerOf(c, commands, replied).first[i].command == commands[i].sent
  {
    hide RuleSetting;
    hide RuleRemoval;
  }

  /** Another command, not the same text, claims command i's line. */
  predicate Contested(g: Grammar, l: Ledger, i: nat)
    requires i < |l.claims| == |l.first|
  {
    && l.claims[i] != NoClaim
    && exists j | 0 <= j < |l.claims| ::
         l.claims[j] == l.claims[i] && g.normalize(l.first[j].command) != g.normalize(l.first[i].command)
  }

  function ClaimedText(c: Case, claim: Claim): string
    requires claim != NoClaim && ClaimWithin(c, claim)
  {
    if claim.OnAdded? then Added(c.added[claim.index]) else Gone(c.removed[claim.index])
  }

  /** In review again, with the line it shares as its evidence. */
  function Demoted(j: Judgment, evidence: string): Judgment {
    Judgment(j.command, Review, [evidence], Conflict, j.section)
  }

  function AfterConflicts(c: Case, l: Ledger, i: nat): (j: Judgment)
    requires i < |l.claims| && Kept(c, l, |l.claims|)
    ensures j.command == l.first[i].command
  {
    if Contested(c.g, l, i) then Demoted(l.first[i], ClaimedText(c, l.claims[i])) else l.first[i]
  }

  /** The first line at `here` that is these words, in the defaults view; |view| when none. */
  function DefaultLine(c: Case, words: seq<string>, here: Option<Path>): (k: nat)
    ensures k <= |c.view|
  {
    if here.None? then |c.view| else First(c, c.view, Being(words), here)
  }

  predicate ByDefault(c: Case, commands: seq<Typed>, l: Ledger, i: nat)
    requires i < |commands| == |l.reviewed| == |l.heres|
  {
    l.reviewed[i] && DefaultLine(c, commands[i].words, l.heres[i]) < |c.view|
  }

  function AfterDefaults(c: Case, commands: seq<Typed>, l: Ledger, i: nat): (j: Judgment)
    requires i < |commands| && Kept(c, l, |commands|)
    ensures j.command == l.first[i].command
  {
    var j := AfterConflicts(c, l, i);
    if ByDefault(c, commands, l, i) then
      Proven(j.command, InPlace, InBoth(c.view[DefaultLine(c, commands[i].words, l.heres[i])]), ShownWithDefaults)
    else j
  }

  /** Still in review once the defaults were looked up. */
  predicate Open(c: Case, commands: seq<Typed>, l: Ledger, i: nat)
    requires i < |commands| == |l.reviewed| == |l.heres|
  {
    l.reviewed[i] && !ByDefault(c, commands, l, i)
  }

  predicate Replaces(c: Case, line: Line, gone: Line) {
    var common := CommonPrefix(WordsOf(c.g, gone.text), WordsOf(c.g, line.text));
    line.path == gone.path && (|common| >= 2 || common == WordsOf(c.g, gone.text))
  }

  /** Whose claimed line stands where `gone` stood, with its leading words. */
  function ReplacedBy(c: Case, claims: seq<Claim>, gone: Line): set<nat> {
    set i | 0 <= i < |claims| && ClaimReplaces(c, claims[i], gone)
  }

  predicate ClaimReplaces(c: Case, claim: Claim, gone: Line) {
    claim.OnAdded? && claim.index < |c.added| && Replaces(c, c.added[claim.index], gone)
  }

  function ClaimedBy(claims: seq<Claim>, claim: Claim): set<nat> {
    set i | 0 <= i < |claims| && claims[i] == claim
  }

  /** The added lines of a section no command claims, below n. */
  function FreeAdded(c: Case, claims: seq<Claim>, here: Option<Path>, n: nat): (ks: seq<nat>)
    requires n <= |c.added|
    ensures forall k | k in ks :: k < n
  {
    if n == 0 then []
    else
      FreeAdded(c, claims, here, n - 1)
      + (if At(c.added[n - 1], here) && ClaimedBy(claims, OnAdded(n - 1)) == {} then [n - 1] else [])
  }

  /** The removed lines of a section no command claims or replaced, below n. */
  function FreeRemoved(c: Case, claims: seq<Claim>, here: Option<Path>, n: nat): (ks: seq<nat>)
    requires n <= |c.removed|
    ensures forall k | k in ks :: k < n
  {
    if n == 0 then []
    else
      FreeRemoved(c, claims, here, n - 1)
      + (if At(c.removed[n - 1], here) && ClaimedBy(claims, OnRemoved(n - 1)) == {}
            && ReplacedBy(c, claims, c.removed[n - 1]) == {} then [n - 1] else [])
  }

  const SHOWN := 10   // changes shown as a reviewed command's evidence, of each sign

  function FirstTen(ks: seq<nat>): (shown: seq<nat>)
    ensures shown <= ks
    ensures forall k | k in shown :: k in ks
  {
    if |ks| <= SHOWN then ks else ks[..SHOWN]
  }

  function ShownAdded(c: Case, claims: seq<Claim>, here: Option<Path>): (ks: seq<nat>)
    ensures forall k | k in ks :: k < |c.added|
  {
    FirstTen(FreeAdded(c, claims, here, |c.added|))
  }

  function ShownRemoved(c: Case, claims: seq<Claim>, here: Option<Path>): (ks: seq<nat>)
    ensures forall k | k in ks :: k < |c.removed|
  {
    FirstTen(FreeRemoved(c, claims, here, |c.removed|))
  }

  /** The changes of its section no command accounts for. */
  function SectionChanges(c: Case, claims: seq<Claim>, here: Option<Path>): seq<string> {
    var plus, minus := ShownAdded(c, claims, here), ShownRemoved(c, claims, here);
    seq(|plus|, k requires 0 <= k < |plus| => assert plus[k] in plus; Added(c.added[plus[k]]))
    + seq(|minus|, k requires 0 <= k < |minus| => assert minus[k] in minus; Gone(c.removed[minus[k]]))
  }

  function WithEvidence(j: Judgment, changes: seq<string>): Judgment {
    Judgment(j.command, Review, changes, if changes == [] then NoChangeInSection else Plain, j.section)
  }

  function AfterEvidence(c: Case, commands: seq<Typed>, l: Ledger, i: nat): (j: Judgment)
    requires i < |commands| && Kept(c, l, |commands|)
    ensures j.command == l.first[i].command
  {
    var j := AfterDefaults(c, commands, l, i);
    if Open(c, commands, l, i) then WithEvidence(j, SectionChanges(c, l.claims, l.heres[i])) else j
  }

  /** The first navigation command from i on: the one that closed command i's block. */
  function ClosedAt(commands: seq<Typed>, i: nat): (k: nat)
    requires i <= |commands|
    ensures i <= k <= |commands|
    decreases |commands| - i
  {
    if i == |commands| || commands[i].navigation then i else ClosedAt(commands, i + 1)
  }

  /** What a reply does to an unproven command, and to nothing else. */
  function Replied(commands: seq<Typed>, replied: seq<bool>, i: nat, j: Judgment): Judgment
    requires i < |commands|
  {
    if j.verdict != Review then j
    else if Said(replied, i) then Judgment(j.command, Rejected, j.evidence, Unproven, j.section)
    else
      var k := ClosedAt(commands, i);
      if k < |commands| && Said(replied, k)
      then Judgment(j.command, Rejected, j.evidence, UnprovenAtClosing(commands[k].sent), j.section)
      else j
  }

  /** Command i's judgment in the end. */
  function FinalOf(c: Case, commands: seq<Typed>, replied: seq<bool>, l: Ledger, i: nat): (j: Judgment)
    requires i < |commands| && Kept(c, l, |commands|)
    ensures j.command == l.first[i].command
  {
    Replied(commands, replied, i, AfterEvidence(c, commands, l, i))
  }

  // ---------- Every changed line, and who made it ----------

  /** `makers`: the commands it rests on; `review`: the commands in review it is evidence for. */
  datatype Change = Change(sign: char, line: Line, makers: set<nat>, device: bool, review: seq<nat>)

  datatype Outcome = Outcome(
    commands: seq<Judgment>,
    other: seq<Change>,                       // left unexplained
    added: set<Key>, removed: set<Key>,       // lines some command claims
    changes: seq<Change>)

  function ClaimedLine(c: Case, claim: Claim): Line
    requires claim != NoClaim && ClaimWithin(c, claim)
  {
    if claim.OnAdded? then c.added[claim.index] else c.removed[claim.index]
  }

  /** The commands that opened or removed a block this line is in. */
  function ByBlock(c: Case, claims: seq<Claim>, line: Line): set<nat> {
    set i | 0 <= i < |claims| && ClaimEncloses(c, claims[i], line)
  }

  predicate ClaimEncloses(c: Case, claim: Claim, line: Line) {
    claim != NoClaim && ClaimWithin(c, claim) && ClaimedLine(c, claim).Inside() <= line.path
  }

  function MadeAdded(c: Case, claims: seq<Claim>, k: nat): set<nat>
    requires k < |c.added|
  {
    var own := ClaimedBy(claims, OnAdded(k));
    if own != {} then own else ByBlock(c, claims, c.added[k])
  }

  function MadeRemoved(c: Case, claims: seq<Claim>, k: nat): set<nat>
    requires k < |c.removed|
  {
    var own, block := ClaimedBy(claims, OnRemoved(k)), ByBlock(c, claims, c.removed[k]);
    if own != {} then own else if block != {} then block else ReplacedBy(c, claims, c.removed[k])
  }

  /** The commands in review before n that show an added line; a removed line. */
  function AddedReview(c: Case, commands: seq<Typed>, l: Ledger, k: nat, n: nat): seq<nat>
    requires n <= |commands| && Kept(c, l, |commands|)
  {
    if n == 0 then []
    else
      AddedReview(c, commands, l, k, n - 1)
      + (if Open(c, commands, l, n - 1) && k in ShownAdded(c, l.claims, l.heres[n - 1]) then [n - 1] else [])
  }

  function RemovedReview(c: Case, commands: seq<Typed>, l: Ledger, k: nat, n: nat): seq<nat>
    requires n <= |commands| && Kept(c, l, |commands|)
  {
    if n == 0 then []
    else
      RemovedReview(c, commands, l, k, n - 1)
      + (if Open(c, commands, l, n - 1) && k in ShownRemoved(c, l.claims, l.heres[n - 1]) then [n - 1] else [])
  }

  function ChangesOf(c: Case, commands: seq<Typed>, l: Ledger): seq<Change>
    requires Kept(c, l, |commands|)
  {
    var n := |commands|;
    seq(|c.added|, k requires 0 <= k < |c.added| =>
      Change('+', c.added[k], MadeAdded(c, l.claims, k), false, AddedReview(c, commands, l, k, n)))
    + seq(|c.removed|, k requires 0 <= k < |c.removed| =>
      Change('-', c.removed[k], MadeRemoved(c, l.claims, k), false, RemovedReview(c, commands, l, k, n)))
    + seq(|c.churned|, k requires 0 <= k < |c.churned| => Change(c.churned[k].0, c.churned[k].1, {}, true, []))
  }

  /** The changes nobody made: no command, and not the device itself. */
  function Unexplained(changes: seq<Change>): seq<Change> {
    if changes == [] then []
    else (if changes[0].makers == {} && !changes[0].device then [changes[0]] else []) + Unexplained(changes[1..])
  }

  function OutcomeFrom(c: Case, commands: seq<Typed>, replied: seq<bool>, l: Ledger): Outcome
    requires Kept(c, l, |commands|)
  {
    var changes := ChangesOf(c, commands, l);
    Outcome(
      seq(|commands|, i requires 0 <= i < |commands| => FinalOf(c, commands, replied, l, i)),
      Unexplained(changes),
      set k | 0 <= k < |c.added| && ClaimedBy(l.claims, OnAdded(k)) != {} :: c.added[k].AsKey(),
      set k | 0 <= k < |c.removed| && ClaimedBy(l.claims, OnRemoved(k)) != {} :: c.removed[k].AsKey(),
      changes)
  }

  /** A push, judged. */
  function OutcomeOf(c: Case, commands: seq<Typed>, replied: seq<bool>): Outcome
    requires WellTyped(commands)
  {
    LedgerIsKept(c, commands, replied);
    OutcomeFrom(c, commands, replied, LedgerOf(c, commands, replied))
  }

  // ---------- The case of two snapshots ----------

  function WithoutNoise(g: Grammar, lines: seq<Line>, noise: set<Churn>): seq<Line> {
    if lines == [] then []
    else (if IsNoise(g, lines[0], noise) then [] else [lines[0]]) + WithoutNoise(g, lines[1..], noise)
  }

  function OnlyNoise(g: Grammar, sign: char, lines: seq<Line>, noise: set<Churn>): seq<(char, Line)> {
    if lines == [] then []
    else (if IsNoise(g, lines[0], noise) then [(sign, lines[0])] else []) + OnlyNoise(g, sign, lines[1..], noise)
  }

  /** The snapshots compared, the device's own churn set apart. */
  function CaseOf(g: Grammar, before: seq<Line>, after: seq<Line>, noise: set<Churn>, blocks: bool,
                  view: seq<Line>, negation: set<string>): Case
  {
    var d := Difference(before, after);
    Case(g, before, after, view,
      WithoutNoise(g, d.added, noise), WithoutNoise(g, d.removed, noise), d.kept,
      OnlyNoise(g, '+', d.added, noise) + OnlyNoise(g, '-', d.removed, noise),
      negation, blocks)
  }
}
