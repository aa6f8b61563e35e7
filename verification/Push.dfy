/**
 Judging a push whole: from the device's configurations, as printed, to the verdicts and changes.
 */
module Pushes {
  import opened Options
  import opened Config
  import opened Snapshots
  import opened Verdicts
  import opened Typing
  import opened Judges
  import opened JudgeLaws
  import opened JudgeFacts

  /** A push and what the device printed around it, in rows. */
  datatype Push = Push(
    commands: seq<string>, replied: seq<bool>,
    before: seq<string>, after: seq<string>,
    again: Option<seq<string>>,       // read once more at once: what differs is the device's own doing
    defaults: Option<seq<string>>)    // shown once more, defaults included

  datatype Platform = Platform(g: Grammar, blocks: bool, execWords: set<string>, negation: set<string>)

  function ChurnOf(p: Platform, push: Push): set<Churn> {
    if push.again.None? then {} else Noise(p.g, Lines(p.g, push.after), Lines(p.g, push.again.value))
  }

  function CaseOfPush(p: Platform, push: Push): Case {
    CaseOf(p.g, Lines(p.g, push.before), Lines(p.g, push.after), ChurnOf(p, push), p.blocks,
           if push.defaults.None? then [] else Lines(p.g, push.defaults.value), p.negation)
  }

  function OutcomeOfPush(p: Platform, push: Push): Outcome {
    TypedIsWellTyped(p.g, p.execWords, push.commands, Some([]));
    OutcomeOf(CaseOfPush(p, push), TypedCommands(p.g, p.execWords, push.commands), push.replied)
  }

  method JudgePush(p: Platform, push: Push) returns (outcome: Outcome)
    ensures outcome == OutcomeOfPush(p, push)
    ensures |outcome.commands| == |push.commands|
    ensures forall i | 0 <= i < |push.commands| :: outcome.commands[i].command == push.commands[i]
  {
    hide OutcomeOf;
    hide CaseOf;
    var before := Parse(p.g, push.before);
    var after := Parse(p.g, push.after);
    var churn := {};
    if push.again.Some? {
      var again := Parse(p.g, push.again.value);
      churn := LearnNoise(p.g, after, again);
    }
    var view := [];
    if push.defaults.Some? {
      view := Parse(p.g, push.defaults.value);
    }
    var typed := TypeCommands(p.g, p.execWords, push.commands);
    var judge := new Judge(p.g, before, after, churn, p.blocks, push.replied, view, p.negation);
    outcome := judge.Run(typed);
    EachIsJudged(CaseOfPush(p, push), typed, push.replied);
  }

  lemma EachIsJudged(c: Case, commands: seq<Typed>, replied: seq<bool>)
    requires WellTyped(commands)
    ensures var o := OutcomeOf(c, commands, replied);
            |o.commands| == |commands| && forall i | 0 <= i < |commands| :: o.commands[i].command == commands[i].sent
  {
    LedgerIsKept(c, commands, replied);
    hide LedgerOf;
  }

  /** Whatever a device prints, every judged command's verdict is a fact about the two configurations, and its section is known
      and made of headers the device printed. */
  lemma PushVerdictsAreFacts(p: Platform, push: Push, i: nat)
    requires i < |push.commands|
    ensures var c, typed := CaseOfPush(p, push), TypedCommands(p.g, p.execWords, push.commands);
            && WellTyped(typed) && |typed| == |push.commands| && Grounded(c)
            && PrintedSection(c, WalkTo(c, typed, i).context, OutcomeOfPush(p, push).commands[i])
            && (Judged(typed[i]) ==>
                  IsFact(c, typed[i], WalkTo(c, typed, i).context, OutcomeOfPush(p, push).commands[i]))
  {
    hide OutcomeOf;
    hide CaseOf;
    hide IsFact;
    hide Grounded;
    hide PrintedSection;
    hide WalkTo;
    var c, typed := CaseOfPush(p, push), TypedCommands(p.g, p.execWords, push.commands);
    TypedIsWellTyped(p.g, p.execWords, push.commands, Some([]));
    LinesAreOpened(p.g, push.after);
    var view := if push.defaults.None? then [] else Lines(p.g, push.defaults.value);
    CaseIsGrounded(p.g, Lines(p.g, push.before), Lines(p.g, push.after), ChurnOf(p, push), p.blocks, view, p.negation);
    SectionsArePrinted(c, typed, push.replied, i);
    if Judged(typed[i]) {
      VerdictsAreFacts(c, typed, push.replied, i);
    }
  }

  /** A push whose snapshots and defaults are the same has the same proofs, whatever the device replied. */
  lemma PushRepliesProveNothing(p: Platform, push: Push, replied: seq<bool>)
    ensures var o, q := OutcomeOfPush(p, push), OutcomeOfPush(p, push.(replied := replied));
            && |o.commands| == |q.commands| == |push.commands|
            && o.added == q.added && o.removed == q.removed
            && (forall i | 0 <= i < |o.commands| :: IsProof(o.commands[i]) || IsProof(q.commands[i]) ==> o.commands[i] == q.commands[i])
            && SameChanges(o.changes, q.changes) && SameChanges(o.other, q.other)
  {
    hide OutcomeOf;
    var c, typed := CaseOfPush(p, push), TypedCommands(p.g, p.execWords, push.commands);
    TypedIsWellTyped(p.g, p.execWords, push.commands, Some([]));
    RepliesProveNothing(c, typed, push.replied, replied);
    EachIsJudged(c, typed, push.replied);
    EachIsJudged(c, typed, replied);
  }

  /** A push the device undid before the third snapshot proves nothing and leaves no change unexplained. */
  lemma UndonePushProvesNothing(p: Platform, push: Push)
    requires push.again == Some(push.before)
    ensures var o := OutcomeOfPush(p, push);
            && o.other == [] && o.added == {} && o.removed == {} && (forall j | j in o.commands :: !IsProof(j))
  {
    hide OutcomeOf;
    TypedIsWellTyped(p.g, p.execWords, push.commands, Some([]));
    RevertedPushProvesNothing(p.g, Lines(p.g, push.before), Lines(p.g, push.after), p.blocks, CaseOfPush(p, push).view,
                              p.negation, TypedCommands(p.g, p.execWords, push.commands), push.replied);
  }
}
