/**
 What each command of a flat configuration does to the ones typed after it.
 */
module TypingLaws {
  import opened Config
  import opened Verdicts
  import opened Options
  import opened Typing

  /** The words the commands are judged by. */
  function Judging(g: Grammar, execWords: set<string>, commands: seq<string>): seq<seq<string>> {
    JudgedWords(TypedCommands(g, execWords, commands))
  }

  /** A command between others: what is before it is typed the same, what is after it starts from where it leads. */
  lemma CommandAmong(g: Grammar, execWords: set<string>, a: seq<string>, command: string, b: seq<string>)
    ensures var path := PathFrom(g, execWords, a, Some([]));
            var one, next := TypedAs(g, execWords, command, path), PathAfter(g, execWords, command, path);
            && TypedCommands(g, execWords, a + [command] + b)
               == TypedCommands(g, execWords, a) + [one] + TypedFrom(g, execWords, b, next)
            && Judging(g, execWords, a + [command] + b)
               == Judging(g, execWords, a) + (if Judged(one) then [one.words] else []) + JudgedWords(TypedFrom(g, execWords, b, next))
            && TypedCommands(g, execWords, a + b) == TypedCommands(g, execWords, a) + TypedFrom(g, execWords, b, path)
            && Judging(g, execWords, a + b) == Judging(g, execWords, a) + JudgedWords(TypedFrom(g, execWords, b, path))
  {
    hide *;
    var path := PathFrom(g, execWords, a, Some([]));
    var one, next := TypedAs(g, execWords, command, path), PathAfter(g, execWords, command, path);
    var before, after := TypedCommands(g, execWords, a), TypedFrom(g, execWords, b, next);
    TypedAmong(g, execWords, a, command, b);
    JudgedAmong(before, one, after);
    JudgedInTurn(before, TypedFrom(g, execWords, b, path));
    JudgingIs(g, execWords, a + [command] + b);
    JudgingIs(g, execWords, a + b);
    JudgingIs(g, execWords, a);
  }

  lemma JudgingIs(g: Grammar, execWords: set<string>, commands: seq<string>)
    ensures Judging(g, execWords, commands) == JudgedWords(TypedCommands(g, execWords, commands))
  {
  }

  lemma JudgedAmong(before: seq<Typed>, one: Typed, after: seq<Typed>)
    ensures JudgedWords(before + [one] + after) == JudgedWords(before) + (if Judged(one) then [one.words] else []) + JudgedWords(after)
  {
    JudgedInTurn(before + [one], after);
    JudgedInTurn(before, [one]);
    assert JudgedWords([one][1..]) == [];
  }

  lemma TypedAmong(g: Grammar, execWords: set<string>, a: seq<string>, command: string, b: seq<string>)
    ensures var path := PathFrom(g, execWords, a, Some([]));
            && TypedCommands(g, execWords, a + [command] + b)
               == TypedCommands(g, execWords, a) + [TypedAs(g, execWords, command, path)]
                  + TypedFrom(g, execWords, b, PathAfter(g, execWords, command, path))
            && TypedCommands(g, execWords, a + b) == TypedCommands(g, execWords, a) + TypedFrom(g, execWords, b, path)
  {
    hide TypedAs;
    hide PathAfter;
    ScriptInTurn(g, execWords, a + [command], b, Some([]));
    ScriptInTurn(g, execWords, a, [command], Some([]));
    ScriptInTurn(g, execWords, a, b, Some([]));
    OneCommand(g, execWords, command, PathFrom(g, execWords, a, Some([])));
    hide TypedFrom;
    hide PathFrom;
  }

  /** A bare "top", or an "end". */
  predicate Restarts(g: Grammar, execWords: set<string>, command: string) {
    var words := WordsOf(g, command);
    words != [] && words[0] !in execWords && (words == ["top"] || words[0] == "end")
  }

  /** After "top" or "end", commands are judged as if nothing had been typed before. */
  lemma TopStartsAgain(g: Grammar, execWords: set<string>, a: seq<string>, top: string, b: seq<string>)
    requires g.flat && Restarts(g, execWords, top)
    ensures Judging(g, execWords, a + [top] + b) == Judging(g, execWords, a) + Judging(g, execWords, b)
  {
    CommandAmong(g, execWords, a, top, b);
  }

  /** "up", or "up" and a number. */
  predicate Climbs(g: Grammar, execWords: set<string>, command: string) {
    var words := WordsOf(g, command);
    && words != [] && words[0] == "up" && "up" !in execWords
    && (|words| == 1 || (|words| == 2 && words[1] != "" && forall ch | ch in words[1] :: '0' <= ch <= '9'))
  }

  predicate Sets(g: Grammar, execWords: set<string>, command: string) {
    var words := WordsOf(g, command);
    words != [] && words[0] in {"set", "delete"} && words[0] !in execWords && !Navigates(g, words[0])
  }

  /** After an "up", each "set" or "delete" is judged by its own words until the next "top" or "end". */
  lemma OwnWordsAfterUp(g: Grammar, execWords: set<string>, a: seq<string>, up: string, b: seq<string>, k: nat)
    requires g.flat && Climbs(g, execWords, up) && k < |b| && Sets(g, execWords, b[k])
    requires forall j | 0 <= j < k :: !Restarts(g, execWords, b[j])
    ensures var typed := TypedCommands(g, execWords, a + [up] + b);
            |typed| == |a| + 1 + |b| && typed[|a| + 1 + k] == Typed(b[k], WordsOf(g, b[k]), false, false)
  {
    CommandAmong(g, execWords, a, up, b);
    UnknownStays(g, execWords, b, k);
    TypedIsWellTyped(g, execWords, a, Some([]));
    TypedIsWellTyped(g, execWords, b, None);
  }

  lemma {:induction false} UnknownStays(g: Grammar, execWords: set<string>, b: seq<string>, k: nat)
    requires g.flat && k < |b| && Sets(g, execWords, b[k])
    requires forall j | 0 <= j < k :: !Restarts(g, execWords, b[j])
    ensures var typed := TypedFrom(g, execWords, b, None);
            |typed| == |b| && typed[k] == Typed(b[k], WordsOf(g, b[k]), false, false)
    decreases k
  {
    TypedIsWellTyped(g, execWords, b, None);
    if k > 0 {
      assert !Restarts(g, execWords, b[0]);
      assert forall j | 0 <= j < k - 1 :: b[1..][j] == b[j + 1];
      UnknownStays(g, execWords, b[1..], k - 1);
    }
  }

  /** What is to run at the top, or further out: the line's words after "top", "up" or "up" and a number. */
  ghost predicate Runs(g: Grammar, execWords: set<string>, command: string, rest: seq<string>) {
    var words := WordsOf(g, command);
    && words != [] && words[0] !in execWords && rest != []
    && (|| words == ["top"] + rest
        || (words == ["up"] + rest && !(rest[0] != "" && forall ch | ch in rest[0] :: '0' <= ch <= '9'))
        || exists n: string :: words == ["up", n] + rest && n != "" && forall ch | ch in n :: '0' <= ch <= '9')
  }

  /** A command on the line of its "top" or "up" is judged by its own words and moves nothing for the ones after it. */
  lemma RestRunsElsewhere(g: Grammar, execWords: set<string>, a: seq<string>, command: string, rest: seq<string>, b: seq<string>)
    requires g.flat && Runs(g, execWords, command, rest)
    ensures Judging(g, execWords, a) <= Judging(g, execWords, a + b)
    ensures Judging(g, execWords, a + [command] + b)
         == Judging(g, execWords, a) + [rest] + Judging(g, execWords, a + b)[|Judging(g, execWords, a)|..]
  {
    CommandAmong(g, execWords, a, command, b);
    RestIs(g, execWords, command, rest, PathFrom(g, execWords, a, Some([])));
  }

  lemma RestIs(g: Grammar, execWords: set<string>, command: string, rest: seq<string>, path: EditPath)
    requires g.flat && Runs(g, execWords, command, rest)
    ensures TypedAs(g, execWords, command, path) == Typed(command, rest, false, false)
    ensures PathAfter(g, execWords, command, path) == path
  {
    var words := WordsOf(g, command);
    if words == ["top"] + rest || (words == ["up"] + rest && !IsNumber(rest[0])) {
      assert words[1..] == rest;
    } else {
      var n :| words == ["up", n] + rest && n != "" && forall ch | ch in n :: '0' <= ch <= '9';
      assert words[2..] == rest && words[1] == n;
    }
  }

  /** Neither an edit nor a move. */
  predicate StaysPut(g: Grammar, execWords: set<string>, command: string) {
    var words := WordsOf(g, command);
    || words == [] || words[0] in execWords
    || (words[0] !in {"edit", "top", "end", "up", "set", "delete"} && !Navigates(g, words[0]))
  }

  /** Any other command is judged by its own words - unless it is empty or for the exec mode - and moves nothing. */
  lemma OthersMoveNothing(g: Grammar, execWords: set<string>, a: seq<string>, command: string, b: seq<string>)
    requires g.flat && StaysPut(g, execWords, command)
    ensures Judging(g, execWords, a) <= Judging(g, execWords, a + b)
    ensures var words := WordsOf(g, command);
            Judging(g, execWords, a + [command] + b)
            == Judging(g, execWords, a) + (if words == [] || words[0] in execWords then [] else [words])
               + Judging(g, execWords, a + b)[|Judging(g, execWords, a)|..]
  {
    CommandAmong(g, execWords, a, command, b);
  }

  /** A word that leaves a section, typed where none is open, moves nothing. */
  lemma LeavingAtTopMovesNothing(g: Grammar, execWords: set<string>, leave: string, b: seq<string>)
    requires g.flat && Leaves(g, execWords, leave)
    ensures Judging(g, execWords, [leave] + b) == Judging(g, execWords, b)
  {
    CommandAmong(g, execWords, [], leave, b);
    assert [] + [leave] + b == [leave] + b && [] + b == b;
  }

  predicate Leaves(g: Grammar, execWords: set<string>, command: string) {
    var words := WordsOf(g, command);
    && words != [] && words[0] !in execWords && words[0] !in {"edit", "top", "end", "up"}
    && (words[0] in g.navigation || "exit-" <= words[0])
  }

  /** Sections left again change nothing for the commands after them, wherever they are typed. */
  lemma SectionsLeaveNoTrace(g: Grammar, execWords: set<string>, a: seq<string>, scripts: seq<Script>, b: seq<string>)
    requires g.flat && Nested(g, execWords, scripts)
    ensures Judging(g, execWords, a) <= Judging(g, execWords, a + Keyed(scripts)) <= Judging(g, execWords, a + Keyed(scripts) + b)
    ensures Judging(g, execWords, a) <= Judging(g, execWords, a + b)
    ensures Judging(g, execWords, a + Keyed(scripts) + b)[|Judging(g, execWords, a + Keyed(scripts))|..]
         == Judging(g, execWords, a + b)[|Judging(g, execWords, a)|..]
  {
    hide TypedFrom;
    hide JudgedWords;
    hide PathFrom;
    hide Keyed;
    var path, keyed := PathFrom(g, execWords, a, Some([])), Keyed(scripts);
    ScriptInTurn(g, execWords, a, keyed, Some([]));
    ScriptInTurn(g, execWords, a + keyed, b, Some([]));
    ScriptInTurn(g, execWords, a, b, Some([]));
    ScriptsEndWhereTheyBegin(g, execWords, scripts, path);
    JudgedInTurn(TypedCommands(g, execWords, a), TypedFrom(g, execWords, keyed, path));
    JudgedInTurn(TypedCommands(g, execWords, a + keyed), TypedFrom(g, execWords, b, path));
    JudgedInTurn(TypedCommands(g, execWords, a), TypedFrom(g, execWords, b, path));
  }

  lemma {:induction false} ScriptsEndWhereTheyBegin(g: Grammar, execWords: set<string>, scripts: seq<Script>, path: EditPath)
    requires g.flat && Nested(g, execWords, scripts)
    ensures PathFrom(g, execWords, Keyed(scripts), path) == path
    decreases scripts, 1
  {
    if path.Some? {
      ScriptsAreAbsolute(g, execWords, scripts, path.value);
    } else if scripts != [] {
      ScriptEndsWhereItBegins(g, execWords, scripts[0]);
      ScriptsEndWhereTheyBegin(g, execWords, scripts[1..], None);
      ScriptInTurn(g, execWords, KeyedOne(scripts[0]), Keyed(scripts[1..]), None);
    }
  }

  lemma {:induction false} ScriptEndsWhereItBegins(g: Grammar, execWords: set<string>, script: Script)
    requires g.flat && NestedOne(g, execWords, script)
    ensures PathFrom(g, execWords, KeyedOne(script), None) == None
    decreases script, 0
  {
    match script {
      case Setting(sent) =>
        OneCommand(g, execWords, sent, None);
      case Section(edit, under, leave) =>
        OneCommand(g, execWords, edit, None);
        ScriptsEndWhereTheyBegin(g, execWords, under, None);
        OneCommand(g, execWords, leave, None);
        SectionInTurn(g, execWords, edit, Keyed(under), leave, None, None);
    }
  }

  /** Which commands of a flat configuration are not judged: those for the exec mode, and those that only move. */
  lemma {:induction false} FlatKinds(g: Grammar, execWords: set<string>, commands: seq<string>, path: EditPath, i: nat, rest: seq<string>)
    requires g.flat && i < |commands|
    ensures var typed, words := TypedFrom(g, execWords, commands, path), WordsOf(g, commands[i]);
            |typed| == |commands|
            && (typed[i].exec <==> words != [] && words[0] in execWords)
            && (words == [] || Restarts(g, execWords, commands[i]) || Climbs(g, execWords, commands[i])
                || Leaves(g, execWords, commands[i]) || (words[0] == "edit" && !typed[i].exec) ==>
                  typed[i].navigation && typed[i].words == words)
            && (Runs(g, execWords, commands[i], rest) || Sets(g, execWords, commands[i]) || typed[i].exec ==> !typed[i].navigation)
            && (words != [] && StaysPut(g, execWords, commands[i]) ==> !typed[i].navigation && typed[i].words == words)
    decreases i
  {
    TypedIsWellTyped(g, execWords, commands, path);
    if i > 0 {
      FlatKinds(g, execWords, commands[1..], PathAfter(g, execWords, commands[0], path), i - 1, rest);
      hide TypedAs;
      hide PathAfter;
      hide Runs;
      hide StaysPut;
    } else if Runs(g, execWords, commands[0], rest) {
      RestIs(g, execWords, commands[0], rest, path);
    }
  }

  /** Where a configuration has sections, each command is typed by itself. */
  lemma {:induction false} EachByItself(g: Grammar, execWords: set<string>, commands: seq<string>, path: EditPath, i: nat)
    requires !g.flat && i < |commands|
    ensures var typed, words := TypedFrom(g, execWords, commands, path), WordsOf(g, commands[i]);
            |typed| == |commands|
            && typed[i].sent == commands[i] && typed[i].words == words
            && (typed[i].exec <==> words != [] && words[0] in execWords)
            && (typed[i].navigation <==> words == [] || (!typed[i].exec && (words[0] in g.navigation || "exit-" <= words[0])))
    decreases i
  {
    TypedIsWellTyped(g, execWords, commands, path);
    if i > 0 {
      EachByItself(g, execWords, commands[1..], PathAfter(g, execWords, commands[0], path), i - 1);
    }
  }
}
