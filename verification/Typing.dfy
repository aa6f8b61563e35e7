/**
 The commands as judged: which only move, and - in flat configurations - the full words a relative
 "set" or "delete" stands for under the "edit" path.
 */
module Typing {
  import opened Config
  import opened Verdicts
  import opened Options

  /** The words of each open "edit", outermost first; None after an "up": how far it climbs can't be known. */
  type EditPath = Option<seq<seq<string>>>

  predicate IsNumber(word: string) {
    word != "" && forall ch | ch in word :: '0' <= ch <= '9'
  }

  /** "top set ...", "up 2 activate ...": the rest of the line runs there. */
  predicate RunsElsewhere(words: seq<string>) {
    && words != [] && words[0] in {"top", "up"} && |words| > 1
    && !(words[0] == "up" && |words| == 2 && IsNumber(words[1]))
  }

  function Flatten(levels: seq<seq<string>>): seq<string> {
    if levels == [] then [] else levels[0] + Flatten(levels[1..])
  }

  function TypedAs(g: Grammar, execWords: set<string>, command: string, path: EditPath): Typed {
    var words := WordsOf(g, command);
    if words == [] then Typed(command, words, true, false)
    else if words[0] in execWords then Typed(command, words, false, true)
    else if !g.flat then Typed(command, words, Navigates(g, words[0]), false)
    else if RunsElsewhere(words) then
      var rest := if words[0] == "up" && IsNumber(words[1]) then words[2..] else words[1..];
      Typed(command, rest, rest == [], false)
    else if words[0] in {"edit", "top", "end", "up"} || Navigates(g, words[0]) then Typed(command, words, true, false)
    else if words[0] in {"set", "delete"} && path.Some? then
      Typed(command, [words[0]] + Flatten(path.value) + words[1..], false, false)
    else Typed(command, words, false, false)
  }

  function PathAfter(g: Grammar, execWords: set<string>, command: string, path: EditPath): EditPath {
    var words := WordsOf(g, command);
    if words == [] || words[0] in execWords || !g.flat || RunsElsewhere(words) then path
    else if words[0] == "edit" then (if path.Some? then Some(path.value + [words[1..]]) else None)
    else if words[0] in {"top", "end"} then Some([])
    else if words[0] == "up" then None
    else if Navigates(g, words[0]) then
      (if path.Some? && path.value != [] then Some(path.value[..|path.value| - 1]) else path)
    else path
  }

  function TypedFrom(g: Grammar, execWords: set<string>, commands: seq<string>, path: EditPath): seq<Typed> {
    if commands == [] then []
    else
      [TypedAs(g, execWords, commands[0], path)]
      + TypedFrom(g, execWords, commands[1..], PathAfter(g, execWords, commands[0], path))
  }

  function PathFrom(g: Grammar, execWords: set<string>, commands: seq<string>, path: EditPath): EditPath {
    if commands == [] then path
    else PathFrom(g, execWords, commands[1..], PathAfter(g, execWords, commands[0], path))
  }

  function TypedCommands(g: Grammar, execWords: set<string>, commands: seq<string>): seq<Typed> {
    TypedFrom(g, execWords, commands, Some([]))
  }

  /** One pass over the commands with the open "edit" path, as the program types them. */
  method TypeCommands(g: Grammar, execWords: set<string>, commands: seq<string>) returns (typed: seq<Typed>)
    ensures typed == TypedCommands(g, execWords, commands)
    ensures WellTyped(typed) && |typed| == |commands|
    ensures forall i | 0 <= i < |commands| :: typed[i].sent == commands[i]
  {
    typed := [];
    var path: EditPath := Some([]);
    assert commands[0..] == commands;
    for i := 0 to |commands|
      invariant typed + TypedFrom(g, execWords, commands[i..], path) == TypedCommands(g, execWords, commands)
    {
      TypedInTurn(g, execWords, commands, i, path, typed);
      var command := commands[i];
      var words := WordsOf(g, command);
      if words != [] && words[0] in execWords {
        typed := typed + [Typed(command, words, false, true)];
      } else if !g.flat || words == [] {
        typed := typed + [Typed(command, words, words == [] || Navigates(g, words[0]), false)];
      } else if RunsElsewhere(words) {
        var rest := if words[0] == "up" && IsNumber(words[1]) then words[2..] else words[1..];
        typed := typed + [Typed(command, rest, rest == [], false)];
      } else if words[0] == "edit" {
        if path.Some? {
          path := Some(path.value + [words[1..]]);
        }
        typed := typed + [Typed(command, words, true, false)];
      } else if words[0] in {"top", "end"} {
        path := Some([]);
        typed := typed + [Typed(command, words, true, false)];
      } else if words[0] == "up" {
        path := None;
        typed := typed + [Typed(command, words, true, false)];
      } else if Navigates(g, words[0]) {
        if path.Some? && path.value != [] {
          path := Some(path.value[..|path.value| - 1]);
        }
        typed := typed + [Typed(command, words, true, false)];
      } else if words[0] in {"set", "delete"} {
        var full := if path.Some? then Flatten(path.value) else [];
        typed := typed + [Typed(command, [words[0]] + full + words[1..], false, false)];
        assert path.None? ==> [words[0]] + full + words[1..] == words;
      } else {
        typed := typed + [Typed(command, words, false, false)];
      }
    }
    TypedIsWellTyped(g, execWords, commands, Some([]));
  }

  lemma TypedInTurn(g: Grammar, execWords: set<string>, commands: seq<string>, i: nat, path: EditPath, before: seq<Typed>)
    requires i < |commands|
    ensures before + TypedFrom(g, execWords, commands[i..], path)
            == before + [TypedAs(g, execWords, commands[i], path)]
               + TypedFrom(g, execWords, commands[i + 1..], PathAfter(g, execWords, commands[i], path))
  {
    assert commands[i..][1..] == commands[i + 1..];
  }

  /** A command that is judged has words - the judge may look at its first. */
  lemma {:induction false} TypedIsWellTyped(g: Grammar, execWords: set<string>, commands: seq<string>, path: EditPath)
    ensures var typed := TypedFrom(g, execWords, commands, path);
            && WellTyped(typed) && |typed| == |commands|
            && forall i | 0 <= i < |commands| :: typed[i].sent == commands[i]
  {
    if commands != [] {
      TypedIsWellTyped(g, execWords, commands[1..], PathAfter(g, execWords, commands[0], path));
    }
  }

  // ---------- Relative commands stand for the absolute ones ----------

  /** A flat configuration's commands as typed: settings, and "edit" sections left again. */
  datatype Script = Setting(sent: string) | Section(edit: string, under: seq<Script>, leave: string)

  function Keyed(scripts: seq<Script>): seq<string> {
    if scripts == [] then [] else KeyedOne(scripts[0]) + Keyed(scripts[1..])
  }

  function KeyedOne(script: Script): seq<string> {
    match script
    case Setting(sent) => [sent]
    case Section(edit, under, leave) => [edit] + Keyed(under) + [leave]
  }

  predicate Nested(g: Grammar, execWords: set<string>, scripts: seq<Script>) {
    forall i | 0 <= i < |scripts| :: NestedOne(g, execWords, scripts[i])
  }

  predicate NestedOne(g: Grammar, execWords: set<string>, script: Script) {
    match script
    case Setting(sent) =>
      var words := WordsOf(g, sent);
      words != [] && words[0] in {"set", "delete"} && words[0] !in execWords && !Navigates(g, words[0])
    case Section(edit, under, leave) =>
      var first, last := WordsOf(g, edit), WordsOf(g, leave);
      && first != [] && first[0] == "edit" && "edit" !in execWords
      && last != [] && Navigates(g, last[0]) && last[0] !in {"edit", "top", "end", "up"} && last[0] !in execWords
      && Nested(g, execWords, under)
  }

  /** The same settings written in full from the top, in order. */
  function Absolute(g: Grammar, scripts: seq<Script>, path: seq<string>): seq<seq<string>> {
    if scripts == [] then [] else AbsoluteOne(g, scripts[0], path) + Absolute(g, scripts[1..], path)
  }

  function AbsoluteOne(g: Grammar, script: Script, path: seq<string>): seq<seq<string>> {
    match script
    case Setting(sent) =>
      var words := WordsOf(g, sent);
      if words == [] then [[]] else [[words[0]] + path + words[1..]]
    case Section(edit, under, leave) =>
      var words := WordsOf(g, edit);
      Absolute(g, under, path + (if words == [] then [] else words[1..]))
  }

  function JudgedWords(typed: seq<Typed>): seq<seq<string>> {
    if typed == [] then []
    else (if Judged(typed[0]) then [typed[0].words] else []) + JudgedWords(typed[1..])
  }

  lemma {:induction false} JudgedInTurn(a: seq<Typed>, b: seq<Typed>)
    ensures JudgedWords(a + b) == JudgedWords(a) + JudgedWords(b)
  {
    if a == [] {
      assert a + b == b;
    } else {
      assert (a + b)[1..] == a[1..] + b;
      JudgedInTurn(a[1..], b);
    }
  }

  lemma {:induction false} ScriptInTurn(g: Grammar, execWords: set<string>, a: seq<string>, b: seq<string>, path: EditPath)
    ensures TypedFrom(g, execWords, a + b, path)
            == TypedFrom(g, execWords, a, path) + TypedFrom(g, execWords, b, PathFrom(g, execWords, a, path))
    ensures PathFrom(g, execWords, a + b, path) == PathFrom(g, execWords, b, PathFrom(g, execWords, a, path))
  {
    hide TypedAs;
    hide PathAfter;
    if a == [] {
      assert a + b == b;
    } else {
      assert (a + b)[1..] == a[1..] + b;
      ScriptInTurn(g, execWords, a[1..], b, PathAfter(g, execWords, a[0], path));
    }
  }

  lemma {:induction false} FlattenOneMore(levels: seq<seq<string>>, level: seq<string>)
    ensures Flatten(levels + [level]) == Flatten(levels) + level
  {
    if levels == [] {
      assert Flatten([level][1..]) == [];
    } else {
      assert (levels + [level])[1..] == levels[1..] + [level];
      FlattenOneMore(levels[1..], level);
    }
  }

  lemma OneCommand(g: Grammar, execWords: set<string>, command: string, path: EditPath)
    ensures TypedFrom(g, execWords, [command], path) == [TypedAs(g, execWords, command, path)]
    ensures PathFrom(g, execWords, [command], path) == PathAfter(g, execWords, command, path)
    ensures var one := TypedAs(g, execWords, command, path);
            JudgedWords([one]) == if Judged(one) then [one.words] else []
  {
    hide TypedAs;
    hide PathAfter;
    assert [command][1..] == [];
    assert JudgedWords([TypedAs(g, execWords, command, path)][1..]) == [];
  }

  lemma {:induction false} ScriptsAreAbsolute(g: Grammar, execWords: set<string>, scripts: seq<Script>, levels: seq<seq<string>>)
    requires g.flat && Nested(g, execWords, scripts)
    ensures JudgedWords(TypedFrom(g, execWords, Keyed(scripts), Some(levels))) == Absolute(g, scripts, Flatten(levels))
    ensures PathFrom(g, execWords, Keyed(scripts), Some(levels)) == Some(levels)
    decreases scripts, 1
  {
    if scripts != [] {
      var one, rest := KeyedOne(scripts[0]), Keyed(scripts[1..]);
      ScriptIsAbsolute(g, execWords, scripts[0], levels);
      ScriptsAreAbsolute(g, execWords, scripts[1..], levels);
      ScriptInTurn(g, execWords, one, rest, Some(levels));
      JudgedInTurn(TypedFrom(g, execWords, one, Some(levels)), TypedFrom(g, execWords, rest, Some(levels)));
    }
  }

  lemma {:induction false} ScriptIsAbsolute(g: Grammar, execWords: set<string>, script: Script, levels: seq<seq<string>>)
    requires g.flat && NestedOne(g, execWords, script)
    ensures JudgedWords(TypedFrom(g, execWords, KeyedOne(script), Some(levels))) == AbsoluteOne(g, script, Flatten(levels))
    ensures PathFrom(g, execWords, KeyedOne(script), Some(levels)) == Some(levels)
    decreases script, 0
  {
    match script {
      case Setting(sent) =>
        OneCommand(g, execWords, sent, Some(levels));
      case Section(edit, under, leave) =>
        var inner := levels + [WordsOf(g, edit)[1..]];
        OneCommand(g, execWords, edit, Some(levels));
        FlattenOneMore(levels, WordsOf(g, edit)[1..]);
        ScriptsAreAbsolute(g, execWords, under, inner);
        OneCommand(g, execWords, leave, Some(inner));
        SectionInTurn(g, execWords, edit, Keyed(under), leave, Some(levels), Some(inner));
        assert inner[..|inner| - 1] == levels;
    }
  }

  lemma SectionInTurn(g: Grammar, execWords: set<string>, edit: string, under: seq<string>, leave: string, path: EditPath, inner: EditPath)
    requires PathFrom(g, execWords, [edit], path) == inner && PathFrom(g, execWords, under, inner) == inner
    ensures JudgedWords(TypedFrom(g, execWords, [edit] + under + [leave], path))
            == JudgedWords(TypedFrom(g, execWords, [edit], path)) + JudgedWords(TypedFrom(g, execWords, under, inner))
               + JudgedWords(TypedFrom(g, execWords, [leave], inner))
    ensures PathFrom(g, execWords, [edit] + under + [leave], path) == PathFrom(g, execWords, [leave], inner)
  {
    hide TypedAs;
    hide PathAfter;
    hide TypedFrom;
    hide JudgedWords;
    ScriptInTurn(g, execWords, [edit], under, path);
    ScriptInTurn(g, execWords, [edit] + under, [leave], path);
    JudgedInTurn(TypedFrom(g, execWords, [edit], path), TypedFrom(g, execWords, under, inner));
    JudgedInTurn(TypedFrom(g, execWords, [edit] + under, path), TypedFrom(g, execWords, [leave], inner));
  }

  /** However deep its "edit" sections, a script is judged by the very words of the settings written in full. */
  lemma RelativeIsAbsolute(g: Grammar, execWords: set<string>, scripts: seq<Script>)
    requires g.flat && Nested(g, execWords, scripts)
    ensures JudgedWords(TypedCommands(g, execWords, Keyed(scripts))) == Absolute(g, scripts, [])
  {
    ScriptsAreAbsolute(g, execWords, scripts, []);
  }
}
