/**
 What every row of a configuration does to the lines read: the parser's stack against the rows themselves.
 */
module ConfigLaws {
  import opened Config

  predicate AllIn(s: string, chars: set<char>) {
    forall ch | ch in s :: ch in chars
  }

  /** A row taken apart: white space, then a text with none at either end, then white space. */
  predicate Consists(g: Grammar, row: string, lead: string, raw: string, trail: string) {
    && row == lead + raw + trail && AllIn(lead, g.spaces) && AllIn(trail, g.spaces)
    && raw != "" && raw[0] !in g.spaces && raw[|raw| - 1] !in g.spaces
  }

  lemma {:induction false} IndentIs(g: Grammar, lead: string, rest: string)
    requires AllIn(lead, g.spaces) && (rest == "" || rest[0] !in g.spaces)
    ensures Indent(lead + rest, g.spaces) == |lead|
  {
    if lead == "" {
      assert lead + rest == rest;
    } else {
      assert lead[0] in lead && (lead + rest)[1..] == lead[1..] + rest;
      IndentIs(g, lead[1..], rest);
    }
  }

  lemma {:induction false} TrimIs(g: Grammar, raw: string, trail: string)
    requires AllIn(trail, g.spaces) && (raw == "" || raw[|raw| - 1] !in g.spaces)
    ensures TrimRight(raw + trail, g.spaces) == raw
    decreases |trail|
  {
    var s := raw + trail;
    if trail == "" {
      assert s == raw;
    } else {
      assert s[|s| - 1] == trail[|trail| - 1] && trail[|trail| - 1] in trail;
      assert s[..|s| - 1] == raw + trail[..|trail| - 1];
      TrimIs(g, raw, trail[..|trail| - 1]);
    }
  }

  lemma RowIs(g: Grammar, row: string, lead: string, raw: string, trail: string)
    requires Consists(g, row, lead, raw, trail)
    ensures Indent(row, g.spaces) == |lead| && Strip(row, g.spaces) == raw
    ensures row[0] in g.spaces <==> lead != ""
  {
    assert row == lead + (raw + trail);
    IndentIs(g, lead, raw + trail);
    assert row[|lead|..] == raw + trail;
    TrimIs(g, raw, trail);
    assert lead != "" ==> lead[0] in lead;
  }

  lemma BlankIs(g: Grammar, row: string)
    requires AllIn(row, g.spaces)
    ensures Strip(row, g.spaces) == ""
  {
    assert row + "" == row;
    IndentIs(g, row, "");
  }

  lemma {:induction false} TrimmedOf(g: Grammar, s: string) returns (trail: string)
    ensures s == TrimRight(s, g.spaces) + trail && AllIn(trail, g.spaces)
    ensures var raw := TrimRight(s, g.spaces); raw == "" || raw[|raw| - 1] !in g.spaces
  {
    if s != "" && s[|s| - 1] in g.spaces {
      var rest := TrimmedOf(g, s[..|s| - 1]);
      trail := rest + [s[|s| - 1]];
    } else {
      trail := "";
    }
  }

  lemma {:induction false} IndentedBy(g: Grammar, row: string)
    ensures var n := Indent(row, g.spaces); AllIn(row[..n], g.spaces) && (n == |row| || row[n] !in g.spaces)
  {
    if row != "" && row[0] in g.spaces {
      IndentedBy(g, row[1..]);
      var n := Indent(row[1..], g.spaces);
      assert row[..n + 1] == [row[0]] + row[1..][..n];
    }
  }

  /** Every row is blank, or can be taken apart like that. */
  lemma EveryRowConsists(g: Grammar, row: string) returns (lead: string, raw: string, trail: string)
    ensures AllIn(row, g.spaces) || Consists(g, row, lead, raw, trail)
  {
    var n := Indent(row, g.spaces);
    IndentedBy(g, row);
    lead, raw := row[..n], TrimRight(row[n..], g.spaces);
    trail := TrimmedOf(g, row[n..]);
    assert row == lead + row[n..];
    if raw != "" {
      assert raw[0] == row[n..][0];
    } else {
      assert row[n..] == trail;
      assert forall ch | ch in row :: ch in lead || ch in trail;
    }
  }

  // ---------- The words of a text ----------

  /** Words with gaps between them: one before each and one after the last. */
  function Spaced(words: seq<string>, gaps: seq<string>): string
    requires |gaps| == |words| + 1
  {
    if words == [] then gaps[0] else gaps[0] + words[0] + Spaced(words[1..], gaps[1..])
  }

  ghost predicate AreSpaced(words: seq<string>, gaps: seq<string>, separators: set<char>) {
    && |gaps| == |words| + 1
    && (forall k | 0 <= k < |words| :: words[k] != "" && forall ch | ch in words[k] :: ch !in separators)
    && (forall k | 0 <= k < |gaps| :: AllIn(gaps[k], separators))
    && (forall k | 0 < k < |words| :: gaps[k] != "")
  }

  lemma {:induction false} SkipGap(gap: string, rest: string, separators: set<char>)
    requires AllIn(gap, separators)
    ensures Fields(gap + rest, separators) == Fields(rest, separators)
  {
    if gap == "" {
      assert gap + rest == rest;
    } else {
      assert gap[0] in gap && (gap + rest)[1..] == gap[1..] + rest;
      SkipGap(gap[1..], rest, separators);
    }
  }

  lemma {:induction false} WordLength(word: string, rest: string, separators: set<char>)
    requires (forall ch | ch in word :: ch !in separators) && (rest == "" || rest[0] in separators)
    ensures FieldLength(word + rest, separators) == |word|
  {
    if word == "" {
      assert word + rest == rest;
    } else {
      assert word[0] in word && (word + rest)[1..] == word[1..] + rest;
      WordLength(word[1..], rest, separators);
    }
  }

  lemma TakeWord(word: string, rest: string, separators: set<char>)
    requires word != "" && (forall ch | ch in word :: ch !in separators) && (rest == "" || rest[0] in separators)
    ensures Fields(word + rest, separators) == [word] + Fields(rest, separators)
  {
    WordLength(word, rest, separators);
    assert word[0] in word && (word + rest)[..|word|] == word && (word + rest)[|word|..] == rest;
  }

  lemma {:induction false} FieldsAre(words: seq<string>, gaps: seq<string>, separators: set<char>)
    requires AreSpaced(words, gaps, separators)
    ensures Fields(Spaced(words, gaps), separators) == words
  {
    if words == [] {
      SkipGap(gaps[0], "", separators);
      assert gaps[0] + "" == gaps[0];
    } else {
      var rest := Spaced(words[1..], gaps[1..]);
      FieldsAre(words[1..], gaps[1..], separators);
      assert rest == "" || rest[0] in separators by {
        assert AllIn(gaps[1], separators) && (gaps[1] == "" ==> |words| == 1);
        assert gaps[1] != "" ==> rest[0] == gaps[1][0] && gaps[1][0] in gaps[1];
      }
      TakeWord(words[0], rest, separators);
      SkipGap(gaps[0], words[0] + rest, separators);
      assert gaps[0] + words[0] + rest == gaps[0] + (words[0] + rest);
    }
  }

  /** The words of a text are what stands between white space and commas - its first word is what stands before white space. */
  lemma WordsAreSpaced(g: Grammar, text: string, words: seq<string>, gaps: seq<string>)
    ensures AreSpaced(words, gaps, g.spaces + {','}) && g.normalize(text) == Spaced(words, gaps) ==> WordsOf(g, text) == words
    ensures AreSpaced(words, gaps, g.spaces) && g.normalize(text) == Spaced(words, gaps) ==>
              FirstWord(g, text) == if words == [] then "" else words[0]
  {
    if AreSpaced(words, gaps, g.spaces + {','}) {
      FieldsAre(words, gaps, g.spaces + {','});
    }
    if AreSpaced(words, gaps, g.spaces) {
      FieldsAre(words, gaps, g.spaces);
    }
  }

  // ---------- One row among others ----------

  /** What one row does to the lines of any rows around it. */
  lemma RowAmong(g: Grammar, a: seq<string>, row: string, b: seq<string>)
    ensures var stack := StackFrom(g, a, []);
            Lines(g, a + [row] + b)
            == Lines(g, a) + LineOf(g, row, stack) + LinesFrom(g, b, StackAfter(g, row, stack))
    ensures Lines(g, a + b) == Lines(g, a) + LinesFrom(g, b, StackFrom(g, a, []))
  {
    hide LineOf;
    hide StackAfter;
    RowsInTurn(g, a, [row] + b, []);
    RowsInTurn(g, a, b, []);
    assert a + [row] + b == a + ([row] + b);
    assert ([row] + b)[1..] == b;
  }

  /** A comment at column 0 ends every section: what comes after it is read from the top. */
  lemma CommentEndsSections(g: Grammar, a: seq<string>, row: string, raw: string, trail: string, b: seq<string>)
    requires Consists(g, row, "", raw, trail) && raw[0] in {'!', '#'}
    ensures Lines(g, a + [row] + b) == Lines(g, a) + Lines(g, b)
  {
    RowIs(g, row, "", raw, trail);
    RowAmong(g, a, row, b);
  }

  /** A blank row, or an indented comment, might as well not be there. */
  lemma BlankIsNothing(g: Grammar, a: seq<string>, row: string, b: seq<string>)
    requires AllIn(row, g.spaces)
    ensures Lines(g, a + [row] + b) == Lines(g, a + b)
  {
    BlankIs(g, row);
    RowAmong(g, a, row, b);
  }

  lemma IndentedCommentIsNothing(g: Grammar, a: seq<string>, row: string, lead: string, raw: string, trail: string, b: seq<string>)
    requires Consists(g, row, lead, raw, trail) && lead != "" && raw[0] in {'!', '#'}
    ensures Lines(g, a + [row] + b) == Lines(g, a + b)
  {
    RowIs(g, row, lead, raw, trail);
    RowAmong(g, a, row, b);
  }

  /** In a flat configuration any other row is one line, at the top, whatever its indentation and its first word. */
  lemma FlatRowIsLine(g: Grammar, a: seq<string>, row: string, lead: string, raw: string, trail: string, b: seq<string>)
    requires g.flat && Consists(g, row, lead, raw, trail) && raw[0] !in {'!', '#'}
    ensures Lines(g, a + [row] + b) == Lines(g, a) + [Line([], g.normalize(raw), raw)] + Lines(g, b)
  {
    RowIs(g, row, lead, raw, trail);
    RowAmong(g, a, row, b);
    FlatIgnoresStack(g, b, StackFrom(g, a, []), []);
  }

  lemma {:induction false} FlatIgnoresStack(g: Grammar, rows: seq<string>, s: seq<Level>, t: seq<Level>)
    requires g.flat
    ensures LinesFrom(g, rows, s) == LinesFrom(g, rows, t)
  {
    if rows != [] {
      FlatIgnoresStack(g, rows[1..], StackAfter(g, rows[0], s), StackAfter(g, rows[0], t));
    }
  }

  // ---------- The section of a row, looked up from below ----------

  /** The headers above a row this far in, after the first i rows: those of the nearest row further out, and that row itself
      unless it only moves. Nothing is above a row after a comment at column 0. */
  function HeadersAbove(g: Grammar, rows: seq<string>, i: nat, indent: nat): Path
    requires i <= |rows|
    decreases i
  {
    if i == 0 then []
    else
      var row := rows[i - 1];
      WithRow(g, row, indent, HeadersAbove(g, rows, i - 1, indent), HeadersAbove(g, rows, i - 1, Indent(row, g.spaces)))
  }

  /** ... by the last of those rows: `before`, the headers without it, and `above`, those above itself. */
  function WithRow(g: Grammar, row: string, indent: nat, before: Path, above: Path): Path {
    var raw, out := Strip(row, g.spaces), Indent(row, g.spaces);
    if raw == "" then before
    else if IsComment(raw) then (if out == 0 then [] else before)
    else if out >= indent then before
    else above + (if Navigates(g, FirstWord(g, raw)) then [] else [g.normalize(raw)])
  }

  lemma {:induction false} PopTwice(stack: seq<Level>, deep: nat, indent: nat)
    ensures PopTo(PopTo(stack, deep), indent) == PopTo(stack, if indent <= deep then indent else deep)
  {
    if stack != [] && stack[|stack| - 1].indent >= deep {
      PopTwice(stack[..|stack| - 1], deep, indent);
    }
  }

  lemma {:induction false} StackIsHeadersAbove(g: Grammar, rows: seq<string>, i: nat, indent: nat)
    requires !g.flat && i <= |rows|
    ensures Texts(PopTo(StackFrom(g, rows[..i], []), indent)) == HeadersAbove(g, rows, i, indent)
    decreases i
  {
    hide *;
    if i == 0 {
      NoneAbove(g, rows, indent);
    } else {
      var row, stack := rows[i - 1], StackFrom(g, rows[..i - 1], []);
      StackOneMore(g, rows, i - 1);
      StackIsHeadersAbove(g, rows, i - 1, indent);
      StackIsHeadersAbove(g, rows, i - 1, Indent(row, g.spaces));
      HeadersInTurn(g, row, stack, indent);
      HeadersOneMore(g, rows, i - 1, indent);
    }
  }

  lemma NoneAbove(g: Grammar, rows: seq<string>, indent: nat)
    ensures Texts(PopTo(StackFrom(g, rows[..0], []), indent)) == HeadersAbove(g, rows, 0, indent)
  {
  }

  lemma HeadersOneMore(g: Grammar, rows: seq<string>, i: nat, indent: nat)
    requires i < |rows|
    ensures HeadersAbove(g, rows, i + 1, indent)
         == WithRow(g, rows[i], indent, HeadersAbove(g, rows, i, indent), HeadersAbove(g, rows, i, Indent(rows[i], g.spaces)))
  {
  }

  lemma HeadersInTurn(g: Grammar, row: string, stack: seq<Level>, indent: nat)
    requires !g.flat
    ensures Texts(PopTo(StackAfter(g, row, stack), indent))
         == WithRow(g, row, indent, Texts(PopTo(stack, indent)), Texts(PopTo(stack, Indent(row, g.spaces))))
  {
    hide Navigates;
    hide FirstWord;
    hide Strip;
    var raw, out := Strip(row, g.spaces), Indent(row, g.spaces);
    assert out == 0 <==> row == "" || row[0] !in g.spaces;
    if row == "" {
      BlankIs(g, row);
    }
    PopTwice(stack, out, indent);
    PopPushed(PopTo(stack, out), Level(out, g.normalize(raw)), indent);
    hide PopTo;
    hide Texts;
    assert Texts([]) == [];
  }

  lemma PopPushed(kept: seq<Level>, level: Level, indent: nat)
    ensures PopTo(kept + [level], indent) == if level.indent >= indent then PopTo(kept, indent) else kept + [level]
    ensures Texts(kept + [level]) == Texts(kept) + [level.text]
  {
    assert (kept + [level])[..|kept|] == kept;
  }

  lemma StackOneMore(g: Grammar, rows: seq<string>, i: nat)
    requires i < |rows|
    ensures StackFrom(g, rows[..i + 1], []) == StackAfter(g, rows[i], StackFrom(g, rows[..i], []))
    ensures Lines(g, rows[..i + 1]) == Lines(g, rows[..i]) + LineOf(g, rows[i], StackFrom(g, rows[..i], []))
  {
    hide LineOf;
    hide StackAfter;
    assert rows[..i + 1] == rows[..i] + [rows[i]] && [rows[i]][1..] == [];
    RowsInTurn(g, rows[..i], [rows[i]], []);
  }

  /** Whatever the indentation, each row that is a line has exactly the headers above it as its path. */
  lemma PathIsHeadersAbove(g: Grammar, rows: seq<string>, i: nat, lead: string, raw: string, trail: string)
    requires !g.flat && i < |rows| && Consists(g, rows[i], lead, raw, trail) && raw[0] !in {'!', '#'}
    ensures Lines(g, rows[..i + 1])
         == Lines(g, rows[..i])
            + (if FirstWord(g, raw) in g.navigation || "exit-" <= FirstWord(g, raw) then []
               else [Line(HeadersAbove(g, rows, i, |lead|), g.normalize(raw), raw)])
  {
    RowIs(g, rows[i], lead, raw, trail);
    StackOneMore(g, rows, i);
    StackIsHeadersAbove(g, rows, i, |lead|);
  }

  /** What is read of the first rows stays read. */
  lemma EarlierLinesStay(g: Grammar, a: seq<string>, b: seq<string>)
    ensures Lines(g, a) <= Lines(g, a + b)
  {
    RowsInTurn(g, a, b, []);
  }
}
