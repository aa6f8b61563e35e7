/**
 A device's configuration as lines with the section headers above each: the parser, what it
 guarantees about sections, and its inverse.

 `normalize` (spacing, case and quoting) is a parameter: everything here holds for any of them.
 */
module Config {

  type Path = seq<string>

  /** How a platform's configuration is read. */
  datatype Grammar = Grammar(
    normalize: string -> string,
    spaces: set<char>,            // white space
    navigation: set<string>,      // first words of the lines that only move between sections
    flat: bool)                   // lines carry their whole setting: no paths

  datatype Key = Key(path: Path, text: string)

  /** One config line: the headers above it, its text as compared, and as printed. */
  datatype Line = Line(path: Path, text: string, raw: string) {
    function AsKey(): Key { Key(path, text) }

    /** The path with its own text as the last header. */
    function Inside(): Path { path + [text] }
  }

  // ---------- Words of a text ----------

  function FieldLength(s: string, separators: set<char>): (n: nat)
    ensures n <= |s|
    ensures s != "" && s[0] !in separators ==> n > 0
  {
    if s == "" || s[0] in separators then 0 else 1 + FieldLength(s[1..], separators)
  }

  function Fields(s: string, separators: set<char>): seq<string> {
    if s == "" then []
    else if s[0] in separators then Fields(s[1..], separators)
    else
      var n := FieldLength(s, separators);
      [s[..n]] + Fields(s[n..], separators)
  }

  /** The fields of the normalised text, split at spaces and at commas. */
  function WordsOf(g: Grammar, text: string): seq<string> {
    Fields(g.normalize(text), g.spaces + {','})
  }

  function FirstWord(g: Grammar, text: string): string {
    var fields := Fields(g.normalize(text), g.spaces);
    if fields == [] then "" else fields[0]
  }

  predicate Navigates(g: Grammar, word: string) {
    word in g.navigation || "exit-" <= word
  }

  // ---------- The parser ----------

  /** How far a row is indented. */
  function Indent(row: string, spaces: set<char>): (n: nat)
    ensures n <= |row|
  {
    if row != "" && row[0] in spaces then 1 + Indent(row[1..], spaces) else 0
  }

  function TrimRight(s: string, spaces: set<char>): string {
    if s != "" && s[|s| - 1] in spaces then TrimRight(s[..|s| - 1], spaces) else s
  }

  function Strip(row: string, spaces: set<char>): string {
    TrimRight(row[Indent(row, spaces)..], spaces)
  }

  /** An open section: its header's indentation and text. */
  datatype Level = Level(indent: nat, text: string)

  /** The sections a row this far in leaves open. */
  function PopTo(stack: seq<Level>, indent: nat): (kept: seq<Level>)
    ensures kept <= stack
  {
    if stack != [] && stack[|stack| - 1].indent >= indent then PopTo(stack[..|stack| - 1], indent) else stack
  }

  function Texts(stack: seq<Level>): Path {
    seq(|stack|, i requires 0 <= i < |stack| => stack[i].text)
  }

  predicate IsComment(raw: string)
    requires raw != ""
  {
    raw[0] in {'!', '#'}
  }

  /** The line a row gives, none or one. */
  function LineOf(g: Grammar, row: string, stack: seq<Level>): (lines: seq<Line>) {
    var raw := Strip(row, g.spaces);
    if raw == "" || IsComment(raw) then []
    else if g.flat then [Line([], g.normalize(raw), raw)]
    else if Navigates(g, FirstWord(g, raw)) then []
    else [Line(Texts(PopTo(stack, Indent(row, g.spaces))), g.normalize(raw), raw)]
  }

  /** The open sections after a row. */
  function StackAfter(g: Grammar, row: string, stack: seq<Level>): seq<Level> {
    var raw := Strip(row, g.spaces);
    if raw == "" then stack
    else if IsComment(raw) then (if row != "" && row[0] in g.spaces then stack else [])
    else if g.flat then stack
    else
      var indent := Indent(row, g.spaces);
      var kept := PopTo(stack, indent);
      if Navigates(g, FirstWord(g, raw)) then kept else kept + [Level(indent, g.normalize(raw))]
  }

  /** The lines of the rows left, and the open sections after them. */
  function LinesFrom(g: Grammar, rows: seq<string>, stack: seq<Level>): seq<Line> {
    if rows == [] then []
    else LineOf(g, rows[0], stack) + LinesFrom(g, rows[1..], StackAfter(g, rows[0], stack))
  }

  function StackFrom(g: Grammar, rows: seq<string>, stack: seq<Level>): seq<Level> {
    if rows == [] then stack else StackFrom(g, rows[1..], StackAfter(g, rows[0], stack))
  }

  function Lines(g: Grammar, rows: seq<string>): seq<Line> {
    LinesFrom(g, rows, [])
  }

  lemma RowInTurn(g: Grammar, rows: seq<string>, i: nat, stack: seq<Level>, above: seq<Line>)
    requires i < |rows|
    ensures above + LinesFrom(g, rows[i..], stack)
            == above + LineOf(g, rows[i], stack) + LinesFrom(g, rows[i + 1..], StackAfter(g, rows[i], stack))
  {
    assert rows[i..][1..] == rows[i + 1..];
  }

  /** The parser as the program runs it: one pass with a stack of open sections. */
  method Parse(g: Grammar, rows: seq<string>) returns (lines: seq<Line>)
    ensures lines == Lines(g, rows)
    ensures Opened(lines)
  {
    ghost var whole := Lines(g, rows);
    lines := [];
    var stack: seq<Level> := [];
    assert rows[0..] == rows;
    for i := 0 to |rows|
      invariant lines + LinesFrom(g, rows[i..], stack) == whole
    {
      RowInTurn(g, rows, i, stack, lines);
      var next, open := ParseRow(g, rows[i], stack);
      lines, stack := lines + next, open;
    }
    LinesAreOpened(g, rows);
  }

  method ParseRow(g: Grammar, row: string, open: seq<Level>) returns (lines: seq<Line>, stack: seq<Level>)
    ensures lines == LineOf(g, row, open) && stack == StackAfter(g, row, open)
  {
    lines, stack := [], open;
    var raw := Strip(row, g.spaces);
    if raw == "" {
      return;
    }
    if IsComment(raw) {
      if row[0] !in g.spaces {
        stack := [];
      }
      return;
    }
    if g.flat {
      lines := [Line([], g.normalize(raw), raw)];
      return;
    }
    var indent := Indent(row, g.spaces);
    while stack != [] && stack[|stack| - 1].indent >= indent
      invariant PopTo(stack, indent) == PopTo(open, indent)
    {
      stack := stack[..|stack| - 1];
    }
    if !Navigates(g, FirstWord(g, raw)) {
      lines := [Line(Texts(stack), g.normalize(raw), raw)];
      stack := stack + [Level(indent, g.normalize(raw))];
    }
  }

  // ---------- Every section is one the device printed ----------

  /** Some line opens this section. */
  ghost predicate Opens(lines: seq<Line>, path: Path) {
    exists j :: 0 <= j < |lines| && lines[j].Inside() == path
  }

  /** Every non-empty path is opened by a line above. */
  ghost predicate Opened(lines: seq<Line>) {
    forall k | 0 <= k < |lines| && lines[k].path != [] :: Opens(lines[..k], lines[k].path)
  }

  ghost predicate StackOpened(stack: seq<Level>, lines: seq<Line>) {
    forall m | 0 < m <= |stack| :: Opens(lines, Texts(stack)[..m])
  }

  lemma OpensMore(a: seq<Line>, b: seq<Line>, path: Path)
    requires Opens(a, path)
    ensures Opens(a + b, path)
  {
    var j :| 0 <= j < |a| && a[j].Inside() == path;
    assert (a + b)[j] == a[j];
  }

  lemma StackOpenedByMore(stack: seq<Level>, a: seq<Line>, b: seq<Line>)
    requires StackOpened(stack, a)
    ensures StackOpened(stack, a + b)
  {
    forall m | 0 < m <= |stack| ensures Opens(a + b, Texts(stack)[..m]) {
      OpensMore(a, b, Texts(stack)[..m]);
    }
  }

  lemma KeptIsOpened(stack: seq<Level>, kept: seq<Level>, lines: seq<Line>)
    requires StackOpened(stack, lines) && kept <= stack
    ensures StackOpened(kept, lines)
  {
    forall m | 0 < m <= |kept| ensures Opens(lines, Texts(kept)[..m]) {
      assert Texts(kept)[..m] == Texts(stack)[..m];
    }
  }

  lemma OpenedByOneMore(above: seq<Line>, line: Line)
    requires Opened(above) && (line.path == [] || Opens(above, line.path))
    ensures Opened(above + [line])
  {
    var all := above + [line];
    forall k | 0 <= k < |all| && all[k].path != [] ensures Opens(all[..k], all[k].path) {
      assert all[..k] == above[..k];
      if k == |above| {
        assert all[..k] == above;
      }
    }
  }

  lemma PushIsOpened(above: seq<Line>, line: Line, kept: seq<Level>, indent: nat)
    requires StackOpened(kept, above) && line.path == Texts(kept)
    ensures StackOpened(kept + [Level(indent, line.text)], above + [line])
    ensures line.path == [] || Opens(above, line.path)
  {
    var stack := kept + [Level(indent, line.text)];
    StackOpenedByMore(kept, above, [line]);
    assert Texts(kept)[..|kept|] == Texts(kept);
    forall m | 0 < m <= |stack| ensures Opens(above + [line], Texts(stack)[..m]) {
      if m == |stack| {
        assert (above + [line])[|above|].Inside() == Texts(stack)[..m];
      } else {
        assert Texts(stack)[..m] == Texts(kept)[..m];
      }
    }
  }

  /** One row keeps both: its line's section is open, and so are the sections it leaves open. */
  lemma OpenedByRow(g: Grammar, row: string, stack: seq<Level>, above: seq<Line>)
    requires Opened(above) && StackOpened(stack, above)
    ensures Opened(above + LineOf(g, row, stack))
    ensures StackOpened(StackAfter(g, row, stack), above + LineOf(g, row, stack))
  {
    var next := LineOf(g, row, stack);
    var indent := Indent(row, g.spaces);
    var kept := PopTo(stack, indent);
    KeptIsOpened(stack, kept, above);
    if next == [] {
      assert above + next == above;
    } else if g.flat {
      OpenedByOneMore(above, next[0]);
      StackOpenedByMore(stack, above, next);
    } else {
      PushIsOpened(above, next[0], kept, indent);
      OpenedByOneMore(above, next[0]);
    }
  }

  lemma {:induction false} OpenedFrom(g: Grammar, rows: seq<string>, stack: seq<Level>, above: seq<Line>)
    requires Opened(above) && StackOpened(stack, above)
    ensures Opened(above + LinesFrom(g, rows, stack))
    decreases |rows|
  {
    hide LineOf;
    hide StackAfter;
    hide Opened;
    hide StackOpened;
    if rows == [] {
      assert above + [] == above;
    } else {
      var next, open := LineOf(g, rows[0], stack), StackAfter(g, rows[0], stack);
      OpenedByRow(g, rows[0], stack, above);
      OpenedFrom(g, rows[1..], open, above + next);
      assert above + (next + LinesFrom(g, rows[1..], open)) == (above + next) + LinesFrom(g, rows[1..], open);
    }
  }

  /** Whatever the rows, every section the parser puts a line in has its header among the lines above. */
  lemma LinesAreOpened(g: Grammar, rows: seq<string>)
    ensures Opened(Lines(g, rows))
  {
    OpenedFrom(g, rows, [], []);
    assert [] + LinesFrom(g, rows, []) == LinesFrom(g, rows, []);
  }

  // ---------- Printing, and reading back what was printed ----------

  /** A section as a device holds it: its header, the lines under it, and the
      block-closing line printed after them ("" where the device prints none). */
  datatype Node = Node(raw: string, under: seq<Node>, closing: string)

  function Spaces(n: nat): string {
    seq(n, _ => ' ')
  }

  function Closing(closing: string, indent: nat): seq<string> {
    if closing == "" then [] else [Spaces(indent) + closing]
  }

  /** The rows of a forest, each node indented by its depth. */
  function Print(forest: seq<Node>, indent: nat, step: nat): seq<string> {
    if forest == [] then [] else PrintNode(forest[0], indent, step) + Print(forest[1..], indent, step)
  }

  function PrintNode(node: Node, indent: nat, step: nat): seq<string> {
    [Spaces(indent) + node.raw]
    + Print(node.under, indent + step, step)
    + Closing(node.closing, indent)
  }

  /** Each node before the ones under it, with its headers. */
  function PreOrder(g: Grammar, forest: seq<Node>, path: Path): seq<Line> {
    if forest == [] then [] else PreOrderNode(g, forest[0], path) + PreOrder(g, forest[1..], path)
  }

  function PreOrderNode(g: Grammar, node: Node, path: Path): seq<Line> {
    var text := g.normalize(node.raw);
    [Line(path, text, node.raw)] + PreOrder(g, node.under, path + [text])
  }

  /** A text the parser reads as it is: nothing to strip, not a comment. */
  predicate Plain(g: Grammar, raw: string) {
    raw != "" && raw[0] !in g.spaces && raw[|raw| - 1] !in g.spaces && !IsComment(raw)
  }

  predicate Closes(g: Grammar, closing: string) {
    closing == "" || (Plain(g, closing) && Navigates(g, FirstWord(g, closing)))
  }

  predicate Printable(g: Grammar, forest: seq<Node>) {
    forall i | 0 <= i < |forest| :: PrintableNode(g, forest[i])
  }

  predicate PrintableNode(g: Grammar, node: Node) {
    && Plain(g, node.raw)
    && !Navigates(g, FirstWord(g, node.raw))
    && Closes(g, node.closing)
    && Printable(g, node.under)
  }

  ghost predicate Below(stack: seq<Level>, indent: nat) {
    forall i | 0 <= i < |stack| :: stack[i].indent < indent
  }

  lemma {:induction false} IndentedRow(g: Grammar, n: nat, raw: string)
    requires ' ' in g.spaces && Plain(g, raw)
    ensures Indent(Spaces(n) + raw, g.spaces) == n && Strip(Spaces(n) + raw, g.spaces) == raw
  {
    var row := Spaces(n) + raw;
    if n == 0 {
      assert row == raw;
    } else {
      assert row[1..] == Spaces(n - 1) + raw;
      IndentedRow(g, n - 1, raw);
    }
    assert row[n..] == raw;
  }

  lemma {:induction false} PopToBelow(base: seq<Level>, stack: seq<Level>, deep: nat, indent: nat)
    requires PopTo(stack, deep) == base && indent <= deep
    ensures PopTo(stack, indent) == PopTo(base, indent)
  {
    if stack != [] && stack[|stack| - 1].indent >= deep {
      PopToBelow(base, stack[..|stack| - 1], deep, indent);
    }
  }

  lemma PopHeader(base: seq<Level>, header: Level)
    requires Below(base, header.indent)
    ensures PopTo(base + [header], header.indent) == base
  {
    var stack := base + [header];
    assert stack[..|stack| - 1] == base;
  }

  lemma {:induction false} RowsInTurn(g: Grammar, a: seq<string>, b: seq<string>, stack: seq<Level>)
    ensures LinesFrom(g, a + b, stack) == LinesFrom(g, a, stack) + LinesFrom(g, b, StackFrom(g, a, stack))
    ensures StackFrom(g, a + b, stack) == StackFrom(g, b, StackFrom(g, a, stack))
  {
    hide LineOf;
    hide StackAfter;
    if a == [] {
      assert a + b == b;
    } else {
      assert (a + b)[1..] == a[1..] + b;
      RowsInTurn(g, a[1..], b, StackAfter(g, a[0], stack));
    }
  }

  lemma {:induction false} ReadForest(g: Grammar, forest: seq<Node>, indent: nat, step: nat, base: seq<Level>, stack: seq<Level>)
    requires ' ' in g.spaces && !g.flat && step > 0 && Printable(g, forest)
    requires Below(base, indent) && PopTo(stack, indent) == base
    ensures LinesFrom(g, Print(forest, indent, step), stack) == PreOrder(g, forest, Texts(base))
    ensures PopTo(StackFrom(g, Print(forest, indent, step), stack), indent) == base
    decreases forest, 1
  {
    if forest != [] {
      var first := PrintNode(forest[0], indent, step);
      ReadNode(g, forest[0], indent, step, base, stack);
      ReadForest(g, forest[1..], indent, step, base, StackFrom(g, first, stack));
      RowsInTurn(g, first, Print(forest[1..], indent, step), stack);
    }
  }

  lemma {:induction false} ReadNode(g: Grammar, node: Node, indent: nat, step: nat, base: seq<Level>, stack: seq<Level>)
    requires ' ' in g.spaces && !g.flat && step > 0 && PrintableNode(g, node)
    requires Below(base, indent) && PopTo(stack, indent) == base
    ensures LinesFrom(g, PrintNode(node, indent, step), stack) == PreOrderNode(g, node, Texts(base))
    ensures PopTo(StackFrom(g, PrintNode(node, indent, step), stack), indent) == base
    decreases node, 0
  {
    var inner := base + [Level(indent, g.normalize(node.raw))];
    ReadHeader(g, node.raw, indent, base, stack);
    ReadUnder(g, node, indent, step, base);
    ReadClosing(g, node.closing, indent, base, StackFrom(g, Print(node.under, indent + step, step), inner));
    RowsOfNode(g, node, indent, step, stack);
  }

  lemma {:induction false} ReadUnder(g: Grammar, node: Node, indent: nat, step: nat, base: seq<Level>)
    requires ' ' in g.spaces && !g.flat && step > 0 && Printable(g, node.under) && Below(base, indent)
    ensures var inner := base + [Level(indent, g.normalize(node.raw))];
            && LinesFrom(g, Print(node.under, indent + step, step), inner)
               == PreOrder(g, node.under, Texts(base) + [g.normalize(node.raw)])
            && PopTo(StackFrom(g, Print(node.under, indent + step, step), inner), indent) == base
    decreases node.under, 2
  {
    var header := Level(indent, g.normalize(node.raw));
    var inner := base + [header];
    assert Texts(inner) == Texts(base) + [header.text];
    ReadForest(g, node.under, indent + step, step, inner, inner);
    PopToBelow(inner, StackFrom(g, Print(node.under, indent + step, step), inner), indent + step, indent);
    PopHeader(base, header);
  }

  lemma RowsOfNode(g: Grammar, node: Node, indent: nat, step: nat, stack: seq<Level>)
    ensures var header, under, closing := [Spaces(indent) + node.raw], Print(node.under, indent + step, step), Closing(node.closing, indent);
            var inner := StackFrom(g, header, stack);
            var after := StackFrom(g, under, inner);
            && LinesFrom(g, PrintNode(node, indent, step), stack)
               == LinesFrom(g, header, stack) + LinesFrom(g, under, inner) + LinesFrom(g, closing, after)
            && StackFrom(g, PrintNode(node, indent, step), stack) == StackFrom(g, closing, after)
  {
    var header, under, closing := [Spaces(indent) + node.raw], Print(node.under, indent + step, step), Closing(node.closing, indent);
    RowsInTurn(g, header, under, stack);
    RowsInTurn(g, header + under, closing, stack);
  }

  lemma ReadHeader(g: Grammar, raw: string, indent: nat, base: seq<Level>, stack: seq<Level>)
    requires ' ' in g.spaces && !g.flat && Plain(g, raw) && !Navigates(g, FirstWord(g, raw))
    requires Below(base, indent) && PopTo(stack, indent) == base
    ensures var inner := base + [Level(indent, g.normalize(raw))];
            && Texts(inner) == Texts(base) + [g.normalize(raw)]
            && PopTo(inner, indent + 1) == inner && Below(inner, indent + 1)
            && LinesFrom(g, [Spaces(indent) + raw], stack) == [Line(Texts(base), g.normalize(raw), raw)]
            && StackFrom(g, [Spaces(indent) + raw], stack) == inner
  {
    IndentedRow(g, indent, raw);
    assert [Spaces(indent) + raw][1..] == [];
  }

  lemma ReadClosing(g: Grammar, closing: string, indent: nat, base: seq<Level>, stack: seq<Level>)
    requires ' ' in g.spaces && !g.flat && Closes(g, closing)
    requires Below(base, indent) && PopTo(stack, indent) == base
    ensures LinesFrom(g, Closing(closing, indent), stack) == []
    ensures PopTo(StackFrom(g, Closing(closing, indent), stack), indent) == base
  {
    if closing != "" {
      IndentedRow(g, indent, closing);
      assert [Spaces(indent) + closing][1..] == [];
    }
  }

  /** The parser undoes the printer: reading a printed forest gives its nodes in pre-order, each with its
      ancestors as path - whatever the indentation step, and with or without block-closing lines. */
  lemma {:induction false} RoundTrip(g: Grammar, forest: seq<Node>, step: nat)
    requires ' ' in g.spaces && !g.flat && step > 0 && Printable(g, forest)
    ensures Lines(g, Print(forest, 0, step)) == PreOrder(g, forest, [])
  {
    ReadForest(g, forest, 0, step, [], []);
    assert Texts([]) == [];
  }
}
