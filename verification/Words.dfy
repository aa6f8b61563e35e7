/**
 Word matching: when a typed word stands for the device's word, and when a
 command's words are all in a config line.
 */
module Words {

  predicate IsLetter(c: char) {
    'a' <= c <= 'z'
  }

  /** How many characters at the start of a word are letters. */
  function LetterCount(word: string): (n: nat)
    ensures n <= |word|
  {
    if word != "" && IsLetter(word[0]) then 1 + LetterCount(word[1..]) else 0
  }

  function Letters(word: string): string {
    word[..LetterCount(word)]
  }

  function Rest(word: string): string {
    word[LetterCount(word)..]
  }

  /** Equal, or an abbreviation: two letters or more, a prefix of the device's
      letters, and the same characters after them. */
  predicate SameWord(typed: string, device: string) {
    || typed == device
    || (|Letters(typed)| >= 2 && Letters(typed) <= Letters(device) && Rest(typed) == Rest(device))
  }

  function UpToHyphen(word: string): string {
    if word == "" || word[0] == '-' then "" else [word[0]] + UpToHyphen(word[1..])
  }

  /** What a removal's word may stand for in a removed line. */
  predicate Names(typed: string, device: string) {
    SameWord(typed, device) || typed == UpToHyphen(device)
  }

  type WordRelation = (string, string) -> bool

  /** The greedy scan: each command word takes the first line word left that it stands for. */
  predicate Contains(command: seq<string>, line: seq<string>, same: WordRelation)
    decreases |line|
  {
    if command == [] then true
    else if line == [] then false
    else if same(command[0], line[0]) then Contains(command[1..], line[1..], same)
    else Contains(command, line[1..], same)
  }

  /** No word added: each command word stands for the line's word at its place. */
  predicate Matches(command: seq<string>, line: seq<string>) {
    |command| == |line| && forall i | 0 <= i < |command| :: SameWord(command[i], line[i])
  }

  /** `at` gives each word of the command a place of its own in the line, further on each time. */
  ghost predicate Embeds(at: seq<nat>, command: seq<string>, line: seq<string>, same: WordRelation) {
    && |at| == |command|
    && (forall i | 0 <= i < |at| :: at[i] < |line| && same(command[i], line[at[i]]))
    && (forall i, j | 0 <= i < j < |at| :: at[i] < at[j])
  }

  ghost predicate Transitive(same: WordRelation) {
    forall a, b, c | same(a, b) && same(b, c) :: same(a, c)
  }

  // ---------- The relations between words ----------

  /** Abbreviation is a partial order on words. */
  lemma SameWordIsPartialOrder(a: string, b: string, c: string)
    ensures SameWord(a, a)
    ensures SameWord(a, b) && SameWord(b, a) ==> a == b
    ensures SameWord(a, b) && SameWord(b, c) ==> SameWord(a, c)
  {
    assert a == Letters(a) + Rest(a);
    assert b == Letters(b) + Rest(b);
  }

  lemma LetterCountOfWord(word: string)
    ensures forall i | 0 <= i < LetterCount(word) :: IsLetter(word[i])
    ensures LetterCount(word) < |word| ==> !IsLetter(word[LetterCount(word)])
  {
  }

  /** An abbreviation never reaches over a digit or a sign: what follows the letters is compared whole,
      so a word that isn't letters only at its start stands for itself alone. */
  lemma {:induction false} OnlyLettersAreAbbreviated(typed: string, device: string)
    requires SameWord(typed, device)
    ensures |typed| <= |device|
    ensures LetterCount(typed) < 2 ==> typed == device
    ensures exists k | 0 <= k <= |device| - |typed| ::
              && device == typed[..LetterCount(typed)] + device[LetterCount(typed)..][..k] + typed[LetterCount(typed)..]
              && forall c | c in device[LetterCount(typed)..][..k] :: IsLetter(c)
  {
    var n := LetterCount(typed);
    assert typed == Letters(typed) + Rest(typed);
    assert device == Letters(device) + Rest(device);
    LetterCountOfWord(device);
    var k := if typed == device then 0 else LetterCount(device) - n;
    assert device == typed[..n] + device[n..][..k] + typed[n..];
  }

  lemma {:induction false} LetterCountIs(letters: string, rest: string)
    requires (forall c | c in letters :: IsLetter(c)) && (rest == "" || !IsLetter(rest[0]))
    ensures LetterCount(letters + rest) == |letters|
  {
    if letters == "" {
      assert letters + rest == rest;
    } else {
      assert letters[0] in letters && (letters + rest)[1..] == letters[1..] + rest;
      assert forall c | c in letters[1..] :: c in letters;
      LetterCountIs(letters[1..], rest);
    }
  }

  /** Letters left out between the letters of a word and what follows them: from the second letter on, the words are the same. */
  lemma AbbreviationIff(letters: string, more: string, rest: string)
    requires (forall c | c in letters + more :: IsLetter(c)) && (rest == "" || !IsLetter(rest[0]))
    ensures SameWord(letters + rest, letters + more + rest) <==> |letters| >= 2 || more == ""
  {
    assert forall c | c in letters :: c in letters + more;
    LetterCountIs(letters, rest);
    LetterCountIs(letters + more, rest);
    assert letters + rest == letters + more + rest ==> |more| == 0;
    assert more == "" ==> letters + more + rest == letters + rest;
  }

  lemma {:induction false} UpToHyphenIs(word: string, tail: string)
    requires (forall c | c in word :: c != '-') && (tail == "" || tail[0] == '-')
    ensures UpToHyphen(word + tail) == word
  {
    if word == "" {
      assert word + tail == tail;
    } else {
      assert word[0] in word && (word + tail)[1..] == word[1..] + tail;
      assert forall c | c in word[1..] :: c in word;
      UpToHyphenIs(word[1..], tail);
    }
  }

  /** Besides a word it is the same as, a removal's word names those that go on with a hyphen after it, and no others. */
  lemma NamesIff(typed: string, word: string, tail: string)
    requires (forall c | c in word :: c != '-') && (tail == "" || tail[0] == '-')
    ensures Names(typed, word + tail) <==> SameWord(typed, word + tail) || typed == word
  {
    UpToHyphenIs(word, tail);
  }

  // ---------- The greedy scan finds an embedding whenever there is one ----------

  lemma {:induction false} EmbeddingOf(command: seq<string>, line: seq<string>, same: WordRelation) returns (at: seq<nat>)
    requires Contains(command, line, same)
    ensures Embeds(at, command, line, same)
    decreases |line|
  {
    if command == [] {
      at := [];
    } else if same(command[0], line[0]) {
      var later := EmbeddingOf(command[1..], line[1..], same);
      at := [0] + seq(|later|, i requires 0 <= i < |later| => later[i] + 1);
    } else {
      var later := EmbeddingOf(command, line[1..], same);
      at := seq(|later|, i requires 0 <= i < |later| => later[i] + 1);
    }
  }

  lemma {:induction false} EmbeddedIsContained(at: seq<nat>, command: seq<string>, line: seq<string>, same: WordRelation)
    requires Embeds(at, command, line, same)
    ensures Contains(command, line, same)
    decreases |line|
  {
    if command != [] {
      assert at[0] < |line|;
      if same(command[0], line[0]) {
        var later := seq(|at| - 1, i requires 0 <= i < |at| - 1 => assert at[0] < at[i + 1]; at[i + 1] - 1);
        EmbeddedIsContained(later, command[1..], line[1..], same);
      } else {
        assert forall i | 0 < i < |at| :: at[0] < at[i];
        var later := seq(|at|, i requires 0 <= i < |at| => at[i] - 1);
        EmbeddedIsContained(later, command, line[1..], same);
      }
    }
  }

  /** Greedy search loses nothing, for any relation between words. */
  lemma ContainsIffEmbeds(command: seq<string>, line: seq<string>, same: WordRelation)
    ensures Contains(command, line, same) <==> exists at :: Embeds(at, command, line, same)
  {
    if Contains(command, line, same) {
      var at := EmbeddingOf(command, line, same);
    }
    if at :| Embeds(at, command, line, same) {
      EmbeddedIsContained(at, command, line, same);
    }
  }

  /** Containment composes whenever the word relation does. */
  lemma ContainsIsTransitive(a: seq<string>, b: seq<string>, c: seq<string>, same: WordRelation)
    requires Transitive(same)
    requires Contains(a, b, same) && Contains(b, c, same)
    ensures Contains(a, c, same)
  {
    var ab := EmbeddingOf(a, b, same);
    var bc := EmbeddingOf(b, c, same);
    var ac := seq(|ab|, i requires 0 <= i < |ab| => bc[ab[i]]);
    assert Embeds(ac, a, c, same) by {
      forall i | 0 <= i < |ac| ensures same(a[i], c[ac[i]]) {
        assert same(a[i], b[ab[i]]) && same(b[ab[i]], c[bc[ab[i]]]);
      }
    }
    EmbeddedIsContained(ac, a, c, same);
  }

  lemma SameWordIsTransitive()
    ensures Transitive(SameWord)
  {
    forall a, b, c | SameWord(a, b) && SameWord(b, c) ensures SameWord(a, c) {
      SameWordIsPartialOrder(a, b, c);
    }
  }

  /** "Already in place" is the stricter test: a line that is exactly the command also contains it,
      and so does every line that contains that line. */
  lemma MatchesThenContains(command: seq<string>, line: seq<string>, other: seq<string>)
    requires Matches(command, line)
    ensures Contains(command, line, SameWord)
    ensures Contains(line, other, SameWord) ==> Contains(command, other, SameWord)
  {
    var at := seq(|command|, i requires 0 <= i < |command| => i);
    EmbeddedIsContained(at, command, line, SameWord);
    if Contains(line, other, SameWord) {
      SameWordIsTransitive();
      ContainsIsTransitive(command, line, other, SameWord);
    }
  }

  /** The scan as the program runs it, one cursor over the line. */
  method ContainsWords(command: seq<string>, line: seq<string>, same: WordRelation) returns (found: bool)
    ensures found == Contains(command, line, same)
    ensures found <==> exists at :: Embeds(at, command, line, same)
  {
    ContainsIffEmbeds(command, line, same);
    var at := 0;
    for i := 0 to |command|
      invariant at <= |line|
      invariant Contains(command, line, same) == Contains(command[i..], line[at..], same)
    {
      while at < |line| && !same(command[i], line[at])
        invariant at <= |line|
        invariant Contains(command, line, same) == Contains(command[i..], line[at..], same)
      {
        at := at + 1;
      }
      if at == |line| {
        return false;
      }
      at := at + 1;
    }
    return true;
  }
}
