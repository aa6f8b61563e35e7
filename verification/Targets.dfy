/**
 What a discovery scans: the entries an admin typed, read into spans of addresses, merged and listed.
 */
module DiscoveryTargets {
  import opened Options

  datatype Address = Address(version: nat, number: int)

  /** All addresses of one version from `first` to `last`. */
  datatype Span = Span(version: nat, first: int, last: int)

  /** An entry as read: its addresses as numbers. */
  datatype Entry =
    | Subnet(version: nat, number: nat, prefix: nat)
    | Range(version: nat, number: nat, endVersion: nat, end: nat)
    | ShortRange(number: nat, octet: nat)         // IPv4's 10.0.0.10-50
    | Single(version: nat, number: nat)

  datatype Problem =
    | NothingToScan
    | MappedAddress(entry: Entry)                 // IPv4 written as IPv6
    | PrefixTooLong(entry: Entry)
    | EndTooLarge(entry: Entry)
    | MixesFamilies(entry: Entry)
    | RunsBackwards(entry: Entry)
    | Refused(entry: Entry, block: Block)
    | TooMany(count: int)

  datatype Note = Means(entry: Entry) | CountedOnce

  datatype Result<T> = Ok(value: T) | Err(problem: Problem)

  datatype Targets = Targets(notes: seq<Note>, spans: seq<Span>, count: int)

  /** A block a discovery never touches: the addresses whose first `prefix` bits are `top`. */
  datatype Block = Block(version: nat, top: nat, prefix: nat)

  const REFUSED: seq<Block> := [
    Block(4, 0, 8), Block(4, 127, 8), Block(4, 0xE, 4), Block(4, 0xF, 4),
    Block(6, 0, 128), Block(6, 1, 128), Block(6, 0x3FA, 10), Block(6, 0xFF, 8)]

  function Pow2(n: nat): (p: nat)
    ensures p > 0 && (n >= 2 ==> p >= 4)
  {
    if n == 0 then 1 else 2 * Pow2(n - 1)
  }

  function Bits(version: nat): nat {
    if version == 4 then 32 else 128
  }

  predicate In(a: Address, span: Span) {
    a.version == span.version && span.first <= a.number <= span.last
  }

  function Size(span: Span): int {
    span.last - span.first + 1
  }

  /** The addresses that share a block's first bits. */
  function BlockSpan(block: Block): Span
    requires block.prefix <= Bits(block.version)
  {
    var hosts := Pow2(Bits(block.version) - block.prefix);
    Span(block.version, block.top * hosts, block.top * hosts + hosts - 1)
  }

  predicate InBlock(a: Address, block: Block)
    requires block.prefix <= Bits(block.version)
  {
    a.version == block.version && a.number / Pow2(Bits(block.version) - block.prefix) == block.top
  }

  predicate Mapped(version: nat, number: nat) {
    version == 6 && number / 0x1_0000_0000 == 0xFFFF
  }

  predicate Meets(a: Span, b: Span) {
    a.version == b.version && a.first <= b.last && b.first <= a.last
  }

  // ---------- One entry ----------

  function SubnetSpan(version: nat, number: nat, prefix: nat): Span
    requires prefix <= Bits(version)
  {
    var hosts := Pow2(Bits(version) - prefix);
    var first := number - number % hosts;
    var last := first + hosts - 1;
    if version == 4 && prefix <= 30 then Span(version, first + 1, last - 1)
    else if version == 6 && prefix <= 126 then Span(version, first + 1, last)
    else Span(version, first, last)
  }

  function Unchecked(entry: Entry): Result<Span> {
    match entry
    case Subnet(version, number, prefix) =>
      if Mapped(version, number) then Err(MappedAddress(entry))
      else if prefix > Bits(version) then Err(PrefixTooLong(entry))
      else Ok(SubnetSpan(version, number, prefix))
    case Range(version, number, endVersion, end) =>
      if Mapped(version, number) || Mapped(endVersion, end) then Err(MappedAddress(entry))
      else if endVersion != version then Err(MixesFamilies(entry))
      else if end < number then Err(RunsBackwards(entry))
      else Ok(Span(version, number, end))
    case ShortRange(number, octet) =>
      if octet > 255 then Err(EndTooLarge(entry))
      else if number - number % 256 + octet < number then Err(RunsBackwards(entry))
      else Ok(Span(4, number, number - number % 256 + octet))
    case Single(version, number) =>
      if Mapped(version, number) then Err(MappedAddress(entry)) else Ok(Span(version, number, number))
  }

  function FirstMet(span: Span, blocks: seq<Block>): Option<Block>
    requires forall block | block in blocks :: block.prefix <= Bits(block.version)
  {
    if blocks == [] then None
    else if Meets(span, BlockSpan(blocks[0])) then Some(blocks[0])
    else FirstMet(span, blocks[1..])
  }

  function SpanOf(entry: Entry): Result<Span> {
    var span := Unchecked(entry);
    if span.Err? then span
    else
      var met := FirstMet(span.value, REFUSED);
      if met.Some? then Err(Refused(entry, met.value)) else span
  }

  function NotesOf(entry: Entry): seq<Note> {
    if entry.Subnet? && entry.prefix <= Bits(entry.version) && entry.number % Pow2(Bits(entry.version) - entry.prefix) != 0
    then [Means(entry)] else []
  }

  lemma DivModIs(x: int, d: int, q: int)
    requires d > 0
    ensures x / d == q <==> q * d <= x < q * d + d
  {
    var k := x / d;
    assert x == k * d + x % d;
    assert k < q ==> (k + 1) * d <= q * d;
    assert q < k ==> (q + 1) * d <= k * d;
  }

  /** Where an address stands in a block that begins at a multiple of its size. */
  lemma WithinBlock(x: int, first: int, hosts: int, q: int)
    requires hosts > 0 && first == q * hosts
    ensures x / hosts == q <==> first <= x < first + hosts
    ensures x / hosts == q ==> x % hosts == x - first
  {
    DivModIs(x, hosts, q);
    assert x == (x / hosts) * hosts + x % hosts;
  }

  /** A subnet is the addresses sharing its first bits - without, where a subnet has them, its own address and its
      broadcast address (IPv4 up to /30) or its router anycast (IPv6 up to /126). */
  lemma SubnetIsItsPrefix(version: nat, number: nat, prefix: nat, a: Address)
    requires prefix <= Bits(version)
    ensures var hosts := Pow2(Bits(version) - prefix);
            In(a, SubnetSpan(version, number, prefix)) <==>
              && a.version == version && a.number / hosts == number / hosts
              && (version == 4 && prefix <= 30 ==> a.number % hosts != 0 && a.number % hosts != hosts - 1)
              && (version == 6 && prefix <= 126 ==> a.number % hosts != 0)
  {
    var hosts := Pow2(Bits(version) - prefix);
    var first := number - number % hosts;
    assert first == (number / hosts) * hosts;
    WithinBlock(a.number, first, hosts, number / hosts);
    hide Pow2;
  }

  lemma BlockIsItsPrefix(block: Block, a: Address)
    requires block.prefix <= Bits(block.version)
    ensures In(a, BlockSpan(block)) <==> InBlock(a, block)
  {
    DivModIs(a.number, Pow2(Bits(block.version) - block.prefix), block.top);
  }

  lemma {:induction false} MetIsRefused(span: Span, blocks: seq<Block>)
    requires forall block | block in blocks :: block.prefix <= Bits(block.version)
    requires span.first <= span.last
    ensures FirstMet(span, blocks).None? <==> forall a, block | block in blocks && In(a, span) :: !InBlock(a, block)
  {
    if blocks != [] {
      var head := blocks[0];
      assert blocks == [head] + blocks[1..];
      MetIsRefused(span, blocks[1..]);
      forall a | In(a, span) ensures In(a, BlockSpan(head)) <==> InBlock(a, head) {
        BlockIsItsPrefix(head, a);
      }
      var shared := BlockSpan(head);
      if Meets(span, shared) {
        var a := Address(span.version, if span.first < shared.first then shared.first else span.first);
        SpanIsSome(head);
        assert In(a, span) && In(a, shared);
      }
    }
  }

  lemma SpanIsSome(block: Block)
    requires block.prefix <= Bits(block.version)
    ensures BlockSpan(block).first <= BlockSpan(block).last
  {
  }

  /** An entry read holds at least one address, and none of a refused block. */
  lemma EntryIsSafe(entry: Entry)
    ensures SpanOf(entry).Ok? ==>
              var span := SpanOf(entry).value;
              span.first <= span.last && forall a, block | block in REFUSED && In(a, span) :: !InBlock(a, block)
  {
    if SpanOf(entry).Ok? {
      MetIsRefused(SpanOf(entry).value, REFUSED);
    }
  }

  // ---------- Merging ----------

  predicate Before(a: Span, b: Span) {
    a.version < b.version || (a.version == b.version && a.first <= b.first)
  }

  ghost predicate Sorted(spans: seq<Span>) {
    forall i, j | 0 <= i < j < |spans| :: Before(spans[i], spans[j])
  }

  function Inserted(spans: seq<Span>, span: Span): seq<Span> {
    if spans == [] || !Before(spans[0], span) then [span] + spans
    else [spans[0]] + Inserted(spans[1..], span)
  }

  function SortedSpans(spans: seq<Span>): seq<Span> {
    if spans == [] then [] else Inserted(SortedSpans(spans[..|spans| - 1]), spans[|spans| - 1])
  }

  /** How many of the spans hold an address. */
  function Times(spans: seq<Span>, a: Address): nat {
    if spans == [] then 0 else Times(spans[..|spans| - 1], a) + (if In(a, spans[|spans| - 1]) then 1 else 0)
  }

  lemma TimesOneMore(spans: seq<Span>, span: Span, a: Address)
    ensures Times(spans + [span], a) == Times(spans, a) + (if In(a, span) then 1 else 0)
  {
    assert (spans + [span])[..|spans|] == spans;
  }

  lemma {:induction false} TimesJoin(x: seq<Span>, y: seq<Span>, a: Address)
    ensures Times(x + y, a) == Times(x, a) + Times(y, a)
  {
    if y == [] {
      assert x + y == x;
    } else {
      var init, last := y[..|y| - 1], y[|y| - 1];
      assert x + y == (x + init) + [last];
      TimesOneMore(x + init, last, a);
      TimesJoin(x, init, a);
    }
  }

  lemma {:induction false} InsertedIs(spans: seq<Span>, span: Span)
    requires Sorted(spans)
    ensures Sorted(Inserted(spans, span))
    ensures forall s :: s in Inserted(spans, span) <==> s in spans || s == span
    ensures forall a :: Times(Inserted(spans, span), a) == Times(spans + [span], a)
  {
    if spans == [] || !Before(spans[0], span) {
      forall a ensures Times([span] + spans, a) == Times(spans + [span], a) {
        TimesJoin([span], spans, a);
        TimesJoin(spans, [span], a);
      }
    } else {
      InsertedIs(spans[1..], span);
      var rest := Inserted(spans[1..], span);
      assert forall s | s in rest :: Before(spans[0], s);
      forall a ensures Times([spans[0]] + rest, a) == Times(spans + [span], a) {
        TimesJoin([spans[0]], rest, a);
        TimesJoin([spans[0]], spans[1..] + [span], a);
        assert [spans[0]] + (spans[1..] + [span]) == spans + [span];
      }
    }
  }

  lemma {:induction false} SortedSpansAre(spans: seq<Span>)
    ensures Sorted(SortedSpans(spans))
    ensures forall s :: s in SortedSpans(spans) <==> s in spans
    ensures forall a :: Times(SortedSpans(spans), a) == Times(spans, a)
  {
    if spans != [] {
      var init, last := spans[..|spans| - 1], spans[|spans| - 1];
      SortedSpansAre(init);
      InsertedIs(SortedSpans(init), last);
      assert spans == init + [last];
      forall a ensures Times(SortedSpans(spans), a) == Times(spans, a) {
        TimesOneMore(SortedSpans(init), last, a);
      }
    }
  }

  predicate Covers(spans: seq<Span>, a: Address) {
    exists i :: 0 <= i < |spans| && In(a, spans[i])
  }

  lemma {:induction false} CoversIsTimes(spans: seq<Span>, a: Address)
    ensures Covers(spans, a) <==> Times(spans, a) >= 1
  {
    if spans != [] {
      var init := spans[..|spans| - 1];
      CoversIsTimes(init, a);
      if Covers(spans, a) && !In(a, spans[|spans| - 1]) {
        var i :| 0 <= i < |spans| && In(a, spans[i]);
        assert In(a, init[i]);
      }
      if Covers(init, a) {
        var i :| 0 <= i < |init| && In(a, init[i]);
        assert In(a, spans[i]);
      }
    }
  }

  ghost predicate NonEmpty(spans: seq<Span>) {
    forall span | span in spans :: span.first <= span.last
  }

  /** In order, with a gap between two spans of one family. */
  ghost predicate Apart(spans: seq<Span>) {
    && NonEmpty(spans)
    && forall i, j | 0 <= i < j < |spans| ::
         spans[i].version < spans[j].version || (spans[i].version == spans[j].version && spans[i].last + 1 < spans[j].first)
  }

  /** Two of the spans share an address. */
  ghost predicate Overlap(spans: seq<Span>) {
    exists i, j, a :: 0 <= i < j < |spans| && In(a, spans[i]) && In(a, spans[j])
  }

  ghost predicate Twice(spans: seq<Span>) {
    exists a :: Times(spans, a) >= 2
  }

  lemma {:induction false} OverlapIsTwice(spans: seq<Span>)
    ensures Overlap(spans) <==> Twice(spans)
  {
    if spans != [] {
      var init, last := spans[..|spans| - 1], spans[|spans| - 1];
      OverlapIsTwice(init);
      if Overlap(spans) {
        var i, j, a :| 0 <= i < j < |spans| && In(a, spans[i]) && In(a, spans[j]);
        if j < |init| {
          assert In(a, init[i]) && In(a, init[j]);
          var b :| Times(init, b) >= 2;
          assert Times(spans, b) >= 2;
        } else {
          assert In(a, init[i]);
          CoversIsTimes(init, a);
          assert Times(spans, a) >= 2;
        }
      }
      if a :| Times(spans, a) >= 2 {
        if Times(init, a) >= 2 {
          var i, j, b :| 0 <= i < j < |init| && In(b, init[i]) && In(b, init[j]);
          assert In(b, spans[i]) && In(b, spans[j]);
        } else {
          CoversIsTimes(init, a);
          var i :| 0 <= i < |init| && In(a, init[i]);
          assert In(a, spans[i]) && In(a, spans[|spans| - 1]);
        }
      }
    }
  }

  /** The last of the merged spans reaches as far as any span so far. */
  ghost predicate Ends(last: Span, spans: seq<Span>) {
    && (forall span | span in spans :: span.version <= last.version && (span.version == last.version ==> span.last <= last.last))
    && (exists span :: span in spans && span.version == last.version && span.last == last.last)
    && (exists span :: span in spans && span.version == last.version && span.first == last.first)
  }

  /** The one that is next in order. */
  ghost predicate Follows(spans: seq<Span>, next: Span) {
    next.first <= next.last && forall span | span in spans :: Before(span, next) && span.first <= span.last
  }

  /** One pass over the spans in order: each is joined to the last one where they touch, or starts a new one. */
  method Merge(spans: seq<Span>) returns (merged: seq<Span>, overlapped: bool)
    requires NonEmpty(spans)
    ensures forall a :: Covers(merged, a) <==> Covers(spans, a)
    ensures Apart(merged)
    ensures overlapped <==> Overlap(spans)
  {
    hide In;
    hide Before;
    hide Ends;
    hide Times;
    hide SortedSpans;
    var sorted := SortedSpans(spans);
    SortedSpansAre(spans);
    NothingYet();
    merged, overlapped := [], false;
    for k := 0 to |sorted|
      invariant Apart(merged) && (merged == [] <==> k == 0)
      invariant forall a :: Covers(merged, a) <==> Covers(sorted[..k], a)
      invariant overlapped <==> Twice(sorted[..k])
      invariant k > 0 ==> Ends(merged[|merged| - 1], sorted[..k])
    {
      var span := sorted[k];
      assert sorted[..k + 1] == sorted[..k] + [span];
      SortedFollows(sorted, k);
      if merged != [] && merged[|merged| - 1].version == span.version && span.first <= merged[|merged| - 1].last + 1 {
        var last := merged[|merged| - 1];
        JoinOne(merged, sorted[..k], span);
        overlapped := overlapped || span.first <= last.last;
        merged := merged[..|merged| - 1] + [Joined(last, span)];
      } else {
        StartOne(merged, sorted[..k], span);
        merged := merged + [span];
      }
    }
    assert sorted[..|sorted|] == sorted;
    forall a ensures Covers(merged, a) <==> Covers(spans, a) {
      CoversIsTimes(sorted, a);
      CoversIsTimes(spans, a);
    }
    OverlapIsTwice(spans);
  }

  lemma SortedFollows(sorted: seq<Span>, k: nat)
    requires k < |sorted| && Sorted(sorted) && NonEmpty(sorted)
    ensures Follows(sorted[..k], sorted[k])
  {
  }

  lemma NothingYet()
    ensures Apart([]) && !Twice([]) && forall a :: !Covers([], a)
  {
  }

  function Joined(last: Span, next: Span): Span {
    Span(last.version, last.first, if last.last > next.last then last.last else next.last)
  }

  lemma CoversOneMore(spans: seq<Span>, span: Span, a: Address)
    ensures Covers(spans + [span], a) <==> Covers(spans, a) || In(a, span)
  {
    CoversIsTimes(spans, a);
    CoversIsTimes(spans + [span], a);
    TimesOneMore(spans, span, a);
  }

  /** Whether a new span shares an address with one before it shows at the furthest one alone. */
  lemma TwiceOneMore(spans: seq<Span>, last: Span, next: Span)
    requires Ends(last, spans) && Follows(spans, next)
    ensures Twice(spans + [next]) <==> Twice(spans) || (last.version == next.version && next.first <= last.last)
  {
    if last.version == next.version && next.first <= last.last {
      var span :| span in spans && span.version == last.version && span.last == last.last;
      var a := Address(next.version, next.first);
      assert Covers(spans, a) by {
        var i :| 0 <= i < |spans| && spans[i] == span;
        assert In(a, spans[i]);
      }
      CoversIsTimes(spans, a);
      TimesOneMore(spans, next, a);
    }
    if a :| Times(spans, a) >= 2 {
      TimesOneMore(spans, next, a);
    }
    if a :| Times(spans + [next], a) >= 2 {
      TimesOneMore(spans, next, a);
      if In(a, next) {
        CoversIsTimes(spans, a);
        var i :| 0 <= i < |spans| && In(a, spans[i]);
        assert spans[i] in spans;
      }
    }
  }

  lemma JoinOne(merged: seq<Span>, spans: seq<Span>, next: Span)
    requires merged != [] && Apart(merged) && Follows(spans, next)
    requires var last := merged[|merged| - 1]; Ends(last, spans) && last.version == next.version && next.first <= last.last + 1
    requires forall a :: Covers(merged, a) <==> Covers(spans, a)
    ensures var last := merged[|merged| - 1];
            var after := merged[..|merged| - 1] + [Joined(last, next)];
            && Apart(after) && Ends(Joined(last, next), spans + [next])
            && (forall a :: Covers(after, a) <==> Covers(spans + [next], a))
            && (Twice(spans + [next]) <==> Twice(spans) || next.first <= last.last)
  {
    var init, last := merged[..|merged| - 1], merged[|merged| - 1];
    var joined := Joined(last, next);
    TwiceOneMore(spans, last, next);
    assert merged == init + [last];
    assert last.first <= next.first;
    assert last in merged;
    forall a ensures Covers(init + [joined], a) <==> Covers(spans + [next], a) {
      CoversOneMore(init, joined, a);
      CoversOneMore(init, last, a);
      CoversOneMore(spans, next, a);
      assert In(a, joined) <==> In(a, last) || In(a, next);
    }
  }

  lemma StartOne(merged: seq<Span>, spans: seq<Span>, next: Span)
    requires Apart(merged) && Follows(spans, next) && (merged == [] <==> spans == [])
    requires merged != [] ==>
               var last := merged[|merged| - 1]; Ends(last, spans) && !(last.version == next.version && next.first <= last.last + 1)
    requires forall a :: Covers(merged, a) <==> Covers(spans, a)
    ensures Apart(merged + [next]) && Ends(next, spans + [next])
    ensures forall a :: Covers(merged + [next], a) <==> Covers(spans + [next], a)
    ensures Twice(spans + [next]) <==> Twice(spans)
  {
    forall a ensures Covers(merged + [next], a) <==> Covers(spans + [next], a) {
      CoversOneMore(merged, next, a);
      CoversOneMore(spans, next, a);
    }
    if merged != [] {
      TwiceOneMore(spans, merged[|merged| - 1], next);
    } else {
      forall a ensures Times(spans + [next], a) <= 1 {
        TimesOneMore(spans, next, a);
      }
    }
  }

  // ---------- Listing ----------

  function Total(spans: seq<Span>): int {
    if spans == [] then 0 else Total(spans[..|spans| - 1]) + Size(spans[|spans| - 1])
  }

  predicate Precedes(a: Address, b: Address) {
    a.version < b.version || (a.version == b.version && a.number < b.number)
  }

  /** IPv4 first, each family ascending, none twice. */
  ghost predicate Ascending(addresses: seq<Address>) {
    forall i, j | 0 <= i < j < |addresses| :: Precedes(addresses[i], addresses[j])
  }

  /** Every address of the spans, one by one. */
  method ListAddresses(spans: seq<Span>) returns (all: seq<Address>)
    requires Apart(spans)
    ensures forall a :: a in all <==> Covers(spans, a)
    ensures Ascending(all)
    ensures |all| == Total(spans)
  {
    hide Covers;
    hide In;
    NothingYet();
    all := [];
    for k := 0 to |spans|
      invariant forall a :: a in all <==> Covers(spans[..k], a)
      invariant Ascending(all) && |all| == Total(spans[..k])
    {
      var span := spans[k];
      var before := all;
      assert spans[..k + 1] == spans[..k] + [span] && span in spans;
      forall a | a in before ensures Precedes(a, Address(span.version, span.first)) {
        EarlierPrecedes(spans, k, a);
      }
      all := ListSpan(before, span);
      forall a ensures a in all <==> Covers(spans[..k + 1], a) {
        CoversOneMore(spans[..k], span, a);
      }
    }
    assert spans[..|spans|] == spans;
  }

  lemma EarlierPrecedes(spans: seq<Span>, k: nat, a: Address)
    requires k < |spans| && Apart(spans) && Covers(spans[..k], a)
    ensures Precedes(a, Address(spans[k].version, spans[k].first))
  {
    var i :| 0 <= i < k && In(a, spans[..k][i]);
    assert spans[..k][i] == spans[i];
  }

  method ListSpan(before: seq<Address>, span: Span) returns (all: seq<Address>)
    requires span.first <= span.last && Ascending(before)
    requires forall a | a in before :: Precedes(a, Address(span.version, span.first))
    ensures forall a :: a in all <==> a in before || In(a, span)
    ensures Ascending(all) && |all| == |before| + Size(span)
  {
    all := before;
    for number := span.first to span.last + 1
      invariant forall a :: a in all <==> a in before || (a.version == span.version && span.first <= a.number < number)
      invariant Ascending(all) && |all| == |before| + number - span.first
    {
      all := all + [Address(span.version, number)];
    }
  }

  /** What the spans' sizes add up to is how many addresses they hold. */
  lemma {:induction false} TotalIsUnion(spans: seq<Span>, union: set<Address>)
    requires Apart(spans) && forall a :: a in union <==> Covers(spans, a)
    ensures |union| == Total(spans)
  {
    hide Apart;
    hide Covers;
    if spans == [] {
      assert union == {} by {
        forall a ensures a !in union {
          CoversIsTimes(spans, a);
        }
      }
    } else {
      var init, last := spans[..|spans| - 1], spans[|spans| - 1];
      var rest, part := (set a | a in union && !In(a, last)), (set a | a in union && In(a, last));
      assert spans == init + [last] && last in spans;
      forall a ensures a in rest <==> Covers(init, a) {
        LastIsApart(init, last, a);
      }
      forall a ensures a in part <==> In(a, last) {
        LastIsApart(init, last, a);
      }
      assert union == rest + part && rest !! part;
      StillApart(init, last);
      TotalIsUnion(init, rest);
      SpanIsSize(last, part);
    }
  }

  lemma LastIsApart(init: seq<Span>, last: Span, a: Address)
    requires Apart(init + [last])
    ensures Covers(init + [last], a) <==> Covers(init, a) || In(a, last)
    ensures In(a, last) ==> !Covers(init, a)
  {
    CoversOneMore(init, last, a);
    var spans := init + [last];
    forall i | 0 <= i < |init| && In(a, init[i]) ensures !In(a, last) {
      assert spans[i] == init[i] && spans[|init|] == last;
    }
  }

  lemma StillApart(init: seq<Span>, last: Span)
    requires Apart(init + [last])
    ensures Apart(init) && last.first <= last.last
  {
    var spans := init + [last];
    assert forall i | 0 <= i < |init| :: spans[i] == init[i];
    assert forall span | span in init :: span in spans;
    assert spans[|init|] == last;
  }

  lemma {:induction false} SpanIsSize(span: Span, part: set<Address>)
    requires span.first <= span.last && forall a :: a in part <==> In(a, span)
    ensures |part| == Size(span)
    decreases span.last - span.first
  {
    var last := Address(span.version, span.last);
    if span.first == span.last {
      assert part == {last};
    } else {
      SpanIsSize(span.(last := span.last - 1), part - {last});
    }
  }

  // ---------- The whole input ----------

  predicate Held(entries: seq<Entry>, a: Address) {
    exists i :: 0 <= i < |entries| && HeldBy(entries[i], a)
  }

  predicate HeldBy(entry: Entry, a: Address) {
    SpanOf(entry).Ok? && In(a, SpanOf(entry).value)
  }

  ghost predicate AllRead(entries: seq<Entry>) {
    forall i | 0 <= i < |entries| :: SpanOf(entries[i]).Ok?
  }

  /** Two entries hold the same address. */
  ghost predicate EntriesOverlap(entries: seq<Entry>) {
    exists i, j, a :: 0 <= i < j < |entries| && HeldBy(entries[i], a) && HeldBy(entries[j], a)
  }

  /** The targets of entries that can all be read. */
  ghost predicate AreTargets(entries: seq<Entry>, spans: seq<Span>, count: int) {
    && Apart(spans)
    && (forall a :: Covers(spans, a) <==> Held(entries, a))
    && (forall union: set<Address> | (forall a :: a in union <==> Held(entries, a)) :: |union| == count)
    && count == Total(spans)
    && (forall a, block | block in REFUSED && Covers(spans, a) :: !InBlock(a, block))
  }

  method ParseTargets(entries: seq<Entry>, limit: int) returns (r: Result<Targets>)
    ensures entries == [] ==> r == Err(NothingToScan)
    ensures entries != [] && !AllRead(entries) ==>
              exists i :: 0 <= i < |entries| && AllRead(entries[..i]) && SpanOf(entries[i]).Err? && r == Err(SpanOf(entries[i]).problem)
    ensures entries != [] && AllRead(entries) ==>
              exists spans, count :: AreTargets(entries, spans, count) &&
                if count > limit then r == Err(TooMany(count))
                else r.Ok? && r.value.spans == spans && r.value.count == count
    ensures r.Ok? ==>
              && (CountedOnce in r.value.notes <==> EntriesOverlap(entries))
              && (forall e :: Means(e) in r.value.notes <==> e in entries && Means(e) in NotesOf(e))
  {
    if entries == [] {
      return Err(NothingToScan);
    }
    hide SpanOf;
    hide NotesOf;
    hide AreTargets;
    hide Covers;
    hide Overlap;
    hide EntriesOverlap;
    var problem, notes, spans := ReadEntries(entries);
    if problem.Some? {
      return Err(problem.value);
    }
    SpansAreSafe(entries, spans);
    var merged, overlapped := Merge(spans);
    if overlapped {
      notes := notes + [CountedOnce];
    }
    var count := 0;
    for k := 0 to |merged|
      invariant count == Total(merged[..k])
    {
      assert merged[..k + 1][..k] == merged[..k];
      count := count + Size(merged[k]);
    }
    assert merged[..|merged|] == merged;
    TargetsAre(entries, spans, merged);
    if count > limit {
      return Err(TooMany(count));
    }
    return Ok(Targets(notes, merged, count));
  }

  /** Each entry in turn, up to the first that can't be read. */
  method ReadEntries(entries: seq<Entry>) returns (problem: Option<Problem>, notes: seq<Note>, spans: seq<Span>)
    ensures problem.None? <==> AllRead(entries)
    ensures problem.Some? ==>
              exists i :: 0 <= i < |entries| && AllRead(entries[..i]) && SpanOf(entries[i]).Err? && problem == Some(SpanOf(entries[i]).problem)
    ensures problem.None? ==> |spans| == |entries| && forall i | 0 <= i < |entries| :: SpanOf(entries[i]) == Ok(spans[i])
    ensures problem.None? ==> CountedOnce !in notes && forall e :: Means(e) in notes <==> e in entries && Means(e) in NotesOf(e)
  {
    hide SpanOf;
    notes, spans := [], [];
    for k := 0 to |entries|
      invariant |spans| == k && forall i | 0 <= i < k :: SpanOf(entries[i]) == Ok(spans[i])
      invariant CountedOnce !in notes
      invariant forall e :: Means(e) in notes <==> e in entries[..k] && Means(e) in NotesOf(e)
    {
      var span := SpanOf(entries[k]);
      if span.Err? {
        assert AllRead(entries[..k]);
        return Some(span.problem), notes, spans;
      }
      assert entries[..k + 1] == entries[..k] + [entries[k]];
      notes := notes + NotesOf(entries[k]);
      spans := spans + [span.value];
    }
    assert entries[..|entries|] == entries;
    return None, notes, spans;
  }

  lemma SpansAreSafe(entries: seq<Entry>, spans: seq<Span>)
    requires |spans| == |entries| && forall i | 0 <= i < |entries| :: SpanOf(entries[i]) == Ok(spans[i])
    ensures NonEmpty(spans)
    ensures forall a, block | block in REFUSED && Covers(spans, a) :: !InBlock(a, block)
  {
    forall i | 0 <= i < |entries|
      ensures spans[i].first <= spans[i].last && forall a, block | block in REFUSED && In(a, spans[i]) :: !InBlock(a, block)
    {
      EntryIsSafe(entries[i]);
    }
  }

  lemma TargetsAre(entries: seq<Entry>, spans: seq<Span>, merged: seq<Span>)
    requires |spans| == |entries| && forall i | 0 <= i < |entries| :: SpanOf(entries[i]) == Ok(spans[i])
    requires Apart(merged) && forall a :: Covers(merged, a) <==> Covers(spans, a)
    ensures AreTargets(entries, merged, Total(merged))
    ensures Overlap(spans) <==> EntriesOverlap(entries)
  {
    hide SpanOf;
    SpansAreSafe(entries, spans);
    forall a ensures Covers(spans, a) <==> Held(entries, a) {
      if Covers(spans, a) {
        var i :| 0 <= i < |spans| && In(a, spans[i]);
        assert HeldBy(entries[i], a);
      }
      if Held(entries, a) {
        var i :| 0 <= i < |entries| && HeldBy(entries[i], a);
        assert In(a, spans[i]);
      }
    }
    forall union: set<Address> | (forall a :: a in union <==> Held(entries, a)) ensures |union| == Total(merged) {
      TotalIsUnion(merged, union);
    }
    if Overlap(spans) {
      var i, j, a :| 0 <= i < j < |spans| && In(a, spans[i]) && In(a, spans[j]);
      assert HeldBy(entries[i], a) && HeldBy(entries[j], a);
    }
    if EntriesOverlap(entries) {
      var i, j, a :| 0 <= i < j < |entries| && HeldBy(entries[i], a) && HeldBy(entries[j], a);
      assert In(a, spans[i]) && In(a, spans[j]);
    }
  }
}
