/**
 What an entry of a discovery holds, and which entries are refused: from the numbers themselves.
 */
module TargetLaws {
  import opened Options
  import opened DiscoveryTargets

  /** The addresses an entry means, as an admin reads it. */
  predicate Means(entry: Entry, a: Address) {
    match entry
    case Subnet(version, number, prefix) =>
      && prefix <= Bits(version) && a.version == version
      && var hosts := Pow2(Bits(version) - prefix);
         a.number / hosts == number / hosts
         && (version == 4 && prefix <= 30 ==> a.number % hosts != 0 && a.number % hosts != hosts - 1)
         && (version == 6 && prefix <= 126 ==> a.number % hosts != 0)
    case Range(version, number, endVersion, end) => a.version == version == endVersion && number <= a.number <= end
    case ShortRange(number, octet) => a.version == 4 && a.number / 256 == number / 256 && number % 256 <= a.number % 256 <= octet
    case Single(version, number) => a == Address(version, number)
  }

  /** IPv4 written as IPv6: ::ffff:0:0/96. */
  predicate IsMapped(version: nat, number: nat) {
    version == 6 && 0xFFFF_0000_0000 <= number <= 0xFFFF_FFFF_FFFF
  }

  predicate NamesMapped(entry: Entry) {
    match entry
    case Subnet(version, number, _) => IsMapped(version, number)
    case Range(version, number, endVersion, end) => IsMapped(version, number) || IsMapped(endVersion, end)
    case ShortRange(_, _) => false
    case Single(version, number) => IsMapped(version, number)
  }

  /** It can't be read as typed. */
  predicate IsFaulty(entry: Entry) {
    || NamesMapped(entry)
    || (entry.Subnet? && entry.prefix > Bits(entry.version))
    || (entry.Range? && (entry.endVersion != entry.version || entry.end < entry.number))
    || (entry.ShortRange? && (entry.octet > 255 || entry.octet < entry.number % 256))
  }

  /** Neither "this network", loopback, multicast nor reserved; nor IPv6's unspecified, loopback, link-local or multicast. */
  predicate Scannable(a: Address) {
    if a.version == 4 then 0x100_0000 <= a.number < 0x7F00_0000 || 0x8000_0000 <= a.number < 0xE000_0000 || a.number >= 0x1_0000_0000
    else if a.version == 6 then
      a.number > 1 && !(0xFE80 * Pow2(112) <= a.number < 0xFEC0 * Pow2(112)) && !(0xFF00 * Pow2(112) <= a.number < 0x1_0000 * Pow2(112))
    else true
  }

  // ---------- The blocks ----------

  lemma PowersAre()
    ensures Pow2(0) == 1 && Pow2(8) == 0x100 && Pow2(16) == 0x1_0000 && Pow2(24) == 0x100_0000 && Pow2(28) == 0x1000_0000
    ensures Pow2(118) == 0x40 * Pow2(112) && Pow2(120) == 0x100 * Pow2(112)
  {
    Doubles(112);
    Doubles(116);
    Doubles(0);
    Doubles(4);
    Doubles(8);
    Doubles(12);
    Doubles(16);
    Doubles(20);
    Doubles(24);
    assert Pow2(118) == 4 * Pow2(116) by {
      assert Pow2(117) == 2 * Pow2(116);
    }
  }

  lemma Doubles(n: nat)
    ensures Pow2(n + 4) == 16 * Pow2(n)
  {
    assert Pow2(n + 1) == 2 * Pow2(n);
    assert Pow2(n + 2) == 2 * Pow2(n + 1);
    assert Pow2(n + 3) == 2 * Pow2(n + 2);
  }

  lemma SpansAre()
    ensures BlockSpan(Block(4, 0, 8)) == Span(4, 0, 0xFF_FFFF) && BlockSpan(Block(4, 127, 8)) == Span(4, 0x7F00_0000, 0x7FFF_FFFF)
    ensures BlockSpan(Block(4, 0xE, 4)) == Span(4, 0xE000_0000, 0xEFFF_FFFF) && BlockSpan(Block(4, 0xF, 4)) == Span(4, 0xF000_0000, 0xFFFF_FFFF)
    ensures BlockSpan(Block(6, 0, 128)) == Span(6, 0, 0) && BlockSpan(Block(6, 1, 128)) == Span(6, 1, 1)
    ensures BlockSpan(Block(6, 0x3FA, 10)) == Span(6, 0xFE80 * Pow2(112), 0xFEC0 * Pow2(112) - 1)
    ensures BlockSpan(Block(6, 0xFF, 8)) == Span(6, 0xFF00 * Pow2(112), 0x1_0000 * Pow2(112) - 1)
  {
    PowersAre();
    hide Pow2;
  }

  /** The refused blocks, number by number. */
  lemma BlocksAre(a: Address)
    requires a.number >= 0
    ensures Scannable(a) <==> forall block | block in REFUSED :: !InBlock(a, block)
  {
    hide Pow2;
    hide InBlock;
    hide BlockSpan;
    SpansAre();
    BlockIsItsPrefix(Block(4, 0, 8), a);
    BlockIsItsPrefix(Block(4, 127, 8), a);
    BlockIsItsPrefix(Block(4, 0xE, 4), a);
    BlockIsItsPrefix(Block(4, 0xF, 4), a);
    BlockIsItsPrefix(Block(6, 0, 128), a);
    BlockIsItsPrefix(Block(6, 1, 128), a);
    BlockIsItsPrefix(Block(6, 0x3FA, 10), a);
    BlockIsItsPrefix(Block(6, 0xFF, 8), a);
    EachRefused(a);
  }

  lemma EachRefused(a: Address)
    ensures (forall block | block in REFUSED :: !InBlock(a, block)) <==>
              && !InBlock(a, Block(4, 0, 8)) && !InBlock(a, Block(4, 127, 8)) && !InBlock(a, Block(4, 0xE, 4)) && !InBlock(a, Block(4, 0xF, 4))
              && !InBlock(a, Block(6, 0, 128)) && !InBlock(a, Block(6, 1, 128)) && !InBlock(a, Block(6, 0x3FA, 10)) && !InBlock(a, Block(6, 0xFF, 8))
  {
    hide InBlock;
    assert |REFUSED| == 8 && forall k | 0 <= k < 8 :: REFUSED[k] in REFUSED;
  }

  // ---------- One entry ----------

  lemma MappedIs(version: nat, number: nat)
    ensures Mapped(version, number) <==> IsMapped(version, number)
  {
    DivModIs(number, 0x1_0000_0000, 0xFFFF);
  }

  lemma LastOctet(number: nat, octet: nat, n: int)
    requires octet <= 255
    ensures number <= n <= number - number % 256 + octet <==> n / 256 == number / 256 && number % 256 <= n % 256 <= octet
  {
    DivModIs(n, 256, number / 256);
    assert number == (number / 256) * 256 + number % 256 && n == (n / 256) * 256 + n % 256;
  }

  /** What the span of an entry holds, before the refused blocks are looked at. */
  lemma UncheckedHolds(entry: Entry, a: Address)
    ensures Unchecked(entry).Ok? <==> !IsFaulty(entry)
    ensures Unchecked(entry).Ok? ==> (In(a, Unchecked(entry).value) <==> Means(entry, a))
  {
    match entry {
      case Subnet(version, number, prefix) =>
        MappedIs(version, number);
        if prefix <= Bits(version) {
          SubnetIsItsPrefix(version, number, prefix, a);
        }
      case Range(version, number, endVersion, end) =>
        MappedIs(version, number);
        MappedIs(endVersion, end);
      case ShortRange(number, octet) =>
        if octet <= 255 {
          LastOctet(number, octet, a.number);
        }
      case Single(version, number) =>
        MappedIs(version, number);
    }
    hide Pow2;
  }

  /** An entry that is read holds exactly the addresses it means... */
  lemma EntryHolds(entry: Entry, a: Address)
    ensures HeldBy(entry, a) <==> SpanOf(entry).Ok? && Means(entry, a)
  {
    UncheckedHolds(entry, a);
    hide Unchecked;
    hide FirstMet;
  }

  /** ... and it is read exactly if nothing is wrong with it and a discovery may touch all of them. */
  lemma EntryIsReadIff(entry: Entry)
    ensures SpanOf(entry).Ok? <==> !IsFaulty(entry) && forall a | Means(entry, a) :: Scannable(a)
  {
    hide Pow2;
    hide Means;
    hide Scannable;
    hide InBlock;
    hide FirstMet;
    UncheckedHolds(entry, Address(0, 0));
    if Unchecked(entry).Ok? {
      var span := Unchecked(entry).value;
      UncheckedIsSome(entry);
      MetIsRefused(span, REFUSED);
      hide Unchecked;
      forall a ensures In(a, span) <==> Means(entry, a) {
        UncheckedHolds(entry, a);
      }
      forall a | In(a, span) ensures Scannable(a) <==> forall block | block in REFUSED :: !InBlock(a, block) {
        BlocksAre(a);
      }
    }
  }

  lemma RemainderIs(n: nat, d: nat)
    requires d > 0
    ensures 0 <= n % d <= n && n % d < d
  {
    assert n == (n / d) * d + n % d && (n / d) * d >= 0;
  }

  lemma UncheckedIsSome(entry: Entry)
    requires Unchecked(entry).Ok?
    ensures 0 <= Unchecked(entry).value.first <= Unchecked(entry).value.last
  {
    match entry {
      case Subnet(version, number, prefix) => RemainderIs(number, Pow2(Bits(version) - prefix));
      case ShortRange(number, octet) => RemainderIs(number, 256);
      case _ =>
    }
    hide Pow2;
  }

  lemma {:induction false} FirstMetIs(span: Span, blocks: seq<Block>)
    requires forall block | block in blocks :: block.prefix <= Bits(block.version)
    ensures var met := FirstMet(span, blocks);
            met.Some? ==> exists k :: 0 <= k < |blocks| && met.value == blocks[k] && Meets(span, BlockSpan(blocks[k]))
                                        && forall m | 0 <= m < k :: !Meets(span, BlockSpan(blocks[m]))
  {
    if blocks != [] && !Meets(span, BlockSpan(blocks[0])) && FirstMet(span, blocks[1..]).Some? {
      FirstMetIs(span, blocks[1..]);
      var k :| 0 <= k < |blocks[1..]| && FirstMet(span, blocks[1..]).value == blocks[1..][k]
               && forall m | 0 <= m < k :: !Meets(span, BlockSpan(blocks[1..][m]));
      assert blocks[k + 1] == blocks[1..][k];
      forall m | 0 <= m < k + 1 ensures !Meets(span, BlockSpan(blocks[m])) {
        assert m > 0 ==> blocks[m] == blocks[1..][m - 1];
      }
    }
  }

  /** Some address of the entry is in the block. */
  ghost predicate Touches(entry: Entry, block: Block)
    requires block.prefix <= Bits(block.version)
  {
    exists a :: Means(entry, a) && InBlock(a, block)
  }

  lemma MeetsIsTouches(entry: Entry, block: Block)
    requires Unchecked(entry).Ok? && block.prefix <= Bits(block.version)
    ensures Meets(Unchecked(entry).value, BlockSpan(block)) <==> Touches(entry, block)
  {
    hide Pow2;
    hide Means;
    hide InBlock;
    var span, shared := Unchecked(entry).value, BlockSpan(block);
    UncheckedIsSome(entry);
    SpanIsSome(block);
    hide Unchecked;
    hide BlockSpan;
    forall a ensures (In(a, span) <==> Means(entry, a)) && (In(a, shared) <==> InBlock(a, block)) {
      UncheckedHolds(entry, a);
      BlockIsItsPrefix(block, a);
    }
    if Meets(span, shared) {
      var a := Address(span.version, if span.first < shared.first then shared.first else span.first);
      assert In(a, span) && In(a, shared);
    }
  }

  /** Why an entry is not read: the first of these that is so. */
  lemma ProblemIs(entry: Entry)
    ensures SpanOf(entry).Err? ==>
              var problem := SpanOf(entry).problem;
              if NamesMapped(entry) then problem == MappedAddress(entry)
              else if entry.Subnet? && entry.prefix > Bits(entry.version) then problem == PrefixTooLong(entry)
              else if entry.Range? && entry.endVersion != entry.version then problem == MixesFamilies(entry)
              else if entry.ShortRange? && entry.octet > 255 then problem == EndTooLarge(entry)
              else if IsFaulty(entry) then problem == RunsBackwards(entry)
              else exists k :: 0 <= k < |REFUSED| && problem == Refused(entry, REFUSED[k]) && Touches(entry, REFUSED[k])
                                 && forall m | 0 <= m < k :: !Touches(entry, REFUSED[m])
  {
    hide Pow2;
    hide Touches;
    hide FirstMet;
    match entry {
      case Subnet(version, number, _) => MappedIs(version, number);
      case Range(version, number, endVersion, end) =>
        MappedIs(version, number);
        MappedIs(endVersion, end);
      case ShortRange(_, _) =>
      case Single(version, number) => MappedIs(version, number);
    }
    hide Mapped;
    hide IsMapped;
    if Unchecked(entry).Ok? {
      FirstMetIs(Unchecked(entry).value, REFUSED);
      forall k | 0 <= k < |REFUSED| ensures Meets(Unchecked(entry).value, BlockSpan(REFUSED[k])) <==> Touches(entry, REFUSED[k]) {
        MeetsIsTouches(entry, REFUSED[k]);
      }
    }
  }

  /** A subnet that was not typed by its lowest address is noted. */
  lemma NotedIff(entry: Entry)
    ensures NotesOf(entry) == [Note.Means(entry)] || NotesOf(entry) == []
    ensures NotesOf(entry) != [] <==>
              && entry.Subnet? && entry.prefix <= Bits(entry.version)
              && exists n: nat :: n < entry.number && SameSubnet(entry.version, entry.prefix, n, entry.number)
  {
    if entry.Subnet? && entry.prefix <= Bits(entry.version) {
      LowestOfSubnet(entry.version, entry.prefix, entry.number);
    }
    hide Pow2;
    hide SameSubnet;
  }

  lemma LowestOfSubnet(version: nat, prefix: nat, number: nat)
    requires prefix <= Bits(version)
    ensures number % Pow2(Bits(version) - prefix) != 0 <==> exists n: nat :: n < number && SameSubnet(version, prefix, n, number)
  {
    var hosts := Pow2(Bits(version) - prefix);
    hide Pow2;
    RemainderIs(number, hosts);
    var first: nat := number - number % hosts;
    assert first == (number / hosts) * hosts;
    WithinBlock(first, first, hosts, number / hosts);
    forall n: nat | SameSubnet(version, prefix, n, number) ensures n >= first {
      WithinBlock(n, first, hosts, number / hosts);
    }
    assert SameSubnet(version, prefix, first, number);
  }

  predicate SameSubnet(version: nat, prefix: nat, m: nat, n: nat)
    requires prefix <= Bits(version)
  {
    var hosts := Pow2(Bits(version) - prefix);
    m / hosts == n / hosts
  }
}
