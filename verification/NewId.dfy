/** Time-ordered ids (UUID version 7, sections 5.7 and 6.2 of RFC 9562): a millisecond
    clock that may stall or go back, a 12-bit sequence that counts within a millisecond
    and borrows the next one when exhausted, and the canonical text. */
module NewId {
  import opened Text

  type Byte = b: int | 0 <= b < 256

  const FULL := 4096

  const WIDEST := 0x1_0000_0000_0000

  // ---- the clock and the sequence

  /** The last millisecond used and the sequence within it. */
  datatype Tick = Tick(ms: nat, seqno: nat)

  predicate Valid(t: Tick) { t.seqno < FULL }

  function Next(t: Tick, clock: int, random: seq<Byte>): (r: Tick)
    requires |random| == 16
  {
    if clock <= t.ms then (if t.seqno + 1 >= FULL then Tick(t.ms + 1, 0) else Tick(t.ms, t.seqno + 1))
    else Tick(clock, random[6] as int % 8 * 256 + random[7] as int)
  }

  predicate Earlier(a: Tick, b: Tick) { a.ms < b.ms || (a.ms == b.ms && a.seqno < b.seqno) }

  lemma NextIsLater(t: Tick, clock: int, random: seq<Byte>)
    requires Valid(t) && |random| == 16
    ensures Valid(Next(t, clock, random)) && Earlier(t, Next(t, clock, random))
  {
  }

  /** The time of an id is the clock's whenever the clock has advanced; else the last one, counted
      on, and one more when the count is exhausted. */
  lemma NextTime(t: Tick, clock: int, random: seq<Byte>)
    requires Valid(t) && |random| == 16
    ensures var r := Next(t, clock, random);
      && (clock > t.ms ==> r.ms == clock && r.seqno < 2048)
      && (clock <= t.ms && t.seqno < 4095 ==> r == Tick(t.ms, t.seqno + 1))
      && (clock <= t.ms && t.seqno == 4095 ==> r == Tick(t.ms + 1, 0))
  {
  }

  // ---- text

  const HEX := "0123456789abcdef"

  /** A number in so many hexadecimal digits. */
  function Hex(n: nat, width: nat): (s: string)
    ensures |s| == width
  {
    if width == 0 then "" else Hex(n / 16, width - 1) + [HEX[n % 16]]
  }

  function HexOf(bytes: seq<Byte>): (s: string)
    ensures |s| == 2 * |bytes|
  {
    if bytes == [] then ""
    else HexOf(bytes[..|bytes| - 1]) + [HEX[bytes[|bytes| - 1] / 16], HEX[bytes[|bytes| - 1] % 16]]
  }

  /** The text of sixteen bytes: groups of 8, 4, 4, 4 and 12 digits. */
  function Canonical(b: seq<Byte>): string
    requires |b| == 16
  {
    Groups(HexOf(b[..4]), HexOf(b[4..6]), HexOf(b[6..8]), HexOf(b[8..10]), HexOf(b[10..]))
  }

  function Groups(a: string, b: string, c: string, d: string, e: string): string {
    a + ("-" + (b + ("-" + (c + ("-" + (d + ("-" + e)))))))
  }

  /** Big-endian bytes. */
  function Big(n: nat, width: nat): (s: seq<Byte>)
    ensures |s| == width
  {
    if width == 0 then [] else Big(n / 256, width - 1) + [n % 256]
  }

  /** The bytes of an id: 48 bits of time, the version 7, 12 bits of sequence, the variant 10, the rest random. */
  function Layout(t: Tick, random: seq<Byte>): (b: seq<Byte>)
    requires |random| == 16
    ensures |b| == 16
  {
    Big(t.ms / 65536, 4) + Big(t.ms % 65536, 2) + Big(0x7000 + t.seqno, 2) + [128 + random[8] % 64] + random[9..]
  }

  lemma {:induction false} HexOfBig(n: nat, width: nat)
    ensures HexOf(Big(n, width)) == Hex(n, 2 * width)
  {
    if width > 0 {
      var b := Big(n, width);
      assert b[..width - 1] == Big(n / 256, width - 1);
      HexOfBig(n / 256, width - 1);
      assert n / 16 / 16 == n / 256 && n % 256 / 16 == n / 16 % 16 && n % 256 % 16 == n % 16;
      assert Hex(n, 2 * width) == Hex(n / 256, 2 * width - 2) + [HEX[n / 16 % 16]] + [HEX[n % 16]];
    }
  }

  // ---- order

  /** Texts of equal length compare group by group. */
  lemma {:induction false} LessByGroups(a: string, b: string, x: string, y: string)
    requires |a| == |b| && (Less(a, b) || (a == b && Less(x, y)))
    ensures Less(a + x, b + y)
  {
    if a == "" {
      assert a + x == x && b + y == y;
    } else {
      assert (a + x)[0] == a[0] && (b + y)[0] == b[0];
      if a[0] == b[0] {
        assert a == b ==> a[1..] == b[1..];
        LessByGroups(a[1..], b[1..], x, y);
        assert (a + x)[1..] == a[1..] + x && (b + y)[1..] == b[1..] + y;
      }
    }
  }

  function Power16(w: nat): nat { if w == 0 then 1 else 16 * Power16(w - 1) }

  lemma DigitOrder(i: nat, j: nat)
    requires i < j < 16
    ensures HEX[i] < HEX[j]
  {
    var cs := [HEX[0], HEX[1], HEX[2], HEX[3], HEX[4], HEX[5], HEX[6], HEX[7], HEX[8], HEX[9], HEX[10], HEX[11],
               HEX[12], HEX[13], HEX[14], HEX[15]];
    assert cs == ['0', '1', '2', '3', '4', '5', '6', '7', '8', '9', 'a', 'b', 'c', 'd', 'e', 'f'];
  }

  lemma {:induction false} HexOrder(n: nat, m: nat, w: nat)
    requires n < m < Power16(w)
    ensures Less(Hex(n, w), Hex(m, w))
  {
    if n / 16 < m / 16 {
      HexOrder(n / 16, m / 16, w - 1);
    } else {
      DigitOrder(n % 16, m % 16);
      assert Less([HEX[n % 16]], [HEX[m % 16]]);
    }
    LessByGroups(Hex(n / 16, w - 1), Hex(m / 16, w - 1), [HEX[n % 16]], [HEX[m % 16]]);
  }

  function TextOf(t: Tick, random: seq<Byte>): string
    requires |random| == 16
  {
    Canonical(Layout(t, random))
  }

  lemma GroupsOf(t: Tick, random: seq<Byte>)
    requires |random| == 16
    ensures var b := Layout(t, random);
      && b[..4] == Big(t.ms / 65536, 4) && b[4..6] == Big(t.ms % 65536, 2) && b[6..8] == Big(0x7000 + t.seqno, 2)
      && b[8..10] == [128 + random[8] % 64, random[9]] && b[10..] == random[10..]
  {
  }

  lemma TextIs(t: Tick, random: seq<Byte>)
    requires |random| == 16
    ensures TextOf(t, random)
         == Groups(Hex(t.ms / 65536, 8), Hex(t.ms % 65536, 4), Hex(0x7000 + t.seqno, 4),
                   HexOf([128 + random[8] % 64, random[9]]), HexOf(random[10..]))
  {
    GroupsOf(t, random);
    HexOfBig(t.ms / 65536, 4);
    HexOfBig(t.ms % 65536, 2);
    HexOfBig(0x7000 + t.seqno, 2);
    hide Layout, HexOf, Hex, Big, Groups;
  }

  lemma Powers()
    ensures Power16(4) == 65536 && Power16(8) == 0x1_0000_0000
  {
    assert Power16(4) == 65536;
    assert Power16(8) == 16 * (16 * (16 * (16 * Power16(4))));
  }

  /** While the time fits 48 bits, a later tick has a greater text, whatever the random bytes. */
  lemma TextOrder(a: Tick, b: Tick, random: seq<Byte>, other: seq<Byte>)
    requires Valid(a) && Valid(b) && Earlier(a, b) && b.ms < WIDEST && |random| == 16 && |other| == 16
    ensures Less(TextOf(a, random), TextOf(b, other))
  {
    TextIs(a, random);
    TextIs(b, other);
    Powers();
    var a1, a2, a3 := a.ms / 65536, a.ms % 65536, 0x7000 + a.seqno;
    var b1, b2, b3 := b.ms / 65536, b.ms % 65536, 0x7000 + b.seqno;
    assert a1 <= b1 < 0x1_0000_0000 && (a1 == b1 ==> a2 <= b2) && (a1 == b1 && a2 == b2 ==> a3 < b3 < 65536);
    hide Power16, Hex, HexOf, Less;
    var x := "-" + (HexOf([128 + random[8] % 64, random[9]]) + ("-" + HexOf(random[10..])));
    var y := "-" + (HexOf([128 + other[8] % 64, other[9]]) + ("-" + HexOf(other[10..])));
    if a1 < b1 {
      HexOrder(a1, b1, 8);
    } else {
      if a2 < b2 { HexOrder(a2, b2, 4); } else { SequenceOrder(a3, b3, x, y); }
      SecondOrder(Hex(a2, 4), Hex(b2, 4), "-" + (Hex(a3, 4) + x), "-" + (Hex(b3, 4) + y));
    }
    LessByGroups(Hex(a1, 8), Hex(b1, 8), "-" + (Hex(a2, 4) + ("-" + (Hex(a3, 4) + x))),
                 "-" + (Hex(b2, 4) + ("-" + (Hex(b3, 4) + y))));
  }

  lemma SequenceOrder(n: nat, m: nat, x: string, y: string)
    requires n < m < 65536
    ensures Less("-" + (Hex(n, 4) + x), "-" + (Hex(m, 4) + y))
  {
    Powers();
    HexOrder(n, m, 4);
    LessByGroups(Hex(n, 4), Hex(m, 4), x, y);
    LessByGroups("-", "-", Hex(n, 4) + x, Hex(m, 4) + y);
  }

  lemma SecondOrder(a: string, b: string, x: string, y: string)
    requires |a| == |b| && (Less(a, b) || (a == b && Less(x, y)))
    ensures Less("-" + (a + x), "-" + (b + y))
  {
    LessByGroups(a, b, x, y);
    LessByGroups("-", "-", a + x, b + y);
  }

  /** The shape of the text: 36 characters, the dashes, the version digit 7 and a variant digit of 8, 9, a or b. */
  lemma TextShape(t: Tick, random: seq<Byte>)
    requires Valid(t) && |random| == 16
    ensures var s := TextOf(t, random);
      |s| == 36 && s[8] == '-' && s[13] == '-' && s[14] == '7' && s[18] == '-' && s[19] in "89ab" && s[23] == '-'
  {
    TextIs(t, random);
    VersionDigit(t.seqno);
    VariantDigit(random[8], random[9]);
    hide Hex, HexOf, TextOf, Groups;
    GroupPositions(Hex(t.ms / 65536, 8), Hex(t.ms % 65536, 4), Hex(0x7000 + t.seqno, 4),
                   HexOf([128 + random[8] % 64, random[9]]), HexOf(random[10..]));
  }

  lemma GroupPositions(a: string, b: string, c: string, d: string, e: string)
    requires |a| == 8 && |b| == 4 && |c| == 4 && |d| == 4 && |e| == 12
    ensures var s := Groups(a, b, c, d, e);
      |s| == 36 && s[8] == '-' && s[13] == '-' && s[14] == c[0] && s[18] == '-' && s[19] == d[0] && s[23] == '-'
  {
  }

  lemma VersionDigit(seqno: nat)
    requires seqno < FULL
    ensures Hex(0x7000 + seqno, 4)[0] == '7'
  {
    var n := 0x7000 + seqno;
    assert n / 16 / 16 / 16 == 7;
    assert Hex(7, 1) == Hex(0, 0) + [HEX[7]] == "7";
    assert Hex(n / 16 / 16, 2) == Hex(7, 1) + [HEX[n / 16 / 16 % 16]];
    assert Hex(n / 16, 3) == Hex(n / 16 / 16, 2) + [HEX[n / 16 % 16]];
  }

  lemma VariantDigit(b: Byte, c: Byte)
    ensures HexOf([128 + b % 64, c])[0] in "89ab"
  {
    var d: Byte := 128 + b % 64;
    assert [d, c][..1] == [d] && [d][..0] == [];
    assert HexOf([d]) == [HEX[d / 16], HEX[d % 16]];
    assert d / 16 == 8 || d / 16 == 9 || d / 16 == 10 || d / 16 == 11;
  }

  // ---- every run

  /** What a call reads: the clock, and sixteen random bytes. */
  datatype Reading = Reading(clock: int, random: seq<Byte>)

  ghost predicate Readings(rs: seq<Reading>) { forall r <- rs :: |r.random| == 16 }

  function After(t: Tick, rs: seq<Reading>): Tick
    requires Readings(rs)
  {
    if rs == [] then t
    else assert rs[|rs| - 1] in rs; Next(After(t, rs[..|rs| - 1]), rs[|rs| - 1].clock, rs[|rs| - 1].random)
  }

  lemma {:induction false} LaterAndLater(t: Tick, rs: seq<Reading>, i: nat)
    requires Valid(t) && Readings(rs) && i < |rs|
    ensures Valid(After(t, rs)) && Earlier(After(t, rs[..i]), After(t, rs))
    decreases |rs|
  {
    var n := |rs| - 1;
    assert rs[n] in rs;
    if i < n {
      LaterAndLater(t, rs[..n], i);
      assert rs[..n][..i] == rs[..i];
    } else {
      AfterIsValid(t, rs[..n]);
    }
    NextIsLater(After(t, rs[..n]), rs[n].clock, rs[n].random);
  }

  lemma {:induction false} AfterIsValid(t: Tick, rs: seq<Reading>)
    requires Valid(t) && Readings(rs)
    ensures Valid(After(t, rs))
  {
    if rs != [] {
      var n := |rs| - 1;
      assert rs[n] in rs;
      AfterIsValid(t, rs[..n]);
      NextIsLater(After(t, rs[..n]), rs[n].clock, rs[n].random);
    }
  }

  function IdAt(t: Tick, rs: seq<Reading>, i: nat): string
    requires Readings(rs) && i < |rs|
  {
    assert rs[i] in rs; TextOf(After(t, rs[..i + 1]), rs[i].random)
  }

  /** Over every run of calls, under any clock, stalled or going back: as long as the time
      fits 48 bits, each text is greater than every one before it, so none repeats. */
  lemma TextsIncrease(t: Tick, rs: seq<Reading>, i: nat, j: nat)
    requires Valid(t) && Readings(rs) && i < j < |rs| && After(t, rs[..j + 1]).ms < WIDEST
    ensures Less(IdAt(t, rs, i), IdAt(t, rs, j)) && IdAt(t, rs, i) != IdAt(t, rs, j)
  {
    assert rs[i] in rs && rs[j] in rs;
    assert rs[..j + 1][..i + 1] == rs[..i + 1];
    LaterAndLater(t, rs[..j + 1], i + 1);
    AfterIsValid(t, rs[..i + 1]);
    TextOrder(After(t, rs[..i + 1]), After(t, rs[..j + 1]), rs[i].random, rs[j].random);
    LessIsAsymmetric(IdAt(t, rs, i), IdAt(t, rs, j));
  }

  // ---- the minter

  class Minter {
    var last: nat
    var seqno: nat

    function Now(): Tick
      reads this
    {
      Tick(last, seqno)
    }

    /** Fills the sixteen random bytes it is given with the layout. */
    method NewID(clock: int, b: array<Byte>) returns (id: string)
      requires b.Length == 16 && Valid(Now())
      modifies this, b
      ensures Valid(Now()) && Now() == Next(old(Now()), clock, old(b[..]))
      ensures last < WIDEST ==> id == TextOf(Now(), old(b[..]))
    {
      NextIsLater(Now(), clock, b[..]);
      var ms := clock;
      if ms <= last {
        ms := last;
        seqno := seqno + 1;
        if seqno >= FULL {
          ms := ms + 1;
          last := ms;
          seqno := 0;
        }
      } else {
        last := ms;
        seqno := b[6] as int % 8 * 256 + b[7] as int;
      }
      Fill(b, ms, seqno);
      id := Canonical(b[..]);
      if last < WIDEST { LayoutIs(Now(), old(b[..]), b[..]); }
    }
  }

  predicate Filled(ms: nat, seqno: nat, random: seq<Byte>, b: seq<Byte>) {
    && |random| == 16 && |b| == 16
    && b[0] == ms / 0x100_0000_0000 % 256 && b[1] == ms / 0x1_0000_0000 % 256 && b[2] == ms / 0x100_0000 % 256
    && b[3] == ms / 0x1_0000 % 256 && b[4] == ms / 0x100 % 256 && b[5] == ms % 256
    && b[6] == 0x70 + seqno / 256 % 16 && b[7] == seqno % 256 && b[8] == random[8] % 64 + 128
    && forall i | 9 <= i < 16 :: b[i] == random[i]
  }

  method Fill(b: array<Byte>, ms: nat, seqno: nat)
    requires b.Length == 16
    modifies b
    ensures Filled(ms, seqno, old(b[..]), b[..])
  {
    b[0], b[1], b[2] := ms / 0x100_0000_0000 % 256, ms / 0x1_0000_0000 % 256, ms / 0x100_0000 % 256;
    b[3], b[4], b[5] := ms / 0x1_0000 % 256, ms / 0x100 % 256, ms % 256;
    b[6] := 0x70 + seqno / 256 % 16;
    b[7] := seqno % 256;
    b[8] := b[8] % 64 + 128;
  }

  /** The number that bytes stand for, the highest first. */
  function Value(b: seq<Byte>): nat { if b == [] then 0 else 256 * Value(b[..|b| - 1]) + b[|b| - 1] }

  function Power256(w: nat): nat { if w == 0 then 1 else 256 * Power256(w - 1) }

  lemma {:induction false} BigReadsBack(n: nat, width: nat)
    requires n < Power256(width)
    ensures Value(Big(n, width)) == n
  {
    if width > 0 {
      assert n / 256 < Power256(width - 1);
      BigReadsBack(n / 256, width - 1);
      assert Big(n, width)[..width - 1] == Big(n / 256, width - 1);
    }
  }

  /** The bytes of an id read back: 48 bits of time, the version 7 and the sequence, the variant
      10, and the random rest. */
  lemma LayoutReadsBack(t: Tick, random: seq<Byte>)
    requires Valid(t) && t.ms < WIDEST && |random| == 16
    ensures var b := Layout(t, random);
      && 65536 * Value(b[..4]) + Value(b[4..6]) == t.ms && Value(b[6..8]) == 7 * 4096 + t.seqno
      && b[8] / 64 == 2 && b[8] % 64 == random[8] % 64 && b[9..] == random[9..]
  {
    var b := Layout(t, random);
    assert b[..4] == Big(t.ms / 65536, 4) && b[4..6] == Big(t.ms % 65536, 2) && b[6..8] == Big(0x7000 + t.seqno, 2);
    assert Power256(2) == 65536 && Power256(4) == 256 * (256 * Power256(2));
    hide Big, Value, Power256;
    BigReadsBack(t.ms / 65536, 4);
    BigReadsBack(t.ms % 65536, 2);
    BigReadsBack(0x7000 + t.seqno, 2);
  }

  lemma FilledTime(t: Tick, random: seq<Byte>, b: seq<Byte>)
    requires t.ms < WIDEST && Filled(t.ms, t.seqno, random, b)
    ensures b[..4] == Big(t.ms / 65536, 4) && b[4..6] == Big(t.ms % 65536, 2)
  {
    TimeBytes(t.ms);
    hide Big;
    InParts(b);
  }

  lemma FilledSequence(t: Tick, random: seq<Byte>, b: seq<Byte>)
    requires Valid(t) && Filled(t.ms, t.seqno, random, b)
    ensures b[6..8] == Big(0x7000 + t.seqno, 2)
  {
    BigTwo(0x7000 + t.seqno);
    assert (0x7000 + t.seqno) / 256 == 0x70 + t.seqno / 256 % 16 && (0x7000 + t.seqno) % 256 == t.seqno % 256;
    hide Big;
    InParts(b);
  }

  lemma FilledRest(t: Tick, random: seq<Byte>, b: seq<Byte>)
    requires Filled(t.ms, t.seqno, random, b)
    ensures |random| == 16 && |b| == 16 && b[8] == 128 + random[8] % 64 && b[9..] == random[9..]
  {
  }

  lemma Assembles(b: seq<Byte>, x: seq<Byte>, y: seq<Byte>, z: seq<Byte>, r: Byte, rest: seq<Byte>)
    requires |b| == 16 && b[..4] == x && b[4..6] == y && b[6..8] == z && b[8] == r && b[9..] == rest
    ensures b == x + y + z + [r] + rest
  {
    InParts(b);
  }

  lemma LayoutIs(t: Tick, random: seq<Byte>, b: seq<Byte>)
    requires Valid(t) && t.ms < WIDEST && Filled(t.ms, t.seqno, random, b)
    ensures b == Layout(t, random)
  {
    hide Filled, Big;
    FilledRest(t, random, b);
    FilledTime(t, random, b);
    FilledSequence(t, random, b);
    Assembles(b, Big(t.ms / 65536, 4), Big(t.ms % 65536, 2), Big(0x7000 + t.seqno, 2), 128 + random[8] % 64,
              random[9..]);
  }

  lemma InParts(b: seq<Byte>)
    requires |b| == 16
    ensures b == b[..4] + b[4..6] + b[6..8] + [b[8]] + b[9..]
    ensures b[..4] == [b[0], b[1], b[2], b[3]] && b[4..6] == [b[4], b[5]] && b[6..8] == [b[6], b[7]]
  {
  }

  lemma TimeBytes(ms: nat)
    requires ms < WIDEST
    ensures Big(ms / 65536, 4) ==
      [ms / 0x100_0000_0000 % 256, ms / 0x1_0000_0000 % 256, ms / 0x100_0000 % 256, ms / 0x1_0000 % 256]
    ensures Big(ms % 65536, 2) == [ms / 0x100 % 256, ms % 256]
  {
    var h, l := ms / 65536, ms % 65536;
    BigFour(h);
    BigTwo(l);
    TwiceDivided(ms, 65536, 0x100_0000);
    TwiceDivided(ms, 65536, 0x1_0000);
    TwiceDivided(ms, 65536, 256);
    LowBytes(ms);
    hide Big;
  }

  lemma LowBytes(ms: nat)
    ensures ms % 65536 / 256 == ms / 256 % 256 && ms % 65536 % 256 == ms % 256
  {
  }

  lemma TwiceDivided(n: nat, a: nat, b: nat)
    requires a > 0 && b > 0
    ensures a * b > 0 && n / a / b == n / (a * b)
  {
    var q, r := n / a / b, n / a % b;
    var s := n % a;
    assert n == a * (b * q + r) + s;
    assert a * (b * q + r) == a * b * q + a * r;
    assert 0 <= a * r + s < a * b by { assert a * r <= a * (b - 1) by {
      Product(a, r, b - 1);
      } assert a * (b - 1) == a * b - a;
    }
    Quotient(n, a * b, q, a * r + s);
  }

  lemma Product(a: nat, r: nat, m: nat)
    requires r <= m
    ensures a * r <= a * m
  {
  }

  lemma Quotient(n: nat, d: nat, q: nat, r: nat)
    requires d > 0 && r < d && n == d * q + r
    ensures n / d == q
  {
    var e := n / d;
    assert n == d * e + n % d;
    if e < q { Product(d, e + 1, q); } else if q < e { Product(d, q + 1, e); }
  }

  lemma BigTwo(n: nat)
    requires n < 65536
    ensures Big(n, 2) == [n / 256, n % 256]
  {
    assert Big(n, 2) == Big(n / 256, 1) + [n % 256];
    assert Big(n / 256, 1) == Big(n / 256 / 256, 0) + [n / 256 % 256];
  }

  lemma BigFour(n: nat)
    requires n < 0x1_0000_0000
    ensures Big(n, 4) == [n / 0x100_0000 % 256, n / 0x1_0000 % 256, n / 256 % 256, n % 256]
  {
    assert Big(n, 4) == Big(n / 256, 3) + [n % 256];
    assert Big(n / 256, 3) == Big(n / 256 / 256, 2) + [n / 256 % 256];
    BigTwo(n / 256 / 256);
    assert n / 256 / 256 == n / 0x1_0000 && n / 0x1_0000 / 256 == n / 0x100_0000;
  }
}
