/**
  Octets, big-endian lengths, the XOR mask of RFC 6455 section 5.3 and the
  header-terminator search, shared by every decoder of the relay.

  An octet is an integer in 0..255, so the bit tests of the decoders are written
  as arithmetic: `x & 0x80` is `x >= 128`, `x & 0x0f` is `x % 16`, `x & 0x70` is
  `(x / 16) % 8` and `x & 0x7f` is `x % 128`.
 */
module Bytes {

  type Octet = x: int | 0 <= x < 256
  type Octets = seq<Octet>

  /** Bitwise exclusive or of the `width` low bits, least significant bit first. */
  function XorBits(a: nat, b: nat, width: nat): nat
  {
    if width == 0 then 0 else 2 * XorBits(a / 2, b / 2, width - 1) + if a % 2 == b % 2 then 0 else 1
  }

  function Power2(n: nat): nat
  {
    if n == 0 then 1 else 2 * Power2(n - 1)
  }

  lemma {:induction false} XorBitsBound(a: nat, b: nat, width: nat)
    ensures XorBits(a, b, width) < Power2(width)
  {
    if width > 0 {
      XorBitsBound(a / 2, b / 2, width - 1);
    }
  }

  lemma Halves(q: nat, bit: nat)
    requires bit < 2
    ensures (2 * q + bit) / 2 == q && (2 * q + bit) % 2 == bit
  {
  }

  lemma {:induction false} XorBitsInvolution(a: nat, b: nat, width: nat)
    requires a < Power2(width)
    ensures XorBits(XorBits(a, b, width), b, width) == a
  {
    if width > 0 {
      Halves(XorBits(a / 2, b / 2, width - 1), if a % 2 == b % 2 then 0 else 1);
      XorBitsInvolution(a / 2, b / 2, width - 1);
    }
  }

  function Xor(a: Octet, b: Octet): Octet
  {
    XorBitsBound(a, b, 8);
    assert Power2(8) == 256 by { assert Power2(4) == 16; }
    XorBits(a, b, 8)
  }

  lemma XorInvolution(a: Octet, b: Octet)
    ensures Xor(Xor(a, b), b) == a
  {
    assert Power2(8) == 256 by { assert Power2(4) == 16; }
    XorBitsInvolution(a, b, 8);
  }

  /** Masking and unmasking are the same operation: octet i is XORed with mask octet i mod 4. */
  function Unmask(mask: Octets, payload: Octets): (r: Octets)
    requires |mask| == 4
    ensures |r| == |payload|
  {
    seq(|payload|, i requires 0 <= i < |payload| => Xor(payload[i], mask[i % 4]))
  }

  lemma UnmaskInvolution(mask: Octets, payload: Octets)
    requires |mask| == 4
    ensures Unmask(mask, Unmask(mask, payload)) == payload
  {
    var once := Unmask(mask, payload);
    forall i | 0 <= i < |payload| ensures Unmask(mask, once)[i] == payload[i] {
      XorInvolution(payload[i], mask[i % 4]);
    }
  }

  function BigEndian(b: Octets): nat
  {
    if b == [] then 0 else 256 * BigEndian(b[..|b| - 1]) + (b[|b| - 1] as int)
  }

  lemma BigEndian2(b: Octets)
    requires |b| == 2
    ensures BigEndian(b) == 256 * (b[0] as int) + (b[1] as int)
  {
    assert BigEndian(b[..1]) == 256 * BigEndian(b[..1][..0]) + (b[0] as int);
  }

  function Flatten(parts: seq<Octets>): Octets
  {
    if parts == [] then [] else parts[0] + Flatten(parts[1..])
  }

  lemma {:induction false} FlattenConcat(a: seq<Octets>, b: seq<Octets>)
    ensures Flatten(a + b) == Flatten(a) + Flatten(b)
  {
    if a == [] {
      assert a + b == b;
    } else {
      assert (a + b)[1..] == a[1..] + b;
      FlattenConcat(a[1..], b);
    }
  }

  lemma FlattenSnoc(a: seq<Octets>, last: Octets)
    ensures Flatten(a + [last]) == Flatten(a) + last
  {
    FlattenConcat(a, [last]);
    assert Flatten([last]) == last + Flatten([]);
  }

  /** Cutting at `end` does not see octets that arrive behind it. */
  lemma CutBefore(x: Octets, a: Octets, b: Octets, end: nat)
    requires end <= |x + a|
    ensures (x + (a + b))[..end] == (x + a)[..end]
    ensures (x + (a + b))[end..] == (x + a)[end..] + b
  {
    assert x + (a + b) == (x + a) + b;
  }

  const CRLF_CRLF: Octets := [13, 10, 13, 10]

  datatype HeaderEnd = NoHeaderEnd | HeaderEnd(end: nat)

  predicate TerminatorAt(b: Octets, i: nat)
  {
    i + 4 <= |b| && b[i..i + 4] == CRLF_CRLF
  }

  /** `find(b"\r\n\r\n")`, reported as the offset just behind the terminator. */
  function FindHeaderEnd(b: Octets, from: nat := 0): (r: HeaderEnd)
    ensures r.HeaderEnd? ==> from + 4 <= r.end <= |b|
    decreases |b| - from
  {
    if from + 4 > |b| then NoHeaderEnd
    else if TerminatorAt(b, from) then HeaderEnd(from + 4)
    else FindHeaderEnd(b, from + 1)
  }

  /** The search finds the first terminator, and fails only where there is none. */
  lemma {:induction false} FindHeaderEndFirst(b: Octets, from: nat)
    ensures match FindHeaderEnd(b, from)
            case NoHeaderEnd => forall i :: from <= i ==> !TerminatorAt(b, i)
            case HeaderEnd(end) =>
              TerminatorAt(b, end - 4) && forall i :: from <= i < end - 4 ==> !TerminatorAt(b, i)
    decreases |b| - from
  {
    if from + 4 <= |b| && !TerminatorAt(b, from) {
      FindHeaderEndFirst(b, from + 1);
    }
  }

  /** A terminator that has been found stays the first one when more octets arrive. */
  lemma {:induction false} HeaderEndStable(b: Octets, more: Octets, from: nat := 0)
    ensures FindHeaderEnd(b, from).HeaderEnd? ==> FindHeaderEnd(b + more, from) == FindHeaderEnd(b, from)
    ensures FindHeaderEnd(b, from).NoHeaderEnd? && FindHeaderEnd(b + more, from).HeaderEnd?
            ==> FindHeaderEnd(b + more, from).end > |b|
    decreases |b| - from
  {
    if from + 4 <= |b| {
      assert (b + more)[from..from + 4] == b[from..from + 4];
      HeaderEndStable(b, more, from + 1);
    }
  }

  /** The terminator found is also the end of the header on its own. */
  lemma {:induction false} HeaderEndTight(b: Octets, end: nat, from: nat := 0)
    requires FindHeaderEnd(b, from) == HeaderEnd(end)
    ensures FindHeaderEnd(b[..end], from) == HeaderEnd(end)
    decreases |b| - from
  {
    assert b[..end][from..from + 4] == b[from..from + 4];
    if !TerminatorAt(b, from) {
      HeaderEndTight(b, end, from + 1);
    }
  }
}
