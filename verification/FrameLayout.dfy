/**
  The base framing of RFC 6455, section 5.2, said of the octets of a frame bit by bit, and
  that both decoders cut exactly the frames so laid out.
 */
module FrameLayout {
  import opened Bytes
  import opened GateSpec
  import opened ObserverSpec

  // ---------------------------------------------------------------- bits

  /** Bit `k` of an octet, counted from the least significant. */
  function Bit(x: nat, k: nat): nat
  {
    if k == 0 then x % 2 else Bit(x / 2, k - 1)
  }

  /** It is worth two to the power of `k`. */
  lemma {:induction false} BitWorth(x: nat, k: nat)
    ensures Power2(k) > 0 && Bit(x, k) == (x / Power2(k)) % 2
  {
    if k > 0 {
      BitWorth(x / 2, k - 1);
      DivideTwice(x, Power2(k - 1));
    }
  }

  lemma DivideTwice(x: nat, n: nat)
    requires n > 0
    ensures x / (2 * n) == x / 2 / n
  {
    var q, r := x / 2 / n, x / 2 % n;
    assert x / 2 == n * q + r;
    assert (2 * n) * q == 2 * (n * q);
    QuotientUnique(x, 2 * n, q, 2 * r + x % 2);
  }

  lemma QuotientUnique(x: nat, n: nat, q: nat, r: nat)
    requires n > 0 && x == n * q + r && r < n
    ensures x / n == q
  {
    var p, s := x / n, x % n;
    assert x == n * p + s;
    if p < q {
      AtLeastOnce(n, p, q);
    } else if q < p {
      AtLeastOnce(n, q, p);
    }
  }

  lemma {:induction false} AtLeastOnce(n: nat, p: nat, q: nat)
    requires p < q
    ensures n * q >= n * p + n
    decreases q
  {
    assert n * q == n * (q - 1) + n;
    if p < q - 1 {
      AtLeastOnce(n, p, q - 1);
    }
  }

  lemma {:induction false} XorBitsBit(a: nat, b: nat, width: nat, k: nat)
    requires k < width
    ensures Bit(XorBits(a, b, width), k) == if Bit(a, k) == Bit(b, k) then 0 else 1
  {
    var low := if a % 2 == b % 2 then 0 else 1;
    Halves(XorBits(a / 2, b / 2, width - 1), low);
    if k > 0 {
      XorBitsBit(a / 2, b / 2, width - 1, k - 1);
    }
  }

  /** Unmasking flips the bits of octet i that are set in mask octet i modulo 4. */
  lemma UnmaskBits(mask: Octets, masked: Octets, i: nat, k: nat)
    requires |mask| == 4 && i < |masked| && k < 8
    ensures Bit(Unmask(mask, masked)[i], k) == 1 <==> Bit(masked[i], k) != Bit(mask[i % 4], k)
  {
    XorBitsBit(masked[i], mask[i % 4], 8, k);
  }

  lemma {:induction false} BitsDetermine(a: nat, b: nat, width: nat)
    requires a < Power2(width) && b < Power2(width) && forall k :: 0 <= k < width ==> Bit(a, k) == Bit(b, k)
    ensures a == b
  {
    if width > 0 {
      assert Bit(a, 0) == Bit(b, 0);
      forall k | 0 <= k < width - 1 ensures Bit(a / 2, k) == Bit(b / 2, k) {
        assert Bit(a, k + 1) == Bit(b, k + 1);
      }
      BitsDetermine(a / 2, b / 2, width - 1);
    }
  }

  // ---------------------------------------------------------------- the layout

  /** The octets before mask and payload: two, and two or eight more for the longer forms. */
  function HeaderSaid(b: Octets): nat
    requires |b| >= 2
  {
    match b[1] % 128
    case 126 => 4
    case 127 => 10
    case _ => 2
  }

  function Word(a: nat, b: nat): nat
  {
    0x100 * a + b
  }

  function DoubleWord(a: nat, b: nat, c: nat, d: nat): nat
  {
    0x1_0000 * Word(a, b) + Word(c, d)
  }

  /** The payload length, in network byte order. */
  function LengthSaid(b: Octets): nat
    requires |b| >= 2 && |b| >= HeaderSaid(b)
  {
    match b[1] % 128
    case 126 => Word(b[2], b[3])
    case 127 => 0x1_0000_0000 * DoubleWord(b[2], b[3], b[4], b[5]) + DoubleWord(b[6], b[7], b[8], b[9])
    case code => code
  }

  /** The mask bit is set exactly in what a client sends; no extension bit is set; the top bit of a length is not. */
  predicate LawfulHead(server: bool, b: Octets)
    requires |b| >= 2 && |b| >= HeaderSaid(b)
  {
    (b[0] / 16) % 8 == 0 && (b[1] >= 128 <==> !server) && (HeaderSaid(b) == 10 ==> b[2] < 128)
  }

  ghost predicate PayloadSaid(server: bool, raw: Octets, payload: Octets)
    requires |raw| >= 2
  {
    var at := HeaderSaid(raw) + if server then 0 else 4;
    && |raw| == at + |payload|
    && forall i :: 0 <= i < |payload| ==>
         if server then payload[i] == raw[at + i]
         else forall k :: 0 <= k < 8 ==>
             (Bit(payload[i], k) == 1 <==> Bit(raw[at + i], k) != Bit(raw[at - 4 + i % 4], k))
  }

  /** `raw` is a frame of at most 65535 octets of payload that says `f`. */
  ghost predicate Layout(server: bool, raw: Octets, f: Frame)
  {
    && |raw| >= 2 && |raw| >= HeaderSaid(raw) && LawfulHead(server, raw)
    && f.raw == raw && (f.fin <==> raw[0] >= 128) && f.opcode == raw[0] % 16
    && |f.payload| == LengthSaid(raw) <= 65535
    && PayloadSaid(server, raw, f.payload)
  }

  lemma BigEndianNext(b: Octets, n: nat)
    requires n < |b|
    ensures BigEndian(b[..n + 1]) == 256 * BigEndian(b[..n]) + (b[n] as int)
  {
    assert b[..n + 1][..n] == b[..n];
  }

  lemma LengthsAgree(b: Octets)
    requires |b| >= 2 && |b| >= HeaderSaid(b)
    ensures HeaderLength(b[1] % 128) == HeaderSaid(b) && PayloadLength(b, b[1] % 128) == LengthSaid(b)
    ensures b[1] % 128 >= 126 ==> BigEndian(b[2..HeaderSaid(b)]) == LengthSaid(b)
  {
    hide BigEndian;
    if b[1] % 128 == 126 {
      BigEndian2(b[2..4]);
    } else if b[1] % 128 == 127 {
      LongLength(b[2..10]);
    }
  }

  lemma LongLength(b: Octets)
    requires |b| == 8
    ensures BigEndian(b)
         == 0x1_0000_0000 * DoubleWord(b[0], b[1], b[2], b[3]) + DoubleWord(b[4], b[5], b[6], b[7])
  {
    assert BigEndian(b[..0]) == 0 && b[..8] == b;
    hide BigEndian;
    BigEndianNext(b, 0);
    BigEndianNext(b, 1);
    BigEndianNext(b, 2);
    BigEndianNext(b, 3);
    BigEndianNext(b, 4);
    BigEndianNext(b, 5);
    BigEndianNext(b, 6);
    BigEndianNext(b, 7);
  }

  // ---------------------------------------------------------------- the gate's decoder

  lemma HeadSized(server: bool, b: Octets)
    requires |b| >= 2
    ensures ReadHead(server, b).Sized? <==> |b| >= HeaderSaid(b) && LawfulHead(server, b) && LengthSaid(b) <= 65535
    ensures ReadHead(server, b).Sized? ==>
              ReadHead(server, b) == Sized(HeaderSaid(b), HeaderSaid(b) + (if server then 0 else 4) + LengthSaid(b))
  {
    hide BigEndian, PayloadLength, LengthSaid;
    if |b| >= HeaderSaid(b) {
      LengthsAgree(b);
    }
  }

  lemma PayloadCut(server: bool, raw: Octets, payload: Octets)
    requires |raw| >= 2 && |raw| == HeaderSaid(raw) + (if server then 0 else 4) + |payload|
    requires var at := HeaderSaid(raw);
             payload == if server then raw[at..] else Unmask(raw[at..at + 4], raw[at + 4..])
    ensures PayloadSaid(server, raw, payload)
  {
    hide Unmask, Bit;
    var at := HeaderSaid(raw);
    if !server {
      var mask, masked := raw[at..at + 4], raw[at + 4..];
      forall i, k | 0 <= i < |payload| && 0 <= k < 8
        ensures Bit(payload[i], k) == 1 <==> Bit(raw[at + 4 + i], k) != Bit(raw[at + i % 4], k) {
        UnmaskBits(mask, masked, i, k);
        assert masked[i] == raw[at + 4 + i] && mask[i % 4] == raw[at + i % 4];
      }
    }
  }

  lemma GotLaidOut(server: bool, b: Octets)
    requires NextFrame(server, b).Got?
    ensures var f := NextFrame(server, b).frame; |f.raw| <= |b| && f.raw == b[..|f.raw|] && Layout(server, f.raw, f)
  {
    HeadSized(server, b);
    hide ReadHead, Unmask, LengthSaid, PayloadSaid, BigEndian;
    var f := NextFrame(server, b).frame;
    SameHead(b, f.raw);
    PayloadCut(server, f.raw, f.payload);
  }

  /** The header of a prefix that holds it is that of the whole. */
  lemma SameHead(b: Octets, raw: Octets)
    requires 2 <= |raw| <= |b| && raw == b[..|raw|] && |raw| >= HeaderSaid(raw)
    ensures HeaderSaid(b) == HeaderSaid(raw) && LengthSaid(b) == LengthSaid(raw)
    ensures forall server :: LawfulHead(server, b) <==> LawfulHead(server, raw)
  {
  }

  lemma LaidOutGot(server: bool, b: Octets, f: Frame)
    requires |f.raw| <= |b| && f.raw == b[..|f.raw|] && Layout(server, f.raw, f)
    ensures NextFrame(server, b).Got? && NextFrame(server, b).frame.raw == f.raw
  {
    SameHead(b, f.raw);
    HeadSized(server, b);
    hide ReadHead, Unmask, LengthSaid, BigEndian;
  }

  lemma LayoutUnique(server: bool, raw: Octets, f: Frame, g: Frame)
    requires Layout(server, raw, f) && Layout(server, raw, g)
    ensures f == g
  {
    hide Bit, LengthSaid, LawfulHead;
    assert Power2(8) == 256 by { assert Power2(4) == 16; }
    forall i | 0 <= i < |f.payload| ensures f.payload[i] == g.payload[i] {
      if !server {
        forall k | 0 <= k < 8 ensures Bit(f.payload[i], k) == Bit(g.payload[i], k) {
          BitIsBit(f.payload[i], k);
          BitIsBit(g.payload[i], k);
        }
        BitsDetermine(f.payload[i], g.payload[i], 8);
      }
    }
  }

  lemma BitIsBit(x: nat, k: nat)
    ensures Bit(x, k) == 0 || Bit(x, k) == 1
  {
  }

  /** The gate cuts a frame off its buffer exactly if the buffer begins with one that is so laid out. */
  lemma FrameIff(server: bool, b: Octets, f: Frame)
    ensures NextFrame(server, b) == Got(f) <==> |f.raw| <= |b| && f.raw == b[..|f.raw|] && Layout(server, f.raw, f)
  {
    hide NextFrame, Layout;
    if NextFrame(server, b).Got? {
      GotLaidOut(server, b);
      if |f.raw| <= |b| && f.raw == b[..|f.raw|] && Layout(server, f.raw, f) {
        LaidOutGot(server, b, f);
        LayoutUnique(server, f.raw, f, NextFrame(server, b).frame);
      }
    } else if |f.raw| <= |b| && f.raw == b[..|f.raw|] && Layout(server, f.raw, f) {
      LaidOutGot(server, b, f);
    }
  }

  /** It waits exactly while header or payload are incomplete and nothing read so far is wrong. */
  lemma WaitsIff(server: bool, b: Octets)
    ensures NextFrame(server, b).NeedMore? <==>
            || |b| < 2
            || ((b[0] / 16) % 8 == 0 && (b[1] >= 128 <==> !server)
                && (|b| < HeaderSaid(b)
                    || (LawfulHead(server, b) && LengthSaid(b) <= 65535
                        && |b| < HeaderSaid(b) + (if server then 0 else 4) + LengthSaid(b))))
  {
    hide BigEndian, LengthSaid, PayloadLength;
    if |b| >= 2 && |b| >= HeaderSaid(b) {
      LengthsAgree(b);
    }
  }

  // ---------------------------------------------------------------- the observer's decoder

  /**
    The observer reads a header exactly if it is lawful and says a known opcode, a control
    frame of at most 125 octets in one piece, and a length within its limit.
   */
  lemma ObserverHeadIff(c: Config, d: Direction, b: Octets)
    ensures ReadFrameHead(c, d, b).Framed? <==>
            && |b| >= 2 && |b| >= HeaderSaid(b) && LawfulHead(d.Server?, b) && LengthSaid(b) <= c.maxFrame
            && b[0] % 16 < 11 && (b[0] % 16 >= 8 ==> b[0] >= 128 && LengthSaid(b) <= 125)
    ensures ReadFrameHead(c, d, b).Framed? ==>
              ReadFrameHead(c, d, b) ==
              Framed(b[0] >= 128, b[0] % 16, HeaderSaid(b),
                     HeaderSaid(b) + (if d.Server? then 0 else 4) + LengthSaid(b))
    ensures ReadFrameHead(c, d, b).Unready? <==>
            |b| < 2 || ((b[0] / 16) % 8 == 0 && (b[1] >= 128 <==> d.Client?) && |b| < HeaderSaid(b))
  {
    hide BigEndian, LengthSaid;
    if |b| >= 2 && |b| >= HeaderSaid(b) {
      LengthsAgree(b);
      hide PayloadLength;
      if b[1] % 128 < 126 {
        ShortLength(b);
      }
    }
  }

  lemma ShortLength(b: Octets)
    requires |b| >= 2 && b[1] % 128 < 126
    ensures LengthSaid(b) == b[1] % 128
  {
  }

  /** And it recovers the payload that the frame says. */
  lemma ObserverPayload(d: Direction, b: Octets, total: nat)
    requires 2 <= |b| && HeaderSaid(b) + MaskSize(d) <= total <= |b|
    ensures PayloadSaid(d.Server?, b[..total], FramePayload(d, b, HeaderSaid(b), total))
  {
    hide Unmask, PayloadSaid;
    var raw, at := b[..total], HeaderSaid(b);
    assert HeaderSaid(raw) == at;
    assert raw[at..] == b[at..total];
    if d.Client? {
      assert raw[at..at + 4] == b[at..at + 4] && raw[at + 4..] == b[at + 4..total];
    }
    PayloadCut(d.Server?, raw, FramePayload(d, b, at, total));
  }
}
