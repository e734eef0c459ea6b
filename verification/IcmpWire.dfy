/** Bytes of an ICMP echo (`ping/src/icmp.rs`): the big-endian payload fields, the packet of
    RFC 792, "Echo or Echo Reply Message", and the checksum of section 1 of RFC 1071. */
module IcmpWire {

  type byte = x: int | 0 <= x < 256

  // ----- Big-endian integers -----

  function Pow256(width: nat): nat {
    if width == 0 then 1 else 256 * Pow256(width - 1)
  }

  const U16: nat := 0x1_0000
  const U128: nat := 0x1_0000_0000_0000_0000_0000_0000_0000_0000

  /** The low `width` bytes of `v`, most significant first. */
  function ToBe(width: nat, v: nat): (bs: seq<byte>)
    ensures |bs| == width
  {
    if width == 0 then [] else ToBe(width - 1, v / 256) + [(v % 256) as byte]
  }

  function FromBe(bs: seq<byte>): nat {
    if bs == [] then 0 else 256 * FromBe(bs[..|bs| - 1]) + bs[|bs| - 1]
  }

  lemma WidthOf16Bytes()
    ensures Pow256(16) == U128 && Pow256(2) == U16
  {
  }

  /** Decoding gives back every value that fits, and the remainder of one that does not. */
  lemma {:induction false} BigEndianRoundTrip(width: nat, v: nat)
    ensures Pow256(width) > 0
    ensures v < Pow256(width) ==> FromBe(ToBe(width, v)) == v
  {
    if width > 0 {
      BigEndianRoundTrip(width - 1, v / 256);
      var bs := ToBe(width, v);
      assert bs[..|bs| - 1] == ToBe(width - 1, v / 256);
    }
  }

  /** Every byte by its place: the most significant comes first. */
  lemma {:induction false} FromBeByPlace(b: byte, rest: seq<byte>)
    ensures FromBe([b] + rest) == b as nat * Pow256(|rest|) + FromBe(rest)
    ensures FromBe([]) == 0
  {
    if rest == [] {
      assert [b] + rest == [b] && [b][..0] == [];
    } else {
      var init := rest[..|rest| - 1];
      FromBeByPlace(b, init);
      assert ([b] + rest)[..|rest|] == [b] + init;
      assert b as nat * (256 * Pow256(|init|)) == 256 * (b as nat * Pow256(|init|));
    }
  }

  // ----- The checksum -----

  /** Sum of the 16-bit words, an odd last byte being padded with zero. */
  function WordSum(bs: seq<byte>): nat {
    if |bs| == 0 then 0
    else if |bs| == 1 then 256 * bs[0]
    else 256 * bs[0] + bs[1] + WordSum(bs[2..])
  }

  /** The sum goes by 16-bit words, high byte first, and padding an odd length with zero does not
      change it. */
  lemma {:induction false} WordSumByWords(hi: byte, lo: byte, rest: seq<byte>)
    ensures WordSum([hi, lo] + rest) == 256 * hi as nat + lo as nat + WordSum(rest)
    ensures WordSum([]) == 0
    ensures |rest| % 2 == 1 ==> WordSum(rest + [0]) == WordSum(rest)
  {
    assert ([hi, lo] + rest)[2..] == rest;
    if |rest| == 1 {
      assert (rest + [0])[2..] == [];
    } else if |rest| > 1 {
      WordSumByWords(hi, lo, rest[2..]);
      assert (rest + [0])[2..] == rest[2..] + [0];
    }
  }

  /** End-around carry down to 16 bits. */
  function Fold(s: nat): (r: nat)
    ensures r < U16
    decreases s
  {
    if s < U16 then s else Fold(s % U16 + s / U16)
  }

  function Checksum(bs: seq<byte>): (r: nat)
    ensures r < U16
  {
    0xFFFF - Fold(WordSum(bs))
  }

  /** One carry takes away a multiple of 65535. */
  lemma OneFold(s: nat)
    requires s >= U16
    ensures var t := s % U16 + s / U16; 0 < t < s && t % 0xFFFF == s % 0xFFFF
  {
    var q := s / U16;
    SameResidue(s % U16 + q, q);
  }

  lemma SameResidue(t: nat, q: nat)
    ensures (t + 0xFFFF * q) % 0xFFFF == t % 0xFFFF
  {
  }

  /** Folding keeps the value modulo 65535 and keeps it from vanishing. */
  lemma {:induction false} FoldIsResidue(s: nat)
    ensures Fold(s) % 0xFFFF == s % 0xFFFF
    ensures s > 0 ==> Fold(s) > 0
    decreases s
  {
    if s >= U16 {
      OneFold(s);
      FoldIsResidue(s % U16 + s / U16);
    }
  }

  /** A message passes verification exactly when its words sum to a nonzero multiple of 65535. */
  lemma VerifiesIff(bs: seq<byte>)
    ensures Fold(WordSum(bs)) == 0xFFFF <==> WordSum(bs) > 0 && WordSum(bs) % 0xFFFF == 0
  {
    FoldIsResidue(WordSum(bs));
  }

  // ----- Echo messages -----

  const ECHO_REQUEST: byte := 8
  const ECHO_REPLY: byte := 0

  /** Type, code zero, checksum, then `body`: identifier, sequence number and data. */
  function Message(kind: byte, body: seq<byte>): (bs: seq<byte>)
    ensures |bs| == 4 + |body| && bs[0] == kind && bs[1] == 0 && bs[4..] == body
  {
    [kind, 0] + ToBe(2, Checksum([kind, 0, 0, 0] + body)) + body
  }

  function Request(identifier: nat, header: nat, payload: seq<byte>): seq<byte> {
    Message(ECHO_REQUEST, ToBe(2, identifier) + ToBe(2, header) + payload)
  }

  /** The reply of RFC 792: the type changes to 0, the checksum is recomputed, and everything
      after it is returned as it came. */
  function ReplyTo(request: seq<byte>): seq<byte>
    requires |request| >= 4
  {
    Message(ECHO_REPLY, request[4..])
  }

  lemma WordSumOfHeader(a: byte, b: byte, c: byte, d: byte, rest: seq<byte>)
    ensures WordSum([a, b, c, d] + rest) == 256 * a + b + 256 * c + d + WordSum(rest)
  {
    var bs := [a, b, c, d] + rest;
    assert bs[2..] == [c, d] + rest;
    assert bs[2..][2..] == rest;
  }

  /** Whatever the type and the data, of odd or even length, the assembled message has
      one's-complement sum 0xFFFF. */
  lemma MessageVerifies(kind: byte, body: seq<byte>)
    ensures Fold(WordSum(Message(kind, body))) == 0xFFFF
  {
    var blank := [kind, 0, 0, 0] + body;
    var c := Checksum(blank);
    var ck := ToBe(2, c);
    assert ToBe(1, c / 256) == [((c / 256) % 256) as byte];
    assert ck == [(c / 256) as byte, (c % 256) as byte];
    assert Message(kind, body) == [kind, 0, ck[0], ck[1]] + body;
    WordSumOfHeader(kind, 0, ck[0], ck[1], body);
    WordSumOfHeader(kind, 0, 0, 0, body);
    var s := WordSum(blank);
    assert WordSum(Message(kind, body)) == s + c;
    FoldIsResidue(s);
    ComplementDivides(s, Fold(s));
    VerifiesIff(Message(kind, body));
  }

  lemma ComplementDivides(s: nat, f: nat)
    requires f < U16 && f % 0xFFFF == s % 0xFFFF
    requires f <= s
    ensures (s + (0xFFFF - f)) % 0xFFFF == 0
  {
    var q, p := s / 0xFFFF, f / 0xFFFF;
    assert s - f == 0xFFFF * (q - p);
    assert s + (0xFFFF - f) == 0xFFFF * (q - p + 1);
  }
}
