/** The spoofed-packet builder: DLT_NULL, an IPv4 header (RFC 791 section 3.1) with the
    Internet checksum (RFC 1071 section 1), a UDP header (RFC 768) and the payload. */
module IpPacket {
  import opened Basics

  const U16 := 0x1_0000
  const U32 := 0x1_0000_0000

  function Be16(hi: Byte, lo: Byte): (w: nat)
    ensures w < U16
  {
    256 * hi + lo
  }

  /** Sum of the big-endian words; an odd last byte is padded with zero. */
  function WordSum(data: seq<Byte>): nat {
    if data == [] then 0
    else if |data| == 1 then Be16(data[0], 0)
    else Be16(data[0], data[1]) + WordSum(data[2..])
  }

  /** End-around carries until the sum fits 16 bits. */
  function Fold(sum: nat): (r: nat)
    ensures r < U16
    decreases sum
  {
    if sum < U16 then sum else Fold(sum % U16 + sum / U16)
  }

  function Checksum(data: seq<Byte>): (c: nat)
    ensures c < U16
  {
    U16 - 1 - Fold(WordSum(data))
  }

  /** The fold keeps the sum modulo 65535, choosing 1..65535 as representatives of a
      non-zero sum. */
  lemma {:induction false} FoldQuotient(sum: nat) returns (k: nat)
    ensures sum == Fold(sum) + 65535 * k
    ensures Fold(sum) == 0 <==> sum == 0
    decreases sum
  {
    if sum < U16 {
      k := 0;
    } else {
      var q, r := sum / U16, sum % U16;
      assert sum == U16 * q + r;
      k := FoldQuotient(r + q);
      k := k + q;
    }
  }

  lemma FoldIsResidue(sum: nat)
    ensures Fold(sum) == if sum == 0 then 0 else (sum - 1) % 65535 + 1
  {
    var k := FoldQuotient(sum);
    if sum > 0 {
      Remainder(sum - 1, k, Fold(sum) - 1);
    }
  }

  lemma Remainder(n: nat, k: nat, r: nat)
    requires n == r + 65535 * k && r < 65535
    ensures n % 65535 == r
  {
    assert n / 65535 == k;
  }

  lemma {:induction false} WordSumConcat(a: seq<Byte>, b: seq<Byte>)
    requires |a| % 2 == 0
    ensures WordSum(a + b) == WordSum(a) + WordSum(b)
    decreases |a|
  {
    if a == [] {
      assert a + b == b;
    } else {
      assert (a + b)[2..] == a[2..] + b;
      WordSumConcat(a[2..], b);
    }
  }

  /** An odd last byte counts as if a zero followed it. */
  lemma {:induction false} OddPadding(data: seq<Byte>)
    requires |data| % 2 == 1
    ensures WordSum(data) == WordSum(data + [0])
    decreases |data|
  {
    if |data| >= 2 {
      assert (data + [0])[2..] == data[2..] + [0];
      OddPadding(data[2..]);
    }
  }

  lemma {:induction false} WordSumBound(data: seq<Byte>)
    ensures WordSum(data) <= 65535 * ((|data| + 1) / 2)
    decreases |data|
  {
    if |data| >= 2 {
      WordSumBound(data[2..]);
    }
  }

  /** Whatever surrounds it, a checksum stored in its aligned field makes the whole sum
      come out as zero; no other stored value smaller than 65535 does. */
  lemma StoredChecksumVerifies(a: seq<Byte>, b: seq<Byte>, c: nat)
    requires |a| % 2 == 0 && c < U16
    ensures c == Checksum(a + [0, 0] + b) ==> Checksum(a + [c / 256, c % 256] + b) == 0
    ensures c < 65535 && Checksum(a + [c / 256, c % 256] + b) == 0 ==> c == Checksum(a + [0, 0] + b)
  {
    var rest := WordSum(a) + WordSum(b);
    FieldSum(a, 0, b);
    FieldSum(a, c, b);
    assert [0 / 256, 0 % 256] == [0, 0];
    Complement(rest, c);
  }

  /** Adding c folds to all ones exactly when c is the complement of the folded rest
      (or, for a zero rest, the other spelling of zero). */
  lemma Complement(rest: nat, c: nat)
    requires c < U16
    ensures c == 65535 - Fold(rest) ==> Fold(rest + c) == 65535
    ensures c < 65535 && Fold(rest + c) == 65535 ==> c == 65535 - Fold(rest)
  {
    var j := FoldQuotient(rest);
    var k := FoldQuotient(rest + c);
    ComplementArithmetic(Fold(rest), Fold(rest + c), c, k - j);
  }

  lemma ComplementArithmetic(f: nat, g: nat, c: nat, m: int)
    requires f < U16 && g < U16 && c < U16 && f + c == g + 65535 * m
    requires g == 0 ==> f + c == 0
    ensures c == 65535 - f ==> g == 65535
    ensures c < 65535 && g == 65535 && (f == 0 ==> g == c) ==> c == 65535 - f
  {
    assert m == -1 || m == 0 || m == 1 || m == 2;
  }

  lemma FieldSum(a: seq<Byte>, c: nat, b: seq<Byte>)
    requires |a| % 2 == 0 && c < U16
    ensures WordSum(a + [c / 256, c % 256] + b) == WordSum(a) + c + WordSum(b)
  {
    var field: seq<Byte> := [c / 256, c % 256];
    WordSumConcat(a + field, b);
    WordSumConcat(a, field);
    assert field[2..] == [];
  }

  /** One more word, the last one padded when the data ends in the middle of it. */
  lemma NextWord(data: seq<Byte>, i: nat, next: nat)
    requires i < |data| && i % 2 == 0 && next == if i + 2 <= |data| then i + 2 else |data|
    ensures WordSum(data[..next]) == WordSum(data[..i]) +
              (if i + 1 < |data| then Be16(data[i], data[i + 1]) else Be16(data[i], 0))
  {
    WordSumConcat(data[..i], data[i..next]);
    assert data[..next] == data[..i] + data[i..next];
    if next == i + 2 {
      assert data[i..next][2..] == [];
    }
  }

  /** 65537 words cannot overflow the 32-bit sum. */
  lemma SumFits(data: seq<Byte>)
    requires |data| <= 2 * 65537
    ensures WordSum(data) < U32
  {
    WordSumBound(data);
  }

  /** One word more can: the bound of SumFits is exact. */
  lemma {:induction false} AllOnesSum(data: seq<Byte>)
    requires |data| % 2 == 0 && forall k | 0 <= k < |data| :: data[k] == 255
    ensures WordSum(data) == 65535 * (|data| / 2)
    ensures |data| == 2 * 65538 ==> WordSum(data) >= U32
    decreases |data|
  {
    if data != [] {
      AllOnesSum(data[2..]);
    }
  }

  /** The 32-bit sum is the word sum, wrapped. */
  ghost predicate Summed(data: seq<Byte>, i: nat, sum: nat) {
    sum == WordSum(data[..if i <= |data| then i else |data|]) % U32
  }

  lemma SummedNext(data: seq<Byte>, i: nat, sum: nat, word: nat)
    requires i < |data| && i % 2 == 0 && Summed(data, i, sum)
    requires word == if i + 1 < |data| then Be16(data[i], data[i + 1]) else Be16(data[i], 0)
    ensures Summed(data, i + 2, (sum + word) % U32)
  {
    NextWord(data, i, if i + 2 <= |data| then i + 2 else |data|);
    WrapAdd(WordSum(data[..i]), word);
  }

  lemma WrapAdd(a: nat, b: nat)
    ensures (a % U32 + b) % U32 == (a + b) % U32
  {
    var q, r := a / U32, a % U32;
    assert a + b == (r + b) + U32 * q;
    WrapShift(r + b, q);
  }

  lemma {:induction false} WrapShift(n: nat, q: nat)
    ensures (n + U32 * q) % U32 == n % U32
  {
    if q > 0 {
      WrapShift(n, q - 1);
      assert n + U32 * q == n + U32 * (q - 1) + U32;
    }
  }

  /** One turn of the first loop: the chunk at i, or the last byte padded, is added. */
  method AddWord(data: seq<Byte>, i: nat, sum: nat) returns (next: nat)
    requires i < |data| && i % 2 == 0 && Summed(data, i, sum)
    ensures next < U32 && Summed(data, i + 2, next)
  {
    var word := if i + 1 < |data| then Be16(data[i], data[i + 1]) else Be16(data[i], 0);
    SummedNext(data, i, sum, word);
    next := (sum + word) % U32;
  }

  method SumWords(data: seq<Byte>) returns (sum: nat)
    ensures sum == WordSum(data) % U32
  {
    sum := 0;
    var i := 0;
    while i < |data|
      invariant 0 <= i <= |data| + 1 && i % 2 == 0
      invariant Summed(data, i, sum)
    {
      sum := AddWord(data, i, sum);
      i := i + 2;
    }
    assert data[..|data|] == data;
  }

  method FoldLoop(total: nat) returns (sum: nat)
    ensures sum == Fold(total) < U16
  {
    sum := total;
    while sum / U16 != 0
      invariant Fold(sum) == Fold(total)
      decreases sum
    {
      sum := sum % U16 + sum / U16;
    }
  }

  /** ip_checksum as written, on a 32-bit sum that wraps: the checksum for data of at most
      65537 words, and for longer data that of the wrapped sum. */
  method IpChecksum(data: seq<Byte>) returns (c: nat)
    ensures c < U16 && c == U16 - 1 - Fold(WordSum(data) % U32)
    ensures |data| <= 2 * 65537 ==> c == Checksum(data)
  {
    var sum := SumWords(data);
    sum := FoldLoop(sum);
    c := U16 - 1 - sum;
    if |data| <= 2 * 65537 {
      SumFits(data);
    }
  }

  function ToBe16(w: nat): seq<Byte>
    requires w < U16
  {
    [w / 256, w % 256]
  }

  /** The 20 header bytes with the checksum field zero. */
  function BareHeader(totalLen: nat, src: seq<Byte>, dst: seq<Byte>): seq<Byte>
    requires totalLen < U16
  {
    [0x45, 0x00] + ToBe16(totalLen) + [0x00, 0x00] + [0x40, 0x00] + [128, 17] + [0x00, 0x00] + src + dst
  }

  /** u16 additions wrap, so both length fields are taken modulo 65536. */
  function UdpLen(payload: seq<Byte>): nat { (8 + |payload| % U16) % U16 }
  function TotalLen(payload: seq<Byte>): nat { (20 + UdpLen(payload)) % U16 }

  /** The length fields tell the truth exactly for payloads of at most 65507 bytes. */
  lemma LengthsExact(payload: seq<Byte>)
    ensures TotalLen(payload) == 28 + |payload| <==> |payload| <= 65507
    ensures |payload| <= 65507 ==> UdpLen(payload) == 8 + |payload|
  {
  }

  /** The layout of a finished packet. */
  predicate Built(pkt: seq<Byte>, src: seq<Byte>, dst: seq<Byte>, srcPort: nat, dstPort: nat, payload: seq<Byte>) {
    && srcPort < U16 && dstPort < U16 && |src| == 4 && |dst| == 4
    && |pkt| == 32 + |payload|
    && pkt[..4] == [2, 0, 0, 0]
    && Checksum(pkt[4..24]) == 0
    && pkt[4..24][10 := 0][11 := 0] == BareHeader(TotalLen(payload), src, dst)
    && pkt[24..32] == ToBe16(srcPort) + ToBe16(dstPort) + ToBe16(UdpLen(payload)) + [0, 0]
    && pkt[32..] == payload
  }

  /** Version and header length, type of service, total length, identification, do not
      fragment, time to live, UDP. */
  function HeaderStart(totalLen: nat): seq<Byte>
    requires totalLen < U16
  {
    [0x45, 0, totalLen / 256, totalLen % 256, 0, 0, 0x40, 0, 128, 17]
  }

  /** Ports, length, no checksum. */
  function UdpHeader(srcPort: nat, dstPort: nat, udpLen: nat): seq<Byte>
    requires srcPort < U16 && dstPort < U16 && udpLen < U16
  {
    [srcPort / 256, srcPort % 256, dstPort / 256, dstPort % 256, udpLen / 256, udpLen % 256, 0, 0]
  }

  lemma BareBytes(totalLen: nat, src: seq<Byte>, dst: seq<Byte>)
    requires totalLen < U16 && |src| == 4 && |dst| == 4
    ensures var bare := BareHeader(totalLen, src, dst);
      |bare| == 20 && bare[12..16] == src && bare[16..] == dst && bare[..10] == HeaderStart(totalLen)
  {
  }

  lemma OutsideField(header: seq<Byte>, bare: seq<Byte>)
    requires |header| == 20 && header[10 := 0][11 := 0] == bare
    ensures header[..10] == bare[..10] && header[12..] == bare[12..]
  {
  }

  lemma UdpHeaderBytes(srcPort: nat, dstPort: nat, udpLen: nat)
    requires srcPort < U16 && dstPort < U16 && udpLen < U16
    ensures ToBe16(srcPort) + ToBe16(dstPort) + ToBe16(udpLen) + [0, 0] == UdpHeader(srcPort, dstPort, udpLen)
  {
  }

  lemma LengthsWrap(payload: seq<Byte>)
    ensures TotalLen(payload) == (28 + |payload|) % 65536 && UdpLen(payload) == (8 + |payload|) % 65536
  {
  }

  lemma Sliced(pkt: seq<Byte>)
    requires |pkt| >= 24
    ensures pkt[4..14] == pkt[4..24][..10]
    ensures pkt[16..20] == pkt[4..24][12..16] && pkt[20..24] == pkt[4..24][16..]
  {
  }

  /** The packet byte by byte: the header with the wrapped total length, */
  lemma HeaderBytes(pkt: seq<Byte>, src: seq<Byte>, dst: seq<Byte>, srcPort: nat, dstPort: nat, payload: seq<Byte>)
    requires Built(pkt, src, dst, srcPort, dstPort, payload)
    ensures pkt[..4] == [2, 0, 0, 0]
    ensures pkt[4..14] == HeaderStart((28 + |payload|) % 65536) && pkt[16..20] == src && pkt[20..24] == dst
  {
    LengthsWrap(payload);
    Sliced(pkt);
    OutsideField(pkt[4..24], BareHeader(TotalLen(payload), src, dst));
    BareBytes(TotalLen(payload), src, dst);
    assert pkt[4..24][12..][..4] == pkt[4..24][12..16] && pkt[4..24][12..][4..] == pkt[4..24][16..];
  }

  /** and behind it the ports, the wrapped length and the payload. */
  lemma UdpBytes(pkt: seq<Byte>, src: seq<Byte>, dst: seq<Byte>, srcPort: nat, dstPort: nat, payload: seq<Byte>)
    requires Built(pkt, src, dst, srcPort, dstPort, payload)
    ensures pkt[24..32] == UdpHeader(srcPort, dstPort, (8 + |payload|) % 65536) && pkt[32..] == payload
  {
    LengthsWrap(payload);
    UdpHeaderBytes(srcPort, dstPort, UdpLen(payload));
  }

  datatype Datagram = Datagram(src: seq<Byte>, dst: seq<Byte>, srcPort: nat, dstPort: nat, payload: seq<Byte>)

  /** What a receiver following the two standards makes of a frame: version, header length,
      header checksum, total length, protocol and UDP length are all checked. */
  function Parse(pkt: seq<Byte>): Option<Datagram> {
    if |pkt| < 4 || pkt[..4] != [2, 0, 0, 0] then None else ParseIp(pkt[4..])
  }

  function ParseIp(ip: seq<Byte>): Option<Datagram> {
    if |ip| < 20 || ip[0] / 16 != 4 then None
    else
      var headerLen := 4 * (ip[0] % 16);
      if headerLen < 20 || headerLen > |ip| || Checksum(ip[..headerLen]) != 0 then None
      else if Be16(ip[2], ip[3]) != |ip| || ip[9] != 17 then None
      else ParseUdp(ip[headerLen..], ip[12..16], ip[16..20])
  }

  function ParseUdp(udp: seq<Byte>, src: seq<Byte>, dst: seq<Byte>): Option<Datagram> {
    if |udp| < 8 || Be16(udp[4], udp[5]) != |udp| then None
    else Some(Datagram(src, dst, Be16(udp[0], udp[1]), Be16(udp[2], udp[3]), udp[8..]))
  }

  lemma BuiltHeader(pkt: seq<Byte>, src: seq<Byte>, dst: seq<Byte>, srcPort: nat, dstPort: nat, payload: seq<Byte>)
    requires Built(pkt, src, dst, srcPort, dstPort, payload)
    ensures var ip := pkt[4..];
      && |ip| == 28 + |payload| && ip[0] == 0x45 && ip[9] == 17 && Be16(ip[2], ip[3]) == TotalLen(payload)
      && ip[..20] == pkt[4..24] && ip[12..16] == src && ip[16..20] == dst
  {
    var ip := pkt[4..];
    var bare := BareHeader(TotalLen(payload), src, dst);
    assert ip[..20] == pkt[4..24];
    assert forall k | 0 <= k < 20 && k != 10 && k != 11 :: ip[k] == bare[k] by {
      forall k | 0 <= k < 20 && k != 10 && k != 11 ensures ip[k] == bare[k] {
        assert pkt[4..24][10 := 0][11 := 0][k] == ip[k];
      }
    }
    assert bare[12..16] == src && bare[16..20] == dst;
    assert ip[12..16] == bare[12..16] && ip[16..20] == bare[16..20];
  }

  lemma BuiltUdp(pkt: seq<Byte>, src: seq<Byte>, dst: seq<Byte>, srcPort: nat, dstPort: nat, payload: seq<Byte>)
    requires Built(pkt, src, dst, srcPort, dstPort, payload)
    ensures var udp := pkt[4..][20..];
      && |udp| == 8 + |payload| && udp[8..] == payload
      && Be16(udp[0], udp[1]) == srcPort && Be16(udp[2], udp[3]) == dstPort && Be16(udp[4], udp[5]) == UdpLen(payload)
  {
    var udp := pkt[4..][20..];
    assert udp[..8] == pkt[24..32] && udp[8..] == pkt[32..];
    var head := ToBe16(srcPort) + ToBe16(dstPort) + ToBe16(UdpLen(payload)) + [0, 0];
    assert forall k | 0 <= k < 8 :: udp[k] == udp[..8][k] == head[k];
  }

  /** A receiver reads the built packet back exactly when its payload fits in a datagram;
      beyond that the length fields have wrapped and the packet is refused. */
  lemma ParseBuilt(pkt: seq<Byte>, src: seq<Byte>, dst: seq<Byte>, srcPort: nat, dstPort: nat, payload: seq<Byte>)
    requires Built(pkt, src, dst, srcPort, dstPort, payload)
    ensures Parse(pkt) == (if |payload| <= 65507 then Some(Datagram(src, dst, srcPort, dstPort, payload)) else None)
  {
    BuiltHeader(pkt, src, dst, srcPort, dstPort, payload);
    BuiltUdp(pkt, src, dst, srcPort, dstPort, payload);
    LengthsExact(payload);
  }

  /** build_packet as written: push, then patch the checksum into the pushed header. */
  method BuildPacket(src: seq<Byte>, dst: seq<Byte>, srcPort: nat, dstPort: nat, payload: seq<Byte>)
    returns (pkt: seq<Byte>)
    requires |src| == 4 && |dst| == 4 && srcPort < U16 && dstPort < U16
    ensures Built(pkt, src, dst, srcPort, dstPort, payload)
    ensures |payload| <= 65507 ==> Parse(pkt) == Some(Datagram(src, dst, srcPort, dstPort, payload))
  {
    var udpLen := UdpLen(payload);
    var totalLen := TotalLen(payload);
    pkt := [2, 0, 0, 0];
    var ipStart := |pkt|;
    pkt := pkt + [0x45, 0x00];
    pkt := pkt + ToBe16(totalLen);
    pkt := pkt + [0x00, 0x00];
    pkt := pkt + [0x40, 0x00];
    pkt := pkt + [128, 17];
    pkt := pkt + [0x00, 0x00];
    pkt := pkt + src;
    pkt := pkt + dst;
    ghost var bare := BareHeader(totalLen, src, dst);
    assert pkt == [2, 0, 0, 0] + bare;
    assert pkt[ipStart..ipStart + 20] == bare;

    var checksum := IpChecksum(pkt[ipStart..ipStart + 20]);
    pkt := pkt[ipStart + 10 := checksum / 256];
    pkt := pkt[ipStart + 11 := checksum % 256];
    ghost var header := pkt[4..24];
    PatchedHeader(bare, header, checksum);
    assert pkt == [2, 0, 0, 0] + header;

    pkt := pkt + ToBe16(srcPort);
    pkt := pkt + ToBe16(dstPort);
    pkt := pkt + ToBe16(udpLen);
    pkt := pkt + [0x00, 0x00];
    pkt := pkt + payload;
    Assembled(header, src, dst, srcPort, dstPort, payload);
    ParseBuilt(pkt, src, dst, srcPort, dstPort, payload);
  }

  lemma Assembled(header: seq<Byte>, src: seq<Byte>, dst: seq<Byte>, srcPort: nat, dstPort: nat, payload: seq<Byte>)
    requires |header| == 20 && Checksum(header) == 0 && |src| == 4 && |dst| == 4 && srcPort < U16 && dstPort < U16
    requires header[10 := 0][11 := 0] == BareHeader(TotalLen(payload), src, dst)
    ensures Built([2, 0, 0, 0] + header + ToBe16(srcPort) + ToBe16(dstPort) + ToBe16(UdpLen(payload)) + [0, 0]
                  + payload,
                  src, dst, srcPort, dstPort, payload)
  {
    var udp := ToBe16(srcPort) + ToBe16(dstPort) + ToBe16(UdpLen(payload)) + [0, 0];
    var pkt := [2, 0, 0, 0] + header + ToBe16(srcPort) + ToBe16(dstPort) + ToBe16(UdpLen(payload)) + [0, 0] + payload;
    assert pkt == [2, 0, 0, 0] + header + udp + payload;
    assert pkt[4..24] == header && pkt[24..32] == udp;
  }

  lemma PatchedHeader(bare: seq<Byte>, header: seq<Byte>, c: nat)
    requires |bare| == 20 && bare[10] == 0 && bare[11] == 0 && c == Checksum(bare)
    requires header == bare[10 := c / 256][11 := c % 256]
    ensures Checksum(header) == 0 && header[10 := 0][11 := 0] == bare
  {
    assert bare == bare[..10] + [0, 0] + bare[12..];
    assert header == bare[..10] + [c / 256, c % 256] + bare[12..];
    StoredChecksumVerifies(bare[..10], bare[12..], c);
  }
}
