/** The W3GS stat string: groups of one mask byte and up to seven data bytes. Bit k of the
    mask says whether data byte k stands for itself or for its predecessor, which keeps
    the encoded string free of zero bytes. */
module StatString {
  import opened Basics

  predicate NoZero(s: seq<Byte>) {
    forall k | 0 <= k < |s| :: s[k] != 0
  }

  /** mask & (1 << k) != 0 */
  predicate Bit(mask: nat, k: nat)
    decreases k
  {
    if k == 0 then mask % 2 == 1 else Bit(mask / 2, k - 1)
  }

  function Unshift(mask: Byte, bit: nat, b: Byte): Byte
    requires b != 0
  {
    if Bit(mask, bit) then b else b - 1
  }

  /** The inverse of Unshift; 255 has no successor. */
  function Shift(mask: Byte, bit: nat, b: Byte): Byte
    requires b == 255 ==> Bit(mask, bit)
  {
    if Bit(mask, bit) then b else b + 1
  }

  // --- Positions: plain byte j is encoded byte Slot(j), after one mask per seven bytes. ---

  function Slot(j: nat): nat { 8 * (j / 7) + 1 + j % 7 }

  function MaskSlot(j: nat): nat { 8 * (j / 7) }

  /** n encoded bytes hold n - ceil(n / 8) plain bytes. */
  function PlainLength(n: nat): nat { n - (n + 7) / 8 }

  lemma SlotInBounds(j: nat, n: nat)
    ensures j < PlainLength(n) <==> Slot(j) < n
    ensures MaskSlot(j) < Slot(j)
  {
  }

  lemma SlotOf(g: nat, bit: nat)
    requires 1 <= bit < 8
    ensures var j := 7 * g + bit - 1; j % 7 + 1 == bit && Slot(j) == 8 * g + bit && MaskSlot(j) == 8 * g
    ensures PlainLength(8 * g + bit) == 7 * g + bit - 1
    ensures PlainLength(8 * g + bit + 1) == 7 * g + bit
  {
    assert (7 * g + (bit - 1)) / 7 == g;
  }

  lemma SlotInverse(i: nat)
    requires i % 8 != 0
    ensures Slot(7 * (i / 8) + i % 8 - 1) == i
    ensures MaskSlot(7 * (i / 8) + i % 8 - 1) == 8 * (i / 8)
  {
    SlotOf(i / 8, i % 8);
  }

  lemma SlotParts(j: nat)
    ensures Slot(j) / 8 == j / 7 && Slot(j) % 8 == j % 7 + 1
    ensures 7 * (j / 7) + j % 7 == j
  {
  }

  // --- Decoding ---

  function PlainByte(e: seq<Byte>, j: nat): Byte
    requires NoZero(e) && j < PlainLength(|e|)
  {
    SlotInBounds(j, |e|);
    Unshift(e[MaskSlot(j)], j % 7 + 1, e[Slot(j)])
  }

  function Decode(e: seq<Byte>): (s: seq<Byte>)
    requires NoZero(e)
    ensures |s| == PlainLength(|e|)
  {
    seq(PlainLength(|e|), j requires 0 <= j < PlainLength(|e|) => PlainByte(e, j))
  }

  function Power(k: nat): nat
    requires k < 8
  {
    [1, 2, 4, 8, 16, 32, 64, 128][k]
  }

  lemma HalvedQuotient(n: nat, k: nat)
    requires k < 7
    ensures n / 2 / Power(k) == n / Power(k + 1)
  {
    match k {
      case 0 => assert n / 2 / 1 == n / 2;
      case 1 => assert n / 2 / 2 == n / 4;
      case 2 => assert n / 2 / 4 == n / 8;
      case 3 => assert n / 2 / 8 == n / 16;
      case 4 => assert n / 2 / 16 == n / 32;
      case 5 => assert n / 2 / 32 == n / 64;
      case 6 => assert n / 2 / 64 == n / 128;
    }
  }

  lemma {:induction false} BitExact(mask: nat, k: nat)
    requires k < 8
    ensures Bit(mask, k) <==> mask / Power(k) % 2 == 1
    decreases k
  {
    if k > 0 {
      BitExact(mask / 2, k - 1);
      HalvedQuotient(mask, k - 1);
    }
  }

  /** Plain byte j, spelled out: the bit of its group's mask decides between the encoded byte
      and its predecessor. */
  lemma DecodedByte(e: seq<Byte>, j: nat)
    requires NoZero(e) && j < |e| - (|e| + 7) / 8
    ensures 8 * (j / 7) + 1 + j % 7 < |e| == |Decode(e)| + (|e| + 7) / 8
    ensures var mask, coded := e[8 * (j / 7)], e[8 * (j / 7) + 1 + j % 7];
      Decode(e)[j] == if mask / Power(j % 7 + 1) % 2 == 1 then coded else coded - 1
  {
    BitExact(e[8 * (j / 7)], j % 7 + 1);
  }

  // --- Encoding ---

  /** Masks an encoder may choose for s: one non-zero mask per group, and each byte that
      cannot be raised (255) or must not stay (0) has its bit set accordingly. */
  ghost predicate MasksFor(s: seq<Byte>, masks: seq<Byte>) {
    && |masks| == (|s| + 6) / 7
    && NoZero(masks)
    && forall j | 0 <= j < |s| :: ByteFits(s[j], masks[j / 7], j % 7 + 1)
  }

  predicate ByteFits(b: Byte, mask: Byte, bit: nat) {
    (b == 255 ==> Bit(mask, bit)) && (b == 0 ==> !Bit(mask, bit))
  }

  function CodeByte(s: seq<Byte>, masks: seq<Byte>, i: nat): (b: Byte)
    requires MasksFor(s, masks) && i < |s| + |masks|
    ensures b != 0
  {
    if i % 8 == 0 then masks[i / 8]
    else
      var j := 7 * (i / 8) + i % 8 - 1;
      assert j / 7 == i / 8 && j % 7 + 1 == i % 8;
      assert ByteFits(s[j], masks[j / 7], j % 7 + 1);
      Shift(masks[i / 8], i % 8, s[j])
  }

  function Encode(s: seq<Byte>, masks: seq<Byte>): (e: seq<Byte>)
    requires MasksFor(s, masks)
    ensures |e| == |s| + |masks|
  {
    seq(|s| + |masks|, i requires 0 <= i < |s| + |masks| => CodeByte(s, masks, i))
  }

  lemma EncodedHasNoZero(s: seq<Byte>, masks: seq<Byte>)
    requires MasksFor(s, masks)
    ensures NoZero(Encode(s, masks))
    ensures PlainLength(|Encode(s, masks)|) == |s|
  {
  }

  /** Whatever masks the encoder picked, decoding gives the bytes back. */
  lemma RoundTrip(s: seq<Byte>, masks: seq<Byte>)
    requires MasksFor(s, masks)
    ensures NoZero(Encode(s, masks)) && Decode(Encode(s, masks)) == s
  {
    EncodedHasNoZero(s, masks);
    var e := Encode(s, masks);
    forall j | 0 <= j < |s| ensures Decode(e)[j] == s[j] {
      SlotInBounds(j, |e|);
      SlotParts(j);
      assert ByteFits(s[j], masks[j / 7], j % 7 + 1);
      assert e[MaskSlot(j)] == masks[j / 7];
      assert e[Slot(j)] == Shift(masks[j / 7], j % 7 + 1, s[j]);
    }
  }

  function MasksOf(e: seq<Byte>): (masks: seq<Byte>)
    ensures |masks| == (|e| + 7) / 8
  {
    seq((|e| + 7) / 8, g requires 0 <= g < (|e| + 7) / 8 => e[8 * g])
  }

  lemma OwnMasksFit(e: seq<Byte>)
    requires NoZero(e) && |e| % 8 != 1
    ensures MasksFor(Decode(e), MasksOf(e))
  {
    var s, masks := Decode(e), MasksOf(e);
    forall j | 0 <= j < |s| ensures ByteFits(s[j], masks[j / 7], j % 7 + 1) {
      SlotInBounds(j, |e|);
      assert masks[j / 7] == e[MaskSlot(j)];
      assert s[j] == PlainByte(e, j);
    }
  }

  lemma ReencodedByte(e: seq<Byte>, i: nat)
    requires NoZero(e) && |e| % 8 != 1 && i < |e| && MasksFor(Decode(e), MasksOf(e))
    ensures CodeByte(Decode(e), MasksOf(e), i) == e[i]
  {
    if i % 8 != 0 {
      var j := 7 * (i / 8) + i % 8 - 1;
      SlotInverse(i);
      SlotInBounds(j, |e|);
      SlotParts(j);
      assert Decode(e)[j] == PlainByte(e, j);
    }
  }

  /** Conversely every zero-free string that does not end in a lone mask byte is the
      encoding of what it decodes to. */
  lemma EveryStringIsAnEncoding(e: seq<Byte>)
    requires NoZero(e)
    ensures MasksFor(Decode(e), MasksOf(e)) <==> |e| % 8 != 1
    ensures |e| % 8 != 1 ==> Encode(Decode(e), MasksOf(e)) == e
  {
    if |e| % 8 != 1 {
      OwnMasksFit(e);
      forall i | 0 <= i < |e| ensures Encode(Decode(e), MasksOf(e))[i] == e[i] {
        ReencodedByte(e, i);
      }
    }
  }

  // --- The game's own choice of masks: odd bytes stand for themselves. ---

  function MaskBits(group: seq<Byte>): nat {
    if group == [] then 0 else group[0] % 2 + 2 * MaskBits(group[1..])
  }

  lemma {:induction false} MaskBitsAt(group: seq<Byte>, k: nat)
    requires k < |group|
    ensures Bit(MaskBits(group), k) <==> group[k] % 2 == 1
  {
    if k > 0 {
      MaskBitsAt(group[1..], k - 1);
    }
  }

  lemma {:induction false} MaskBitsSmall(group: seq<Byte>, n: nat, top: nat)
    requires |group| <= n <= 7 && top == [1, 2, 4, 8, 16, 32, 64, 128][n]
    ensures MaskBits(group) < top
    decreases n
  {
    if group != [] {
      MaskBitsSmall(group[1..], n - 1, [1, 2, 4, 8, 16, 32, 64, 128][n - 1]);
    }
  }

  function Group(s: seq<Byte>, g: nat): seq<Byte>
    requires 7 * g <= |s|
  {
    s[7 * g..if 7 * g + 7 <= |s| then 7 * g + 7 else |s|]
  }

  function GameMask(group: seq<Byte>): (m: Byte)
    requires |group| <= 7
    ensures m != 0
  {
    MaskBitsSmall(group, 7, 128);
    1 + 2 * MaskBits(group)
  }

  function GameMasks(s: seq<Byte>): seq<Byte> {
    seq((|s| + 6) / 7, g requires 0 <= g < (|s| + 6) / 7 => GameMask(Group(s, g)))
  }

  /** Every byte string has an encoding. */
  lemma GameMasksFit(s: seq<Byte>)
    ensures MasksFor(s, GameMasks(s))
  {
    var masks := GameMasks(s);
    forall j | 0 <= j < |s| ensures ByteFits(s[j], masks[j / 7], j % 7 + 1) {
      var group := Group(s, j / 7);
      assert group[j % 7] == s[j];
      MaskBitsAt(group, j % 7);
      assert masks[j / 7] == 1 + 2 * MaskBits(group);
      assert (1 + 2 * MaskBits(group)) / 2 == MaskBits(group);
    }
  }

  ghost predicate DecodedUpTo(encoded: seq<Byte>, decoded: seq<Byte>, i: nat)
    requires NoZero(encoded)
  {
    && i <= |encoded|
    && |decoded| == PlainLength(i) <= PlainLength(|encoded|)
    && forall j | 0 <= j < |decoded| :: decoded[j] == PlainByte(encoded, j)
  }

  lemma MaskRead(encoded: seq<Byte>, decoded: seq<Byte>, g: nat)
    requires NoZero(encoded) && 8 * g < |encoded| && DecodedUpTo(encoded, decoded, 8 * g)
    ensures DecodedUpTo(encoded, decoded, 8 * g + 1)
  {
  }

  lemma DataRead(encoded: seq<Byte>, decoded: seq<Byte>, g: nat, bit: nat)
    requires NoZero(encoded) && 1 <= bit < 8 && 8 * g + bit < |encoded|
    requires DecodedUpTo(encoded, decoded, 8 * g + bit)
    ensures DecodedUpTo(encoded, decoded + [Unshift(encoded[8 * g], bit, encoded[8 * g + bit])], 8 * g + bit + 1)
  {
    SlotOf(g, bit);
    SlotInBounds(7 * g + bit - 1, |encoded|);
    assert Unshift(encoded[8 * g], bit, encoded[8 * g + bit]) == PlainByte(encoded, 7 * g + bit - 1);
  }

  /** The decoding loops as written. No subtraction underflows, since no byte is zero. */
  method DecodeLoop(encoded: seq<Byte>) returns (decoded: seq<Byte>)
    requires NoZero(encoded)
    ensures decoded == Decode(encoded)
  {
    decoded := [];
    var i := 0;
    ghost var g := 0;
    while i < |encoded|
      invariant i == if 8 * g <= |encoded| then 8 * g else |encoded|
      invariant DecodedUpTo(encoded, decoded, i)
      decreases |encoded| - i
    {
      var mask := encoded[i];
      MaskRead(encoded, decoded, g);
      i := i + 1;
      for bit := 1 to 8
        invariant i == if 8 * g + bit <= |encoded| then 8 * g + bit else |encoded|
        invariant DecodedUpTo(encoded, decoded, i)
      {
        if i >= |encoded| {
          break;
        }
        DataRead(encoded, decoded, g, bit);
        if Bit(mask, bit) {
          decoded := decoded + [encoded[i]];
        } else {
          decoded := decoded + [encoded[i] - 1];
        }
        i := i + 1;
      }
      g := g + 1;
    }
  }
}
