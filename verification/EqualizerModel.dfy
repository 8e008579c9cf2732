/** The equaliser settings as two packed words, and the render thread's view of them.

    Words are natural numbers; shifts, masks and ors are defined bit by bit. Gains are reals,
    a value that is not finite is None. */
module EqualizerModel {
  import opened Common

  // ---- bits ----

  function Shl(x: nat, k: nat): nat { if k == 0 then x else 2 * Shl(x, k - 1) }

  function Shr(x: nat, k: nat): nat { if k == 0 then x else Shr(x / 2, k - 1) }

  function BitOr(x: nat, y: nat): nat {
    if x == 0 && y == 0 then 0 else (if x % 2 == 1 || y % 2 == 1 then 1 else 0) + 2 * BitOr(x / 2, y / 2)
  }

  function BitAnd(x: nat, y: nat): nat {
    if x == 0 || y == 0 then 0 else (if x % 2 == 1 && y % 2 == 1 then 1 else 0) + 2 * BitAnd(x / 2, y / 2)
  }

  const BYTE_MASK: nat := 255

  /** Byte i of a word. */
  function Field(word: nat, i: nat): nat { BitAnd(Shr(word, i * 8), BYTE_MASK) }

  predicate Bit(word: nat, k: nat) { BitAnd(word, Shl(1, k)) != 0 }

  /** The word whose bytes are given, lowest first. */
  function Packed(bytes: seq<nat>): nat {
    if bytes == [] then 0 else bytes[0] + 256 * Packed(bytes[1..])
  }

  ghost predicate Bytes(bytes: seq<nat>) { forall i :: 0 <= i < |bytes| ==> bytes[i] < 256 }

  lemma {:induction false} OrZero(x: nat)
    ensures BitOr(0, x) == x == BitOr(x, 0)
  {
    if x != 0 { OrZero(x / 2); }
  }

  lemma OrBit(b: nat, y: nat, z: nat)
    requires b < 2
    ensures BitOr(b + 2 * y, 2 * z) == b + 2 * BitOr(y, z)
  {
    assert (b + 2 * y) / 2 == y && (b + 2 * y) % 2 == b && 2 * z / 2 == z && 2 * z % 2 == 0;
    if b + 2 * y == 0 && z == 0 { assert BitOr(0, 0) == 0; }
  }

  lemma OrPair(x: nat, y: nat, z: nat)
    requires x < 4
    ensures BitOr(x + 4 * y, 4 * z) == x + 4 * BitOr(y, z)
  {
    var h := x / 2;
    OrBit(h, y, z);
    OrBit(x % 2, h + 2 * y, 2 * z);
    assert x + 4 * y == x % 2 + 2 * (h + 2 * y);
  }

  lemma OrNibble(x: nat, y: nat, z: nat)
    requires x < 16
    ensures BitOr(x + 16 * y, 16 * z) == x + 16 * BitOr(y, z)
  {
    var h := x / 4;
    OrPair(h, y, z);
    OrPair(x % 4, h + 4 * y, 4 * z);
    assert x + 16 * y == x % 4 + 4 * (h + 4 * y);
  }

  /** Below a byte boundary an or leaves the low byte alone. */
  lemma OrByte(x: nat, y: nat, z: nat)
    requires x < 256
    ensures BitOr(x + 256 * y, 256 * z) == x + 256 * BitOr(y, z)
  {
    var h := x / 16;
    OrNibble(h, y, z);
    OrNibble(x % 16, h + 16 * y, 16 * z);
    assert x + 256 * y == x % 16 + 16 * (h + 16 * y);
  }

  lemma ShlByte(x: nat, k: nat)
    ensures Shl(x, k + 8) == 256 * Shl(x, k)
  {
    assert Shl(x, k + 4) == 16 * Shl(x, k) by { assert Shl(x, k + 2) == 4 * Shl(x, k); }
    assert Shl(x, k + 8) == 16 * Shl(x, k + 4) by { assert Shl(x, k + 6) == 4 * Shl(x, k + 4); }
  }

  lemma ShrByte(x: nat, k: nat)
    ensures Shr(x, k + 8) == Shr(x / 256, k)
  {
    assert Shr(x, k + 8) == Shr(x / 4, k + 6);
    assert Shr(x / 4, k + 6) == Shr(x / 16, k + 4) by { assert x / 4 / 2 / 2 == x / 16; }
    assert Shr(x / 16, k + 4) == Shr(x / 64, k + 2) by { assert x / 16 / 2 / 2 == x / 64; }
    assert Shr(x / 64, k + 2) == Shr(x / 256, k) by { assert x / 64 / 2 / 2 == x / 256; }
  }

  /** Or-ing a value in at byte n touches that byte and those above it only. */
  lemma {:induction false} OrAt(bytes: seq<nat>, y: nat, z: nat)
    requires Bytes(bytes)
    ensures BitOr(Packed(bytes + [y]), Shl(z, |bytes| * 8)) == Packed(bytes + [BitOr(y, z)])
  {
    if bytes == [] {
      assert bytes + [y] == [y] && bytes + [BitOr(y, z)] == [BitOr(y, z)];
      assert Packed([y][1..]) == 0 && Packed([BitOr(y, z)][1..]) == 0;
    } else {
      OrAt(bytes[1..], y, z);
      assert (bytes + [y])[1..] == bytes[1..] + [y];
      assert (bytes + [BitOr(y, z)])[1..] == bytes[1..] + [BitOr(y, z)];
      ShlByte(z, |bytes[1..]| * 8);
      OrByte(bytes[0], Packed(bytes[1..] + [y]), Shl(z, |bytes[1..]| * 8));
    }
  }

  lemma {:induction false} PackedZero(bytes: seq<nat>)
    ensures Packed(bytes + [0]) == Packed(bytes)
  {
    if bytes == [] {
      assert bytes + [0] == [0] && Packed([0][1..]) == 0;
    } else {
      PackedZero(bytes[1..]);
      assert (bytes + [0])[1..] == bytes[1..] + [0];
    }
  }

  /** The packing loop's step. */
  lemma OrAppends(bytes: seq<nat>, z: nat)
    requires Bytes(bytes)
    ensures BitOr(Packed(bytes), Shl(z, |bytes| * 8)) == Packed(bytes + [z])
  {
    OrAt(bytes, 0, z);
    PackedZero(bytes);
    OrZero(z);
  }

  lemma MaskHalf(x: nat, m: nat)
    ensures BitAnd(x, 2 * m + 1) == x % 2 + 2 * BitAnd(x / 2, m)
  {
    assert (2 * m + 1) / 2 == m && (2 * m + 1) % 2 == 1;
    if x == 0 { assert BitAnd(0, m) == 0; }
  }

  lemma MaskPair(x: nat, m: nat)
    ensures BitAnd(x, 4 * m + 3) == x % 4 + 4 * BitAnd(x / 4, m)
  {
    MaskHalf(x, 2 * m + 1);
    MaskHalf(x / 2, m);
    assert x / 2 / 2 == x / 4;
  }

  lemma MaskNibble(x: nat, m: nat)
    ensures BitAnd(x, 16 * m + 15) == x % 16 + 16 * BitAnd(x / 16, m)
  {
    MaskPair(x, 4 * m + 3);
    MaskPair(x / 4, m);
    assert x / 4 / 4 == x / 16;
  }

  lemma LastNibble(x: nat)
    ensures BitAnd(x, 15) == x % 16
  {
    MaskNibble(x, 0);
    assert BitAnd(x / 16, 0) == 0;
  }

  lemma Remainder(q: nat, r: nat)
    requires r < 256
    ensures (256 * q + r) % 256 == r
  {
  }

  lemma NibblesMakeByte(x: nat)
    ensures x % 16 + 16 * (x / 16 % 16) == x % 256
  {
    var y := x / 16;
    var q := y / 16;
    assert x == 16 * y + x % 16 && y == 16 * q + y % 16;
    Remainder(q, 16 * (y % 16) + x % 16);
  }

  lemma MaskByte(x: nat)
    ensures BitAnd(x, BYTE_MASK) == x % 256
  {
    var rest := x / 16;
    MaskNibble(x, 15);
    LastNibble(rest);
    NibblesMakeByte(x);
  }

  lemma {:induction false} BitIsOdd(x: nat, k: nat)
    ensures Bit(x, k) <==> Shr(x, k) % 2 == 1
    decreases k
  {
    if k == 0 {
      assert Shl(1, 0) == 1;
      assert BitAnd(x / 2, 0) == 0;
    } else {
      BitIsOdd(x / 2, k - 1);
      assert Shl(1, k) == 2 * Shl(1, k - 1);
      if x == 0 {
        assert BitAnd(0, Shl(1, k - 1)) == 0;
      }
    }
  }

  lemma {:induction false} ShrPacked(bytes: seq<nat>, i: nat)
    requires Bytes(bytes) && i <= |bytes|
    ensures Shr(Packed(bytes), i * 8) == Packed(bytes[i..])
    decreases i
  {
    if i > 0 {
      ShrByte(Packed(bytes), (i - 1) * 8);
      assert Packed(bytes) / 256 == Packed(bytes[1..]);
      ShrPacked(bytes[1..], i - 1);
      assert bytes[1..][i - 1..] == bytes[i..];
    } else {
      assert bytes[0..] == bytes;
    }
  }

  lemma LowByte(bytes: seq<nat>)
    requires Bytes(bytes) && bytes != []
    ensures Packed(bytes) % 256 == bytes[0]
  {
  }

  /** No overlap: every byte is read back exactly as it was put in. */
  lemma FieldOfPacked(bytes: seq<nat>, i: nat)
    requires Bytes(bytes) && i < |bytes|
    ensures Field(Packed(bytes), i) == bytes[i]
  {
    var rest := bytes[i..];
    ShrPacked(bytes, i);
    MaskByte(Packed(rest));
    assert rest[0] == bytes[i] && Bytes(rest);
    LowByte(rest);
  }

  // ---- settings ----

  datatype Settings = Settings(gains: seq<Option<real>>, enabled: bool, preamp: Option<real>, headroom: bool)

  /** What the render thread computes its filters from. */
  datatype Decoded = Decoded(gains: seq<real>, preamp: real, enabled: bool, headroom: bool)

  const BANDS: nat := 10

  function Clamp(x: real, low: real, high: real): (r: real)
    requires low <= high
    ensures low <= r <= high
    ensures low <= x <= high ==> r == x
    ensures (x < low ==> r == low) && (x > high ==> r == high)
  {
    if x < low then low else if x > high then high else x
  }

  function Finite(x: Option<real>): real { if x.Some? then x.value else 0.0 }

  function SafeGain(gains: seq<Option<real>>, i: nat): real {
    Clamp(if i < |gains| then Finite(gains[i]) else 0.0, -12.0, 12.0)
  }

  function SafePreamp(preamp: Option<real>): real { Clamp(Finite(preamp), -12.0, 6.0) }

  /** Rounded to the nearest half decibel, a tie upwards, counted from -12. */
  function Code(x: real): (c: nat)
    requires -12.0 <= x <= 12.0
    ensures c <= 48
  {
    (x * 2.0 + 24.0 + 0.5).Floor
  }

  function Level(code: nat): real { code as real / 2.0 - 12.0 }

  function GainCodes(gains: seq<Option<real>>): (c: seq<nat>)
    ensures |c| == BANDS && Bytes(c)
  {
    seq(BANDS, i requires 0 <= i < BANDS => Code(SafeGain(gains, i)))
  }

  function Flags(enabled: bool, headroom: bool): nat { (if enabled then 1 else 0) + (if headroom then 2 else 0) }

  function LowBytes(s: Settings): seq<nat> { GainCodes(s.gains)[..8] }

  function HighBytes(s: Settings): seq<nat> {
    GainCodes(s.gains)[8..] + [Code(SafePreamp(s.preamp))] + [Flags(s.enabled, s.headroom)]
  }

  function LowWord(s: Settings): nat { Packed(LowBytes(s)) }

  function HighWord(s: Settings): nat { Packed(HighBytes(s)) }

  function Encoded(low: nat, high: nat, band: nat): nat {
    if band < 8 then Field(low, band) else Field(high, band - 8)
  }

  function Decode(low: nat, high: nat): Decoded {
    Decoded(seq(BANDS, i requires 0 <= i < BANDS => Level(Encoded(low, high, i))), Level(Field(high, 2)), Bit(high, 24), Bit(high, 25))
  }

  /** The settings on the half-decibel grid. */
  function Quantised(s: Settings): Decoded {
    Decoded(seq(BANDS, i requires 0 <= i < BANDS => Level(Code(SafeGain(s.gains, i)))), Level(Code(SafePreamp(s.preamp))),
            s.enabled, s.headroom)
  }

  /** The lower eight bands of one setting with everything else of another. */
  function Mixed(s: Decoded, t: Decoded): Decoded
    requires |s.gains| == |t.gains| == BANDS
  {
    t.(gains := s.gains[..8] + t.gains[8..])
  }

  lemma FlagBits(s: Settings)
    ensures Bit(HighWord(s), 24) <==> s.enabled
    ensures Bit(HighWord(s), 25) <==> s.headroom
  {
    var b, f := HighBytes(s), Flags(s.enabled, s.headroom);
    ShrPacked(b, 3);
    assert b[3..] == [f] && Packed([f][1..]) == 0;
    BitIsOdd(HighWord(s), 24);
    BitIsOdd(HighWord(s), 25);
    ShrOnce(HighWord(s), 24);
  }

  lemma {:induction false} ShrOnce(x: nat, k: nat)
    ensures Shr(x, k + 1) == Shr(x, k) / 2
    decreases k
  {
    if k > 0 { ShrOnce(x / 2, k - 1); }
  }

  /** A low word and a high word decode to exactly the fields that were published in them, even
      when they come from different settings. */
  lemma TornReadIsMixed(s: Settings, t: Settings)
    ensures Decode(LowWord(s), HighWord(t)) == Mixed(Quantised(s), Quantised(t))
  {
    var d, m := Decode(LowWord(s), HighWord(t)), Mixed(Quantised(s), Quantised(t));
    forall i | 0 <= i < BANDS ensures d.gains[i] == m.gains[i] {
      if i < 8 {
        FieldOfPacked(LowBytes(s), i);
      } else {
        FieldOfPacked(HighBytes(t), i - 8);
      }
    }
    FieldOfPacked(HighBytes(t), 2);
    FlagBits(t);
  }

  /** Decoding undoes publishing, up to the grid. */
  lemma DecodeOfPublish(s: Settings)
    ensures Decode(LowWord(s), HighWord(s)) == Quantised(s)
  {
    TornReadIsMixed(s, s);
    var q := Quantised(s).gains;
    assert q[..8] + q[8..] == q;
  }

  /** The grid is within a quarter decibel, and exact precisely on half decibels. */
  lemma CodeIsClose(x: real)
    requires -12.0 <= x <= 12.0
    ensures -0.25 <= Level(Code(x)) - x <= 0.25
    ensures Level(Code(x)) == x <==> (x * 2.0).Floor as real == x * 2.0
  {
    var y := x * 2.0 + 24.0;
    assert y.Floor as real <= y < y.Floor as real + 1.0;
    assert (y + 0.5).Floor as real <= y + 0.5 < (y + 0.5).Floor as real + 1.0;
    var f := (x * 2.0).Floor;
    if f as real == x * 2.0 {
      assert (f + 24) as real == y;
      assert Code(x) == f + 24;
    }
    if Level(Code(x)) == x {
      assert x * 2.0 == (Code(x) - 24) as real;
    }
  }

  /** Every decoded value is within a quarter decibel of what was published after clamping. */
  lemma DecodedIsClose(s: Settings, band: nat)
    requires band < BANDS
    ensures var d := Decode(LowWord(s), HighWord(s));
            && -0.25 <= d.gains[band] - SafeGain(s.gains, band) <= 0.25
            && -0.25 <= d.preamp - SafePreamp(s.preamp) <= 0.25
            && d.enabled == s.enabled && d.headroom == s.headroom
  {
    DecodeOfPublish(s);
    CodeIsClose(SafeGain(s.gains, band));
    CodeIsClose(SafePreamp(s.preamp));
  }

  /** The decoded value of what was asked for, between these bounds. */
  predicate Follows(decoded: real, asked: Option<real>, high: real) {
    match asked
    case None => decoded == 0.0
    case Some(x) =>
      if x < -12.0 then decoded == -12.0
      else if x > high then decoded == high
      else -0.25 <= decoded - x <= 0.25 && (decoded == x <==> (x * 2.0).Floor as real == x * 2.0)
  }

  /** What the render thread decodes follows what was published: within a quarter decibel inside the bounds, exact on half
      decibels, the nearer bound outside, and flat where no finite gain was given. */
  lemma DecodedFollowsPublished(s: Settings, band: nat)
    requires band < BANDS
    ensures var d := Decode(LowWord(s), HighWord(s));
            && Follows(d.gains[band], if band < |s.gains| then s.gains[band] else None, 12.0)
            && Follows(d.preamp, s.preamp, 6.0)
            && d.enabled == s.enabled && d.headroom == s.headroom
  {
    DecodeOfPublish(s);
    LevelFollows(if band < |s.gains| then s.gains[band] else None, 12.0);
    LevelFollows(s.preamp, 6.0);
  }

  lemma LevelFollows(asked: Option<real>, high: real)
    requires high == 12.0 || high == 6.0
    ensures Follows(Level(Code(Clamp(Finite(asked), -12.0, high))), asked, high)
  {
    var x := Clamp(Finite(asked), -12.0, high);
    CodeIsClose(x);
    assert (0.0 * 2.0).Floor as real == 0.0 && (high * 2.0).Floor as real == high * 2.0 && (-12.0 * 2.0).Floor as real == -24.0;
  }

  /** The decoded values, as settings. */
  function AsSettings(d: Decoded): Settings {
    Settings(seq(|d.gains|, i requires 0 <= i < |d.gains| => Some(d.gains[i])), d.enabled, Some(d.preamp), d.headroom)
  }

  /** Publishing what was decoded gives the same words again. */
  lemma PublishOfDecode(s: Settings)
    ensures var t := AsSettings(Decode(LowWord(s), HighWord(s)));
            LowWord(t) == LowWord(s) && HighWord(t) == HighWord(s)
  {
    DecodeOfPublish(s);
    var t := AsSettings(Quantised(s));
    forall i | 0 <= i < BANDS ensures GainCodes(t.gains)[i] == GainCodes(s.gains)[i] {
      CodeOfLevel(Code(SafeGain(s.gains, i)));
    }
    assert GainCodes(t.gains) == GainCodes(s.gains);
    PreampCode(s.preamp);
    CodeOfLevel(Code(SafePreamp(s.preamp)));
  }

  lemma CodeOfLevel(c: nat)
    requires c <= 48
    ensures -12.0 <= Level(c) <= 12.0 && Code(Level(c)) == c
  {
    assert Level(c) * 2.0 + 24.0 == c as real;
  }

  lemma PreampCode(p: Option<real>)
    ensures Level(Code(SafePreamp(p))) <= 6.0
  {
    assert SafePreamp(p) * 2.0 + 24.0 + 0.5 <= 36.5;
  }
}
