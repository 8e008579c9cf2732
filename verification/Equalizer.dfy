/** Publishing and refreshing as loops over the bands. */
module EqualizerObjects {
  import opened Common
  import opened EqualizerModel

  const UINT64: nat := 0x1_0000_0000_0000_0000

  class EqualizerParameters {
    var low: nat
    var high: nat

    constructor ()
      ensures low == LowWord(Settings([], false, Some(0.0), true))
      ensures high == HighWord(Settings([], false, Some(0.0), true))
    {
      low, high := 0, 0;
      new;
      Publish(Settings([], false, Some(0.0), true));
    }

    method Publish(s: Settings)
      modifies this
      ensures low == LowWord(s) && high == HighWord(s)
    {
      var a, b := PackBands(s.gains);
      ghost var codes := GainCodes(s.gains);
      var encoded := Code(SafePreamp(s.preamp));
      ghost var front := codes[8..] + [encoded];
      OrAppends(codes[8..], encoded);
      b := BitOr(b, Shl(encoded, 16));
      FlagsPack(front, s.enabled, s.headroom);
      if s.enabled { b := BitOr(b, Shl(1, 24)); }
      if s.headroom { b := BitOr(b, Shl(1, 25)); }
      low := a;
      high := b;
    }

    /** The loop over the bands: eight codes in the low word, two in the high one. */
    static method PackBands(gains: seq<Option<real>>) returns (a: nat, b: nat)
      ensures a == Packed(GainCodes(gains)[..8]) && b == Packed(GainCodes(gains)[8..])
    {
      a, b := 0, 0;
      ghost var codes := GainCodes(gains);
      for index := 0 to BANDS
        invariant a == Packed(codes[..Min(index, 8)])
        invariant b == Packed(codes[8..Max(index, 8)])
      {
        var gain := 0.0;
        if index < |gains| && gains[index].Some? { gain := gains[index].value; }
        var encoded := Code(Clamp(gain, -12.0, 12.0));
        CodeOfBand(gains, index);
        if index < 8 {
          PackOne(codes, 0, index);
          assert codes[0..index] == codes[..index] && codes[0..index + 1] == codes[..index + 1];
          a := BitOr(a, Shl(encoded, index * 8));
        } else {
          PackOne(codes, 8, index);
          b := BitOr(b, Shl(encoded, (index - 8) * 8));
        }
      }
      assert codes[8..10] == codes[8..];
    }
  }

  /** One more code in a word that begins with the code at `from`. */
  lemma PackOne(codes: seq<nat>, from: nat, index: nat)
    requires Bytes(codes) && from <= index < |codes|
    ensures BitOr(Packed(codes[from..index]), Shl(codes[index], (index - from) * 8)) == Packed(codes[from..index + 1])
  {
    OrAppends(codes[from..index], codes[index]);
    assert codes[from..index + 1] == codes[from..index] + [codes[index]];
  }

  lemma CodeOfBand(gains: seq<Option<real>>, index: nat)
    requires index < BANDS
    ensures GainCodes(gains)[index]
         == Code(Clamp(if index < |gains| && gains[index].Some? then gains[index].value else 0.0, -12.0, 12.0))
  {
  }

  /** Setting the two flag bits one after the other packs the flags byte. */
  lemma FlagsPack(front: seq<nat>, enabled: bool, headroom: bool)
    requires |front| == 3 && Bytes(front)
    ensures var b := Packed(front);
            var c := if enabled then BitOr(b, Shl(1, 24)) else b;
            (if headroom then BitOr(c, Shl(1, 25)) else c) == Packed(front + [Flags(enabled, headroom)])
  {
    var c := Packed(front + [if enabled then 1 else 0]);
    PackedZero(front);
    OrAppends(front, 1);
    OrAt(front, if enabled then 1 else 0, 2);
    assert Shl(1, 25) == Shl(2, 24) by { ShlOne(24); }
    assert BitOr(1, 2) == 3 by { assert BitOr(0, 1) == 1; }
    OrZero(2);
  }

  lemma {:induction false} ShlOne(k: nat)
    ensures Shl(1, k + 1) == Shl(2, k)
  {
    if k > 0 { ShlOne(k - 1); }
  }

  class EqualizerKernel {
    // the words decoded last; no published word equals the initial value
    var lastLow: nat
    var lastHigh: nat
    var enabled: bool
    var headroom: bool
    var preamp: real
    var gains: array<real>

    ghost predicate Valid()
      reads this, gains
    {
      && gains.Length == BANDS
      && (lastLow < UINT64 - 1 ==> Decoded(gains[..], preamp, enabled, headroom) == Decode(lastLow, lastHigh))
    }

    constructor ()
      ensures Valid() && fresh(gains) && lastLow == UINT64 - 1
    {
      gains := new real[10](_ => 0.0);
      lastLow, lastHigh, enabled, headroom, preamp := UINT64 - 1, UINT64 - 1, false, false, 0.0;
    }

    /** `low` and `high` are the words the render thread loaded. */
    method Refresh(low: nat, high: nat)
      requires Valid() && low < UINT64 - 1
      modifies this, gains
      ensures Valid() && gains == old(gains)
      ensures Decoded(gains[..], preamp, enabled, headroom) == Decode(low, high)
    {
      if low == lastLow && high == lastHigh { return; }
      lastLow := low;
      lastHigh := high;
      enabled := Bit(high, 24);
      for band := 0 to BANDS
        invariant gains == old(gains) && gains.Length == BANDS
        invariant lastLow == low && lastHigh == high && enabled == Bit(high, 24)
        invariant forall i :: 0 <= i < band ==> gains[i] == Level(Encoded(low, high, i))
      {
        var encoded := if band < 8 then BitAnd(Shr(low, band * 8), 255) else BitAnd(Shr(high, (band - 8) * 8), 255);
        gains[band] := encoded as real / 2.0 - 12.0;
      }
      preamp := BitAnd(Shr(high, 16), 255) as real / 2.0 - 12.0;
      headroom := Bit(high, 25);
      assert gains[..] == Decode(low, high).gains;
    }
  }

  /** Words never overflow, and a published low word is never the kernel's initial value, so the
      first refresh always decodes. */
  lemma WordsFit(s: Settings)
    ensures LowWord(s) < UINT64 - 1 && HighWord(s) < UINT64
  {
    var l, h := LowBytes(s), HighBytes(s);
    PackedBelow(l, 48);
    PackedBelow(h, 48);
    assert |l| == 8 && |h| == 4;
    assert Power(8) == 0x1_0000_0000_0000_0000 && Power(4) == 0x1_0000_0000 by { PowerValues(); }
  }

  function Power(n: nat): nat { if n == 0 then 1 else 256 * Power(n - 1) }

  lemma PowerValues()
    ensures Power(4) == 0x1_0000_0000 && Power(8) == 0x1_0000_0000_0000_0000
  {
    assert Power(2) == 0x1_0000;
    assert Power(4) == 0x1_0000_0000;
    assert Power(6) == 0x1_0000_0000_0000;
  }

  lemma {:induction false} PackedBelow(bytes: seq<nat>, bound: nat)
    requires bound < 255 && forall i :: 0 <= i < |bytes| ==> bytes[i] <= bound
    ensures Packed(bytes) + 1 <= Power(|bytes|) && (bytes != [] ==> Packed(bytes) + 1 < Power(|bytes|))
  {
    if bytes != [] { PackedBelow(bytes[1..], bound); }
  }
}
