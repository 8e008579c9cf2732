/** Unpadded base64 with the standard alphabet (sections 4 and 3.2 of RFC 4648), read the way
    the hash parser reads it: line breaks are skipped and unused trailing bits may be set. */
module Base64 {
  import opened Common

  type Byte = b: int | 0 <= b < 256

  type Sextet = v: int | 0 <= v < 64

  function Symbol(v: Sextet): char {
    if v < 26 then ('A' as int + v) as char
    else if v < 52 then ('a' as int + v - 26) as char
    else if v < 62 then ('0' as int + v - 52) as char
    else if v == 62 then '+' else '/'
  }

  function Value(c: char): Option<Sextet> {
    if 'A' <= c <= 'Z' then Some(c as int - 'A' as int)
    else if 'a' <= c <= 'z' then Some(c as int - 'a' as int + 26)
    else if '0' <= c <= '9' then Some(c as int - '0' as int + 52)
    else if c == '+' then Some(62)
    else if c == '/' then Some(63)
    else None
  }

  function Symbols(v: seq<Sextet>): string {
    if v == [] then "" else [Symbol(v[0])] + Symbols(v[1..])
  }

  // Three bytes are four sextets: the sextet that ends a byte, straddles two, or begins one.

  function Upper(a: Byte): Sextet { a / 4 }

  function Across(a: Byte, b: Byte): Sextet { a % 4 * 16 + b / 16 }

  function Over(b: Byte, c: Byte): Sextet { b % 16 * 4 + c / 64 }

  function Lower(c: Byte): Sextet { c % 64 }

  function Byte0(u: Sextet, v: Sextet): Byte { u * 4 + v / 16 }

  function Byte1(v: Sextet, w: Sextet): Byte { v % 16 * 16 + w / 4 }

  function Byte2(w: Sextet, x: Sextet): Byte { w % 4 * 64 + x }

  function Pack(b: seq<Byte>): seq<Sextet> {
    if |b| == 0 then []
    else if |b| == 1 then [Upper(b[0]), Across(b[0], 0)]
    else if |b| == 2 then [Upper(b[0]), Across(b[0], b[1]), Over(b[1], 0)]
    else [Upper(b[0]), Across(b[0], b[1]), Over(b[1], b[2]), Lower(b[2])] + Pack(b[3..])
  }

  function Encode(b: seq<Byte>): string { Symbols(Pack(b)) }

  predicate LineBreak(c: char) { c == '\r' || c == '\n' }

  /** The sextets of a text without its line breaks; None if any other character is foreign. */
  function Sextets(s: string): Option<seq<Sextet>> {
    if s == "" then Some([])
    else
      var rest := Sextets(s[1..]);
      if LineBreak(s[0]) then rest
      else if rest.None? || Value(s[0]).None? then None
      else Some([Value(s[0]).value] + rest.value)
  }

  /** A last group of one sextet is an error. */
  function Unpack(v: seq<Sextet>): Option<seq<Byte>> {
    if |v| == 0 then Some([])
    else if |v| == 1 then None
    else if |v| == 2 then Some([Byte0(v[0], v[1])])
    else if |v| == 3 then Some([Byte0(v[0], v[1]), Byte1(v[1], v[2])])
    else
      var rest := Unpack(v[4..]);
      if rest.None? then None
      else Some([Byte0(v[0], v[1]), Byte1(v[1], v[2]), Byte2(v[2], v[3])] + rest.value)
  }

  function Decode(s: string): Option<seq<Byte>> {
    var v := Sextets(s);
    if v.None? then None else Unpack(v.value)
  }

  // ---- decoding undoes encoding ----

  lemma SymbolValue(v: Sextet)
    ensures Value(Symbol(v)) == Some(v) && !LineBreak(Symbol(v)) && Symbol(v) != '$'
  {
  }

  lemma ValueSymbol(c: char)
    requires Value(c).Some?
    ensures Symbol(Value(c).value) == c && !LineBreak(c)
  {
  }

  lemma {:induction false} SextetsOfSymbols(v: seq<Sextet>)
    ensures Sextets(Symbols(v)) == Some(v) && '$' !in Symbols(v)
  {
    if v == [] {
      assert Symbols(v) == "";
    } else {
      SextetsOfSymbols(v[1..]);
      SymbolValue(v[0]);
      assert Symbols(v)[1..] == Symbols(v[1..]);
      assert [v[0]] + v[1..] == v;
    }
  }

  lemma BytesBack(a: Byte, b: Byte, c: Byte)
    ensures Byte0(Upper(a), Across(a, b)) == a && Byte1(Across(a, b), Over(b, c)) == b
    ensures Byte2(Over(b, c), Lower(c)) == c
  {
  }

  lemma SextetsBack(u: Sextet, v: Sextet, w: Sextet, x: Sextet)
    ensures var a, b, c := Byte0(u, v), Byte1(v, w), Byte2(w, x);
            Upper(a) == u && Across(a, b) == v && Over(b, c) == w && Lower(c) == x
    ensures Across(Byte0(u, v), 0) == v <==> v % 16 == 0
    ensures Over(Byte1(v, w), 0) == w <==> w % 4 == 0
  {
  }

  lemma PackPrepend(a: Byte, b: Byte, c: Byte, rest: seq<Byte>)
    ensures Pack([a, b, c] + rest) == [Upper(a), Across(a, b), Over(b, c), Lower(c)] + Pack(rest)
  {
    assert ([a, b, c] + rest)[3..] == rest;
  }

  lemma UnpackPrepend(u: Sextet, v: Sextet, w: Sextet, x: Sextet, rest: seq<Sextet>)
    requires Unpack(rest).Some?
    ensures Unpack([u, v, w, x] + rest) == Some([Byte0(u, v), Byte1(v, w), Byte2(w, x)] + Unpack(rest).value)
  {
    assert ([u, v, w, x] + rest)[4..] == rest;
  }

  lemma UnpackPair(u: Sextet, v: Sextet, a: Byte)
    requires Byte0(u, v) == a
    ensures Unpack([u, v]) == Some([a])
  {
  }

  lemma UnpackTriple(u: Sextet, v: Sextet, w: Sextet, a: Byte, b: Byte)
    requires Byte0(u, v) == a && Byte1(v, w) == b
    ensures Unpack([u, v, w]) == Some([a, b])
  {
  }

  lemma UnpackOfOne(b: seq<Byte>)
    requires |b| == 1
    ensures Unpack(Pack(b)) == Some(b)
  {
    var u, v := Upper(b[0]), Across(b[0], 0);
    assert Pack(b) == [u, v];
    UnpackPair(u, v, b[0]);
    assert b == [b[0]];
  }

  lemma UnpackOfTwo(b: seq<Byte>)
    requires |b| == 2
    ensures Unpack(Pack(b)) == Some(b)
  {
    var u, v, w := Upper(b[0]), Across(b[0], b[1]), Over(b[1], 0);
    assert Pack(b) == [u, v, w];
    UnpackTriple(u, v, w, b[0], b[1]);
    assert b == [b[0], b[1]];
  }

  lemma {:induction false} UnpackOfPack(b: seq<Byte>)
    ensures Unpack(Pack(b)) == Some(b) && (b == [] <==> Pack(b) == [])
  {
    if b == [] {
    } else if |b| == 1 {
      UnpackOfOne(b);
    } else if |b| == 2 {
      UnpackOfTwo(b);
    } else {
      UnpackOfPack(b[3..]);
      var a0, a1, a2 := b[0], b[1], b[2];
      assert b == [a0, a1, a2] + b[3..];
      PackPrepend(a0, a1, a2, b[3..]);
      UnpackPrepend(Upper(a0), Across(a0, a1), Over(a1, a2), Lower(a2), Pack(b[3..]));
      BytesBack(a0, a1, a2);
    }
  }

  /** Every byte string survives. */
  lemma DecodeOfEncode(b: seq<Byte>)
    ensures Decode(Encode(b)) == Some(b)
  {
    SextetsOfSymbols(Pack(b));
    UnpackOfPack(b);
  }

  /** Its text never contains the separator of the hash string. */
  lemma EncodeAvoidsSeparator(b: seq<Byte>)
    ensures '$' !in Encode(b)
  {
    SextetsOfSymbols(Pack(b));
  }

  /** Only no bytes have an empty text. */
  lemma EncodeEmptyExactly(b: seq<Byte>)
    ensures Encode(b) == "" <==> b == []
  {
  }

  // ---- which texts survive the other way ----

  /** The unused bits of the last group are zero. */
  predicate ZeroTail(v: seq<Sextet>) {
    (|v| % 4 == 2 ==> v[|v| - 1] % 16 == 0) && (|v| % 4 == 3 ==> v[|v| - 1] % 4 == 0)
  }

  lemma ZeroTailDrop(v: seq<Sextet>)
    requires |v| >= 4
    ensures ZeroTail(v) <==> ZeroTail(v[4..])
  {
  }

  lemma {:induction false} PackOfUnpack(v: seq<Sextet>)
    requires Unpack(v).Some?
    ensures Pack(Unpack(v).value) == v <==> ZeroTail(v)
  {
    if |v| >= 4 {
      PackOfUnpack(v[4..]);
      ZeroTailDrop(v);
      SextetsBack(v[0], v[1], v[2], v[3]);
      PackPrepend(Byte0(v[0], v[1]), Byte1(v[1], v[2]), Byte2(v[2], v[3]), Unpack(v[4..]).value);
      var head := [v[0], v[1], v[2], v[3]];
      assert v == head + v[4..];
      assert Pack(Unpack(v).value) == head + Pack(Unpack(v[4..]).value);
      assert (head + Pack(Unpack(v[4..]).value))[4..] == Pack(Unpack(v[4..]).value);
    } else if |v| == 2 {
      SextetsBack(v[0], v[1], 0, 0);
      assert v == [v[0], v[1]];
    } else if |v| == 3 {
      SextetsBack(v[0], v[1], v[2], 0);
      assert v == [v[0], v[1], v[2]];
      assert Pack(Unpack(v).value) == [v[0], v[1], Over(Byte1(v[1], v[2]), 0)];
    }
  }

  predicate NoLineBreak(s: string) { forall i :: 0 <= i < |s| ==> !LineBreak(s[i]) }

  lemma {:induction false} SymbolsOfSextets(s: string)
    requires Sextets(s).Some?
    ensures |Symbols(Sextets(s).value)| <= |s|
    ensures Symbols(Sextets(s).value) == s <==> NoLineBreak(s)
  {
    if s != "" {
      SymbolsOfSextets(s[1..]);
      if LineBreak(s[0]) {
        assert !NoLineBreak(s);
      } else {
        ValueSymbol(s[0]);
        assert Sextets(s).value[1..] == Sextets(s[1..]).value;
        assert NoLineBreak(s) <==> NoLineBreak(s[1..]) by {
          if NoLineBreak(s[1..]) {
            forall i | 0 <= i < |s| ensures !LineBreak(s[i]) { if i > 0 { assert s[i] == s[1..][i - 1]; } }
          }
        }
        assert s == [s[0]] + s[1..];
        assert Symbols(Sextets(s).value)[1..] == Symbols(Sextets(s[1..]).value);
      }
    }
  }

  lemma {:induction false} SymbolsInjective(v: seq<Sextet>, w: seq<Sextet>)
    requires Symbols(v) == Symbols(w)
    ensures v == w
  {
    SextetsOfSymbols(v);
    SextetsOfSymbols(w);
  }

  /** A readable text is the text of the bytes it stands for exactly when it has no line break
      and no stray trailing bits: reading is more lenient than writing, and this says how much. */
  lemma EncodeOfDecode(s: string)
    requires Decode(s).Some?
    ensures Encode(Decode(s).value) == s <==> NoLineBreak(s) && ZeroTail(Sextets(s).value)
  {
    var v := Sextets(s).value;
    SymbolsOfSextets(s);
    PackOfUnpack(v);
    if NoLineBreak(s) && Encode(Decode(s).value) == s {
      SymbolsInjective(Pack(Decode(s).value), v);
    }
    if Encode(Decode(s).value) == s {
      SextetsOfSymbols(Pack(Decode(s).value));
    }
  }

  lemma SextetsOfTwo(c: char, d: char)
    requires Value(c).Some? && Value(d).Some?
    ensures Sextets([c, d]) == Some([Value(c).value, Value(d).value])
  {
    ValueSymbol(c);
    ValueSymbol(d);
    assert [d][1..] == "" && Sextets("") == Some([]);
    assert Sextets([d]) == Some([Value(d).value] + []);
    assert [c, d][1..] == [d];
    assert [Value(c).value] + ([Value(d).value] + []) == [Value(c).value, Value(d).value];
  }

  /** A text the writer never produces: the last sextet of "QR" has a stray bit, and it stands
      for the same byte as "QQ". */
  lemma StrayBitIsAccepted()
    ensures Decode("QR") == Decode("QQ") == Some([65]) && Encode([65]) == "QQ"
  {
    SextetsOfTwo('Q', 'R');
    SextetsOfTwo('Q', 'Q');
    UnpackPair(16, 17, 65);
    UnpackPair(16, 16, 65);
    assert Pack([65]) == [16, 16];
    assert [16, 16][1..] == [16] && [16][1..] == [];
    assert Symbols([16]) == "Q";
  }
}
