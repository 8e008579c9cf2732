/** Which texts the base64 reader accepts, and what it makes of line breaks. */
module Base64Reading {
  import opened Common
  import opened Base64

  /** The text without its line breaks. */
  function Unbroken(s: string): string {
    if s == "" then "" else (if LineBreak(s[0]) then "" else [s[0]]) + Unbroken(s[1..])
  }

  predicate InAlphabet(c: char) {
    'A' <= c <= 'Z' || 'a' <= c <= 'z' || '0' <= c <= '9' || c == '+' || c == '/'
  }

  lemma {:induction false} SextetsReadable(s: string)
    ensures Sextets(s).Some? <==> forall i :: 0 <= i < |s| ==> InAlphabet(s[i]) || LineBreak(s[i])
    ensures Sextets(s).Some? ==> |Sextets(s).value| == |Unbroken(s)|
  {
    if s != "" {
      SextetsReadable(s[1..]);
      assert s == [s[0]] + s[1..];
    }
  }

  lemma {:induction false} UnpackReadable(v: seq<Sextet>)
    ensures Unpack(v).Some? <==> |v| % 4 != 1
    ensures Unpack(v).Some? ==> |Unpack(v).value| == 3 * |v| / 4
  {
    if |v| >= 4 {
      UnpackReadable(v[4..]);
      WholeGroup(|v| - 4);
    }
  }

  lemma WholeGroup(n: nat)
    ensures (n + 4) % 4 == n % 4 && 3 * (n + 4) / 4 == 3 + 3 * n / 4
  {
  }

  /** A text is readable exactly if it holds only the 64 symbols and line breaks, and not one symbol more than whole
      groups of four; four symbols are three bytes. */
  lemma ReadableExactly(s: string)
    ensures Decode(s).Some? <==> (forall i :: 0 <= i < |s| ==> InAlphabet(s[i]) || LineBreak(s[i])) && |Unbroken(s)| % 4 != 1
    ensures Decode(s).Some? ==> |Decode(s).value| == 3 * |Unbroken(s)| / 4
  {
    SextetsReadable(s);
    if Sextets(s).Some? { UnpackReadable(Sextets(s).value); }
  }

  lemma {:induction false} UnbrokenHasNoBreak(s: string)
    ensures Sextets(Unbroken(s)) == Sextets(s)
    ensures forall i :: 0 <= i < |Unbroken(s)| ==> !LineBreak(Unbroken(s)[i])
  {
    if s != "" {
      UnbrokenHasNoBreak(s[1..]);
      var rest := Unbroken(s[1..]);
      if LineBreak(s[0]) {
        assert Unbroken(s) == rest;
      } else {
        assert Unbroken(s) == [s[0]] + rest && ([s[0]] + rest)[1..] == rest;
      }
    }
  }

  /** Line breaks do not matter, wherever they stand. */
  lemma LineBreaksAreSkipped(s: string, t: string)
    requires Unbroken(s) == Unbroken(t)
    ensures Decode(s) == Decode(t)
  {
    UnbrokenHasNoBreak(s);
    UnbrokenHasNoBreak(t);
  }
}
