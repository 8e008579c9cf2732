/** What the hash parser makes of strings nobody printed. */
module PasswordReading {
  import opened Common
  import opened Base64
  import opened PasswordModel

  /** Splitting loses nothing: the parts hold no separator and join to the text again. */
  lemma {:induction false} JoinOfSplit(s: string, sep: char)
    ensures Join(Split(s, sep), sep) == s
    ensures forall i :: 0 <= i < |Split(s, sep)| ==> sep !in Split(s, sep)[i]
  {
    if s != "" {
      JoinOfSplit(s[1..], sep);
      assert s == [s[0]] + s[1..];
      var rest := Split(s[1..], sep);
      if s[0] == sep {
        assert Split(s, sep)[1..] == rest;
      } else {
        assert Split(s, sep)[1..] == rest[1..];
      }
    }
  }

  function Count(s: string, c: char): nat {
    if s == "" then 0 else (if s[0] == c then 1 else 0) + Count(s[1..], c)
  }

  lemma {:induction false} PartsCount(s: string, sep: char)
    ensures |Split(s, sep)| == Count(s, sep) + 1
  {
    if s != "" { PartsCount(s[1..], sep); }
  }

  /** Exactly the strings with five dollar signs have the right format. */
  lemma FormatExactly(s: string)
    ensures Parse(s) == Err(Format) <==> Count(s, '$') != 5
  {
    PartsCount(s, '$');
  }

  /** Of these, exactly the ones with "argon2id" between the first two dollar signs are looked at further. */
  lemma AlgorithmExactly(before: string, algorithm: string, rest: string)
    requires '$' !in before && '$' !in algorithm && Count(rest, '$') == 3
    ensures Parse(before + ['$'] + (algorithm + ['$'] + rest)) == Err(Algorithm) <==> algorithm != "argon2id"
  {
    SecondPart(before, algorithm, rest);
    SecondPartDecides(before + ['$'] + (algorithm + ['$'] + rest));
  }

  lemma SecondPartDecides(s: string)
    requires |Split(s, '$')| == 6
    ensures Parse(s) == Err(Algorithm) <==> Split(s, '$')[1] != "argon2id"
  {
  }

  lemma SecondPart(before: string, algorithm: string, rest: string)
    requires '$' !in before && '$' !in algorithm && Count(rest, '$') == 3
    ensures var parts := Split(before + ['$'] + (algorithm + ['$'] + rest), '$'); |parts| == 6 && parts[1] == algorithm
  {
    SplitFirst(before, '$', algorithm + ['$'] + rest);
    SplitFirst(algorithm, '$', rest);
    PartsCount(rest, '$');
  }

  lemma ReadParamBounded(ps: Params, part: string)
    requires ps.memory < UINT32 && ps.iterations < UINT32 && ps.parallelism < 256
    ensures var r := ReadParam(ps, part);
            r.Some? ==> r.value.memory < UINT32 && r.value.iterations < UINT32 && r.value.parallelism < 256
  {
  }

  lemma {:induction false} ReadParamsBounded(parts: seq<string>)
    ensures var r := ReadParams(parts);
            r.Some? ==> r.value.memory < UINT32 && r.value.iterations < UINT32 && r.value.parallelism < 256
  {
    if parts != [] {
      ReadParamsBounded(parts[..|parts| - 1]);
      var ps := ReadParams(parts[..|parts| - 1]);
      if ps.Some? { ReadParamBounded(ps.value, parts[|parts| - 1]); }
    }
  }

  lemma AcceptedIsCarried(s: string)
    requires Parse(s).Ok?
    ensures Carried(Parse(s).value)
  {
    ReadParamsBounded(Split(Split(s, '$')[3], ','));
  }

  /** Whatever string was accepted, printing what was read gives a string that is read the same and
      verifies the same passwords. */
  lemma ReprintReadsTheSame(idKey: KeyArgs -> seq<Byte>, password: string, s: string)
    requires Parse(s).Ok?
    ensures Parse(Print(ARGON_VERSION, Parse(s).value)) == Parse(s)
    ensures Verify(idKey, password, Print(ARGON_VERSION, Parse(s).value)) == Verify(idKey, password, s)
  {
    AcceptedIsCarried(s);
    ParsePrintExactly(ARGON_VERSION, Parse(s).value);
  }

  // ---- the version ----

  lemma {:induction false} BlanksAreSkipped(blanks: string, t: string)
    requires (forall i :: 0 <= i < |blanks| ==> IsSpace(blanks[i])) && t != "" && !IsSpace(t[0]) && t[0] != '\n'
    ensures SkipSpace(blanks + t) == Some(t)
  {
    if blanks == "" {
      assert blanks + t == t;
    } else {
      BlanksAreSkipped(blanks[1..], t);
      assert (blanks + t)[1..] == blanks[1..] + t;
    }
  }

  lemma {:induction false} DigitsEnd(digits: string, rest: string)
    requires AllDigits(digits) && (rest != "" ==> !IsDigit(rest[0]))
    ensures LeadingDigits(digits + rest) == digits
  {
    if digits == "" {
      assert digits + rest == rest;
    } else {
      DigitsEnd(digits[1..], rest);
      assert (digits + rest)[1..] == digits[1..] + rest && digits == [digits[0]] + digits[1..];
    }
  }

  lemma SignedNumber(plus: bool, digits: string, rest: string)
    requires digits != "" && AllDigits(digits) && (rest != "" ==> !IsDigit(rest[0]))
    ensures var t := (if plus then "+" else "") + (digits + rest);
            && t != "" && !IsSpace(t[0]) && t[0] != '\n' && t[0] != '-'
            && (plus <==> t[0] == '+') && LeadingDigits(if plus then t[1..] else t) == digits
  {
    var t := (if plus then "+" else "") + (digits + rest);
    DigitsEnd(digits, rest);
    if plus { assert t[1..] == digits + rest; } else { assert t == digits + rest; }
  }

  lemma ScanReads(blanks: string, plus: bool, digits: string, rest: string)
    requires forall i :: 0 <= i < |blanks| ==> IsSpace(blanks[i])
    requires digits != "" && AllDigits(digits) && (rest != "" ==> !IsDigit(rest[0]))
    ensures ScanInt(blanks + ((if plus then "+" else "") + (digits + rest))) == Some(DigitsValue(digits))
  {
    SignedNumber(plus, digits, rest);
    BlanksAreSkipped(blanks, (if plus then "+" else "") + (digits + rest));
  }

  /** The version may stand behind blanks, carry a plus and leading zeros, and be followed by anything but a
      digit: only its number decides. */
  lemma VersionIsItsNumber(blanks: string, plus: bool, digits: string, rest: string)
    requires forall i :: 0 <= i < |blanks| ==> IsSpace(blanks[i])
    requires digits != "" && AllDigits(digits) && (rest != "" ==> !IsDigit(rest[0]))
    ensures VersionMatches("v=" + (blanks + ((if plus then "+" else "") + (digits + rest)))) <==> DigitsValue(digits) == 19
  {
    var t := blanks + ((if plus then "+" else "") + (digits + rest));
    ScanReads(blanks, plus, digits, rest);
    assert ("v=" + t)[2..] == t && ("v=" + t)[..2] == "v=";
  }

  lemma {:induction false} LeadingZeroKeepsValue(digits: string)
    requires AllDigits(digits)
    ensures AllDigits("0" + digits) && DigitsValue("0" + digits) == DigitsValue(digits)
    decreases |digits|
  {
    if digits == "" {
      assert "0" + digits == "0" && "0"[..0] == "";
      assert DigitsValue("") == 0;
    } else {
      var n := |digits| - 1;
      LeadingZeroKeepsValue(digits[..n]);
      assert ("0" + digits)[..n + 1] == "0" + digits[..n];
    }
  }

  // ---- the parameters ----

  /** A part without exactly one equals sign, or with a number under a name of its own, says nothing. */
  predicate Silent(part: string) {
    var kv := Split(part, '=');
    |kv| != 2 || (kv[0] !in {"m", "t", "p"} && ParseUint(kv[1]).Some?)
  }

  /** Silent parts may stand anywhere. */
  lemma {:induction false} SilentPartsAreIgnored(a: seq<string>, part: string, b: seq<string>)
    requires Silent(part)
    ensures ReadParams(a + [part] + b) == ReadParams(a + b)
    decreases |b|
  {
    if b == [] {
      assert a + [part] + b == a + [part] && a + b == a && (a + [part])[..|a|] == a;
    } else {
      var n := |b| - 1;
      SilentPartsAreIgnored(a, part, b[..n]);
      assert (a + [part] + b)[..|a| + 1 + n] == a + [part] + b[..n];
      assert (a + b)[..|a| + n] == a + b[..n];
    }
  }

  predicate SameName(x: string, y: string) {
    |Split(x, '=')| == 2 && |Split(y, '=')| == 2 && Split(x, '=')[0] == Split(y, '=')[0]
  }

  lemma PartsCommute(ps: Params, x: string, y: string)
    requires !SameName(x, y)
    ensures var a, b := ReadParam(ps, x), ReadParam(ps, y);
            (if a.None? then None else ReadParam(a.value, y)) == (if b.None? then None else ReadParam(b.value, x))
  {
  }

  /** Parameters of different names may come in any order. */
  lemma {:induction false} OrderIsFree(a: seq<string>, x: string, y: string, b: seq<string>)
    requires !SameName(x, y)
    ensures ReadParams(a + [x, y] + b) == ReadParams(a + [y, x] + b)
    decreases |b|
  {
    if b == [] {
      ReadTwo(a, x, y);
      ReadTwo(a, y, x);
      assert a + [x, y] + b == a + [x, y] && a + [y, x] + b == a + [y, x];
      if ReadParams(a).Some? { PartsCommute(ReadParams(a).value, x, y); }
    } else {
      var n := |b| - 1;
      OrderIsFree(a, x, y, b[..n]);
      assert (a + [x, y] + b)[..|a| + 2 + n] == a + [x, y] + b[..n];
      assert (a + [y, x] + b)[..|a| + 2 + n] == a + [y, x] + b[..n];
    }
  }

  lemma ReadTwo(a: seq<string>, x: string, y: string)
    ensures ReadParams(a + [x, y])
         == var ps := ReadParams(a);
            if ps.None? then None
            else
              var q := ReadParam(ps.value, x);
              if q.None? then None else ReadParam(q.value, y)
  {
    assert (a + [x, y])[..|a| + 1] == a + [x] && (a + [x])[..|a|] == a;
  }

  /** Of two values of one name the later one counts. */
  lemma LaterValueCounts(ps: Params, x: string, y: string)
    requires SameName(x, y) && ReadParam(ps, x).Some?
    ensures ReadParam(ReadParam(ps, x).value, y) == ReadParam(ps, y)
  {
  }
}
