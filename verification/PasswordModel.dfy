/** The encoded password hash: printing and parsing. The key function stays abstract; it is a
    parameter of every statement. */
module PasswordModel {
  import opened Common
  import opened Base64

  /** What the key is derived from. */
  datatype KeyArgs = KeyArgs(password: string, salt: seq<Byte>, iterations: nat, memory: nat, parallelism: nat, length: nat)

  datatype Params = Params(memory: nat, iterations: nat, parallelism: nat)

  datatype Reason = Format | Algorithm | Version | ParameterValue | MissingParameters | Salt | Key | PasswordLength

  datatype Result<T> = Ok(value: T) | Err(reason: Reason)

  datatype Encoded = Encoded(params: Params, salt: seq<Byte>, key: seq<Byte>)

  const ARGON_VERSION: nat := 19
  const MEMORY: nat := 64 * 1024
  const ITERATIONS: nat := 3
  const PARALLELISM: nat := 2
  const SALT_LENGTH: nat := 16
  const KEY_LENGTH: nat := 32
  const UINT32: nat := 0x1_0000_0000

  // ---- splitting ----

  function Split(s: string, sep: char): (parts: seq<string>)
    ensures |parts| > 0
  {
    if s == "" then [""]
    else
      var rest := Split(s[1..], sep);
      if s[0] == sep then [""] + rest else [[s[0]] + rest[0]] + rest[1..]
  }

  function Join(parts: seq<string>, sep: char): string
    requires |parts| > 0
  {
    if |parts| == 1 then parts[0] else parts[0] + [sep] + Join(parts[1..], sep)
  }

  lemma {:induction false} SplitOne(a: string, sep: char)
    requires sep !in a
    ensures Split(a, sep) == [a]
  {
    if a != "" {
      SplitOne(a[1..], sep);
      assert a == [a[0]] + a[1..];
    }
  }

  lemma {:induction false} SplitFirst(a: string, sep: char, b: string)
    requires sep !in a
    ensures Split(a + [sep] + b, sep) == [a] + Split(b, sep)
  {
    var s := a + [sep] + b;
    if a == "" {
      assert s[1..] == b;
    } else {
      SplitFirst(a[1..], sep, b);
      assert s[1..] == a[1..] + [sep] + b;
      assert a == [a[0]] + a[1..];
    }
  }

  /** Splitting undoes joining when no part holds the separator. */
  lemma {:induction false} SplitOfJoin(parts: seq<string>, sep: char)
    requires |parts| > 0 && forall i :: 0 <= i < |parts| ==> sep !in parts[i]
    ensures Split(Join(parts, sep), sep) == parts
  {
    if |parts| == 1 {
      SplitOne(parts[0], sep);
    } else {
      SplitOfJoin(parts[1..], sep);
      SplitFirst(parts[0], sep, Join(parts[1..], sep));
    }
  }

  lemma {:induction false} JoinAvoids(parts: seq<string>, sep: char, c: char)
    requires |parts| > 0 && c != sep && forall i :: 0 <= i < |parts| ==> c !in parts[i]
    ensures c !in Join(parts, sep)
  {
    if |parts| > 1 { JoinAvoids(parts[1..], sep, c); }
  }

  // ---- decimal numbers ----

  predicate IsDigit(c: char) { '0' <= c <= '9' }

  function Digit(d: nat): char
    requires d < 10
  {
    ('0' as int + d) as char
  }

  function Decimal(n: nat): string {
    if n < 10 then [Digit(n)] else Decimal(n / 10) + [Digit(n % 10)]
  }

  predicate AllDigits(s: string) { forall i :: 0 <= i < |s| ==> IsDigit(s[i]) }

  function DigitsValue(s: string): nat
    requires AllDigits(s)
  {
    if s == "" then 0 else DigitsValue(s[..|s| - 1]) * 10 + (s[|s| - 1] as int - '0' as int)
  }

  /** An unsigned decimal number below 2^32. */
  function ParseUint(s: string): Option<nat> {
    if s == "" || !AllDigits(s) || DigitsValue(s) >= UINT32 then None else Some(DigitsValue(s))
  }

  lemma {:induction false} DecimalValue(n: nat)
    ensures Decimal(n) != "" && AllDigits(Decimal(n)) && DigitsValue(Decimal(n)) == n
  {
    if n >= 10 {
      DecimalValue(n / 10);
      var s := Decimal(n);
      assert s[..|s| - 1] == Decimal(n / 10);
    }
  }

  lemma ParseDecimal(n: nat)
    ensures ParseUint(Decimal(n)) == if n < UINT32 then Some(n) else None
  {
    DecimalValue(n);
  }

  lemma DigitsAvoid(n: nat, c: char)
    requires !IsDigit(c)
    ensures c !in Decimal(n)
  {
    DecimalValue(n);
  }

  // ---- the version field ----

  predicate IsSpace(c: char) { c == ' ' || c == '\t' || c == '\r' || c == '\U{0B}' || c == '\U{0C}' }

  /** Leading blanks before a number are skipped; a line end is an error. */
  function SkipSpace(s: string): Option<string> {
    if s == "" then Some(s)
    else if s[0] == '\n' then None
    else if IsSpace(s[0]) then SkipSpace(s[1..])
    else Some(s)
  }

  function LeadingDigits(s: string): (d: string)
    ensures AllDigits(d) && d <= s
  {
    if s == "" || !IsDigit(s[0]) then "" else [s[0]] + LeadingDigits(s[1..])
  }

  /** A signed number at the start of the text; whatever follows it is not looked at. */
  function ScanInt(s: string): Option<int> {
    var t := SkipSpace(s);
    if t.None? then None
    else
      var signed := t.value != "" && (t.value[0] == '+' || t.value[0] == '-');
      var digits := LeadingDigits(if signed then t.value[1..] else t.value);
      if digits == "" then None
      else
        var n: int := DigitsValue(digits);
        Some(if signed && t.value[0] == '-' then -n else n)
  }

  predicate VersionMatches(s: string) {
    |s| >= 2 && s[..2] == "v=" && ScanInt(s[2..]) == Some(ARGON_VERSION)
  }

  lemma {:induction false} LeadingDigitsAll(d: string)
    requires AllDigits(d)
    ensures LeadingDigits(d) == d
  {
    if d != "" { LeadingDigitsAll(d[1..]); assert d == [d[0]] + d[1..]; }
  }

  lemma ScanDecimal(n: nat)
    ensures ScanInt(Decimal(n)) == Some(n)
  {
    DecimalValue(n);
    LeadingDigitsAll(Decimal(n));
  }

  // ---- the parameter field ----

  /** One `name=value` part; the parallelism is cut to eight bits. */
  function ReadParam(ps: Params, part: string): Option<Params> {
    var kv := Split(part, '=');
    if |kv| != 2 then Some(ps)
    else
      var val := ParseUint(kv[1]);
      if val.None? then None
      else if kv[0] == "m" then Some(ps.(memory := val.value))
      else if kv[0] == "t" then Some(ps.(iterations := val.value))
      else if kv[0] == "p" then Some(ps.(parallelism := val.value % 256))
      else Some(ps)
  }

  function ReadParams(parts: seq<string>): Option<Params> {
    if parts == [] then Some(Params(0, 0, 0))
    else
      var ps := ReadParams(parts[..|parts| - 1]);
      if ps.None? then None else ReadParam(ps.value, parts[|parts| - 1])
  }

  // ---- the whole string ----

  function ParamParts(ps: Params): seq<string> {
    ["m=" + Decimal(ps.memory), "t=" + Decimal(ps.iterations), "p=" + Decimal(ps.parallelism)]
  }

  function PrintedParts(version: nat, e: Encoded): seq<string> {
    ["", "argon2id", "v=" + Decimal(version), Join(ParamParts(e.params), ','), Encode(e.salt), Encode(e.key)]
  }

  function Print(version: nat, e: Encoded): string { Join(PrintedParts(version, e), '$') }

  predicate Complete(ps: Params) { ps.memory != 0 && ps.iterations != 0 && ps.parallelism != 0 }

  function Parse(s: string): Result<Encoded> {
    var parts := Split(s, '$');
    if |parts| != 6 then Err(Format)
    else if parts[1] != "argon2id" then Err(Algorithm)
    else if !VersionMatches(parts[2]) then Err(Version)
    else
      var ps := ReadParams(Split(parts[3], ','));
      if ps.None? then Err(ParameterValue)
      else if !Complete(ps.value) then Err(MissingParameters)
      else
        var salt := Decode(parts[4]);
        if salt.None? || salt.value == [] then Err(Salt)
        else
          var key := Decode(parts[5]);
          if key.None? || key.value == [] then Err(Key) else Ok(Encoded(ps.value, salt.value, key.value))
  }

  function ArgsOf(password: string, e: Encoded): KeyArgs {
    KeyArgs(password, e.salt, e.params.iterations, e.params.memory, e.params.parallelism, |e.key|)
  }

  function Verify(idKey: KeyArgs -> seq<Byte>, password: string, s: string): Result<bool> {
    var e := Parse(s);
    if e.Err? then Err(e.reason) else Ok(idKey(ArgsOf(password, e.value)) == e.value.key)
  }

  predicate ValidPassword(password: string) { 8 <= |password| <= 128 }

  function HashArgs(password: string, salt: seq<Byte>): KeyArgs {
    KeyArgs(password, salt, ITERATIONS, MEMORY, PARALLELISM, KEY_LENGTH)
  }

  function Hash(idKey: KeyArgs -> seq<Byte>, password: string, salt: seq<Byte>): Result<string> {
    if !ValidPassword(password) then Err(PasswordLength)
    else Ok(Print(ARGON_VERSION, Encoded(Params(MEMORY, ITERATIONS, PARALLELISM), salt, idKey(HashArgs(password, salt)))))
  }

  /** The key function returns as many bytes as it was asked for. */
  ghost predicate KeepsLength(idKey: KeyArgs -> seq<Byte>) { forall a :: |idKey(a)| == a.length }

  // ---- parsing what was printed ----

  lemma PrintSplits(version: nat, e: Encoded)
    ensures Split(Print(version, e), '$') == PrintedParts(version, e)
  {
    DigitsAvoid(version, '$');
    DigitsAvoid(e.params.memory, '$');
    DigitsAvoid(e.params.iterations, '$');
    DigitsAvoid(e.params.parallelism, '$');
    JoinAvoids(ParamParts(e.params), ',', '$');
    EncodeAvoidsSeparator(e.salt);
    EncodeAvoidsSeparator(e.key);
    SplitOfJoin(PrintedParts(version, e), '$');
  }

  lemma ReadPrinted(ps: Params, name: char, n: nat)
    requires name != '='
    ensures var part := [name] + "=" + Decimal(n);
            && ',' !in Decimal(n) && Split(part, '=') == [[name], Decimal(n)]
            && ReadParam(ps, part) == if n >= UINT32 then None
                                      else if name == 'm' then Some(ps.(memory := n))
                                      else if name == 't' then Some(ps.(iterations := n))
                                      else if name == 'p' then Some(ps.(parallelism := n % 256))
                                      else Some(ps)
  {
    DigitsAvoid(n, ',');
    DigitsAvoid(n, '=');
    SplitOne(Decimal(n), '=');
    SplitFirst([name], '=', Decimal(n));
    ParseDecimal(n);
  }

  predicate Fits32(ps: Params) { ps.memory < UINT32 && ps.iterations < UINT32 && ps.parallelism < UINT32 }

  lemma ReadThree(a: string, b: string, c: string)
    ensures ReadParams([a, b, c])
         == var x := ReadParam(Params(0, 0, 0), a);
            if x.None? then None
            else
              var y := ReadParam(x.value, b);
              if y.None? then None else ReadParam(y.value, c)
  {
    assert [a][..0] == [] && [a, b][..1] == [a] && [a, b, c][..2] == [a, b];
    assert ReadParams([]) == Some(Params(0, 0, 0));
    assert ReadParams([a]) == ReadParam(Params(0, 0, 0), a);
    assert ReadParams([a]).Some? ==> ReadParams([a, b]) == ReadParam(ReadParams([a]).value, b);
  }

  lemma SplitPrintedParams(ps: Params)
    ensures Split(Join(ParamParts(ps), ','), ',') == ParamParts(ps)
  {
    DigitsAvoid(ps.memory, ',');
    DigitsAvoid(ps.iterations, ',');
    DigitsAvoid(ps.parallelism, ',');
    SplitOfJoin(ParamParts(ps), ',');
  }

  lemma ReadMemory(ps: Params, n: nat)
    ensures ReadParam(ps, "m=" + Decimal(n)) == if n >= UINT32 then None else Some(ps.(memory := n))
  {
    ReadPrinted(ps, 'm', n);
    assert ['m'] + "=" == "m=";
  }

  lemma ReadIterations(ps: Params, n: nat)
    ensures ReadParam(ps, "t=" + Decimal(n)) == if n >= UINT32 then None else Some(ps.(iterations := n))
  {
    ReadPrinted(ps, 't', n);
    assert ['t'] + "=" == "t=";
  }

  lemma ReadParallelism(ps: Params, n: nat)
    ensures ReadParam(ps, "p=" + Decimal(n)) == if n >= UINT32 then None else Some(ps.(parallelism := n % 256))
  {
    ReadPrinted(ps, 'p', n);
    assert ['p'] + "=" == "p=";
  }

  lemma ReadPrintedParams(ps: Params)
    ensures ReadParams(Split(Join(ParamParts(ps), ','), ','))
         == if Fits32(ps) then Some(ps.(parallelism := ps.parallelism % 256)) else None
  {
    SplitPrintedParams(ps);
    ReadThree("m=" + Decimal(ps.memory), "t=" + Decimal(ps.iterations), "p=" + Decimal(ps.parallelism));
    ReadMemory(Params(0, 0, 0), ps.memory);
    ReadIterations(Params(ps.memory, 0, 0), ps.iterations);
    ReadParallelism(Params(ps.memory, ps.iterations, 0), ps.parallelism);
  }

  lemma VersionPrinted(version: nat)
    ensures VersionMatches("v=" + Decimal(version)) <==> version == ARGON_VERSION
  {
    ScanDecimal(version);
    assert ("v=" + Decimal(version))[2..] == Decimal(version);
  }

  /** What parsing makes of a printed string. */
  function ParsedPrint(version: nat, e: Encoded): Result<Encoded> {
    var ps := e.params.(parallelism := e.params.parallelism % 256);
    if version != ARGON_VERSION then Err(Version)
    else if !Fits32(e.params) then Err(ParameterValue)
    else if !Complete(ps) then Err(MissingParameters)
    else if e.salt == [] then Err(Salt)
    else if e.key == [] then Err(Key)
    else Ok(e.(params := ps))
  }

  lemma ParseOfPrint(version: nat, e: Encoded)
    ensures Parse(Print(version, e)) == ParsedPrint(version, e)
  {
    PrintSplits(version, e);
    VersionPrinted(version);
    ReadPrintedParams(e.params);
    DecodeOfEncode(e.salt);
    DecodeOfEncode(e.key);
  }

  /** Parameters the string format can carry. */
  predicate Carried(e: Encoded) {
    && 0 < e.params.memory < UINT32 && 0 < e.params.iterations < UINT32 && 0 < e.params.parallelism < 256
    && e.salt != [] && e.key != []
  }

  lemma KeptExactly(version: nat, e: Encoded)
    ensures ParsedPrint(version, e) == Ok(e) <==> version == ARGON_VERSION && Carried(e)
  {
    var n := e.params.parallelism;
    assert n % 256 == n <==> n < 256;
    assert e.params.(parallelism := n % 256) == e.params <==> n < 256;
  }

  /** Printing and parsing recovers exactly what was printed if and only if the version is the
      supported one, the parameters are positive and in range, and salt and key are not empty. */
  lemma ParsePrintExactly(version: nat, e: Encoded)
    ensures Parse(Print(version, e)) == Ok(e) <==> version == ARGON_VERSION && Carried(e)
  {
    ParseOfPrint(version, e);
    KeptExactly(version, e);
  }

  /** Verification of a printed hash compares exactly the key derived with the printed salt and
      parameters, for every password. */
  lemma VerifyPrinted(idKey: KeyArgs -> seq<Byte>, password: string, e: Encoded)
    requires Carried(e)
    ensures Verify(idKey, password, Print(ARGON_VERSION, e)) == Ok(idKey(ArgsOf(password, e)) == e.key)
  {
    ParsePrintExactly(ARGON_VERSION, e);
  }

  /** A password of 8 to 128 characters, and no other, is hashed and verifies against its own hash, and another one exactly when
      it derives the same key with the same salt. */
  lemma VerifyHash(idKey: KeyArgs -> seq<Byte>, password: string, other: string, salt: seq<Byte>)
    requires KeepsLength(idKey) && |salt| == SALT_LENGTH
    ensures var h := Hash(idKey, password, salt);
            && (h.Ok? <==> 8 <= |password| <= 128)
            && (h.Ok? ==>
                  && Verify(idKey, password, h.value) == Ok(true)
                  && Verify(idKey, other, h.value) == Ok(idKey(HashArgs(other, salt)) == idKey(HashArgs(password, salt))))
  {
    var key := idKey(HashArgs(password, salt));
    assert |key| == HashArgs(password, salt).length == KEY_LENGTH;
    var e := Encoded(Params(MEMORY, ITERATIONS, PARALLELISM), salt, key);
    VerifyPrinted(idKey, password, e);
    VerifyPrinted(idKey, other, e);
    assert ArgsOf(password, e) == HashArgs(password, salt) && ArgsOf(other, e) == HashArgs(other, salt);
  }

  /** Different hashes have different strings. */
  lemma PrintInjective(e: Encoded, f: Encoded)
    requires Carried(e) && Carried(f) && Print(ARGON_VERSION, e) == Print(ARGON_VERSION, f)
    ensures e == f
  {
    ParsePrintExactly(ARGON_VERSION, e);
    ParsePrintExactly(ARGON_VERSION, f);
  }

  /** A parallelism that does not fit eight bits is not refused: 258 is read as 2. */
  lemma ParallelismIsTruncated(e: Encoded)
    requires Carried(e) && e.params.parallelism == 2
    ensures Parse(Print(ARGON_VERSION, e.(params := e.params.(parallelism := 258)))) == Ok(e)
  {
    var f := e.(params := e.params.(parallelism := 258));
    ParseOfPrint(ARGON_VERSION, f);
    assert f.params.(parallelism := f.params.parallelism % 256) == e.params;
    assert f.(params := e.params) == e;
    assert ParsedPrint(ARGON_VERSION, f) == Ok(e);
  }

  // ---- the verifier as it runs ----

  lemma JoinThree(a: string, b: string, c: string, sep: char)
    ensures Join([a, b, c], sep) == a + [sep] + b + [sep] + c
  {
    assert [a, b, c][1..] == [b, c] && [b, c][1..] == [c];
    assert Join([b, c], sep) == b + [sep] + c;
  }

  /** Take the first part out of a joined text. */
  lemma PullOut(before: string, part: string, rest: seq<string>, sep: char)
    requires rest != []
    ensures before + Join([part] + rest, sep) == before + part + [sep] + Join(rest, sep)
  {
    assert ([part] + rest)[1..] == rest;
    var tail := Join(rest, sep);
    assert before + (part + [sep] + tail) == before + part + [sep] + tail;
  }

  lemma JoinFour(before: string, c: string, d: string, e: string, f: string, sep: char)
    ensures before + Join([c, d, e, f], sep) == before + c + [sep] + d + [sep] + e + [sep] + f
  {
    var p := before + c + [sep];
    assert [c, d, e, f] == [c] + [d, e, f];
    PullOut(before, c, [d, e, f], sep);
    assert [d, e, f] == [d] + [e, f];
    PullOut(p, d, [e, f], sep);
    assert [e, f] == [e] + [f];
    PullOut(p + d + [sep], e, [f], sep);
  }

  lemma JoinSix(a: string, b: string, c: string, d: string, e: string, f: string, sep: char)
    ensures Join([a, b, c, d, e, f], sep) == a + [sep] + b + [sep] + c + [sep] + d + [sep] + e + [sep] + f
  {
    var p := a + [sep];
    assert [a, b, c, d, e, f] == [a] + [b, c, d, e, f];
    assert "" + Join([a, b, c, d, e, f], sep) == Join([a, b, c, d, e, f], sep) && "" + a == a;
    PullOut("", a, [b, c, d, e, f], sep);
    assert [b, c, d, e, f] == [b] + [c, d, e, f];
    PullOut(p, b, [c, d, e, f], sep);
    JoinFour(p + b + [sep], c, d, e, f, sep);
  }

  lemma ParamsForm(m: string, t: string, p: string)
    ensures Join(["m=" + m, "t=" + t, "p=" + p], ',') == "m=" + m + ",t=" + t + ",p=" + p
  {
    JoinThree("m=" + m, "t=" + t, "p=" + p, ',');
    var x, y := "m=" + m, "m=" + m + ",t=" + t;
    assert x + "," + ("t=" + t) == x + ",t=" + t;
    assert y + "," + ("p=" + p) == y + ",p=" + p;
  }

  lemma HeadForm(v: string)
    ensures "" + "$" + "argon2id" + "$" + ("v=" + v) == "$argon2id$v=" + v
  {
  }

  /** The format string with its fields filled in. */
  lemma PrintedForm(v: string, m: string, t: string, p: string, salt: string, key: string)
    ensures Join(["", "argon2id", "v=" + v, Join(["m=" + m, "t=" + t, "p=" + p], ','), salt, key], '$')
         == "$argon2id$v=" + v + "$" + ("m=" + m + ",t=" + t + ",p=" + p) + "$" + salt + "$" + key
  {
    ParamsForm(m, t, p);
    HeadForm(v);
    JoinSix("", "argon2id", "v=" + v, Join(["m=" + m, "t=" + t, "p=" + p], ','), salt, key, '$');
  }

  method HashPassword(idKey: KeyArgs -> seq<Byte>, password: string, random: seq<Byte>) returns (r: Result<string>)
    requires |random| == SALT_LENGTH
    ensures r == Hash(idKey, password, random)
  {
    if !ValidPassword(password) { return Err(PasswordLength); }
    var salt := random;
    var key := idKey(KeyArgs(password, salt, ITERATIONS, MEMORY, PARALLELISM, KEY_LENGTH));
    var v, m, t, p := Decimal(ARGON_VERSION), Decimal(MEMORY), Decimal(ITERATIONS), Decimal(PARALLELISM);
    var saltText, keyText := Encode(salt), Encode(key);
    PrintedForm(v, m, t, p, saltText, keyText);
    return Ok("$argon2id$v=" + v + "$" + ("m=" + m + ",t=" + t + ",p=" + p) + "$" + saltText + "$" + keyText);
  }

  method ParseParams(field: string) returns (r: Result<Params>)
    ensures var ps := ReadParams(Split(field, ','));
            r == if ps.None? then Err(ParameterValue)
                 else if !Complete(ps.value) then Err(MissingParameters) else Ok(ps.value)
  {
    var memory, iterations, parallelism: nat := 0, 0, 0;
    var params := Split(field, ',');
    for i := 0 to |params|
      invariant ReadParams(params[..i]) == Some(Params(memory, iterations, parallelism))
    {
      assert params[..i + 1][..i] == params[..i];
      var kv := Split(params[i], '=');
      if |kv| == 2 {
        var val := ParseUint(kv[1]);
        if val.None? {
          ReadParamsFails(params, i + 1);
          return Err(ParameterValue);
        }
        if kv[0] == "m" { memory := val.value; }
        else if kv[0] == "t" { iterations := val.value; }
        else if kv[0] == "p" { parallelism := val.value % 256; }
      }
    }
    assert params[..|params|] == params;
    if memory == 0 || iterations == 0 || parallelism == 0 { return Err(MissingParameters); }
    return Ok(Params(memory, iterations, parallelism));
  }

  /** A bad part makes the whole field bad. */
  lemma {:induction false} ReadParamsFails(parts: seq<string>, n: nat)
    requires n <= |parts| && ReadParams(parts[..n]).None?
    ensures ReadParams(parts).None?
    decreases |parts| - n
  {
    if n == |parts| {
      assert parts[..n] == parts;
    } else {
      assert parts[..n + 1][..n] == parts[..n];
      ReadParamsFails(parts, n + 1);
    }
  }

  method VerifyPassword(idKey: KeyArgs -> seq<Byte>, password: string, encodedHash: string) returns (r: Result<bool>)
    ensures r == Verify(idKey, password, encodedHash)
  {
    var parts := Split(encodedHash, '$');
    if |parts| != 6 { return Err(Format); }
    if parts[1] != "argon2id" { return Err(Algorithm); }
    if !VersionMatches(parts[2]) { return Err(Version); }
    var ps := ParseParams(parts[3]);
    if ps.Err? { return Err(ps.reason); }
    var salt := Decode(parts[4]);
    if salt.None? || |salt.value| == 0 { return Err(Salt); }
    var expected := Decode(parts[5]);
    if expected.None? || |expected.value| == 0 { return Err(Key); }
    var key := idKey(KeyArgs(password, salt.value, ps.value.iterations, ps.value.memory, ps.value.parallelism, |expected.value|));
    return Ok(key == expected.value);
  }
}
