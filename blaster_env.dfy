/**
 * The BLASTER environment string parser, shared by `read_env_string`
 * (SBLASTER.C) and `sb_getparams` (sb.c).
 *
 * The string is cut into tokens by `strtok(…, " ")`; the first letter of a
 * token, in either case, selects a card setting and the rest of the token is
 * its value: hexadecimal (`sscanf(…, "%x", …)`) for `A`, decimal (`atoi`) for
 * the others. SBLASTER.C stores six settings; sb.c has no mixer or MPU
 * setting and ignores `M` and `P` tokens.
 */
module BlasterEnv {
  import opened Defs

  /** The settings a token can select. */
  datatype Field = Addr | Irq | Dma8 | Dma16 | Mixer | Mpu

  /** Which of the two parsers: SBLASTER.C's keeps `M` and `P`, sb.c's drops them. */
  datatype Dialect = ReadEnvString | SbGetParams

  /** The card settings the parser assigns (`base_io`, `irq`, `dma8`, `dma16`,
      `mixer_io`, `mpu_io`; in sb.c `sb_ioaddr`, `sb_irq`, `sb_dmachan`, `sb_dmachan16`). */
  datatype Settings = Settings(baseIo: int, irq: int, dma8: int, dma16: int, mixerIo: int, mpuIo: int)

  function Get(s: Settings, f: Field): int
  {
    match f
    case Addr => s.baseIo
    case Irq => s.irq
    case Dma8 => s.dma8
    case Dma16 => s.dma16
    case Mixer => s.mixerIo
    case Mpu => s.mpuIo
  }

  function Set(s: Settings, f: Field, v: int): (r: Settings)
    ensures Get(r, f) == v
    ensures forall g :: g != f ==> Get(r, g) == Get(s, g)
  {
    match f
    case Addr => s.(baseIo := v)
    case Irq => s.(irq := v)
    case Dma8 => s.(dma8 := v)
    case Dma16 => s.(dma16 := v)
    case Mixer => s.(mixerIo := v)
    case Mpu => s.(mpuIo := v)
  }

  /** The `switch (env_tok[0])`: which setting a token's first letter selects. */
  function FieldOf(c: char, d: Dialect): Option<Field>
  {
    if c == 'A' || c == 'a' then Some(Addr)
    else if c == 'I' || c == 'i' then Some(Irq)
    else if c == 'D' || c == 'd' then Some(Dma8)
    else if c == 'H' || c == 'h' then Some(Dma16)
    else if d == SbGetParams then None
    else if c == 'M' || c == 'm' then Some(Mixer)
    else if c == 'P' || c == 'p' then Some(Mpu)
    else None
  }

  /** Upper-case of an ASCII letter. */
  function Upper(c: char): char
  {
    if 'a' <= c <= 'z' then (c as int - 32) as char else c
  }

  /** The selection ignores case, and exactly the six letters select anything
      (four of them for sb.c). */
  lemma FieldSelection(c: char, d: Dialect)
    ensures FieldOf(c, d) == FieldOf(Upper(c), d)
    ensures FieldOf(c, d).Some? <==>
      Upper(c) in (if d == ReadEnvString then "AIDHMP" else "AIDH")
  {
  }

  // ---------------------------------------------------------------------
  // strtok(s, " ")
  // ---------------------------------------------------------------------

  /** Length of the leading run of characters other than the delimiter. */
  function RunLength(s: string): (n: nat)
    ensures n <= |s|
    ensures forall i :: 0 <= i < n ==> s[i] != ' '
    ensures n < |s| ==> s[n] == ' '
  {
    if s == [] || s[0] == ' ' then 0 else 1 + RunLength(s[1..])
  }

  /** `s` with its leading delimiters dropped. */
  function SkipDelimiters(s: string): (r: string)
    ensures |r| <= |s| && r == s[|s| - |r|..]
    ensures r != [] ==> r[0] != ' '
    ensures forall i :: 0 <= i < |s| - |r| ==> s[i] == ' '
  {
    if s != [] && s[0] == ' ' then SkipDelimiters(s[1..]) else s
  }

  /** One `strtok` step: skip delimiters, then take the run up to the next
      delimiter; nothing when only delimiters remain. */
  function NextToken(s: string): (r: Option<(string, string)>)
    ensures r.Some? ==> r.value.0 != [] && ' ' !in r.value.0 && |r.value.1| < |s|
    ensures r.None? <==> forall i :: 0 <= i < |s| ==> s[i] == ' '
  {
    var t := SkipDelimiters(s);
    if t == [] then None
    else
      var n := RunLength(t);
      Some((t[..n], t[n..]))
  }

  /** All tokens `strtok` returns, in order. */
  function Tokens(s: string): (r: seq<string>)
    ensures forall t :: t in r ==> t != [] && ' ' !in t
    decreases |s|
  {
    match NextToken(s)
    case None => []
    case Some((t, rest)) => [t] + Tokens(rest)
  }

  /** A space-free token followed by a delimiter is returned whole, and
      scanning resumes after it. */
  lemma TokensOfJoin(t: string, rest: string)
    requires t != [] && ' ' !in t
    ensures Tokens(t + " " + rest) == [t] + Tokens(" " + rest)
  {
    var s := t + " " + rest;
    assert SkipDelimiters(s) == s;
    RunLengthOfToken(t, " " + rest);
    assert s[..|t|] == t && s[|t|..] == " " + rest;
  }

  /** Runs of delimiters are skipped: `strtok` never yields an empty token. */
  lemma TokensSkipDelimiter(rest: string)
    ensures Tokens(" " + rest) == Tokens(rest)
  {
    assert (" " + rest)[1..] == rest;
  }

  lemma TokensOfToken(t: string)
    requires t != [] && ' ' !in t
    ensures Tokens(t) == [t]
  {
    RunLengthOfToken(t, "");
    assert t + "" == t;
    assert t[|t|..] == [];
  }

  lemma {:induction false} RunLengthOfToken(t: string, rest: string)
    requires ' ' !in t && (rest == [] || rest[0] == ' ')
    ensures RunLength(t + rest) == |t|
  {
    if t != [] {
      assert (t + rest)[1..] == t[1..] + rest;
      RunLengthOfToken(t[1..], rest);
    } else {
      assert t + rest == rest;
    }
  }

  // ---------------------------------------------------------------------
  // atoi and sscanf("%x")
  // ---------------------------------------------------------------------

  /** The characters C's `isspace` accepts. */
  predicate IsSpace(c: char)
  {
    c == ' ' || c == '\t' || c == '\n' || c == '\U{B}' || c == '\U{C}' || c == '\r'
  }

  predicate IsDigit(c: char) { '0' <= c <= '9' }

  predicate IsHexDigit(c: char)
  {
    IsDigit(c) || 'a' <= c <= 'f' || 'A' <= c <= 'F'
  }

  function DigitValue(c: char): (v: nat)
    requires IsHexDigit(c)
    ensures v < 16 && (IsDigit(c) ==> v < 10)
  {
    if IsDigit(c) then (c as int - '0' as int) as nat
    else if 'a' <= c <= 'f' then (c as int - 'a' as int + 10) as nat
    else (c as int - 'A' as int + 10) as nat
  }

  function SkipSpace(s: string): (r: string)
    ensures |r| <= |s| && r == s[|s| - |r|..]
    ensures r != [] ==> !IsSpace(r[0])
  {
    if s != [] && IsSpace(s[0]) then SkipSpace(s[1..]) else s
  }

  /** Length of the leading run of digits in base `base` (10 or 16). */
  function DigitRun(s: string, base: nat): (n: nat)
    ensures n <= |s|
    ensures forall i :: 0 <= i < n ==> IsHexDigit(s[i]) && DigitValue(s[i]) < base
  {
    if s != [] && IsHexDigit(s[0]) && DigitValue(s[0]) < base then 1 + DigitRun(s[1..], base) else 0
  }

  /** The value of a digit string, most significant digit first. */
  function DigitsValue(s: string, base: nat): nat
    requires forall i :: 0 <= i < |s| ==> IsHexDigit(s[i])
  {
    if s == [] then 0 else base * DigitsValue(s[..|s| - 1], base) + DigitValue(s[|s| - 1])
  }

  /** An optional sign: whether it was `-`, and what follows it. */
  function SplitSign(t: string): (bool, string)
  {
    if t != [] && (t[0] == '-' || t[0] == '+') then (t[0] == '-', t[1..]) else (false, t)
  }

  /** `%x` accepts a `0x`/`0X` prefix in front of the digits. */
  function SkipHexPrefix(u: string): string
  {
    if |u| >= 3 && u[0] == '0' && (u[1] == 'x' || u[1] == 'X') && IsHexDigit(u[2]) then u[2..] else u
  }

  /** Optional white space and sign, then the value of the leading digits;
      `None` if there is no digit. */
  function ScanNumber(s: string, base: nat): Option<int>
  {
    var (neg, u) := SplitSign(SkipSpace(s));
    var w := if base == 16 then SkipHexPrefix(u) else u;
    var n := DigitRun(w, base);
    if n == 0 then None
    else
      var v: int := DigitsValue(w[..n], base);
      Some(if neg then -v else v)
  }

  /** `atoi`: leading decimal digits, 0 when there are none. */
  function Atoi(s: string): int
  {
    match ScanNumber(s, 10)
    case None => 0
    case Some(v) => v
  }

  /** `sscanf(s, "%x", &x)`: the new value of `x`, `None` when nothing matched
      (and `x` keeps its value). */
  function ScanHex(s: string): Option<int>
  {
    ScanNumber(s, 16)
  }

  // ---------------------------------------------------------------------
  // The token loop
  // ---------------------------------------------------------------------

  /** One pass of the `while (env_tok != NULL)` body. */
  function ApplyToken(s: Settings, tok: string, d: Dialect): Settings
  {
    if tok == [] then s
    else match FieldOf(tok[0], d)
    case None => s
    case Some(f) =>
      if f == Addr then
        match ScanHex(tok[1..])
        case None => s
        case Some(v) => s.(baseIo := v)
      else Set(s, f, Atoi(tok[1..]))
  }

  /** The loop over all tokens, first to last. */
  function ApplyTokens(s: Settings, toks: seq<string>, d: Dialect): Settings
    decreases |toks|
  {
    if toks == [] then s else ApplyTokens(ApplyToken(s, toks[0], d), toks[1..], d)
  }

  /** `read_env_string()` / `sb_getparams()`: the result code and the settings
      afterwards, given the variable (absent: `None`) and whether the copy's
      `malloc` succeeded. */
  function ParseEnv(env: Option<string>, copyOk: bool, s: Settings, d: Dialect): (r: (int, Settings))
    ensures r.0 == RESULT_OK || r.0 == RESULT_ERR
    ensures r.0 == RESULT_OK <==> env.Some? && copyOk
    ensures r.0 == RESULT_ERR ==> r.1 == s
  {
    if env.None? || !copyOk then (RESULT_ERR, s)
    else (RESULT_OK, ApplyTokens(s, Tokens(env.value), d))
  }

  /** The `strtok` loop itself, run on the settings in place. */
  method ScanTokens(env: string, d: Dialect, init: Settings) returns (s: Settings)
    ensures s == ApplyTokens(init, Tokens(env), d)
  {
    s := init;
    var rest := env;
    var tok := NextToken(rest);
    while tok.Some?
      invariant tok == NextToken(rest)
      invariant ApplyTokens(s, Tokens(rest), d) == ApplyTokens(init, Tokens(env), d)
      decreases |rest|
    {
      var (t, r) := tok.value;
      s := ApplyToken(s, t, d);
      rest := r;
      tok := NextToken(rest);
    }
  }

  // ---------------------------------------------------------------------
  // Properties of the token loop
  // ---------------------------------------------------------------------

  /** Whether token `t` selects setting `f`. */
  predicate Selects(t: string, f: Field, d: Dialect)
  {
    t != [] && FieldOf(t[0], d) == Some(f)
  }

  lemma {:induction false} ApplyTokensAppend(s: Settings, a: seq<string>, b: seq<string>, d: Dialect)
    ensures ApplyTokens(s, a + b, d) == ApplyTokens(ApplyTokens(s, a, d), b, d)
    decreases |a|
  {
    if a != [] {
      assert (a + b)[0] == a[0] && (a + b)[1..] == a[1..] + b;
      ApplyTokensAppend(ApplyToken(s, a[0], d), a[1..], b, d);
    } else {
      assert a + b == b;
    }
  }

  /** A setting no token selects keeps its value. */
  lemma {:induction false} UnselectedSettingKept(s: Settings, toks: seq<string>, f: Field, d: Dialect)
    requires forall i :: 0 <= i < |toks| ==> !Selects(toks[i], f, d)
    ensures Get(ApplyTokens(s, toks, d), f) == Get(s, f)
    decreases |toks|
  {
    if toks != [] {
      assert !Selects(toks[0], f, d);
      UnselectedSettingKept(ApplyToken(s, toks[0], d), toks[1..], f, d);
    }
  }

  /** The value a setting-selecting token stores, if any. */
  function TokenValue(t: string, f: Field): Option<int>
    requires t != []
  {
    if f == Addr then ScanHex(t[1..]) else Some(Atoi(t[1..]))
  }

  /** The last token that selects a setting (and, for `A`, matches) decides
      its value; every earlier token for it is overwritten. */
  lemma LastTokenWins(s: Settings, before: seq<string>, t: string, after: seq<string>, f: Field, d: Dialect)
    requires Selects(t, f, d) && TokenValue(t, f).Some?
    requires forall i :: 0 <= i < |after| ==> !Selects(after[i], f, d)
    ensures Get(ApplyTokens(s, before + [t] + after, d), f) == TokenValue(t, f).value
  {
    ApplyTokensAppend(s, before + [t], after, d);
    ApplyTokensAppend(s, before, [t], d);
    var mid := ApplyTokens(s, before, d);
    assert ApplyTokens(mid, [t], d) == ApplyToken(mid, t, d);
    UnselectedSettingKept(ApplyTokens(s, before + [t], d), after, f, d);
  }

  /** A missing variable (or a failed copy) is an error and assigns nothing. */
  lemma MissingVariable(s: Settings, copyOk: bool, d: Dialect)
    ensures ParseEnv(None, copyOk, s, d) == (RESULT_ERR, s)
  {
  }

  // ---------------------------------------------------------------------
  // Formatting: the inverse of the parser
  // ---------------------------------------------------------------------

  function DigitChar(v: nat): (c: char)
    requires v < 16
    ensures IsHexDigit(c) && DigitValue(c) == v && c != ' ' && c != 'x' && c != 'X'
  {
    if v < 10 then ('0' as int + v) as char else ('A' as int + v - 10) as char
  }

  /** The digits of `n` in base `base`, most significant first. */
  function Digits(n: nat, base: nat): (r: string)
    requires base == 10 || base == 16
    ensures r != [] && ' ' !in r
    ensures forall i :: 0 <= i < |r| ==> IsHexDigit(r[i]) && DigitValue(r[i]) < base
    ensures r[0] != 'x' && r[0] != 'X' && !IsSpace(r[0]) && r[0] != '-' && r[0] != '+'
  {
    if n < base then [DigitChar(n)] else Digits(n / base, base) + [DigitChar(n % base)]
  }

  lemma {:induction false} DigitsValueOfDigits(n: nat, base: nat)
    requires base == 10 || base == 16
    ensures DigitsValue(Digits(n, base), base) == n
  {
    var r := Digits(n, base);
    if n >= base {
      assert r[..|r| - 1] == Digits(n / base, base);
      DigitsValueOfDigits(n / base, base);
    }
  }

  lemma {:induction false} DigitRunOfDigits(s: string, base: nat)
    requires forall i :: 0 <= i < |s| ==> IsHexDigit(s[i]) && DigitValue(s[i]) < base
    ensures DigitRun(s, base) == |s|
  {
    if s != [] {
      DigitRunOfDigits(s[1..], base);
    }
  }

  /** A plain run of digits, with no space, sign or `0x` in front, scans
      to its value. */
  lemma ScanNumberOfDigitString(r: string, base: nat)
    requires base == 10 || base == 16
    requires r != [] && !IsSpace(r[0]) && r[0] != '-' && r[0] != '+'
    requires forall i :: 0 <= i < |r| ==> IsHexDigit(r[i]) && DigitValue(r[i]) < base
    ensures ScanNumber(r, base) == Some(DigitsValue(r, base) as int)
  {
    assert SkipSpace(r) == r;
    assert SplitSign(r) == (false, r);
    assert SkipHexPrefix(r) == r by {
      if |r| >= 2 {
        assert IsHexDigit(r[1]);
      }
    }
    assert DigitRun(r, base) == |r| by {
      DigitRunOfDigits(r, base);
    }
    assert r[..|r|] == r;
  }

  /** Scanning the digits of `n` gives back `n`. */
  lemma ScanNumberOfDigits(n: nat, base: nat)
    requires base == 10 || base == 16
    ensures ScanNumber(Digits(n, base), base) == Some(n)
  {
    ScanNumberOfDigitString(Digits(n, base), base);
    DigitsValueOfDigits(n, base);
  }

  /** Tokens joined with single delimiters. */
  function Join(toks: seq<string>): string
    requires toks != []
  {
    if |toks| == 1 then toks[0] else toks[0] + " " + Join(toks[1..])
  }

  /** `strtok` splits a joined list of space-free tokens back into the list. */
  lemma {:induction false} TokensOfJoinAll(toks: seq<string>)
    requires toks != []
    requires forall i :: 0 <= i < |toks| ==> toks[i] != [] && ' ' !in toks[i]
    ensures Tokens(Join(toks)) == toks
  {
    if |toks| == 1 {
      TokensOfToken(toks[0]);
    } else {
      var rest := Join(toks[1..]);
      assert Join(toks) == toks[0] + " " + rest;
      TokensOfJoin(toks[0], rest);
      TokensSkipDelimiter(rest);
      var tail := toks[1..];
      ConsOfTail(toks);
      assert forall i :: 0 <= i < |tail| ==> tail[i] == toks[i + 1];
      TokensOfJoinAll(tail);
    }
  }

  lemma ConsOfTail<T>(xs: seq<T>)
    requires xs != []
    ensures [xs[0]] + xs[1..] == xs
  {
  }

  /** The tokens of a BLASTER string that states every setting. */
  function FormatTokens(s: Settings): (r: seq<string>)
    requires s.baseIo >= 0 && s.irq >= 0 && s.dma8 >= 0 && s.dma16 >= 0
    requires s.mixerIo >= 0 && s.mpuIo >= 0
    ensures |r| == 6
  {
    ["A" + Digits(s.baseIo, 16), "I" + Digits(s.irq, 10), "D" + Digits(s.dma8, 10),
     "H" + Digits(s.dma16, 10), "M" + Digits(s.mixerIo, 10), "P" + Digits(s.mpuIo, 10)]
  }

  /** The BLASTER string "A… I… D… H… M… P…" for the given settings. */
  function Format(s: Settings): string
    requires s.baseIo >= 0 && s.irq >= 0 && s.dma8 >= 0 && s.dma16 >= 0
    requires s.mixerIo >= 0 && s.mpuIo >= 0
  {
    Join(FormatTokens(s))
  }

  lemma ApplyTokensStep(s: Settings, toks: seq<string>, i: nat, d: Dialect)
    requires i < |toks|
    ensures ApplyTokens(s, toks[i..], d) == ApplyTokens(ApplyToken(s, toks[i], d), toks[i + 1..], d)
  {
    assert toks[i..][0] == toks[i] && toks[i..][1..] == toks[i + 1..];
  }

  /** One formatted token stores its number in the setting its letter selects. */
  lemma ApplyFormattedToken(s0: Settings, c: char, f: Field, n: nat, base: nat, d: Dialect)
    requires FieldOf(c, d) == Some(f)
    requires (f == Addr && base == 16) || (f != Addr && base == 10)
    ensures ApplyToken(s0, [c] + Digits(n, base), d) == Set(s0, f, n)
  {
    var t := [c] + Digits(n, base);
    assert t[0] == c && t[1..] == Digits(n, base);
    ScanNumberOfDigits(n, base);
  }

  /** What the upper-case letters of a formatted string select. */
  lemma FieldLetters(d: Dialect)
    ensures FieldOf('A', d) == Some(Addr) && FieldOf('I', d) == Some(Irq)
    ensures FieldOf('D', d) == Some(Dma8) && FieldOf('H', d) == Some(Dma16)
    ensures FieldOf('M', d) == if d == ReadEnvString then Some(Mixer) else None
    ensures FieldOf('P', d) == if d == ReadEnvString then Some(Mpu) else None
  {
  }

  /** A formatted token whose letter selects nothing changes nothing. */
  lemma IgnoredFormattedToken(s0: Settings, c: char, n: nat, d: Dialect)
    requires FieldOf(c, d) == None
    ensures ApplyToken(s0, [c] + Digits(n, 10), d) == s0
  {
    assert ([c] + Digits(n, 10))[0] == c;
  }

  /** The loop's step over the `k`-th token of a formatted string whose
      letter selects a setting. */
  lemma StoredStep(s0: Settings, ts: seq<string>, k: nat, c: char, f: Field, n: nat, base: nat, d: Dialect)
    requires FieldOf(c, d) == Some(f)
    requires (f == Addr && base == 16) || (f != Addr && base == 10)
    requires k < |ts| && ts[k] == [c] + Digits(n, base)
    ensures ApplyTokens(s0, ts[k..], d) == ApplyTokens(Set(s0, f, n), ts[k + 1..], d)
  {
    ApplyTokensStep(s0, ts, k, d);
    ApplyFormattedToken(s0, c, f, n, base, d);
  }

  /** The same step for a letter the dialect ignores. */
  lemma IgnoredStep(s0: Settings, ts: seq<string>, k: nat, c: char, n: nat, d: Dialect)
    requires FieldOf(c, d) == None
    requires k < |ts| && ts[k] == [c] + Digits(n, 10)
    ensures ApplyTokens(s0, ts[k..], d) == ApplyTokens(s0, ts[k + 1..], d)
  {
    ApplyTokensStep(s0, ts, k, d);
    IgnoredFormattedToken(s0, c, n, d);
  }

  /** The four tokens both dialects read: base, IRQ and the two DMA channels. */
  lemma ApplyFirstFour(s: Settings, init: Settings, d: Dialect)
    requires s.baseIo >= 0 && s.irq >= 0 && s.dma8 >= 0 && s.dma16 >= 0
    requires s.mixerIo >= 0 && s.mpuIo >= 0
    ensures ApplyTokens(init, FormatTokens(s), d) ==
      ApplyTokens(init.(baseIo := s.baseIo, irq := s.irq, dma8 := s.dma8, dma16 := s.dma16),
                  FormatTokens(s)[4..], d)
  {
    var s2 := init.(baseIo := s.baseIo, irq := s.irq);
    ApplyAddressAndIrq(s, init, d);
    ApplyDmaChannels(s, s2, d);
  }

  /** The `A` and `I` tokens. */
  lemma ApplyAddressAndIrq(s: Settings, init: Settings, d: Dialect)
    requires s.baseIo >= 0 && s.irq >= 0 && s.dma8 >= 0 && s.dma16 >= 0
    requires s.mixerIo >= 0 && s.mpuIo >= 0
    ensures ApplyTokens(init, FormatTokens(s), d) ==
      ApplyTokens(init.(baseIo := s.baseIo, irq := s.irq), FormatTokens(s)[2..], d)
  {
    var ts := FormatTokens(s);
    FieldLetters(d);
    assert ts[0..] == ts;
    StoredStep(init, ts, 0, 'A', Addr, s.baseIo, 16, d);
    StoredStep(init.(baseIo := s.baseIo), ts, 1, 'I', Irq, s.irq, 10, d);
  }

  /** The `D` and `H` tokens. */
  lemma ApplyDmaChannels(s: Settings, s2: Settings, d: Dialect)
    requires s.baseIo >= 0 && s.irq >= 0 && s.dma8 >= 0 && s.dma16 >= 0
    requires s.mixerIo >= 0 && s.mpuIo >= 0
    ensures ApplyTokens(s2, FormatTokens(s)[2..], d) ==
      ApplyTokens(s2.(dma8 := s.dma8, dma16 := s.dma16), FormatTokens(s)[4..], d)
  {
    var ts := FormatTokens(s);
    FieldLetters(d);
    StoredStep(s2, ts, 2, 'D', Dma8, s.dma8, 10, d);
    StoredStep(s2.(dma8 := s.dma8), ts, 3, 'H', Dma16, s.dma16, 10, d);
  }

  /** The mixer and MPU tokens, which only `read_env_string` reads. */
  lemma ApplyLastTwo(s: Settings, s4: Settings, d: Dialect)
    requires s.baseIo >= 0 && s.irq >= 0 && s.dma8 >= 0 && s.dma16 >= 0
    requires s.mixerIo >= 0 && s.mpuIo >= 0
    ensures ApplyTokens(s4, FormatTokens(s)[4..], d) ==
      if d == ReadEnvString then s4.(mixerIo := s.mixerIo, mpuIo := s.mpuIo) else s4
  {
    var ts := FormatTokens(s);
    FieldLetters(d);
    if d == ReadEnvString {
      var s5 := s4.(mixerIo := s.mixerIo);
      StoredStep(s4, ts, 4, 'M', Mixer, s.mixerIo, 10, d);
      StoredStep(s5, ts, 5, 'P', Mpu, s.mpuIo, 10, d);
    } else {
      IgnoredStep(s4, ts, 4, 'M', s.mixerIo, d);
      IgnoredStep(s4, ts, 5, 'P', s.mpuIo, d);
    }
    assert ts[6..] == [];
  }

  /** The loop over the six formatted tokens. */
  lemma ApplyFormatTokens(s: Settings, init: Settings, d: Dialect)
    requires s.baseIo >= 0 && s.irq >= 0 && s.dma8 >= 0 && s.dma16 >= 0
    requires s.mixerIo >= 0 && s.mpuIo >= 0
    ensures ApplyTokens(init, FormatTokens(s), d) ==
      if d == ReadEnvString then s else s.(mixerIo := init.mixerIo, mpuIo := init.mpuIo)
  {
    ApplyFirstFour(s, init, d);
    ApplyLastTwo(s, init.(baseIo := s.baseIo, irq := s.irq, dma8 := s.dma8, dma16 := s.dma16), d);
  }

  /** Parsing a formatted BLASTER string gives back every setting it states;
      sb.c's parser keeps its own mixer and MPU values. */
  lemma ParseFormatRoundTrip(s: Settings, init: Settings, d: Dialect)
    requires s.baseIo >= 0 && s.irq >= 0 && s.dma8 >= 0 && s.dma16 >= 0
    requires s.mixerIo >= 0 && s.mpuIo >= 0
    ensures ParseEnv(Some(Format(s)), true, init, d) ==
      (RESULT_OK, if d == ReadEnvString then s else s.(mixerIo := init.mixerIo, mpuIo := init.mpuIo))
  {
    var ts := FormatTokens(s);
    forall i | 0 <= i < |ts| ensures ts[i] != [] && ' ' !in ts[i] {
    }
    TokensOfJoinAll(ts);
    ApplyFormatTokens(s, init, d);
  }
}
