/**
 * The network statistics exporter (address/cmd/networkchart/networkchart.go):
 * its configuration defaults, the decoding of a block header's compact
 * "bits" target, and the schedule of heights it samples.
 */
module NetworkChart {
  import opened Wrappers

  const MaxUint32: nat := 0xFFFF_FFFF

  // ---------------------------------------------------------------------
  // Configuration
  // ---------------------------------------------------------------------

  datatype ChartConfig = ChartConfig(rpcUrl: string, rpcUser: string, rpcPassword: string, nBlocks: int)

  const DefaultUrl: string := "http://192.168.8.115:9330"
  const DefaultUser: string := "USER"
  const DefaultPassword: string := "PASS"
  const DefaultNBlocks: int := 120

  /** The config file as the YAML decoder sees it. */
  datatype ConfigFile = Unreadable | Unparsable | Decoded(config: ChartConfig)

  datatype ConfigError = ReadError | ParseError

  /** The configuration with every unset field replaced by its default; set fields are kept. */
  function WithDefaults(c: ChartConfig): (d: ChartConfig)
    ensures d.rpcUrl != "" && d.rpcUser != "" && d.rpcPassword != "" && d.nBlocks != 0
    ensures c.rpcUrl != "" ==> d.rpcUrl == c.rpcUrl
    ensures c.rpcUrl == "" ==> d.rpcUrl == DefaultUrl
    ensures c.rpcUser != "" ==> d.rpcUser == c.rpcUser
    ensures c.rpcUser == "" ==> d.rpcUser == DefaultUser
    ensures c.rpcPassword != "" ==> d.rpcPassword == c.rpcPassword
    ensures c.rpcPassword == "" ==> d.rpcPassword == DefaultPassword
    ensures c.nBlocks != 0 ==> d.nBlocks == c.nBlocks
    ensures c.nBlocks == 0 ==> d.nBlocks == DefaultNBlocks
  {
    ChartConfig(
      if c.rpcUrl == "" then DefaultUrl else c.rpcUrl,
      if c.rpcUser == "" then DefaultUser else c.rpcUser,
      if c.rpcPassword == "" then DefaultPassword else c.rpcPassword,
      if c.nBlocks == 0 then DefaultNBlocks else c.nBlocks)
  }

  /** Defaults change exactly the unset fields: a configuration is left alone iff every field is set. */
  lemma WithDefaultsFixedPoint(c: ChartConfig)
    ensures WithDefaults(WithDefaults(c)) == WithDefaults(c)
    ensures WithDefaults(c) == c <==> c.rpcUrl != "" && c.rpcUser != "" && c.rpcPassword != "" && c.nBlocks != 0
  {
  }

  /** readConfig: a read or decode error is returned; otherwise the unset fields get their defaults one by one. */
  method ReadConfig(file: ConfigFile) returns (r: Result<ChartConfig, ConfigError>)
    ensures file.Unreadable? ==> r == Err(ReadError)
    ensures file.Unparsable? ==> r == Err(ParseError)
    ensures file.Decoded? ==> r == Ok(WithDefaults(file.config))
  {
    if file.Unreadable? {
      return Err(ReadError);
    }
    if file.Unparsable? {
      return Err(ParseError);
    }
    var config := file.config;
    if config.rpcUrl == "" {
      config := config.(rpcUrl := DefaultUrl);
    }
    if config.rpcUser == "" {
      config := config.(rpcUser := DefaultUser);
    }
    if config.rpcPassword == "" {
      config := config.(rpcPassword := DefaultPassword);
    }
    if config.nBlocks == 0 {
      config := config.(nBlocks := DefaultNBlocks);
    }
    return Ok(config);
  }

  // ---------------------------------------------------------------------
  // Hexadecimal parsing as Go's strconv.ParseUint(s, 16, 32) does it
  // ---------------------------------------------------------------------

  predicate IsHexDigit(c: char)
  {
    '0' <= c <= '9' || 'a' <= c <= 'f' || 'A' <= c <= 'F'
  }

  function DigitValue(c: char): (d: nat)
    requires IsHexDigit(c)
    ensures d < 16
  {
    if '0' <= c <= '9' then c as nat - '0' as nat
    else if 'a' <= c <= 'f' then c as nat - 'a' as nat + 10
    else c as nat - 'A' as nat + 10
  }

  predicate AllHex(s: string)
  {
    forall i | 0 <= i < |s| :: IsHexDigit(s[i])
  }

  function Pow16(k: nat): (p: nat)
    ensures p >= 1
  {
    if k == 0 then 1 else 16 * Pow16(k - 1)
  }

  /** The value of a string of hex digits, most significant first. */
  function HexValue(s: string): (v: nat)
    requires AllHex(s)
    ensures v < Pow16(|s|)
  {
    if s == [] then 0
    else
      AllHexTail(s);
      var rest := HexValue(s[1..]);
      DigitBound(DigitValue(s[0]), Pow16(|s| - 1), rest);
      DigitValue(s[0]) * Pow16(|s| - 1) + rest
  }

  lemma AllHexTail(s: string)
    requires s != [] && AllHex(s)
    ensures IsHexDigit(s[0]) && AllHex(s[1..])
  {
    forall i | 0 <= i < |s[1..]| ensures IsHexDigit(s[1..][i]) {
      assert s[1..][i] == s[i + 1];
    }
  }

  /** A leading digit below 16 keeps the value below the next power of 16. */
  lemma DigitBound(d: nat, p: nat, rest: nat)
    requires d < 16 && rest < p
    ensures d * p + rest < 16 * p
  {
    MulMonotone(d + 1, 16, p);
  }

  lemma MulMonotone(a: nat, b: nat, c: nat)
    requires a <= b
    ensures a * c <= b * c
  {
  }

  /**
   * The digit loop of ParseUint from accumulated value `n`: a character that is
   * not a hex digit is a syntax error (value 0); a value that no longer fits in
   * 32 bits is a range error (value 0xFFFFFFFF), reported at the digit where it
   * happens, before later characters are looked at.
   */
  function ParseHexFrom(s: string, n: nat): (v: nat)
    requires n <= MaxUint32
    ensures v <= MaxUint32
  {
    if s == [] then n
    else if !IsHexDigit(s[0]) then 0
    else
      var next := n * 16 + DigitValue(s[0]);
      if next > MaxUint32 then MaxUint32 else ParseHexFrom(s[1..], next)
  }

  /** The value parseBits works on: the error of ParseUint is dropped, so its value on error is used. */
  function ParseUint32Hex(s: string): (v: nat)
    ensures v <= MaxUint32
  {
    if s == [] then 0 else ParseHexFrom(s, 0)
  }

  function Min(a: int, b: int): int
  {
    if a <= b then a else b
  }

  lemma {:induction false} ParseHexFromDigits(s: string, n: nat)
    requires n <= MaxUint32 && AllHex(s)
    ensures ParseHexFrom(s, n) == Min(n * Pow16(|s|) + HexValue(s), MaxUint32)
    decreases |s|
  {
    if s != [] {
      var d := DigitValue(s[0]);
      var next := n * 16 + d;
      var p := Pow16(|s| - 1);
      assert AllHex(s[1..]) by {
        forall i | 0 <= i < |s[1..]| ensures IsHexDigit(s[1..][i]) {
          assert s[1..][i] == s[i + 1];
        }
      }
      var rest := HexValue(s[1..]);
      assert HexValue(s) == d * p + rest;
      assert Pow16(|s|) == 16 * p;
      SplitAtFirstDigit(n, d, p, rest);
      if next <= MaxUint32 {
        ParseHexFromDigits(s[1..], next);
      }
    }
  }

  /** Reading one more digit: the total is the new accumulator times the remaining weight, plus the rest. */
  lemma SplitAtFirstDigit(n: nat, d: nat, p: nat, rest: nat)
    requires p >= 1
    ensures n * (16 * p) + (d * p + rest) == (n * 16 + d) * p + rest
    ensures n * (16 * p) + (d * p + rest) >= n * 16 + d
  {
    MulMonotone(1, p, n * 16 + d);
  }

  /** A string of hex digits parses to its value, saturated at 0xFFFFFFFF. */
  lemma ParseUint32HexDigits(s: string)
    requires s != [] && AllHex(s)
    ensures ParseUint32Hex(s) == Min(HexValue(s), MaxUint32)
  {
    ParseHexFromDigits(s, 0);
  }

  /**
   * A non-digit character before the value can overflow makes the whole parse a
   * syntax error. `(n + 1) * 16^|s| <= 16^8` says that the digits ahead of it
   * cannot overflow 32 bits.
   */
  lemma {:induction false} ParseHexFromRejects(s: string, n: nat, bad: nat)
    requires n <= MaxUint32
    requires bad < |s| && !IsHexDigit(s[bad])
    requires (n + 1) * Pow16(|s|) <= Pow16(8)
    ensures ParseHexFrom(s, n) == 0
    decreases |s|
  {
    if IsHexDigit(s[0]) {
      var d := DigitValue(s[0]);
      var p := Pow16(|s| - 1);
      assert Pow16(|s|) == 16 * p;
      assert Pow16(8) == MaxUint32 + 1;
      RejectStep(n, d, p);
      assert s[1..][bad - 1] == s[bad];
      ParseHexFromRejects(s[1..], n * 16 + d, bad - 1);
    }
  }

  /** One more digit read ahead of the bad character still fits in 32 bits and keeps the bound. */
  lemma RejectStep(n: nat, d: nat, p: nat)
    requires d < 16 && p >= 1
    requires (n + 1) * (16 * p) <= MaxUint32 + 1
    ensures (n * 16 + d + 1) * p <= (n + 1) * (16 * p)
    ensures n * 16 + d <= MaxUint32
  {
    MulMonotone(n * 16 + d + 1, (n + 1) * 16, p);
    assert ((n + 1) * 16) * p == (n + 1) * (16 * p);
    MulMonotone(1, p, n * 16 + d + 1);
  }

  /** A bits string of at most eight characters with a non-hex character in it reads as 0. */
  lemma ParseUint32HexRejects(s: string, bad: nat)
    requires |s| <= 8 && bad < |s| && !IsHexDigit(s[bad])
    ensures ParseUint32Hex(s) == 0
  {
    Pow16Monotone(|s|, 8);
    ParseHexFromRejects(s, 0, bad);
  }

  lemma {:induction false} Pow16Monotone(a: nat, b: nat)
    requires a <= b
    ensures Pow16(a) <= Pow16(b)
    decreases b
  {
    if a < b {
      Pow16Monotone(a, b - 1);
    }
  }

  // ---------------------------------------------------------------------
  // Compact target ("bits") and difficulty numerator
  // ---------------------------------------------------------------------

  function Pow256(k: nat): (p: nat)
    ensures p >= 1
  {
    if k == 0 then 1 else 256 * Pow256(k - 1)
  }

  /**
   * The 24-bit coefficient (`value & 0x00ffffff`) and the exponent
   * (`value >> 24`) of a compact value: on a non-negative value the mask is the
   * remainder by 2^24 and the shift the quotient.
   */
  function Coefficient(v: nat): (c: nat)
    ensures c < 0x100_0000
  {
    v % 0x100_0000
  }

  function Exponent(v: nat): (e: nat)
    requires v <= MaxUint32
    ensures e < 0x100
    ensures v == e * 0x100_0000 + Coefficient(v)
  {
    v / 0x100_0000
  }

  /** The shift of parseBits with an exponent below 3 wraps to about 2^64 bits, which the runtime cannot allocate. */
  datatype BitsError = ShiftOutOfRange

  /**
   * parseBits: coefficient shifted left by 8 * (exponent - 3) bits. Bit 23 is
   * not a sign. With an exponent below 3 the unsigned subtraction wraps; only
   * a zero coefficient survives that (shifting zero returns zero at once).
   */
  function ParseBits(bits: string): (r: Result<nat, BitsError>)
    ensures
      var v := ParseUint32Hex(bits);
      && (Exponent(v) >= 3 ==> r == Ok(Coefficient(v) * Pow256(Exponent(v) - 3)))
      && (Exponent(v) < 3 ==> (r.Ok? <==> Coefficient(v) == 0))
      && (r.Ok? && r.value != 0 ==> Exponent(v) >= 3)
  {
    var v := ParseUint32Hex(bits);
    var coefficient := Coefficient(v);
    var exponent := Exponent(v);
    if exponent >= 3 then Ok(coefficient * Pow256(exponent - 3))
    else if coefficient == 0 then Ok(0)
    else Err(ShiftOutOfRange)
  }

  /** The numerator of calculateDifficulty: 0xFFFF shifted left by 8 * (0x1D - 3) bits. */
  function MaxTarget(): (t: nat)
  {
    0xFFFF * Pow256(0x1D - 3)
  }

  /** The genesis compact target decodes to exactly the difficulty numerator, so its difficulty is 1. */
  lemma GenesisBitsIsMaxTarget()
    ensures ParseBits("1d00ffff") == Ok(MaxTarget())
  {
    var s := "1d00ffff";
    assert ParseHexFrom(s[7..], 0x1d00fff) == 0x1d00ffff;
    assert ParseHexFrom(s[6..], 0x1d00ff) == 0x1d00ffff;
    assert ParseHexFrom(s[5..], 0x1d00f) == 0x1d00ffff;
    assert ParseHexFrom(s[4..], 0x1d00) == 0x1d00ffff;
    assert ParseHexFrom(s[3..], 0x1d0) == 0x1d00ffff;
    assert ParseHexFrom(s[2..], 0x1d) == 0x1d00ffff;
    assert ParseHexFrom(s[1..], 0x1) == 0x1d00ffff;
    assert ParseHexFrom(s, 0) == 0x1d00ffff;
    var v := 0x1d00ffff;
    assert ParseUint32Hex(s) == v;
    assert Coefficient(v) == 0xffff && Exponent(v) == 0x1d;
  }

  // ---------------------------------------------------------------------
  // Height sampling
  // ---------------------------------------------------------------------

  /** The heights the main loop visits: 0, n, 2n, ... up to the block count. */
  function Schedule(n: int, total: int): (hs: seq<int>)
    requires n > 0
    ensures |hs| == if total < 0 then 0 else total / n + 1
    ensures forall i | 0 <= i < |hs| :: hs[i] == i * n
  {
    seq(if total < 0 then 0 else total / n + 1, i => i * n)
  }

  /** The schedule holds exactly the multiples of n between 0 and the block count, in increasing order. */
  lemma ScheduleIsMultiples(n: int, total: int)
    requires n > 0
    ensures forall h :: h in Schedule(n, total) <==> 0 <= h <= total && h % n == 0
    ensures forall i, j | 0 <= i < j < |Schedule(n, total)| :: Schedule(n, total)[i] < Schedule(n, total)[j]
  {
    forall h ensures h in Schedule(n, total) <==> 0 <= h <= total && h % n == 0 {
      if h in Schedule(n, total) {
        ScheduledIsMultiple(n, total, h);
      }
      if 0 <= h <= total && h % n == 0 {
        MultipleIsScheduled(n, total, h);
      }
    }
    forall i, j | 0 <= i < j < |Schedule(n, total)| ensures Schedule(n, total)[i] < Schedule(n, total)[j] {
      MulIncreasing(i, j, n);
    }
  }

  lemma ScheduledIsMultiple(n: int, total: int, h: int)
    requires n > 0 && h in Schedule(n, total)
    ensures 0 <= h <= total && h % n == 0
  {
    var hs := Schedule(n, total);
    var i :| 0 <= i < |hs| && hs[i] == h;
    MultipleBelow(i, n, total);
  }

  lemma MultipleIsScheduled(n: int, total: int, h: int)
    requires n > 0 && 0 <= h <= total && h % n == 0
    ensures h in Schedule(n, total)
  {
    var i := h / n;
    assert h == i * n;
    DivMonotone(h, total, n);
    assert Schedule(n, total)[i] == h;
  }

  lemma MulIncreasing(i: int, j: int, n: int)
    requires 0 <= i < j && n > 0
    ensures i * n < j * n
  {
    assert j * n - i * n == (j - i) * n;
    MulMonotone(1, j - i, n);
  }

  lemma MultipleBelow(i: int, n: int, total: int)
    requires n > 0 && total >= 0 && 0 <= i <= total / n
    ensures 0 <= i * n <= total && (i * n) % n == 0
  {
    MulMonotone(i, total / n, n);
    MultipleMod(i, n);
  }

  lemma MultipleMod(i: int, n: int)
    requires n > 0
    ensures (i * n) / n == i && (i * n) % n == 0
  {
    var q, r := (i * n) / n, (i * n) % n;
    assert i * n == q * n + r && 0 <= r < n;
    assert (i - q) * n == r;
    if i - q >= 1 {
      assert false;
    } else if i - q <= -1 {
      assert false;
    }
  }

  lemma DivMonotone(a: int, b: int, n: int)
    requires n > 0 && 0 <= a <= b
    ensures a / n <= b / n
  {
    var qa, qb := a / n, b / n;
    assert a == qa * n + a % n && b == qb * n + b % n;
    assert (qb + 1) * n == qb * n + n;
    MulStrict(qa, qb + 1, n);
  }

  lemma MulStrict(x: nat, y: nat, n: nat)
    requires x * n < y * n
    ensures x < y
  {
    if y <= x {
      MulMonotone(y, x, n);
    }
  }

  /** What the node answers for one height. */
  datatype HeightFetch =
    | HashFailed
    | HeaderFailed
    | Header(time: int, bits: string, hashrate: Option<real>)  // None: getnetworkhashps failed

  /** One CSV row: height, header time, decoded target and hash rate. */
  datatype Row = Row(height: int, time: int, target: nat, hashrate: real)

  /** The rows written, and whether a bits value stopped the program. */
  datatype Sampling = Sampling(rows: seq<Row>, panicked: bool)

  predicate Sampled(f: HeightFetch)
  {
    f.Header? && f.hashrate.Some?
  }

  function RowHeights(rows: seq<Row>): seq<int>
  {
    if rows == [] then [] else [rows[0].height] + RowHeights(rows[1..])
  }

  /** The rows for the given heights, in order. */
  function Collect(hs: seq<int>, fetch: int -> HeightFetch): Sampling
  {
    if hs == [] then Sampling([], false)
    else
      var rest := Collect(hs[1..], fetch);
      match fetch(hs[0])
      case HashFailed => rest
      case HeaderFailed => rest
      case Header(time, bits, hashrate) =>
        match ParseBits(bits)
        case Err(_) => Sampling([], true)
        case Ok(target) =>
          if hashrate.None? then rest
          else Sampling([Row(hs[0], time, target, hashrate.value)] + rest.rows, rest.panicked)
  }

  /**
   * Every row is for a scheduled height whose fetches all succeeded, and unless
   * a bits value stopped the program every such height has its row: a failure
   * at one height skips only that height.
   */
  lemma {:induction false} CollectRows(hs: seq<int>, fetch: int -> HeightFetch)
    ensures |Collect(hs, fetch).rows| <= |hs|
    ensures var s := Collect(hs, fetch);
      forall i | 0 <= i < |s.rows| :: s.rows[i].height in hs && Sampled(fetch(s.rows[i].height))
    ensures var s := Collect(hs, fetch);
      !s.panicked ==> forall h | h in hs && Sampled(fetch(h)) :: h in RowHeights(s.rows)
    decreases |hs|
  {
    if hs != [] {
      CollectRows(hs[1..], fetch);
      var rest := Collect(hs[1..], fetch);
      var s := Collect(hs, fetch);
      assert forall h | h in hs :: h == hs[0] || h in hs[1..];
      if s != rest && !s.panicked {
        var row := s.rows[0];
        assert s.rows == [row] + rest.rows;
        assert ([row] + rest.rows)[1..] == rest.rows;
      }
    }
  }

  /** The sampling loop of main: heights 0, n, 2n, ... while they do not exceed the block count. */
  method SampleHeights(nBlocks: int, totalBlocks: int, fetch: int -> HeightFetch) returns (s: Sampling)
    requires nBlocks > 0
    ensures s == Collect(Schedule(nBlocks, totalBlocks), fetch)
  {
    ghost var hs := Schedule(nBlocks, totalBlocks);
    ghost var goal := Collect(hs, fetch);
    var rows: seq<Row> := [];
    var height := 0;
    ghost var k := 0;
    while height <= totalBlocks
      invariant 0 <= k <= |hs| && height == k * nBlocks
      invariant k < |hs| <==> height <= totalBlocks
      invariant goal == Sampling(rows + Collect(hs[k..], fetch).rows, Collect(hs[k..], fetch).panicked)
      decreases totalBlocks - height
    {
      assert hs[k..][0] == height && hs[k..][1..] == hs[k + 1..];
      ghost var rest := Collect(hs[k + 1..], fetch);
      ghost var here := Collect(hs[k..], fetch);
      match fetch(height) {
        case HashFailed =>
          assert here == rest;
        case HeaderFailed =>
          assert here == rest;
        case Header(time, bits, hashrate) =>
          var target := ParseBits(bits);
          if target.Err? {
            assert here == Sampling([], true);
            assert rows + [] == rows;
            return Sampling(rows, true);
          }
          if hashrate.Some? {
            var row := Row(height, time, target.value, hashrate.value);
            assert here == Sampling([row] + rest.rows, rest.panicked);
            assert (rows + [row]) + rest.rows == rows + ([row] + rest.rows);
            rows := rows + [row];
          } else {
            assert here == rest;
          }
      }
      assert (k + 1) * nBlocks == height + nBlocks;
      height := height + nBlocks;
      k := k + 1;
      ScheduleBound(k, nBlocks, totalBlocks);
    }
    return Sampling(rows, false);
  }

  lemma ScheduleBound(k: int, n: int, total: int)
    requires n > 0 && total >= 0 && k >= 0
    ensures k <= total / n <==> k * n <= total
  {
    var q := total / n;
    assert total == q * n + total % n;
    if k <= q {
      MulMonotone(k, q, n);
    } else {
      MulMonotone(q + 1, k, n);
      assert (q + 1) * n == q * n + n;
    }
  }
}
