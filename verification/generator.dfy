/**
 * The sample writer: the body of `main` (DataFileGenerator.cpp). Bad
 * params stop the run with -1 before any file is touched, a file that
 * cannot be opened stops it with -2, and otherwise `entity_count` samples
 * are drawn and each is appended to the file in the fixed width of the
 * chosen format.
 */
module Generator {
  import opened Optional
  import opened OutputFormats
  import opened ParamStream
  import opened CommandLine

  type Bytes4 = s: seq<bv8> | |s| == 4 witness [0, 0, 0, 0]
  type Bytes8 = s: seq<bv8> | |s| == 8 witness [0, 0, 0, 0, 0, 0, 0, 0]

  /**
   * The native byte images of a sample after its cast: `(char)x`,
   * `(float)x`, `(int)x`, and the `double` itself. Left abstract: the
   * narrowing casts and the host byte order are the platform's.
   */
  datatype NativeBytes = NativeBytes(
    ofChar: real -> bv8,
    ofFloat: real -> Bytes4,
    ofInt: real -> Bytes4,
    ofDouble: real -> Bytes8)

  /** The seeded engine behind `generate`: a seed and the range of the uniform distribution. */
  datatype Distribution = Distribution(seed: i64, minInclusive: real, maxExclusive: real)

  /** The value the k-th call of `generate()` returns for a given engine; left abstract. */
  type Draws = (Distribution, nat) -> real

  /** `sizeof` of the element type each format writes. */
  function Width(f: OutputFormat): (w: nat)
    ensures w == 1 <==> f == Char
    ensures w == 4 <==> f == Float || f == Int
    ensures w == 8 <==> f == Double || f == Long
  {
    match f
    case Char => 1
    case Float => 4
    case Int => 4
    case _ => 8
  }

  /**
   * The bytes one loop iteration writes for a sample: `Char`, `Float` and
   * `Int` have their own cases; every other format, `Long` included, takes
   * the `default` case and writes the `double` unchanged.
   */
  function Encode(native: NativeBytes, f: OutputFormat, x: real): (r: seq<bv8>)
    ensures f == Char ==> |r| == 1
    ensures f == Float || f == Int ==> |r| == 4
    ensures f == Double || f == Long ==> |r| == 8 && r == native.ofDouble(x)
  {
    match f
    case Char => [native.ofChar(x)]
    case Float => native.ofFloat(x)
    case Int => native.ofInt(x)
    case _ => native.ofDouble(x)
  }

  /** Every sample of a format takes the same number of bytes. */
  lemma EncodeWidth(native: NativeBytes, f: OutputFormat, x: real)
    ensures |Encode(native, f, x)| == Width(f) > 0
  {
  }

  /** The file after `n` iterations: the encodings of the first `n` draws, in draw order, with nothing between them. */
  function Written(native: NativeBytes, f: OutputFormat, draws: Draws, d: Distribution, n: nat): (r: seq<bv8>)
    ensures |r| == n * Width(f)
  {
    if n == 0 then []
    else
      EncodeWidth(native, f, draws(d, n - 1));
      Written(native, f, draws, d, n - 1) + Encode(native, f, draws(d, n - 1))
  }

  /** The chunk appended last sits at `[k * w, (k + 1) * w)` of the longer buffer. */
  lemma LastChunk(prev: seq<bv8>, last: seq<bv8>, k: nat, w: nat)
    requires |prev| == k * w && |last| == w
    ensures (k + 1) * w == |prev + last|
    ensures (prev + last)[k * w..(k + 1) * w] == last
  {
    assert (k + 1) * w == k * w + w;
    assert (prev + last)[|prev|..|prev| + |last|] == last;
  }

  /** A chunk of the first `m` chunks is unchanged by appending more. */
  lemma EarlierChunk(prev: seq<bv8>, last: seq<bv8>, k: nat, m: nat, w: nat)
    requires k < m && |prev| == m * w
    ensures (k + 1) * w <= |prev|
    ensures (prev + last)[k * w..(k + 1) * w] == prev[k * w..(k + 1) * w]
  {
    assert k * w <= (k + 1) * w <= m * w by {
      assert (k + 1) * w == k * w + w;
      assert m * w == (k + 1) * w + (m - k - 1) * w;
    }
  }

  /** Bytes `[k * width, (k + 1) * width)` of the file are the encoding of the k-th draw. */
  lemma {:induction false} WrittenLayout(native: NativeBytes, f: OutputFormat, draws: Draws, d: Distribution,
                                         n: nat, k: nat)
    requires k < n
    ensures (k + 1) * Width(f) <= |Written(native, f, draws, d, n)|
    ensures Written(native, f, draws, d, n)[k * Width(f)..(k + 1) * Width(f)] == Encode(native, f, draws(d, k))
  {
    var prev := Written(native, f, draws, d, n - 1);
    var last := Encode(native, f, draws(d, n - 1));
    EncodeWidth(native, f, draws(d, n - 1));
    assert |prev| == (n - 1) * Width(f);
    assert Written(native, f, draws, d, n) == prev + last;
    if k == n - 1 {
      LastChunk(prev, last, k, Width(f));
    } else {
      WrittenLayout(native, f, draws, d, n - 1, k);
      EarlierChunk(prev, last, k, n - 1, Width(f));
    }
  }

  /** The number of times `for (i = 0; i < entity_count; i++)` runs. */
  function Iterations(entityCount: i64): (n: nat)
    ensures entityCount <= 0 ==> n == 0
    ensures entityCount > 0 ==> n == entityCount as int
  {
    if entityCount <= 0 then 0 else entityCount as int
  }

  /** The engine `main` builds from the resolved params. */
  function DistributionOf(p: Params): (d: Distribution)
    ensures d.seed == p.seed
    ensures d.minInclusive == p.distMinInclusive && d.maxExclusive == p.distMaxExclusive
  {
    Distribution(p.seed, p.distMinInclusive, p.distMaxExclusive)
  }

  /**
   * `main`: the wall clock, the random draws, the byte images of the casts
   * and whether the destination opens are supplied by the caller. Returns
   * the exit code, the final content of the destination file (`None` when
   * it was never opened) and `writeCount`.
   */
  method Run(argv: seq<string>, clockSeed: i64, syntax: NumberSyntax, native: NativeBytes, draws: Draws,
             canOpen: string -> bool)
    returns (exitCode: int, file: Option<seq<bv8>>, writeCount: nat)
    ensures var p := ParseCommandLineArgs(argv, clockSeed, syntax);
      && exitCode in {-1, -2, 0}
      && (exitCode == -1 <==> p.badParams)
      && (exitCode == -2 <==> !p.badParams && p.fileLoc.Some? && !canOpen(p.fileLoc.value))
      && (exitCode != 0 ==> file == None && writeCount == 0)
      && (exitCode == 0 ==> writeCount == Iterations(p.entityCount))
      && (exitCode == 0 ==> file == Some(Written(native, p.numberFormat, draws, DistributionOf(p), writeCount)))
      && (exitCode == 0 ==> |file.value| == writeCount * Width(p.numberFormat))
  {
    var userParams := ParseCommandLineArgs(argv, clockSeed, syntax);
    if userParams.badParams {
      return -1, None, 0;
    }
    var generator := DistributionOf(userParams);
    var fileLoc := userParams.fileLoc.value;
    if !canOpen(fileLoc) {
      return -2, None, 0;
    }
    var resultFile: seq<bv8> := [];
    writeCount := 0;
    var i: int := 0;
    while i < userParams.entityCount as int
      invariant 0 <= i <= Iterations(userParams.entityCount)
      invariant writeCount == i
      invariant resultFile == Written(native, userParams.numberFormat, draws, generator, i)
    {
      var randReal := draws(generator, i);
      resultFile := resultFile + Encode(native, userParams.numberFormat, randReal);
      writeCount := writeCount + 1;
      i := i + 1;
    }
    return 0, Some(resultFile), writeCount;
  }

  /** `1000 out.bin`: 1000 doubles drawn from [100, 1000), 8000 bytes. */
  lemma DefaultInvocation(clockSeed: i64, syntax: NumberSyntax, native: NativeBytes, draws: Draws)
    requires syntax.toLong("1000").0 == 1000
    ensures var p := ParseCommandLineArgs(["prog", "1000", "out.bin"], clockSeed, syntax);
      && !p.badParams && p.fileLoc == Some("out.bin")
      && p.distMinInclusive == 100.0 && p.distMaxExclusive == 1000.0
      && p.numberFormat == Double
      && |Written(native, p.numberFormat, draws, DistributionOf(p), Iterations(p.entityCount))| == 8000
  {
    ReadLongOfWord("1000", -1, syntax);
  }

  /** `50 out.bin 0 1 int 42`: 50 ints drawn from [0, 1) with seed 42, 200 bytes. */
  lemma IntInvocation(clockSeed: i64, syntax: NumberSyntax, native: NativeBytes, draws: Draws)
    requires syntax.toLong("50").0 == 50 && syntax.toLong("42").0 == 42
    requires syntax.toDouble("0") == (0.0, true) && syntax.toDouble("1") == (1.0, true)
    ensures var p := ParseCommandLineArgs(["prog", "50", "out.bin", "0", "1", "int", "42"], clockSeed, syntax);
      && !p.badParams && p.fileLoc == Some("out.bin")
      && DistributionOf(p) == Distribution(42, 0.0, 1.0)
      && p.numberFormat == Int
      && |Written(native, p.numberFormat, draws, DistributionOf(p), Iterations(p.entityCount))| == 200
  {
    var argv := ["prog", "50", "out.bin", "0", "1", "int", "42"];
    assert IsWord("50") && IsWord("0") && IsWord("1") && IsWord("int") && IsWord("42");
    PositionalMapping(argv, clockSeed, syntax);
    MixedCaseKeywords();
    var p := ParseCommandLineArgs(argv, clockSeed, syntax);
    assert p.entityCount == 50 && p.seed == 42;
    assert p.distMinInclusive == 0.0 && p.distMaxExclusive == 1.0;
    var n := Iterations(p.entityCount);
    assert n == 50;
    assert |Written(native, p.numberFormat, draws, DistributionOf(p), n)| == 50 * 4;
  }
}
