/**
 * The argument resolver: the `Params` record and `parse_command_line_args`
 * (DataFileGenerator.cpp). Validity depends only on the number of tokens;
 * a fall-through switch then fills the record position by position.
 */
module CommandLine {
  import opened Optional
  import opened OutputFormats
  import opened ParamStream

  /** `Params`; `fileLoc` is the `unique_ptr<string>`, empty until a valid arity sets it. */
  datatype Params = Params(
    badParams: bool,
    entityCount: i64,
    fileLoc: Option<string>,
    distMinInclusive: real,
    distMaxExclusive: real,
    numberFormat: OutputFormat,
    seed: i64)

  /** A default-constructed `Params`; the wall-clock seed is supplied by the caller. */
  function Defaults(clockSeed: i64): (p: Params)
    ensures p.badParams && p.fileLoc == None && p.entityCount == -1
    ensures p.distMinInclusive == 100.0 && p.distMaxExclusive == 1000.0
    ensures p.numberFormat == Double && p.seed == clockSeed
  {
    Params(true, -1, None, 100.0, 1000.0, Double, clockSeed)
  }

  /** `stream >> number_format` on a fresh stream holding the token. */
  function FormatToken(token: string): (f: OutputFormat)
    ensures IsWord(token) ==> f == KeywordFormat(token)
    ensures IsBlank(token) ==> f == Double
  {
    WordReadWhole(token);
    KeywordFormat(FirstWord(token))
  }

  /**
   * The range tokens: one stream holding `maxToken + " " + minToken`, read
   * first into the maximum, then into the minimum. Gives (min, max).
   */
  function ReadRange(maxToken: string, minToken: string, currentMin: real, currentMax: real,
                     syntax: NumberSyntax): (r: (real, real))
    ensures IsBlank(maxToken + " " + minToken) ==> r == (currentMin, currentMax)
  {
    var (maxValue, rest) := Extract(Stream(maxToken + " " + minToken, true), currentMax, syntax.toDouble);
    var minValue := Extract(rest, currentMin, syntax.toDouble).0;
    (minValue, maxValue)
  }

  /** With two well-formed single-word tokens, the minimum comes from `minToken` and the maximum from `maxToken`. */
  lemma {:induction false} RangeOfWords(maxToken: string, minToken: string, currentMin: real, currentMax: real,
                                       syntax: NumberSyntax)
    requires IsWord(maxToken) && IsWord(minToken)
    requires syntax.toDouble(maxToken).1
    ensures ReadRange(maxToken, minToken, currentMin, currentMax, syntax)
         == (syntax.toDouble(minToken).0, syntax.toDouble(maxToken).0)
  {
    var text := maxToken + " " + minToken;
    assert text == maxToken + (" " + minToken);
    ReadsLeadingWord(maxToken, " " + minToken);
    ReadsAfterSpace(" ", minToken);
  }

  /** Range tokens with white space in front of their words read as the bare words do. */
  lemma {:induction false} RangeOfPaddedWords(maxPad: string, maxWord: string, minPad: string, minWord: string,
                                             currentMin: real, currentMax: real, syntax: NumberSyntax)
    requires IsBlank(maxPad) && IsWord(maxWord) && IsBlank(minPad) && IsWord(minWord)
    requires syntax.toDouble(maxWord).1
    ensures ReadRange(maxPad + maxWord, minPad + minWord, currentMin, currentMax, syntax)
         == (syntax.toDouble(minWord).0, syntax.toDouble(maxWord).0)
  {
    var rest := " " + minPad + minWord;
    assert (maxPad + maxWord) + " " + (minPad + minWord) == maxPad + maxWord + rest;
    assert rest[0] == ' ';
    ReadsPaddedWord(maxPad, maxWord, rest);
    var pad := " " + minPad;
    assert IsBlank(pad) by {
      forall i | 0 <= i < |pad| ensures IsSpace(pad[i]) {
        if i > 0 { assert pad[i] == minPad[i - 1]; }
      }
    }
    assert rest == pad + minWord + [];
    ReadsPaddedWord(pad, minWord, []);
  }

  /** A maximum token that fails to convert fails the stream, so the minimum keeps its default. */
  lemma {:induction false} MalformedMaxKeepsMin(maxToken: string, minToken: string, currentMin: real,
                                               currentMax: real, syntax: NumberSyntax)
    requires IsWord(maxToken)
    requires !syntax.toDouble(maxToken).1
    ensures ReadRange(maxToken, minToken, currentMin, currentMax, syntax)
         == (currentMin, syntax.toDouble(maxToken).0)
  {
    assert maxToken + " " + minToken == maxToken + (" " + minToken);
    ReadsLeadingWord(maxToken, " " + minToken);
  }

  /**
   * A blank maximum token is skipped as white space: the maximum is then
   * read from the minimum's token and the minimum keeps its default.
   */
  lemma {:induction false} BlankMaxReadsMinToken(maxToken: string, minToken: string, currentMin: real,
                                                currentMax: real, syntax: NumberSyntax)
    requires IsBlank(maxToken) && IsWord(minToken)
    ensures ReadRange(maxToken, minToken, currentMin, currentMax, syntax)
         == (currentMin, syntax.toDouble(minToken).0)
  {
    var pad := maxToken + " ";
    assert IsBlank(pad) by {
      forall i | 0 <= i < |pad| ensures IsSpace(pad[i]) {
        if i < |maxToken| { assert pad[i] == maxToken[i]; }
      }
    }
    ReadsAfterSpace(pad, minToken);
  }

  /** A maximum that converts with a blank minimum token: the stream ends after the maximum, so the minimum keeps its default. */
  lemma {:induction false} BlankMinKeepsMin(maxToken: string, minToken: string, currentMin: real, currentMax: real,
                                           syntax: NumberSyntax)
    requires IsWord(maxToken) && IsBlank(minToken)
    ensures ReadRange(maxToken, minToken, currentMin, currentMax, syntax)
         == (currentMin, syntax.toDouble(maxToken).0)
  {
    var rest := " " + minToken;
    assert IsBlank(rest) by {
      forall i | 0 <= i < |rest| ensures IsSpace(rest[i]) {
        if i > 0 { assert rest[i] == minToken[i - 1]; }
      }
    }
    assert maxToken + " " + minToken == [] + maxToken + rest;
    ReadsPaddedWord([], maxToken, rest);
  }

  /** White space around a format keyword is skipped: `" Int"` selects `Int`. */
  lemma {:induction false} PaddedFormatToken(pad: string, word: string, rest: string)
    requires IsBlank(pad) && IsWord(word)
    requires rest == [] || IsSpace(rest[0])
    ensures FormatToken(pad + word + rest) == KeywordFormat(word)
  {
    ReadsPaddedWord(pad, word, rest);
  }

  /** `" Int"` selects `Int`. */
  lemma PaddedIntKeyword()
    ensures FormatToken(" Int") == Int
  {
    assert " Int" == " " + "Int" + [];
    assert IsWord("Int");
    PaddedFormatToken(" ", "Int", []);
    MixedCaseKeywords();
  }

  /**
   * The fall-through `switch (argc)`: case 7 reads the seed, case 6 the
   * format, case 5 the range, case 3 the path and the count; each case
   * falls into the next one below it.
   */
  function Fill(argc: nat, argv: seq<string>, p: Params, syntax: NumberSyntax): (r: Params)
    requires argc in {3, 5, 6, 7} && argc <= |argv|
    ensures r.badParams == p.badParams
    ensures r.fileLoc == Some(argv[2])
    ensures r.entityCount == ReadLong(argv[1], p.entityCount, syntax)
    ensures r.seed == if argc == 7 then ReadLong(argv[6], p.seed, syntax) else p.seed
    ensures r.numberFormat == if argc >= 6 then FormatToken(argv[5]) else p.numberFormat
    ensures (r.distMinInclusive, r.distMaxExclusive)
         == if argc >= 5 then ReadRange(argv[4], argv[3], p.distMinInclusive, p.distMaxExclusive, syntax)
            else (p.distMinInclusive, p.distMaxExclusive)
    decreases argc
  {
    if argc == 7 then
      Fill(6, argv, p.(seed := ReadLong(argv[6], p.seed, syntax)), syntax)
    else if argc == 6 then
      Fill(5, argv, p.(numberFormat := FormatToken(argv[5])), syntax)
    else if argc == 5 then
      var (lo, hi) := ReadRange(argv[4], argv[3], p.distMinInclusive, p.distMaxExclusive, syntax);
      Fill(3, argv, p.(distMinInclusive := lo, distMaxExclusive := hi), syntax)
    else
      p.(fileLoc := Some(argv[2]), entityCount := ReadLong(argv[1], p.entityCount, syntax))
  }

  /**
   * `parse_command_line_args`: `argv[0]` is the program name. Fewer than
   * two user tokens, or exactly three, is bad and leaves every default in
   * place; every other count is good whatever the tokens hold, and a count
   * above six user tokens is treated as six.
   */
  function ParseCommandLineArgs(argv: seq<string>, clockSeed: i64, syntax: NumberSyntax): (r: Params)
    ensures r.badParams <==> |argv| < 3 || |argv| == 4
    ensures r.badParams ==> r == Defaults(clockSeed)
    ensures !r.badParams ==> r.fileLoc == Some(argv[2])
    ensures !r.badParams ==> r.entityCount == ReadLong(argv[1], -1, syntax)
    ensures !r.badParams ==> r.seed == if |argv| >= 7 then ReadLong(argv[6], clockSeed, syntax) else clockSeed
    ensures !r.badParams ==> r.numberFormat == if |argv| >= 6 then FormatToken(argv[5]) else Double
    ensures !r.badParams ==>
              (r.distMinInclusive, r.distMaxExclusive)
                == if |argv| >= 5 then ReadRange(argv[4], argv[3], 100.0, 1000.0, syntax) else (100.0, 1000.0)
  {
    var retval := Defaults(clockSeed);
    if |argv| < 3 then retval.(badParams := true)
    else if |argv| == 4 then retval.(badParams := true)
    else
      var argc := if |argv| > 7 then 7 else |argv|;
      Fill(argc, argv, retval.(badParams := false), syntax)
  }

  /** With exactly two user tokens only the path and the count are set; range, format and seed keep their defaults. */
  lemma TwoUserTokens(argv: seq<string>, clockSeed: i64, syntax: NumberSyntax)
    requires |argv| == 3
    ensures ParseCommandLineArgs(argv, clockSeed, syntax)
         == Defaults(clockSeed).(badParams := false, fileLoc := Some(argv[2]),
                                 entityCount := ReadLong(argv[1], -1, syntax))
  {
  }

  /** Tokens after the sixth user token are ignored. */
  lemma {:induction false} SurplusTokensIgnored(argv: seq<string>, clockSeed: i64, syntax: NumberSyntax)
    requires |argv| > 7
    ensures ParseCommandLineArgs(argv, clockSeed, syntax) == ParseCommandLineArgs(argv[..7], clockSeed, syntax)
  {
    var kept := argv[..7];
    assert forall i :: 0 <= i < 7 ==> kept[i] == argv[i];
    var r, s := ParseCommandLineArgs(argv, clockSeed, syntax), ParseCommandLineArgs(kept, clockSeed, syntax);
    assert r.distMinInclusive == s.distMinInclusive && r.distMaxExclusive == s.distMaxExclusive;
  }

  /**
   * The positional mapping with well-formed single-word tokens: count from
   * `argv[1]`, path from `argv[2]`, minimum from `argv[3]`, maximum from
   * `argv[4]`, format from `argv[5]`, seed from `argv[6]`.
   */
  lemma {:induction false} PositionalMapping(argv: seq<string>, clockSeed: i64, syntax: NumberSyntax)
    requires |argv| >= 7
    requires forall i :: 1 <= i < 7 && i != 2 ==> IsWord(argv[i])
    requires syntax.toDouble(argv[4]).1
    ensures var r := ParseCommandLineArgs(argv, clockSeed, syntax);
      && !r.badParams
      && r.entityCount == syntax.toLong(argv[1]).0
      && r.fileLoc == Some(argv[2])
      && r.distMinInclusive == syntax.toDouble(argv[3]).0
      && r.distMaxExclusive == syntax.toDouble(argv[4]).0
      && r.numberFormat == KeywordFormat(argv[5])
      && r.seed == syntax.toLong(argv[6]).0
  {
    ReadLongOfWord(argv[1], -1, syntax);
    ReadLongOfWord(argv[6], clockSeed, syntax);
    RangeOfWords(argv[4], argv[3], 100.0, 1000.0, syntax);
  }

  /** A blank count token leaves `entity_count` at its default of -1, and the params are still good. */
  lemma BlankCountToken(argv: seq<string>, clockSeed: i64, syntax: NumberSyntax)
    requires |argv| >= 3 && |argv| != 4
    requires IsBlank(argv[1])
    ensures var r := ParseCommandLineArgs(argv, clockSeed, syntax);
      !r.badParams && r.entityCount == -1
  {
  }
}
