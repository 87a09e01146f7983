# DataFileGenerator in Dafny

A model of `DataFileGenerator.cpp`, a command-line tool that writes a file of
pseudo-random samples drawn uniformly from `[min, max)`, each stored in a fixed
width chosen by a format keyword. The model has two parts.

- **Argument resolver** (`CommandLine`, with `OutputFormats` and `ParamStream`):
  `parse_command_line_args` becomes the pure function
  `ParseCommandLineArgs(argv, clockSeed, syntax)` from the token list to a
  `Params` value. Validity depends only on the token count: `argc < 3` and
  `argc == 4` are bad, and `argc > 7` is treated as 7. The fall-through
  `switch` becomes the recursive `Fill`, where case 7 falls into 6, 6 into 5
  and 5 into 3. The format keyword is lower-cased (ASCII only) and looked up
  in the keyword table. A keyword the table lacks yields `Double`, because
  `std::map::operator[]` value-initialises the enum. It is never rejected.
- **Sample writer** (`Generator`): `main` becomes the method `Run`. It returns
  -1 on bad params before any file is touched, and -2 when the destination
  cannot be opened. Otherwise it loops `entity_count` times, appending one
  encoded sample per iteration to a growing byte buffer and counting
  `writeCount`. `Written` specifies the file after `n` iterations. Its
  length is `n * Width(format)`. Bytes `[k*w, (k+1)*w)` hold the k-th draw.
  `Char` takes 1 byte, `Float` and `Int` take 4, and `Double` takes 8.
  `Long` has no case of its own, so it falls into the 8-byte `double` branch.

The token reads use `std::stringstream` extraction, modelled at the word
level. Leading C-locale white space is skipped and one word is read. A stream
with nothing left leaves the target untouched and fails. A failed stream reads
nothing more. How a word becomes a number is left abstract in `NumberSyntax`:
it gives the stored value and whether the stream stays good. So a malformed
number never makes the params bad. The range is read from the single stream
`argv[4] + " " + argv[3]`, maximum first. This gives the following cases.

- With single-word tokens, the minimum comes from `argv[3]` and the maximum
  from `argv[4]` (`RangeOfWords`).
- A maximum token that fails to convert leaves the minimum at 100.0
  (`MalformedMaxKeepsMin`).
- A blank maximum token, such as `""`, is skipped as white space. The maximum
  is then read from `argv[3]` and the minimum stays 100.0
  (`BlankMaxReadsMinToken`).
- A blank count token leaves `entity_count` at -1, so nothing is written
  (`BlankCountToken`).

The model keeps three behaviours of the code that a user might not expect:
- an unknown format keyword selects `Double` instead of failing;
- a malformed number is not an error;
- more than six user tokens are accepted, and the surplus is ignored.

Supplied by the caller:
- the wall-clock default seed (`clockSeed`);
- the random draws (`Draws`, the k-th value of `generate()` for a seed and range);
- the native byte images of the casts (`NativeBytes`);
- whether the path opens (`canOpen`).

## Model

| member | source | states |
|---|---|---|
| OutputFormats.LowerChar | DataFileGenerator.cpp:60 | `::tolower` maps 'A'..'Z' to the letter 32 code points later and leaves every other character alone |
| OutputFormats.ToLower | DataFileGenerator.cpp:60 | lower-casing the keyword keeps its length and lower-cases each character in place |
| OutputFormats.KeywordFormat | DataFileGenerator.cpp:22-63 | after lower-casing: byte/char/character select Char, float selects Float, int/integer select Int, long selects Long, and everything else selects Double ("" and "double" included, as does any unknown keyword) |
| OutputFormats.ToLowerIdempotent | DataFileGenerator.cpp:60 | lower-casing an already lower-cased keyword changes nothing |
| OutputFormats.LookupIgnoresCase | DataFileGenerator.cpp:57-63 | a keyword and its lower-case form select the same format, so the lookup is case-insensitive |
| OutputFormats.MixedCaseKeywords | DataFileGenerator.cpp:22-63 | INT, Int and int all select Int; CHARACTER and Byte select Char; Float selects Float; LONG selects Long; DOUBLE and "" select Double |
| OutputFormats.UnknownKeywordIsDouble | DataFileGenerator.cpp:61 | a keyword whose lower-case form is not in the table selects Double; it is not rejected |
| OutputFormats.BananaIsDouble | DataFileGenerator.cpp:61 | "banana" selects Double |
| ParamStream.IsSpace | DataFileGenerator.cpp:92-94 | the white space that extraction skips and stops at is the C-locale set: the space and the control characters 9 to 13 (tab, newline, vertical tab, form feed, carriage return) |
| ParamStream.SpaceLength | DataFileGenerator.cpp:92-94 | the run of white space the sentry skips ends at the first non-space character or at the end |
| ParamStream.SkipSpace | DataFileGenerator.cpp:92-94 | the text left after skipping white space is a suffix of the input that starts with a non-space, and everything skipped is white space |
| ParamStream.WordLength | DataFileGenerator.cpp:92-94 | a word runs up to the first white space or the end |
| ParamStream.FirstWord | DataFileGenerator.cpp:92-94 | the next word read is the run of non-space characters at the front of the text once white space is skipped; it is empty exactly when only white space is left |
| ParamStream.AfterWord | DataFileGenerator.cpp:104-107 | after the skipped white space, the stream holds the word just read followed by what it keeps, and what it keeps is empty or starts with white space |
| ParamStream.ReadsLeadingWord | DataFileGenerator.cpp:104-107 | a word followed by white space is read whole, and the text after it stays in the stream |
| ParamStream.ReadsPaddedWord | DataFileGenerator.cpp:104-107 | a word after any white space and followed by nothing or white space is read whole, and the rest stays in the stream |
| ParamStream.WordReadWhole | DataFileGenerator.cpp:97-100 | a token that is one word is read whole and leaves nothing |
| ParamStream.SkipsLeadingSpace | DataFileGenerator.cpp:104-107 | white space in front of a word is skipped |
| ParamStream.Extract | DataFileGenerator.cpp:92-94 | extraction from a failed or exhausted stream leaves the target as it was and fails the stream; otherwise the target gets the conversion of the first word, the stream keeps the text after that word, and it stays good exactly when that conversion succeeded |
| ParamStream.ReadLong | DataFileGenerator.cpp:112-114 | a blank token leaves the `long long` as it was; any other token stores the conversion of its first word |
| ParamStream.ReadLongOfWord | DataFileGenerator.cpp:112-114 | a single-word token stores the conversion of that word |
| CommandLine.Defaults | DataFileGenerator.cpp:34-55 | a fresh `Params` is bad, has no path and has count -1, range [100.0, 1000.0), format Double and the clock seed |
| CommandLine.FormatToken | DataFileGenerator.cpp:97-101 | a single-word format token selects its keyword's format, and a blank one selects Double |
| CommandLine.ReadRange | DataFileGenerator.cpp:103-108 | when both range tokens are blank, min and max keep their values |
| CommandLine.RangeOfWords | DataFileGenerator.cpp:103-108 | with single-word tokens and a well-formed maximum, the minimum is argv[3]'s value and the maximum argv[4]'s, although the stream reads the maximum first |
| CommandLine.RangeOfPaddedWords | DataFileGenerator.cpp:103-108 | range tokens with white space before their words (such as " 5") give min from argv[3]'s word and max from argv[4]'s word when the maximum converts |
| ParamStream.ReadsAfterSpace | DataFileGenerator.cpp:105-107 | after blank padding, the next read takes the following word and leaves nothing |
| CommandLine.MalformedMaxKeepsMin | DataFileGenerator.cpp:105-107 | a maximum that fails to convert fails the shared stream, so the minimum keeps its default |
| CommandLine.BlankMaxReadsMinToken | DataFileGenerator.cpp:105-107 | a blank maximum token makes the maximum come from argv[3]'s word, and the minimum keeps its default |
| CommandLine.BlankMinKeepsMin | DataFileGenerator.cpp:105-107 | with a one-word maximum and a blank minimum token, the maximum is argv[4]'s value and the minimum keeps its default of 100.0 |
| CommandLine.PaddedFormatToken | DataFileGenerator.cpp:97-100 | white space around a format keyword is skipped, so the token selects the keyword's format |
| CommandLine.PaddedIntKeyword | DataFileGenerator.cpp:57-63 | the format token " Int" selects Int |
| CommandLine.Fill | DataFileGenerator.cpp:90-118 | the fall-through switch sets path and count on every case; it sets the range from case 5 up, the format from case 6 up and the seed only on case 7; nothing else changes |
| CommandLine.ParseCommandLineArgs | DataFileGenerator.cpp:65-121 | params are bad exactly when argc < 3 or argc == 4, and then every other field keeps its default; otherwise path = argv[2], count from argv[1], range from argv[3..4] when argc >= 5, format from argv[5] when argc >= 6 and seed from argv[6] when argc >= 7, with defaults for the rest |
| CommandLine.TwoUserTokens | DataFileGenerator.cpp:110-117 | with two user tokens only the path and the count are set; range [100, 1000), Double and the clock seed remain |
| CommandLine.SurplusTokensIgnored | DataFileGenerator.cpp:86-88 | any argv longer than 7 resolves exactly as its first 7 entries do |
| CommandLine.PositionalMapping | DataFileGenerator.cpp:90-118 | with single-word tokens (the path may be any text) and a maximum that converts: count from argv[1], path argv[2], min from argv[3], max from argv[4], format from argv[5], seed from argv[6] |
| CommandLine.BlankCountToken | DataFileGenerator.cpp:112-114 | a blank count token leaves the params good with count -1 |
| Generator.Width | DataFileGenerator.cpp:149-169 | the bytes written per sample: 1 for Char, 4 for Float and Int (4-byte float and int), and 8 for Double and Long |
| Generator.Encode | DataFileGenerator.cpp:149-169 | Char writes 1 byte, Float and Int 4, and Double and Long 8; Long falls into the default branch and writes the double itself |
| Generator.EncodeWidth | DataFileGenerator.cpp:149-169 | every sample of a format takes the same positive width |
| Generator.Written | DataFileGenerator.cpp:145-171 | the file after n iterations is n times the format's width long |
| Generator.WrittenLayout | DataFileGenerator.cpp:147-171 | bytes [k*w, (k+1)*w) of the file are the encoding of the k-th draw, so the file is the draws' encodings concatenated in order with no header |
| Generator.Iterations | DataFileGenerator.cpp:147 | the loop runs max(0, entity_count) times |
| Generator.DistributionOf | DataFileGenerator.cpp:134-136 | the engine is seeded with the resolved seed, and the distribution spans the resolved [min, max) |
| Generator.Run | DataFileGenerator.cpp:123-178 | exit -1 exactly when params are bad, with no file and writeCount 0; exit -2 exactly when the path does not open, with nothing written; otherwise exit 0, with writeCount = max(0, entity_count), the file equal to the encoded draws, and length writeCount × width |
| Generator.DefaultInvocation | DataFileGenerator.cpp:36-54 | `1000 out.bin` resolves to range [100, 1000), format Double and path out.bin, and writes 8000 bytes |
| Generator.IntInvocation | DataFileGenerator.cpp:90-118 | `50 out.bin 0 1 int 42` resolves to seed 42, range [0, 1) and format Int, and writes 200 bytes |

## Left out

- Main.cpp, an earlier version of the same program, is not part of this model.
- The Mersenne-Twister engine and the uniform real distribution are not modelled. `Draws` gives the k-th value of `generate()` for a seed and range, and nothing is assumed about its value (not even that it lies in the range).
- The casts `(char)`, `(float)` and `(int)`, and the native byte order of each written value, are not modelled. `NativeBytes` gives only fixed-size byte images.
- Doubles are modelled as `real`. No rounding is modelled, because the range values are only passed through.
- The wall-clock default seed is the `clockSeed` parameter.
- Console messages, `ofstream` construction and `close` are left out. Opening is the abstract `canOpen(path)`. Each write is assumed to succeed, and the source does not check writes either.
- NumberSyntax: the numeric conversion of a word, including failure and overflow, is abstract. Extraction works on whole words. A partly numeric word such as `12abc` leaves its tail in the library's stream for the next read. In the model the whole word goes to the conversion. This only matters for the shared range stream.
- OutputFormats.LowerChar: only 'A'..'Z' are lower-cased. `::tolower` on a negative `char` (a non-ASCII byte) is undefined and is not modelled.
- KeywordFormat does not model that `operator[]` inserts an unknown keyword into the global table. No later lookup can observe that insertion.
- The `size_t writeCount` is modelled as a `nat`. With a 64-bit `size_t` it cannot wrap, because it is at most `entity_count`, which is below 2^63. A 32-bit build has a 32-bit `size_t`, which wraps after 2^32 writes; that wrap is not modelled.
