/**
 * The output element formats and the keyword lookup that selects one:
 * `OutputFormat`, `g_oStringToOutputFormatMap` and the `operator>>` that
 * lower-cases a keyword and looks it up (DataFileGenerator.cpp).
 */
module OutputFormats {

  /** The element type written for every sample; `Double` is the value-initialised one. */
  datatype OutputFormat = Double | Char | Float | Int | Long

  /** The keyword table `g_oStringToOutputFormatMap`. */
  const FormatKeywords: map<string, OutputFormat> := map[
    "" := Double,
    "byte" := Char,
    "char" := Char,
    "character" := Char,
    "double" := Double,
    "float" := Float,
    "int" := Int,
    "integer" := Int,
    "long" := Long
  ]

  /** `::tolower` in the C locale: only 'A'..'Z' change. */
  function LowerChar(c: char): (r: char)
    ensures 'A' <= c <= 'Z' ==> 'a' <= r <= 'z' && r as int - c as int == 32
    ensures !('A' <= c <= 'Z') ==> r == c
  {
    if 'A' <= c <= 'Z' then (c as int + 32) as char else c
  }

  /** `std::transform(..., ::tolower)` over the whole keyword. */
  function ToLower(s: string): (r: string)
    ensures |r| == |s|
    ensures forall i :: 0 <= i < |s| ==> r[i] == LowerChar(s[i])
  {
    seq(|s|, i requires 0 <= i < |s| => LowerChar(s[i]))
  }

  /**
   * The format a keyword selects: lower-case it, then `operator[]` on the
   * table, which yields the value-initialised `Double` for a keyword the
   * table does not hold (it never rejects).
   */
  function KeywordFormat(word: string): (r: OutputFormat)
    ensures r == Char <==> ToLower(word) in {"byte", "char", "character"}
    ensures r == Float <==> ToLower(word) == "float"
    ensures r == Int <==> ToLower(word) in {"int", "integer"}
    ensures r == Long <==> ToLower(word) == "long"
    ensures r == Double <==> ToLower(word) !in FormatKeywords.Keys - {"", "double"}
  {
    var key := ToLower(word);
    if key in FormatKeywords then FormatKeywords[key] else Double
  }

  /** Lower-casing twice is lower-casing once. */
  lemma ToLowerIdempotent(s: string)
    ensures ToLower(ToLower(s)) == ToLower(s)
  {
    var once := ToLower(s);
    forall i | 0 <= i < |s| ensures ToLower(once)[i] == once[i] {
      assert once[i] == LowerChar(s[i]);
    }
  }

  /** The lookup is case-insensitive: a keyword and its lower-case form select the same format. */
  lemma {:induction false} LookupIgnoresCase(word: string)
    ensures KeywordFormat(ToLower(word)) == KeywordFormat(word)
  {
    ToLowerIdempotent(word);
  }

  /** An upper-case or mixed-case spelling of a known keyword selects the keyword's format. */
  lemma MixedCaseKeywords()
    ensures KeywordFormat("INT") == KeywordFormat("Int") == KeywordFormat("int") == Int
    ensures KeywordFormat("CHARACTER") == KeywordFormat("Byte") == Char
    ensures KeywordFormat("Float") == Float && KeywordFormat("LONG") == Long
    ensures KeywordFormat("DOUBLE") == KeywordFormat("") == Double
  {
    assert ToLower("INT") == "int";
    assert ToLower("Int") == "int";
    assert ToLower("int") == "int";
    assert ToLower("CHARACTER") == "character";
    assert ToLower("Byte") == "byte";
    assert ToLower("Float") == "float";
    assert ToLower("LONG") == "long";
    assert ToLower("DOUBLE") == "double";
  }

  /** A keyword outside the table silently selects `Double` rather than being refused. */
  lemma UnknownKeywordIsDouble(word: string)
    requires ToLower(word) !in FormatKeywords
    ensures KeywordFormat(word) == Double
  {
  }

  /** "banana" is not a keyword, and still selects `Double`. */
  lemma BananaIsDouble()
    ensures KeywordFormat("banana") == Double
  {
    assert ToLower("banana") == "banana";
  }
}
