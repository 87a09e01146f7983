/**
 * The `std::stringstream` extractions that `parse_command_line_args` uses to
 * read each token (DataFileGenerator.cpp). The word structure is modelled as
 * the C++ library has it: leading white space is skipped, one
 * white-space-delimited word is taken, an empty stream leaves the target
 * untouched and fails the stream, and a failed stream reads nothing more.
 * How a word becomes a number is left abstract (NumberSyntax).
 */
module ParamStream {

  /** `long long int`, the type of `entity_count` and `seed`. */
  newtype i64 = x: int | -0x8000_0000_0000_0000 <= x < 0x8000_0000_0000_0000

  /** `isspace` in the C locale. */
  predicate IsSpace(c: char)
    ensures IsSpace(c) <==> c == ' ' || 9 <= c as int <= 13
  {
    c == ' ' || c == '\t' || c == '\n' || c == '\U{000B}' || c == '\U{000C}' || c == '\r'
  }

  /** A text with no character other than white space (possibly empty). */
  predicate IsBlank(s: string) {
    forall i :: 0 <= i < |s| ==> IsSpace(s[i])
  }

  /** A non-empty text without white space: what one extraction consumes whole. */
  predicate IsWord(s: string) {
    s != [] && forall i :: 0 <= i < |s| ==> !IsSpace(s[i])
  }

  /** The length of the run of white space that starts `s`. */
  function SpaceLength(s: string): (n: nat)
    ensures n <= |s|
    ensures forall i :: 0 <= i < n ==> IsSpace(s[i])
    ensures n < |s| ==> !IsSpace(s[n])
  {
    if s == [] || !IsSpace(s[0]) then 0 else 1 + SpaceLength(s[1..])
  }

  /** The text left once the leading white space is skipped. */
  function SkipSpace(s: string): (r: string)
    ensures |r| <= |s| && r == s[|s| - |r|..]
    ensures r == [] || !IsSpace(r[0])
    ensures forall i :: 0 <= i < |s| - |r| ==> IsSpace(s[i])
  {
    s[SpaceLength(s)..]
  }

  /** The length of the run of non-space characters that starts `s`. */
  function WordLength(s: string): (n: nat)
    ensures n <= |s|
    ensures forall i :: 0 <= i < n ==> !IsSpace(s[i])
    ensures n < |s| ==> IsSpace(s[n])
  {
    if s == [] || IsSpace(s[0]) then 0 else 1 + WordLength(s[1..])
  }

  /** The word the next extraction reads: empty exactly when nothing but white space is left. */
  function FirstWord(s: string): (w: string)
    ensures w == [] <==> IsBlank(s)
    ensures w != [] ==> IsWord(w)
    ensures |w| <= |SkipSpace(s)| && SkipSpace(s)[..|w|] == w
    ensures |w| < |SkipSpace(s)| ==> IsSpace(SkipSpace(s)[|w|])
  {
    var t := SkipSpace(s);
    var n := WordLength(t);
    assert t != [] ==> n > 0;
    assert IsBlank(s) <==> t == [] by {
      if t != [] { assert s[|s| - |t|] == t[0]; }
    }
    t[..n]
  }

  /** What is left in the stream after the next word has been read. */
  function AfterWord(s: string): (rest: string)
    ensures rest == [] || IsSpace(rest[0])
    ensures SkipSpace(s) == FirstWord(s) + rest
  {
    var t := SkipSpace(s);
    var n := WordLength(t);
    assert t == t[..n] + t[n..];
    t[n..]
  }

  /** A word followed by nothing or by white space is read whole, and the rest stays. */
  lemma {:induction false} ReadsLeadingWord(w: string, rest: string)
    requires IsWord(w)
    requires rest == [] || IsSpace(rest[0])
    ensures FirstWord(w + rest) == w
    ensures AfterWord(w + rest) == rest
  {
    var s := w + rest;
    assert SkipSpace(s) == s by { assert s[0] == w[0]; }
    WordLengthOf(w, rest);
    assert s[..|w|] == w;
    assert s[|w|..] == rest;
  }

  lemma {:induction false} WordLengthOf(w: string, rest: string)
    requires forall i :: 0 <= i < |w| ==> !IsSpace(w[i])
    requires rest == [] || IsSpace(rest[0])
    ensures WordLength(w + rest) == |w|
    decreases |w|
  {
    if w == [] {
      assert w + rest == rest;
    } else {
      assert (w + rest)[0] == w[0];
      assert (w + rest)[1..] == w[1..] + rest;
      WordLengthOf(w[1..], rest);
    }
  }

  /** A token that is a single word is read whole. */
  lemma WordReadWhole(token: string)
    ensures IsWord(token) ==> FirstWord(token) == token && AfterWord(token) == []
  {
    if IsWord(token) {
      ReadsLeadingWord(token, []);
      assert token + [] == token;
    }
  }

  /** White space in front of a word is skipped. */
  lemma SkipsLeadingSpace(pad: string, s: string)
    requires IsBlank(pad)
    requires s == [] || !IsSpace(s[0])
    ensures SkipSpace(pad + s) == s
  {
    SpaceLengthOf(pad, s);
    assert (pad + s)[|pad|..] == s;
  }

  lemma {:induction false} SpaceLengthOf(pad: string, s: string)
    requires IsBlank(pad)
    requires s == [] || !IsSpace(s[0])
    ensures SpaceLength(pad + s) == |pad|
    decreases |pad|
  {
    if pad == [] {
      assert pad + s == s;
    } else {
      assert (pad + s)[0] == pad[0];
      assert (pad + s)[1..] == pad[1..] + s;
      SpaceLengthOf(pad[1..], s);
    }
  }

  /** A word after any white space, followed by nothing or by white space, is read whole, and the rest stays. */
  lemma {:induction false} ReadsPaddedWord(pad: string, w: string, rest: string)
    requires IsBlank(pad) && IsWord(w)
    requires rest == [] || IsSpace(rest[0])
    ensures FirstWord(pad + w + rest) == w
    ensures AfterWord(pad + w + rest) == rest
  {
    assert pad + w + rest == pad + (w + rest);
    assert (w + rest)[0] == w[0];
    SkipsLeadingSpace(pad, w + rest);
    ReadsLeadingWord(w, rest);
  }

  /** A blank pad followed by a word: the word is what the next extraction reads, and nothing is left. */
  lemma {:induction false} ReadsAfterSpace(pad: string, word: string)
    requires IsBlank(pad) && IsWord(word)
    ensures FirstWord(pad + word) == word
    ensures AfterWord(pad + word) == []
    ensures !IsBlank(pad + word)
  {
    assert pad + word == pad + word + [];
    ReadsPaddedWord(pad, word, []);
  }

  /** The state of a `std::stringstream`: what is left to read, and whether no extraction has failed. */
  datatype Stream = Stream(text: string, good: bool)

  /**
   * How the C++ library turns one word into a value: the value it stores
   * and whether the stream stays good. Left abstract: a malformed or
   * out-of-range word stores whatever the library stores and fails the
   * stream, and nothing reports it.
   */
  datatype NumberSyntax = NumberSyntax(toLong: string -> (i64, bool), toDouble: string -> (real, bool))

  /**
   * `stream >> target` for a number: a failed or exhausted stream leaves
   * `current` in place (and is then failed); otherwise the first word is
   * converted and the stream keeps the text after it.
   */
  function Extract<T>(st: Stream, current: T, convert: string -> (T, bool)): (r: (T, Stream))
    ensures !st.good || IsBlank(st.text) ==> r.0 == current && !r.1.good
    ensures st.good && !IsBlank(st.text) ==>
      r.0 == convert(FirstWord(st.text)).0 && r.1.good == convert(FirstWord(st.text)).1
    ensures st.good && !IsBlank(st.text) ==> r.1.text == AfterWord(st.text)
  {
    if !st.good then (current, st)
    else
      var w := FirstWord(st.text);
      if w == [] then (current, Stream([], false))
      else (convert(w).0, Stream(AfterWord(st.text), convert(w).1))
  }

  /** A fresh `stringstream` holding one token, read into a `long long` that holds `current`. */
  function ReadLong(token: string, current: i64, syntax: NumberSyntax): (v: i64)
    ensures IsBlank(token) ==> v == current
    ensures !IsBlank(token) ==> v == syntax.toLong(FirstWord(token)).0
  {
    Extract(Stream(token, true), current, syntax.toLong).0
  }

  /** A token that is a single word is converted whole. */
  lemma ReadLongOfWord(token: string, current: i64, syntax: NumberSyntax)
    requires IsWord(token)
    ensures ReadLong(token, current, syntax) == syntax.toLong(token).0
  {
    WordReadWhole(token);
  }
}
