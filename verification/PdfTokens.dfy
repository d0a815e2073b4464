/**
 * The lexical level of the PDF safety walk
 * (packages/cardano-agent/src/privateComparison/privateDocumentWorker.ts:664-717 and the branches of 536-623).
 *
 * The file's bytes are read as Latin-1, so a source is a string whose characters are at most 0xFF.
 * `TokenAt` is what the walk sees at an offset; `IsLeaf` says independently, in the terms of section
 * 7.2 and 7.3 of ISO 32000-1, which stretch of the source a token is.
 */
module PdfTokens {
  const PDF_MAX_NAME_TOKEN_BYTES := 128

  predicate IsWhite(c: char) { '\t' <= c <= '\r' || c == ' ' || c == '\U{00A0}' || c == '\0' }

  predicate IsDelimiter(c: char) {
    IsWhite(c) || c == '[' || c == ']' || c == '(' || c == ')' || c == '<' || c == '>' || c == '/' || c == '%'
  }

  predicate IsLineEnd(c: char) { c == '\r' || c == '\n' }

  // ---------------------------------------------------------------- ends of tokens

  function CommentEnd(s: string, i: nat): (e: nat)
    requires i <= |s|
    ensures i <= e <= |s| && (e < |s| ==> IsLineEnd(s[e])) && forall k | i <= k < e :: !IsLineEnd(s[k])
    decreases |s| - i
  {
    if i == |s| || IsLineEnd(s[i]) then i else CommentEnd(s, i + 1)
  }

  function WordEnd(s: string, i: nat): (e: nat)
    requires i <= |s|
    ensures i <= e <= |s| && (e < |s| ==> IsDelimiter(s[e])) && forall k | i <= k < e :: !IsDelimiter(s[k])
    decreases |s| - i
  {
    if i == |s| || IsDelimiter(s[i]) then i else WordEnd(s, i + 1)
  }

  function HexEnd(s: string, i: nat): (e: nat)
    requires i <= |s|
    ensures i <= e <= |s| && (e == |s| || (e > i && s[e - 1] == '>')) && forall k | i <= k < e - 1 :: s[k] != '>'
    decreases |s| - i
  {
    if i == |s| then i else if s[i] == '>' then i + 1 else HexEnd(s, i + 1)
  }

  // The counter of open parentheses; an escape at the end steps past the source.
  function StringEnd(s: string, i: nat, depth: nat): (e: nat)
    requires i <= |s| + 1
    ensures i <= e <= |s| + 1
    decreases |s| + 1 - i
  {
    if i >= |s| || depth == 0 then i
    else if s[i] == '\\' then StringEnd(s, i + 2, depth)
    else if s[i] == '(' then StringEnd(s, i + 1, depth + 1)
    else if s[i] == ')' then StringEnd(s, i + 1, depth - 1)
    else StringEnd(s, i + 1, depth)
  }

  method SkipPdfComment(s: string, start: nat) returns (index: nat)
    requires start <= |s|
    ensures index == CommentEnd(s, start)
  {
    index := start;
    while index < |s| && s[index] != '\r' && s[index] != '\n'
      invariant start <= index <= |s| && CommentEnd(s, index) == CommentEnd(s, start)
    {
      index := index + 1;
    }
  }

  method SkipWord(s: string, start: nat) returns (index: nat)
    requires start <= |s|
    ensures index == WordEnd(s, start)
  {
    index := start;
    while index < |s| && !IsDelimiter(s[index])
      invariant start <= index <= |s| && WordEnd(s, index) == WordEnd(s, start)
    {
      index := index + 1;
    }
  }

  method SkipPdfHexString(s: string, start: nat) returns (index: nat)
    requires start < |s|
    ensures index == HexEnd(s, start + 1)
  {
    index := start + 1;
    while index < |s| && s[index] != '>'
      invariant start < index <= |s| && HexEnd(s, index) == HexEnd(s, start + 1)
    {
      index := index + 1;
    }
    index := if index + 1 < |s| then index + 1 else |s|;
  }

  method SkipPdfLiteralString(s: string, start: nat) returns (index: nat)
    requires start < |s|
    ensures index == StringEnd(s, start + 1, 1)
  {
    var depth: nat := 1;
    index := start + 1;
    while index < |s| && depth > 0
      invariant index <= |s| + 1 && StringEnd(s, index, depth) == StringEnd(s, start + 1, 1)
      decreases |s| + 1 - index
    {
      if s[index] == '\\' {
        index := index + 2;
      } else if s[index] == '(' {
        depth := depth + 1;
        index := index + 1;
      } else if s[index] == ')' {
        depth := depth - 1;
        index := index + 1;
      } else {
        index := index + 1;
      }
    }
  }

  // Section 7.3.4.2: a string's body is escapes, other characters, and parenthesised bodies.
  // The offset of the parenthesis that closes the body starting at i.
  function BodyEnd(s: string, i: nat): (e: int)
    ensures e == -1 || (i <= e < |s| && s[e] == ')')
    decreases |s| - i
  {
    if i >= |s| then -1
    else if s[i] == ')' then i
    else if s[i] == '\\' then BodyEnd(s, i + 2)
    else if s[i] == '(' then (var inner := BodyEnd(s, i + 1); if inner == -1 then -1 else BodyEnd(s, inner + 1))
    else BodyEnd(s, i + 1)
  }

  lemma {:induction false} Unfold(s: string, i: nat, depth: nat)
    requires i < |s| && depth > 0
    ensures StringEnd(s, i, depth)
            == if s[i] == '\\' then StringEnd(s, i + 2, depth)
               else if s[i] == '(' then StringEnd(s, i + 1, depth + 1)
               else if s[i] == ')' then StringEnd(s, i + 1, depth - 1)
               else StringEnd(s, i + 1, depth)
    ensures BodyEnd(s, i)
            == if s[i] == ')' then i
               else if s[i] == '\\' then BodyEnd(s, i + 2)
               else if s[i] == '(' then (if BodyEnd(s, i + 1) == -1 then -1 else BodyEnd(s, BodyEnd(s, i + 1) + 1))
               else BodyEnd(s, i + 1)
  {
  }

  lemma {:induction false} PastTheEnd(s: string, i: nat, depth: nat)
    requires |s| <= i <= |s| + 1
    ensures StringEnd(s, i, depth) == i && BodyEnd(s, i) == -1
  {
  }

  // The counter finds the closing parenthesis of the recursive reading, or runs off the source.
  lemma {:induction false} CountingIsNesting(s: string, i: nat, depth: nat)
    requires i <= |s| + 1 && depth > 0
    ensures if BodyEnd(s, i) == -1 then StringEnd(s, i, depth) >= |s|
            else StringEnd(s, i, depth) == StringEnd(s, BodyEnd(s, i) + 1, depth - 1)
    decreases |s| + 1 - i
  {
    hide StringEnd, BodyEnd;
    if i >= |s| {
      PastTheEnd(s, i, depth);
    } else {
      Unfold(s, i, depth);
      if s[i] == '\\' {
        CountingIsNesting(s, i + 2, depth);
      } else if s[i] == '(' {
        CountingIsNesting(s, i + 1, depth + 1);
        var inner := BodyEnd(s, i + 1);
        if inner != -1 { CountingIsNesting(s, inner + 1, depth); }
      } else if s[i] != ')' {
        CountingIsNesting(s, i + 1, depth);
      }
    }
  }

  // ---------------------------------------------------------------- tokens

  datatype LeafKind = White | Comment | Str | Hex | Solidus | Name | Word

  datatype Token = LeafToken(kind: LeafKind, to: nat) | Open(dict: bool) | Close(dict: bool) | StreamWord(to: nat)
      | Stray

  function Min(a: nat, b: nat): nat { if a <= b then a else b }

  function TokenAt(s: string, i: nat): Token
    requires i < |s|
  {
    var c := s[i];
    if IsWhite(c) then LeafToken(White, i + 1)
    else if c == '%' then LeafToken(Comment, CommentEnd(s, i + 1))
    else if c == '(' then LeafToken(Str, Min(StringEnd(s, i + 1, 1), |s|))
    else if c == '<' then if i + 1 < |s| && s[i + 1] == '<' then Open(true) else LeafToken(Hex, HexEnd(s, i + 1))
    else if c == '>' && i + 1 < |s| && s[i + 1] == '>' then Close(true)
    else if c == '[' then Open(false)
    else if c == ']' then Close(false)
    else if c == '/' then LeafToken(if WordEnd(s, i + 1) == i + 1 then Solidus else Name, WordEnd(s, i + 1))
    else if WordEnd(s, i) == i then Stray
    else if s[i..WordEnd(s, i)] == "stream" then StreamWord(WordEnd(s, i))
    else LeafToken(Word, WordEnd(s, i))
  }

  predicate EndsWord(s: string, to: nat)
    requires to <= |s|
  {
    to < |s| ==> IsDelimiter(s[to])
  }

  // Which stretch of the source is a token of which kind.
  predicate IsLeaf(s: string, kind: LeafKind, from: nat, to: nat) {
    && from < to <= |s|
    && match kind
       case White => IsWhite(s[from]) && to == from + 1
       case Comment => s[from] == '%' && (to < |s| ==> IsLineEnd(s[to])) && forall k | from < k < to :: !IsLineEnd(s[k])
       case Str => s[from] == '(' && to == (if BodyEnd(s, from + 1) == -1 then |s| else BodyEnd(s, from + 1) + 1)
       case Hex => s[from] == '<' && (to == |s| || s[to - 1] == '>') && (forall k | from < k < to - 1 :: s[k] != '>')
                   && !(from + 1 < |s| && s[from + 1] == '<')
       case Solidus => s[from] == '/' && to == from + 1 && EndsWord(s, to)
       case Name => s[from] == '/' && to > from + 1 && EndsWord(s, to) && forall k | from < k < to :: !IsDelimiter(s[k])
       case Word => EndsWord(s, to) && (forall k | from <= k < to :: !IsDelimiter(s[k])) && s[from..to] != "stream"
  }

  lemma {:induction false} TokensAreLeaves(s: string, i: nat)
    requires i < |s| && TokenAt(s, i).LeafToken?
    ensures IsLeaf(s, TokenAt(s, i).kind, i, TokenAt(s, i).to)
  {
    if s[i] == '(' { CountingIsNesting(s, i + 1, 1); }
  }

  // A token ends after it begins, except at a bare ')' or a lone '>', where there is none.
  lemma {:induction false} StrayExactly(s: string, i: nat)
    requires i < |s|
    ensures TokenAt(s, i).Stray? <==> s[i] == ')' || (s[i] == '>' && !(i + 1 < |s| && s[i + 1] == '>'))
  {
    if WordEnd(s, i) == i { assert IsDelimiter(s[i]); }
  }

  // ---------------------------------------------------------------- names and integers

  predicate IsHexDigit(c: char) { '0' <= c <= '9' || 'a' <= c <= 'f' || 'A' <= c <= 'F' }

  function HexValue(c: char): (v: nat)
    requires IsHexDigit(c)
    ensures v < 16
  {
    if c <= '9' then c as int - '0' as int else if c >= 'a' then c as int - 'a' as int + 10
    else c as int - 'A' as int + 10
  }

  function Decoded(value: string): string {
    if |value| == 0 then ""
    else if value[0] == '#' && |value| >= 3 && IsHexDigit(value[1]) && IsHexDigit(value[2]) then
      [(16 * HexValue(value[1]) + HexValue(value[2])) as char] + Decoded(value[3..])
    else [value[0]] + Decoded(value[1..])
  }

  predicate IsEscape(value: string, i: nat) {
    i + 2 < |value| && value[i] == '#' && IsHexDigit(value[i + 1]) && IsHexDigit(value[i + 2])
  }

  lemma {:induction false} DecodedStep(value: string, i: nat)
    requires i < |value|
    ensures Decoded(value[i..]) == if IsEscape(value, i)
            then [(16 * HexValue(value[i + 1]) + HexValue(value[i + 2])) as char] + Decoded(value[i + 3..])
                                   else [value[i]] + Decoded(value[i + 1..])
  {
    if IsEscape(value, i) {
      assert value[i..][3..] == value[i + 3..];
    } else {
      assert value[i..][1..] == value[i + 1..];
    }
  }

  method DecodePdfName(value: string) returns (decoded: string)
    ensures decoded == Decoded(value)
  {
    hide Decoded;
    decoded := "";
    var index := 0;
    assert value[0..] == value;
    while index < |value|
      invariant index <= |value| && Decoded(value) == decoded + Decoded(value[index..])
    {
      DecodedStep(value, index);
      if IsEscape(value, index) {
        decoded := decoded + [(16 * HexValue(value[index + 1]) + HexValue(value[index + 2])) as char];
        index := index + 3;
      } else {
        decoded := decoded + [value[index]];
        index := index + 1;
      }
    }
    NothingDecoded();
    assert value[index..] == "";
  }

  lemma {:induction false} NothingDecoded()
    ensures Decoded("") == ""
  {
  }

  // Three raw bytes decode to at least one: a name too long to look at cannot be a short one.
  lemma {:induction false} RawAtMostThrice(value: string)
    ensures |value| <= 3 * |Decoded(value)|
  {
    if |value| > 0 {
      if value[0] == '#' && |value| >= 3 && IsHexDigit(value[1]) && IsHexDigit(value[2]) {
        RawAtMostThrice(value[3..]);
      } else {
        RawAtMostThrice(value[1..]);
      }
    }
  }

  predicate AreDigits(s: string) { forall i | 0 <= i < |s| :: '0' <= s[i] <= '9' }

  predicate AllDigits(s: string) { |s| > 0 && AreDigits(s) }

  predicate IsInteger(word: string) { AllDigits(word) || (|word| > 0 && word[0] == '-' && AllDigits(word[1..])) }

  function Digits(s: string): (v: nat)
    requires AreDigits(s)
  {
    if |s| == 0 then 0 else 10 * Digits(s[..|s| - 1]) + (s[|s| - 1] as int - '0' as int)
  }

  function IntegerValue(word: string): int
    requires IsInteger(word)
  {
    if word[0] == '-' then -(Digits(word[1..]) as int) else Digits(word)
  }

  // ---------------------------------------------------------------- the stream keyword

  predicate AreBlanks(s: string) { forall i | 0 <= i < |s| :: s[i] == ' ' || s[i] == '\t' }

  // Blanks and tabs, then one end of line.
  predicate IsGap(gap: string) {
    || (|gap| >= 2 && gap[|gap| - 2..] == "\r\n" && AreBlanks(gap[..|gap| - 2]))
    || (|gap| >= 1 && IsLineEnd(gap[|gap| - 1]) && AreBlanks(gap[..|gap| - 1]))
  }

  function LineEndAfter(s: string, i: nat): (e: nat)
    requires i <= |s|
    ensures i <= e <= |s| && e <= i + 2
  {
    if i + 1 < |s| && s[i] == '\r' && s[i + 1] == '\n' then i + 2
    else if i < |s| && IsLineEnd(s[i]) then i + 1
    else i
  }

  predicate StartsAt(s: string, word: string, i: nat) { i + |word| <= |s| && s[i..i + |word|] == word }

  // A body of the given length behind "stream", ended by "endstream"; the offset after it.
  function StreamEnd(s: string, wordEnd: nat, length: nat): (e: int)
    requires wordEnd <= |s|
    ensures e == -1 || wordEnd < e <= |s|
  {
    var start := LineEndAfter(s, wordEnd);
    if start == wordEnd || start + length > |s| then -1
    else
      var end := LineEndAfter(s, start + length);
      if !StartsAt(s, "endstream", end) || (end + 9 < |s| && !IsDelimiter(s[end + 9])) then -1 else end + 9
  }
}
