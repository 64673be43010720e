/** The string operations the core relies on: Python's `str.lower()` and
    `str.split()` (used to tokenise interest profiles in code_editor/utils.py),
    and JavaScript's `String.prototype.trim()` and a global `\n` replace (used
    by the browser client). Strings are sequences of characters. */
module Text {
  import opened Common

  // ---------------------------------------------------------------------
  // Python side
  // ---------------------------------------------------------------------

  /** The characters for which Python's `str.isspace()` holds, which are the
      separators of `str.split()` called without arguments. */
  predicate PySpace(c: char) {
    var n := c as int;
    (0x09 <= n <= 0x0D) || (0x1C <= n <= 0x20) || n == 0x85 || n == 0xA0
    || n == 0x1680 || (0x2000 <= n <= 0x200A) || n == 0x2028 || n == 0x2029
    || n == 0x202F || n == 0x205F || n == 0x3000
  }

  predicate IsUpperAscii(c: char) {
    'A' <= c <= 'Z'
  }

  function LowerChar(c: char): char {
    if IsUpperAscii(c) then (c as int + 32) as char else c
  }

  /** Python's `str.lower()` on the ASCII letters. */
  function PyLower(s: string): (r: string)
    ensures |r| == |s|
    ensures forall i :: 0 <= i < |r| ==> !IsUpperAscii(r[i])
  {
    seq(|s|, i requires 0 <= i < |s| => LowerChar(s[i]))
  }

  lemma PyLowerIdempotent(s: string)
    ensures PyLower(PyLower(s)) == PyLower(s)
  {
  }

  /** A token of `str.split()`: non-empty and free of separators. */
  ghost predicate IsWord(w: string) {
    |w| > 0 && forall i :: 0 <= i < |w| ==> !PySpace(w[i])
  }

  /** Length of the run of non-separators that starts `s`. */
  function WordLength(s: string): (n: nat)
    ensures n <= |s|
    ensures forall i :: 0 <= i < n ==> !PySpace(s[i])
    ensures n < |s| ==> PySpace(s[n])
  {
    if s == [] || PySpace(s[0]) then 0 else 1 + WordLength(s[1..])
  }

  /** Python's `str.split()` without arguments: the maximal runs of
      non-separators, in order; runs of separators and separators at either
      end produce no empty tokens. */
  function PySplit(s: string): (words: seq<string>)
    ensures forall i :: 0 <= i < |words| ==> IsWord(words[i])
    ensures forall i, j :: 0 <= i < |words| && 0 <= j < |words[i]| ==> words[i][j] in s
    decreases |s|
  {
    if s == [] then []
    else if PySpace(s[0]) then PySplit(s[1..])
    else
      var n := WordLength(s);
      [s[..n]] + PySplit(s[n..])
  }

  /** Tokens of a lower-cased text are lower-case. */
  lemma SplitLowerIsLower(s: string, i: nat, j: nat)
    requires i < |PySplit(PyLower(s))| && j < |PySplit(PyLower(s))[i]|
    ensures !IsUpperAscii(PySplit(PyLower(s))[i][j])
  {
    var c := PySplit(PyLower(s))[i][j];
    assert c in PyLower(s);
  }

  /** Words joined by single spaces, the inverse of `PySplit`. */
  function JoinWords(words: seq<string>): string {
    if words == [] then ""
    else if |words| == 1 then words[0]
    else words[0] + " " + JoinWords(words[1..])
  }

  lemma {:induction false} WordLengthOfWord(w: string, rest: string)
    requires IsWord(w)
    requires rest == [] || PySpace(rest[0])
    ensures WordLength(w + rest) == |w|
    decreases |w|
  {
    if |w| > 1 {
      assert (w + rest)[1..] == w[1..] + rest;
      WordLengthOfWord(w[1..], rest);
    }
  }

  lemma SplitLeadingSpace(s: string)
    ensures PySplit(" " + s) == PySplit(s)
  {
    assert (" " + s)[1..] == s;
  }

  /** Splitting undoes joining with single spaces. */
  lemma {:induction false} SplitJoin(words: seq<string>)
    requires forall i :: 0 <= i < |words| ==> IsWord(words[i])
    ensures PySplit(JoinWords(words)) == words
  {
    if words == [] {
    } else if |words| == 1 {
      var w := words[0];
      WordLengthOfWord(w, []);
      assert w + [] == w;
      assert w[|w|..] == [];
    } else {
      var w := words[0];
      var rest := " " + JoinWords(words[1..]);
      var s := w + rest;
      assert JoinWords(words) == s;
      WordLengthOfWord(w, rest);
      assert s[..|w|] == w;
      assert s[|w|..] == rest;
      SplitLeadingSpace(JoinWords(words[1..]));
      SplitJoin(words[1..]);
    }
  }

  // ---------------------------------------------------------------------
  // JavaScript side
  // ---------------------------------------------------------------------

  /** WhiteSpace and LineTerminator code points, which `trim()` removes. */
  predicate JsSpace(c: char) {
    var n := c as int;
    (0x09 <= n <= 0x0D) || n == 0x20 || n == 0xA0 || n == 0xFEFF
    || n == 0x1680 || (0x2000 <= n <= 0x200A) || n == 0x2028 || n == 0x2029
    || n == 0x202F || n == 0x205F || n == 0x3000
  }

  function LeadingSpaces(s: string): (n: nat)
    ensures n <= |s|
    ensures forall i :: 0 <= i < n ==> JsSpace(s[i])
    ensures n < |s| ==> !JsSpace(s[n])
  {
    if s == [] || !JsSpace(s[0]) then 0 else 1 + LeadingSpaces(s[1..])
  }

  function TrailingSpaces(s: string): (n: nat)
    ensures n <= |s|
    ensures forall i :: |s| - n <= i < |s| ==> JsSpace(s[i])
    ensures n < |s| ==> !JsSpace(s[|s| - 1 - n])
  {
    if s == [] || !JsSpace(s[|s| - 1]) then 0 else 1 + TrailingSpaces(s[..|s| - 1])
  }

  /** `String.prototype.trim()`: the text without white space at either end;
      it is empty exactly when the text is white space only. */
  function JsTrim(s: string): (r: string)
    ensures r == [] || (!JsSpace(r[0]) && !JsSpace(r[|r| - 1]))
    ensures r == [] <==> forall i :: 0 <= i < |s| ==> JsSpace(s[i])
  {
    var rest := s[LeadingSpaces(s)..];
    rest[..|rest| - TrailingSpaces(rest)]
  }

  /** The trimmed text is the middle of the original, and only white space
      was cut off on either side. */
  lemma TrimIsInfix(s: string)
    ensures LeadingSpaces(s) + |JsTrim(s)| <= |s|
    ensures s[LeadingSpaces(s)..LeadingSpaces(s) + |JsTrim(s)|] == JsTrim(s)
    ensures forall i :: 0 <= i < |s| && !(LeadingSpaces(s) <= i < LeadingSpaces(s) + |JsTrim(s)|) ==> JsSpace(s[i])
  {
    var a := LeadingSpaces(s);
    var rest := s[a..];
    var b := TrailingSpaces(rest);
    var e := a + |rest| - b;
    assert JsTrim(s) == rest[..|rest| - b];
    assert s[a..e] == rest[..|rest| - b];
    forall i | e <= i < |s|
      ensures JsSpace(s[i])
    {
      assert s[i] == rest[i - a];
    }
  }

  lemma TrimIdempotent(s: string)
    ensures JsTrim(JsTrim(s)) == JsTrim(s)
  {
    var r := JsTrim(s);
    if r != [] {
      assert LeadingSpaces(r) == 0;
      assert r[0..] == r;
      assert TrailingSpaces(r) == 0;
    }
  }

  /** What one character becomes: `<br>` for a line break, else itself. */
  function Piece(c: char): string {
    if c == '\n' then "<br>" else [c]
  }

  /** `s.replace(/\n/g, '<br>')`. */
  function ReplaceNewlines(s: string): (r: string)
    ensures '\n' !in r
    ensures |r| == |s| + 3 * Count(s, '\n')
  {
    if s == [] then []
    else ReplaceNewlines(s[..|s| - 1]) + Piece(s[|s| - 1])
  }

  lemma ReplaceNewlinesSnoc(s: string, c: char)
    ensures ReplaceNewlines(s + [c]) == ReplaceNewlines(s) + Piece(c)
  {
    assert (s + [c])[..|s|] == s;
  }

  /** The replacement works piece by piece: the text between line breaks is
      kept and every line break becomes `<br>`. */
  lemma {:induction false} ReplaceNewlinesAppend(a: string, b: string)
    ensures ReplaceNewlines(a + b) == ReplaceNewlines(a) + ReplaceNewlines(b)
    decreases |b|
  {
    if b == [] {
      assert a + b == a;
    } else {
      var b' := b[..|b| - 1];
      var c := b[|b| - 1];
      assert a + b == (a + b') + [c];
      assert b == b' + [c];
      calc {
        ReplaceNewlines(a + b);
        { ReplaceNewlinesSnoc(a + b', c); }
        ReplaceNewlines(a + b') + Piece(c);
        { ReplaceNewlinesAppend(a, b'); }
        (ReplaceNewlines(a) + ReplaceNewlines(b')) + Piece(c);
        ReplaceNewlines(a) + (ReplaceNewlines(b') + Piece(c));
        { ReplaceNewlinesSnoc(b', c); }
        ReplaceNewlines(a) + ReplaceNewlines(b);
      }
    }
  }

  lemma {:induction false} ReplaceNewlinesKeepsPlainText(s: string)
    requires '\n' !in s
    ensures ReplaceNewlines(s) == s
  {
    if s != [] {
      assert '\n' !in s[..|s| - 1];
      ReplaceNewlinesKeepsPlainText(s[..|s| - 1]);
      assert s[..|s| - 1] + [s[|s| - 1]] == s;
    }
  }
}
