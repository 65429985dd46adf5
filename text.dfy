/** Case-insensitive literal matching, the part of `new RegExp(match, 'i').test(item)`
    that the dropdown relies on when the typed text holds no pattern syntax. */
module Text {

  /** The ECMAScript pattern characters (SyntaxCharacter) that give a pattern a
      meaning other than "this exact text". */
  predicate IsSyntaxChar(c: char)
  {
    c == '^' || c == '$' || c == '\\' || c == '.' || c == '*' || c == '+' || c == '?' ||
    c == '(' || c == ')' || c == '[' || c == ']' || c == '{' || c == '}' || c == '|'
  }

  /** A query that a regular expression reads literally. */
  predicate IsLiteralPattern(q: string)
  {
    forall i :: 0 <= i < |q| ==> !IsSyntaxChar(q[i])
  }

  /** The queries the model covers: those the source's pattern treats as plain text. */
  type LiteralQuery = q: string | IsLiteralPattern(q) witness ""

  /** Case folding of a regular expression compiled with the `i` flag and no `u`
      flag: a character is compared by its upper-case form. Only ASCII letters are
      folded here. */
  function Canonicalize(c: char): (u: char)
    ensures !('a' <= u <= 'z')
    ensures u == c || ('a' <= c <= 'z' && u as int == c as int - 32)
  {
    if 'a' <= c <= 'z' then (c as int - 32) as char else c
  }

  /** `query` occurs in `item` at position `i`, ignoring case. */
  predicate MatchesAt(item: string, query: string, i: int)
  {
    0 <= i && i + |query| <= |item| &&
    forall k :: 0 <= k < |query| ==> Canonicalize(item[i + k]) == Canonicalize(query[k])
  }

  /** `s.toUpperCase()`, with only ASCII letters changed. */
  function UpperCase(s: string): (u: string)
    ensures |u| == |s|
    ensures forall k :: 0 <= k < |s| ==> u[k] == Canonicalize(s[k])
  {
    seq(|s|, k requires 0 <= k < |s| => Canonicalize(s[k]))
  }

  /** The `n` characters of `item` from position `i` (empty when out of range). */
  function Window(item: string, i: int, n: nat): (w: string)
    ensures 0 <= i && i + n <= |item| ==> w == item[i..i + n]
  {
    if 0 <= i && i + n <= |item| then item[i..i + n] else []
  }

  /** `regex.test(item)` for a literal query: some stretch of `item` as long as
      the query equals the query once both are upper-cased. */
  predicate ContainsIgnoringCase(item: string, query: string)
    ensures ContainsIgnoringCase(item, query) <==>
      exists i :: 0 <= i <= |item| - |query| && UpperCase(Window(item, i, |query|)) == UpperCase(query)
  {
    WindowsMatch(item, query);
    exists i :: 0 <= i <= |item| - |query| && MatchesAt(item, query, i)
  }

  /** Matching character by character at a position is comparing the upper-cased
      stretch of the item that starts there with the upper-cased query. */
  lemma WindowsMatch(item: string, query: string)
    ensures forall i :: 0 <= i <= |item| - |query| ==>
      (MatchesAt(item, query, i) <==> UpperCase(Window(item, i, |query|)) == UpperCase(query))
  {
    forall i | 0 <= i <= |item| - |query|
      ensures MatchesAt(item, query, i) <==> UpperCase(Window(item, i, |query|)) == UpperCase(query)
    {
      var window := Window(item, i, |query|);
      if MatchesAt(item, query, i) {
        forall k | 0 <= k < |query|
          ensures UpperCase(window)[k] == UpperCase(query)[k]
        {
          assert window[k] == item[i + k];
        }
      }
      if UpperCase(window) == UpperCase(query) {
        forall k | 0 <= k < |query|
          ensures Canonicalize(item[i + k]) == Canonicalize(query[k])
        {
          assert window[k] == item[i + k];
          assert UpperCase(window)[k] == UpperCase(query)[k];
        }
      }
    }
  }

  /** Two queries that differ only in the case of ASCII letters. */
  predicate SameIgnoringCase(q: string, q': string)
  {
    |q| == |q'| && forall k :: 0 <= k < |q| ==> Canonicalize(q[k]) == Canonicalize(q'[k])
  }

  /** Matching does not depend on how the user capitalised the query. */
  lemma ContainsIgnoresQueryCase(item: string, q: string, q': string)
    requires SameIgnoringCase(q, q')
    ensures ContainsIgnoringCase(item, q) <==> ContainsIgnoringCase(item, q')
  {
    if ContainsIgnoringCase(item, q) {
      var i :| 0 <= i <= |item| - |q| && MatchesAt(item, q, i);
      assert MatchesAt(item, q', i);
    }
    if ContainsIgnoringCase(item, q') {
      var i :| 0 <= i <= |item| - |q'| && MatchesAt(item, q', i);
      assert MatchesAt(item, q, i);
    }
  }

  /** The empty pattern matches every string. */
  lemma EmptyQueryMatchesAll(item: string)
    ensures ContainsIgnoringCase(item, "")
  {
    assert MatchesAt(item, "", 0);
  }
}
