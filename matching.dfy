/** Choosing the suggestions: `DropDown.prototype.filter` and the bounded slice of
    its result that `handleKeyPress` renders. */
module Matching {
  import opened Text

  function Min(a: nat, b: nat): nat
  {
    if a <= b then a else b
  }

  /** `items.filter(item => regex.test(item))`: the candidates containing `query`,
      ignoring case, in their original order. */
  function Filter(items: seq<string>, query: LiteralQuery): (r: seq<string>)
    ensures |r| <= |items|
    ensures forall x :: x in r ==> x in items && ContainsIgnoringCase(x, query)
  {
    if items == [] then []
    else if ContainsIgnoringCase(items[0], query) then [items[0]] + Filter(items[1..], query)
    else Filter(items[1..], query)
  }

  /** `r` is the subsequence of `items` at the strictly increasing positions `idx`. */
  ghost predicate IsSelection(r: seq<string>, items: seq<string>, idx: seq<nat>)
  {
    |idx| == |r| &&
    (forall k :: 0 <= k < |idx| ==> idx[k] < |items| && r[k] == items[idx[k]]) &&
    (forall k, l :: 0 <= k < l < |idx| ==> idx[k] < idx[l])
  }

  /** Every position moved one place to the right. */
  function Shift(idx: seq<nat>): (r: seq<nat>)
    ensures |r| == |idx|
    ensures forall k :: 0 <= k < |idx| ==> r[k] == idx[k] + 1
  {
    seq(|idx|, k requires 0 <= k < |idx| => idx[k] + 1)
  }

  /** A shifted position list holds `i + 1` exactly when the original holds `i`, and never 0. */
  lemma ShiftMembership(idx: seq<nat>, i: nat)
    ensures i + 1 in Shift(idx) <==> i in idx
    ensures 0 !in Shift(idx)
  {
  }

  /** A selection from `rest` gives one from `[head] + rest`, with or without `head`. */
  lemma SelectionCons(head: string, rest: seq<string>, r: seq<string>, idx: seq<nat>, keep: bool)
    requires IsSelection(r, rest, idx)
    ensures IsSelection(if keep then [head] + r else r, [head] + rest,
                        if keep then [0] + Shift(idx) else Shift(idx))
  {
  }

  /** The filter keeps exactly the matching positions, each once, in order. */
  lemma {:induction false} FilterSelectsMatchingPositions(items: seq<string>, query: LiteralQuery)
    returns (idx: seq<nat>)
    ensures IsSelection(Filter(items, query), items, idx)
    ensures forall i: nat :: i < |items| ==> (i in idx <==> ContainsIgnoringCase(items[i], query))
  {
    if items == [] {
      idx := [];
    } else {
      var rest := items[1..];
      var tail := FilterSelectsMatchingPositions(rest, query);
      var keep := ContainsIgnoringCase(items[0], query);
      assert items == [items[0]] + rest;
      SelectionCons(items[0], rest, Filter(rest, query), tail, keep);
      idx := if keep then [0] + Shift(tail) else Shift(tail);
      PositionsCons(items, query, tail);
    }
  }

  /** The matching positions of `items` from those of `items[1..]`. */
  lemma PositionsCons(items: seq<string>, query: LiteralQuery, tail: seq<nat>)
    requires items != []
    requires forall i: nat :: i < |items| - 1 ==> (i in tail <==> ContainsIgnoringCase(items[1..][i], query))
    ensures var idx := if ContainsIgnoringCase(items[0], query) then [0] + Shift(tail) else Shift(tail);
      forall i: nat :: i < |items| ==> (i in idx <==> ContainsIgnoringCase(items[i], query))
  {
    var keep := ContainsIgnoringCase(items[0], query);
    var idx := if keep then [0] + Shift(tail) else Shift(tail);
    forall i: nat | i < |items|
      ensures i in idx <==> ContainsIgnoringCase(items[i], query)
    {
      if i == 0 {
        ShiftMembership(tail, 0);
        assert 0 in idx <==> keep;
      } else {
        ShiftMembership(tail, i - 1);
        assert i in idx <==> i - 1 in tail;
        assert items[i] == items[1..][i - 1];
      }
    }
  }

  /** A candidate is suggested exactly when it is in the list and contains the query. */
  lemma {:induction false} FilterMembership(items: seq<string>, query: LiteralQuery, x: string)
    ensures x in Filter(items, query) <==> x in items && ContainsIgnoringCase(x, query)
  {
    if items != [] {
      FilterMembership(items[1..], query, x);
      if x != items[0] {
        assert x in items ==> x in items[1..];
      }
    }
  }

  /** Filtering splits over concatenation of the candidate list. */
  lemma {:induction false} FilterAppend(a: seq<string>, b: seq<string>, query: LiteralQuery)
    ensures Filter(a + b, query) == Filter(a, query) + Filter(b, query)
  {
    if a == [] {
      assert a + b == b;
    } else {
      assert (a + b)[1..] == a[1..] + b;
      FilterAppend(a[1..], b, query);
    }
  }

  /** Filtering a filtered list changes nothing. */
  lemma {:induction false} FilterIdempotent(items: seq<string>, query: LiteralQuery)
    ensures Filter(Filter(items, query), query) == Filter(items, query)
  {
    if items != [] {
      FilterIdempotent(items[1..], query);
    }
  }

  /** The result does not depend on the capitalisation of the query. */
  lemma {:induction false} FilterIgnoresQueryCase(items: seq<string>, q: LiteralQuery, q': LiteralQuery)
    requires SameIgnoringCase(q, q')
    ensures Filter(items, q) == Filter(items, q')
  {
    if items != [] {
      ContainsIgnoresQueryCase(items[0], q, q');
      FilterIgnoresQueryCase(items[1..], q, q');
    }
  }

  /** An empty pattern keeps every candidate, which is why the handler never
      filters on empty text. */
  lemma {:induction false} FilterEmptyQueryKeepsAll(items: seq<string>)
    ensures Filter(items, "") == items
  {
    if items != [] {
      EmptyQueryMatchesAll(items[0]);
      FilterEmptyQueryKeepsAll(items[1..]);
    }
  }

  /** `s.slice(0, n)` for a non-negative integer `n`. */
  function Take(s: seq<string>, n: nat): (r: seq<string>)
    ensures |r| == Min(n, |s|)
    ensures r == s[..|r|]
  {
    if n < |s| then s[..n] else s
  }

  /** The list `handleKeyPress` renders for the text `text`: nothing for empty
      text, otherwise the first `limit` matches in candidate order. */
  function Suggestions(candidates: seq<string>, limit: nat, text: LiteralQuery): (r: seq<string>)
    ensures |r| == if |text| == 0 then 0 else Min(limit, |Filter(candidates, text)|)
    ensures r == Filter(candidates, text)[..|r|]
    ensures forall x :: x in r ==> x in candidates && ContainsIgnoringCase(x, text)
  {
    if |text| > 0 then Take(Filter(candidates, text), limit) else []
  }
}
