/**
 * The records of the two in-memory demos are Python dicts decoded from JSON
 * bodies. This module gives them a type, models `d.get(key).casefold()` with
 * its failure when the key is absent or its value is not a string, and states
 * once the list operations both demos share: the comprehension filters, the
 * first-match search and the index loop that rewrites records one by one.
 */
module Dicts {
  import opened Results

  /** A JSON value as FastAPI decodes it from a request body (floats, arrays and nested objects are not modelled). */
  datatype Json = JString(text: string) | JNumber(n: int) | JBool(b: bool) | JNull

  /** A Python dict decoded from a JSON object. */
  type Dict = map<string, Json>

  /** The Python exceptions the demo handlers can raise. */
  datatype PyError = AttributeError | KeyError | IndexError

  function Lower(c: char): char
  {
    if 'A' <= c <= 'Z' then (c as int + 32) as char else c
  }

  /**
   * Stands for Python's `str.casefold`. Only ASCII letters are folded; every
   * property proved about the handlers depends on Fold only through
   * comparisons `Fold(a) == Fold(b)`.
   */
  function Fold(s: string): string
  {
    seq(|s|, i requires 0 <= i < |s| => Lower(s[i]))
  }

  /** `d.get(key)` is a string, so `.casefold()` on it succeeds. */
  predicate HasText(d: Dict, key: string)
  {
    key in d && d[key].JString?
  }

  /** The record's `key` fold-equals the query. */
  predicate Matches(d: Dict, key: string, q: string)
  {
    HasText(d, key) && Fold(d[key].text) == Fold(q)
  }

  /** The record's `key` is a string that does not fold-equal the query. */
  predicate Misses(d: Dict, key: string, q: string)
  {
    HasText(d, key) && Fold(d[key].text) != Fold(q)
  }

  /** `d.get(key).casefold()`: `None.casefold()` or `5.casefold()` raise AttributeError. */
  function FoldedField(d: Dict, key: string): (r: Result<string, PyError>)
    ensures r.Ok? <==> HasText(d, key)
    ensures r.Err? ==> r.error == AttributeError
    ensures r.Ok? ==> r.value == Fold(d[key].text)
  {
    if key in d && d[key].JString? then Ok(Fold(d[key].text)) else Err(AttributeError)
  }

  /** `d.get(key).casefold() == q.casefold()` for a query string `q`. */
  function FieldMatches(d: Dict, key: string, q: string): (r: Result<bool, PyError>)
    ensures r == Err(AttributeError) <==> !HasText(d, key)
    ensures r == Ok(true) <==> Matches(d, key, q)
    ensures r == Ok(false) <==> Misses(d, key, q)
  {
    match FoldedField(d, key)
    case Err(e) => Err(e)
    case Ok(f) => Ok(f == Fold(q))
  }

  /**
   * `d.get(key).casefold() == body.get(key).casefold()`: the left operand is
   * evaluated first, and either raises AttributeError.
   */
  function FieldAgrees(d: Dict, body: Dict, key: string): (r: Result<bool, PyError>)
    ensures r.Err? <==> !HasText(d, key) || !HasText(body, key)
    ensures r.Err? ==> r.error == AttributeError
    ensures r == Ok(true) <==> HasText(body, key) && Matches(d, key, body[key].text)
  {
    match FoldedField(d, key)
    case Err(e) => Err(e)
    case Ok(f) =>
      match FoldedField(body, key)
      case Err(e) => Err(e)
      case Ok(g) => Ok(f == g)
  }

  /** The condition of a list comprehension: one fold-equality, or two joined by a short-circuit `and`. */
  datatype Query =
    | Equals(key: string, q: string)
    | BothEqual(key1: string, q1: string, key2: string, q2: string)

  /** The comprehension's condition evaluated on one record, in Python's order. */
  function Test(d: Dict, query: Query): (r: Result<bool, PyError>)
    ensures r.Ok? <==> Testable(d, query)
    ensures r.Err? ==> r.error == AttributeError
    ensures r.Ok? ==> (r.value <==> Selected(d, query))
  {
    match query
    case Equals(k, q) => FieldMatches(d, k, q)
    case BothEqual(k1, q1, k2, q2) =>
      match FieldMatches(d, k1, q1)
      case Err(e) => Err(e)
      case Ok(m) => if m then FieldMatches(d, k2, q2) else Ok(false)
  }

  /** Evaluating the condition on `d` raises nothing; the second operand of `and` is reached only when the first holds. */
  predicate Testable(d: Dict, query: Query)
  {
    match query
    case Equals(k, _) => HasText(d, k)
    case BothEqual(k1, q1, k2, _) => HasText(d, k1) && (Matches(d, k1, q1) ==> HasText(d, k2))
  }

  /** The record satisfies the condition. */
  predicate Selected(d: Dict, query: Query)
  {
    match query
    case Equals(k, q) => Matches(d, k, q)
    case BothEqual(k1, q1, k2, q2) => Matches(d, k1, q1) && Matches(d, k2, q2)
  }

  /** `a` is `b` with some elements left out, the rest in their original order. */
  ghost predicate IsSubsequence<T>(a: seq<T>, b: seq<T>)
    decreases |b|
  {
    if b == [] then a == []
    else IsSubsequence(a, b[1..]) || (a != [] && a[0] == b[0] && IsSubsequence(a[1..], b[1..]))
  }

  /**
   * `[d for d in s if <query>]`: it raises the first record's error, and
   * otherwise keeps exactly the selected records, each as often as `s` holds
   * it, in their order in `s`.
   */
  function Filter(s: seq<Dict>, query: Query): (r: Result<seq<Dict>, PyError>)
    ensures r.Ok? <==> forall i :: 0 <= i < |s| ==> Testable(s[i], query)
    ensures r.Err? ==> r.error == AttributeError
    ensures r.Ok? ==> IsSubsequence(r.value, s)
    ensures r.Ok? ==> forall d :: multiset(r.value)[d] == if Selected(d, query) then multiset(s)[d] else 0
  {
    if s == [] then Ok([])
    else
      match Test(s[0], query)
      case Err(e) => Err(e)
      case Ok(m) =>
        match Filter(s[1..], query)
        case Err(e) => Err(e)
        case Ok(t) =>
          assert s == [s[0]] + s[1..];
          Ok(if m then [s[0]] + t else t)
  }

  /**
   * Adding a second condition with `and` narrows a filter: it then fails only
   * where the one-condition filter fails too, and keeps a subsequence of what
   * that filter keeps.
   */
  lemma {:induction false} BothWithinFirst(s: seq<Dict>, key1: string, q1: string, key2: string, q2: string)
    requires Filter(s, BothEqual(key1, q1, key2, q2)).Ok?
    ensures Filter(s, Equals(key1, q1)).Ok?
    ensures IsSubsequence(Filter(s, BothEqual(key1, q1, key2, q2)).value, Filter(s, Equals(key1, q1)).value)
  {
    var both, one := BothEqual(key1, q1, key2, q2), Equals(key1, q1);
    if s != [] {
      assert Filter(s[1..], both).Ok? by {
        assert forall i :: 0 <= i < |s[1..]| ==> s[1..][i] == s[i + 1];
      }
      BothWithinFirst(s[1..], key1, q1, key2, q2);
      var b, o := Filter(s[1..], both).value, Filter(s[1..], one).value;
      if Selected(s[0], both) {
        assert Filter(s, both).value == [s[0]] + b && Filter(s, one).value == [s[0]] + o;
        assert ([s[0]] + b)[1..] == b && ([s[0]] + o)[1..] == o;
      } else if Selected(s[0], one) {
        assert Filter(s, both).value == b && Filter(s, one).value == [s[0]] + o;
        assert ([s[0]] + o)[1..] == o;
      }
    }
  }

  /**
   * The first index from `i` on whose record fold-matches `q` under `key`,
   * as the loops `for book in BOOKS: if ...: return book` and
   * `for i in range(len(BOOKS)): if ...: BOOKS.pop(i); break` find it: the
   * scan stops with AttributeError at a record without a text `key`.
   */
  function SearchFrom(s: seq<Dict>, key: string, q: string, i: nat): (r: Result<Option<nat>, PyError>)
    requires i <= |s|
    decreases |s| - i
    ensures r == Ok(None) <==> forall j :: i <= j < |s| ==> Misses(s[j], key, q)
    ensures r.Ok? && r.value.Some? ==>
      i <= r.value.value < |s| && Matches(s[r.value.value], key, q) &&
      forall j :: i <= j < r.value.value ==> Misses(s[j], key, q)
    ensures r.Err? ==>
      r.error == AttributeError &&
      exists k :: i <= k < |s| && !HasText(s[k], key) && forall j :: i <= j < k ==> Misses(s[j], key, q)
  {
    if i == |s| then Ok(None)
    else
      match FieldMatches(s[i], key, q)
      case Err(e) => Err(e)
      case Ok(m) => if m then Ok(Some(i)) else SearchFrom(s, key, q, i + 1)
  }

  /**
   * The loop `for i in range(len(s)): if <s[i] matches>: s.pop(i); break`:
   * it removes the first record whose `key` fold-matches `q` and nothing else,
   * and when a record before that match has no text `key` it raises
   * AttributeError with the list untouched.
   */
  method RemoveFirstMatch(s: seq<Dict>, key: string, q: string) returns (t: seq<Dict>, err: Option<PyError>)
    ensures match SearchFrom(s, key, q, 0)
      case Ok(Some(k)) => t == s[..k] + s[k + 1..] && err == None
      case Ok(None) => t == s && err == None
      case Err(e) => t == s && err == Some(e)
  {
    var i := 0;
    while i < |s|
      invariant 0 <= i <= |s|
      invariant SearchFrom(s, key, q, 0) == SearchFrom(s, key, q, i)
    {
      var m := FieldMatches(s[i], key, q);
      if m.Err? {
        return s, Some(m.error);
      }
      if m.value {
        return s[..i] + s[i + 1..], None;
      }
      i := i + 1;
    }
    return s, None;
  }

  /**
   * The index loop `for i in range(len(s)): s[i] = step(s[i])` from index
   * `i` on, stopping at the first step that raises; the records already
   * rewritten stay rewritten.
   */
  function Sweep(s: seq<Dict>, step: Dict -> Result<Dict, PyError>, i: nat): (r: (seq<Dict>, Option<PyError>))
    requires i <= |s|
    decreases |s| - i
    ensures |r.0| == |s|
    ensures r.1.None? <==> forall j :: i <= j < |s| ==> step(s[j]).Ok?
  {
    if i == |s| then (s, None)
    else
      match step(s[i])
      case Err(e) => (s, Some(e))
      case Ok(d) =>
        assert forall j :: i < j < |s| ==> s[i := d][j] == s[j];
        Sweep(s[i := d], step, i + 1)
  }

  /**
   * What a sweep does: it keeps the length; it succeeds exactly when every
   * step does, and then rewrites each record by its step; when a step raises,
   * the records before it are rewritten and the rest are untouched.
   */
  lemma {:induction false} SweepEffect(s: seq<Dict>, step: Dict -> Result<Dict, PyError>, i: nat)
    requires i <= |s|
    decreases |s| - i
    ensures |Sweep(s, step, i).0| == |s|
    ensures Sweep(s, step, i).0[..i] == s[..i]
    ensures Sweep(s, step, i).1.None? <==> forall j :: i <= j < |s| ==> step(s[j]).Ok?
    ensures Sweep(s, step, i).1.None? ==>
      forall j :: i <= j < |s| ==> Sweep(s, step, i).0[j] == step(s[j]).value
    ensures Sweep(s, step, i).1.Some? ==>
      exists k :: i <= k < |s| && step(s[k]) == Err(Sweep(s, step, i).1.value) &&
        (forall j :: i <= j < k ==> step(s[j]).Ok? && Sweep(s, step, i).0[j] == step(s[j]).value) &&
        (forall j :: k <= j < |s| ==> Sweep(s, step, i).0[j] == s[j])
  {
    if i < |s| {
      match step(s[i])
      case Err(e) =>
      case Ok(d) =>
        var s' := s[i := d];
        SweepEffect(s', step, i + 1);
        assert s'[..i] == s[..i];
        forall j | i + 1 <= j < |s| ensures s'[j] == s[j] { }
    }
  }

  lemma {:induction false} SubsequenceReflexive<T>(s: seq<T>)
    decreases |s|
    ensures IsSubsequence(s, s)
  {
    if s != [] { SubsequenceReflexive(s[1..]); }
  }

  /** Removing one element leaves a subsequence. */
  lemma {:induction false} SubsequenceOfRemoval<T>(s: seq<T>, i: nat)
    requires i < |s|
    decreases i
    ensures IsSubsequence(s[..i] + s[i + 1..], s)
  {
    if i == 0 {
      assert s[..0] + s[1..] == s[1..];
      SubsequenceReflexive(s[1..]);
    } else {
      SubsequenceOfRemoval(s[1..], i - 1);
      assert (s[..i] + s[i + 1..])[1..] == s[1..][..i - 1] + s[1..][i..];
    }
  }

  /** Removing one element takes exactly one occurrence of it out of the multiset. */
  lemma MultisetOfRemoval<T>(s: seq<T>, i: nat)
    requires i < |s|
    ensures multiset(s) == multiset(s[..i] + s[i + 1..]) + multiset{s[i]}
  {
    assert s == s[..i] + [s[i]] + s[i + 1..];
  }

  /** Subsequences compose. */
  lemma {:induction false} SubsequenceTransitive<T>(a: seq<T>, b: seq<T>, c: seq<T>)
    requires IsSubsequence(a, b) && IsSubsequence(b, c)
    decreases |c|
    ensures IsSubsequence(a, c)
  {
    if c != [] {
      if IsSubsequence(b, c[1..]) {
        SubsequenceTransitive(a, b, c[1..]);
      } else if IsSubsequence(a, b[1..]) {
        SubsequenceTransitive(a, b[1..], c[1..]);
      } else {
        SubsequenceTransitive(a[1..], b[1..], c[1..]);
      }
    }
  }
}
