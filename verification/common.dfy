/** Shared vocabulary: optional values, error results, JavaScript truthiness
    of strings, whitespace, ASCII case folding, substring search, and
    order-preserving filtering. */
module Common {

  datatype Option<T> = None | Some(value: T)

  /** A remote call or a parse either succeeds with a value or fails with a message. */
  datatype Result<T> = Ok(value: T) | Err(msg: string)

  /** A JavaScript string is truthy exactly when it is not empty. */
  predicate Truthy(s: string) { s != "" }

  /** A JavaScript optional string (`null` or a string) is truthy when present and non-empty. */
  predicate Present(o: Option<string>) { o.Some? && o.value != "" }

  /** The characters `String.prototype.trim` removes (ASCII whitespace, NBSP, BOM, line/paragraph separators). */
  predicate IsWhitespace(c: char) {
    c == ' ' || c == '\t' || c == '\n' || c == '\r' || c == '\U{000B}' || c == '\U{000C}'
    || c == '\U{00A0}' || c == '\U{FEFF}' || c == '\U{2028}' || c == '\U{2029}'
  }

  /** `!s.trim()`: the string is empty after trimming, i.e. it holds only whitespace. */
  predicate IsBlank(s: string) {
    forall i :: 0 <= i < |s| ==> IsWhitespace(s[i])
  }

  function LowerChar(c: char): char {
    if 'A' <= c <= 'Z' then (c as int + 32) as char else c
  }

  /** `toLowerCase`, on the ASCII letters. */
  function ToLower(s: string): (r: string)
    ensures |r| == |s|
    ensures forall i :: 0 <= i < |s| ==> r[i] == LowerChar(s[i])
  {
    if s == [] then [] else [LowerChar(s[0])] + ToLower(s[1..])
  }

  function UpperChar(c: char): char {
    if 'a' <= c <= 'z' then (c as int - 32) as char else c
  }

  /** `toUpperCase`, on the ASCII letters. */
  function Upper(s: string): (r: string)
    ensures |r| == |s|
    ensures forall i :: 0 <= i < |s| ==> r[i] == UpperChar(s[i])
  {
    if s == [] then [] else [UpperChar(s[0])] + Upper(s[1..])
  }

  predicate IsPrefix(p: string, s: string) {
    |p| <= |s| && s[..|p|] == p
  }

  /** `s.includes(q)`. */
  predicate Contains(s: string, q: string)
    decreases |s|
  {
    IsPrefix(q, s) || (|s| > 0 && Contains(s[1..], q))
  }

  lemma {:induction false} ContainsAt(s: string, q: string, i: nat)
    requires i + |q| <= |s| && s[i..i + |q|] == q
    ensures Contains(s, q)
    decreases i
  {
    if i > 0 {
      assert s[1..][i - 1..i - 1 + |q|] == q;
      ContainsAt(s[1..], q, i - 1);
    }
  }

  /** Concatenation regroups freely. */
  lemma {:induction false} Associative<T>(a: seq<T>, b: seq<T>, c: seq<T>)
    ensures (a + b) + c == a + (b + c)
  {
  }

  /** `Array.prototype.filter`. */
  function Filter<T>(s: seq<T>, p: T -> bool): (r: seq<T>)
    ensures |r| <= |s|
  {
    if s == [] then []
    else if p(s[0]) then [s[0]] + Filter(s[1..], p)
    else Filter(s[1..], p)
  }

  /** The filtered list holds exactly the elements that satisfy the predicate. */
  lemma {:induction false} FilterMembers<T>(s: seq<T>, p: T -> bool)
    ensures forall x :: x in Filter(s, p) ==> x in s && p(x)
    ensures forall i :: 0 <= i < |s| && p(s[i]) ==> s[i] in Filter(s, p)
    decreases |s|
  {
    if s != [] {
      FilterMembers(s[1..], p);
      assert forall i :: 1 <= i < |s| ==> s[i] == s[1..][i - 1];
    }
  }

  /** `r` is an order-preserving sublist of `s` (a subsequence). */
  predicate Sublist<T(==)>(r: seq<T>, s: seq<T>)
    decreases |s|
  {
    if r == [] then true
    else if s == [] then false
    else if r[0] == s[0] then Sublist(r[1..], s[1..])
    else Sublist(r, s[1..])
  }

  lemma {:induction false} FilterIsSublist<T>(s: seq<T>, p: T -> bool)
    ensures Sublist(Filter(s, p), s)
    decreases |s|
  {
    if s != [] {
      FilterIsSublist(s[1..], p);
      if p(s[0]) {
        assert Filter(s, p)[1..] == Filter(s[1..], p);
      } else if Filter(s, p) != [] {
        SublistSkip(Filter(s, p), s);
      }
    }
  }

  /** A sublist of the tail is a sublist of the whole. */
  lemma {:induction false} SublistSkip<T>(r: seq<T>, s: seq<T>)
    requires s != [] && Sublist(r, s[1..])
    ensures Sublist(r, s)
    decreases |s|, 0
  {
    if r != [] && r[0] == s[0] {
      SublistTail(r, s[1..]);
    }
  }

  /** Dropping the head of a sublist keeps it a sublist. */
  lemma {:induction false} SublistTail<T>(r: seq<T>, s: seq<T>)
    requires r != [] && Sublist(r, s)
    ensures Sublist(r[1..], s)
    decreases |s|, 1
  {
    assert s != [];
    if r[0] == s[0] {
      if r[1..] != [] { SublistSkip(r[1..], s); }
    } else {
      SublistTail(r, s[1..]);
      if r[1..] != [] { SublistSkip(r[1..], s); }
    }
  }

  /** Filtering keeps exactly the elements satisfying the predicate, counted with multiplicity. */
  lemma {:induction false} FilterMultiset<T>(s: seq<T>, p: T -> bool, x: T)
    ensures multiset(Filter(s, p))[x] == if p(x) then multiset(s)[x] else 0
    decreases |s|
  {
    if s != [] {
      FilterMultiset(s[1..], p, x);
      assert s == [s[0]] + s[1..];
      if p(s[0]) { assert Filter(s, p) == [s[0]] + Filter(s[1..], p); }
    }
  }

  lemma {:induction false} FilterAppend<T>(a: seq<T>, b: seq<T>, p: T -> bool)
    ensures Filter(a + b, p) == Filter(a, p) + Filter(b, p)
    decreases |a|
  {
    if a == [] {
      assert a + b == b;
    } else {
      var x, t := a[0], a[1..];
      assert a == [x] + t && a + b == [x] + (t + b);
      FilterCons(x, t + b, p);
      FilterCons(x, t, p);
      FilterAppend(t, b, p);
      Associative(if p(x) then [x] else [], Filter(t, p), Filter(b, p));
    }
  }

  /** The filter starts with the first element that passes. */
  lemma {:induction false} FilterFirst<T>(s: seq<T>, p: T -> bool, n: nat)
    requires n < |s| && p(s[n])
    requires forall m :: 0 <= m < n ==> !p(s[m])
    ensures Filter(s, p) != [] && Filter(s, p)[0] == s[n]
    decreases n
  {
    if n > 0 {
      assert !p(s[0]);
      FilterFirst(s[1..], p, n - 1);
    }
  }

  lemma {:induction false} FilterCons<T>(x: T, s: seq<T>, p: T -> bool)
    ensures Filter([x] + s, p) == (if p(x) then [x] else []) + Filter(s, p)
  {
    assert ([x] + s)[0] == x && ([x] + s)[1..] == s;
  }

  function Count<T>(s: seq<T>, p: T -> bool): (n: nat)
    ensures n <= |s|
  {
    |Filter(s, p)|
  }

  /** Elements satisfying two predicates that never hold together are counted apart. */
  lemma {:induction false} CountDisjoint<T>(s: seq<T>, p: T -> bool, q: T -> bool)
    requires forall x :: !(p(x) && q(x))
    ensures Count(s, p) + Count(s, q) <= |s|
    decreases |s|
  {
    if s != [] {
      CountDisjoint(s[1..], p, q);
    }
  }

  /** The same for three pairwise exclusive predicates. */
  lemma {:induction false} CountDisjoint3<T>(s: seq<T>, p: T -> bool, q: T -> bool, r: T -> bool)
    requires forall x :: !(p(x) && q(x)) && !(p(x) && r(x)) && !(q(x) && r(x))
    ensures Count(s, p) + Count(s, q) + Count(s, r) <= |s|
    decreases |s|
  {
    if s != [] {
      CountDisjoint3(s[1..], p, q, r);
    }
  }

  function Min(a: int, b: int): int { if a <= b then a else b }
}
