/** Resolving the browser path to the name of the page shown: the last path
    segment, without a query, matched case-insensitively against the page
    table, with the feed as the fallback. */
module Routing {
  import opened Common

  /** The page table's keys, in declaration order. */
  const Pages: seq<string> := [
    "EventFeed", "Home", "SelectPlan", "Payment", "CreateEvent", "EventsDashboard", "EventView",
    "AdminPayments", "AdminLogin", "AdminDashboard", "AdminLoginRedirect", "AdminLayout",
    "AdminUsers", "Welcome", "GuestEntry", "UserSettings"]

  /** One trailing `/` removed, if there is one: the path is the result, or
      the result with a `/` put back. */
  function StripSlash(url: string): (r: string)
    ensures url == r || url == r + "/"
    ensures |url| > 0 && url[|url| - 1] == '/' ==> r == url[..|url| - 1]
    ensures !(|url| > 0 && url[|url| - 1] == '/') ==> r == url
  {
    if |url| > 0 && url[|url| - 1] == '/' then url[..|url| - 1] else url
  }

  /** `split('/').pop()`: what follows the last `/`, or all of it. */
  function LastSegment(s: string): (r: string)
    ensures '/' !in r
    ensures |r| <= |s| && r == s[|s| - |r|..]
    ensures |r| < |s| ==> s[|s| - |r| - 1] == '/'
    decreases |s|
  {
    if s == [] then []
    else if s[|s| - 1] == '/' then []
    else
      var init := LastSegment(s[..|s| - 1]);
      SuffixSnoc(s, init);
      init + [s[|s| - 1]]
  }

  /** A suffix of all but the last element, extended by that element, is a
      suffix of the whole. */
  lemma SuffixSnoc<T>(s: seq<T>, t: seq<T>)
    requires s != [] && |t| <= |s| - 1 && t == s[..|s| - 1][|s| - 1 - |t|..]
    ensures t + [s[|s| - 1]] == s[|s| - 1 - |t|..]
  {
    assert s[..|s| - 1][|s| - 1 - |t|..] == s[|s| - 1 - |t|..|s| - 1];
  }

  /** `split('?')[0]`: what comes before the first `?`, or all of it. */
  function BeforeQuery(s: string): (r: string)
    ensures '?' !in r
    ensures |r| <= |s| && r == s[..|r|]
    ensures |r| < |s| ==> s[|r|] == '?'
    decreases |s|
  {
    if s == [] then []
    else if s[0] == '?' then []
    else [s[0]] + BeforeQuery(s[1..])
  }

  /** `Object.keys(PAGES).find(...)`: the first key equal to the candidate
      when both are lower-cased. */
  function Find(keys: seq<string>, candidate: string): (r: Option<string>)
    ensures r.Some? ==> r.value in keys && ToLower(r.value) == ToLower(candidate)
    ensures r.None? ==> forall k :: k in keys ==> ToLower(k) != ToLower(candidate)
    decreases |keys|
  {
    if keys == [] then None
    else if ToLower(keys[0]) == ToLower(candidate) then Some(keys[0])
    else Find(keys[1..], candidate)
  }

  /** `_getCurrentPage`. */
  function CurrentPage(url: string): (r: string)
    ensures r in Pages
  {
    var found := Find(Pages, Candidate(url));
    if found.Some? then found.value else Pages[0]
  }

  /** A key's length and two of its lower-cased letters; the keys differ in
      these, so no two of them are equal once lower-cased. */
  function Signature(s: string): (int, char, char) {
    (|s|, if |s| > 0 then LowerChar(s[0]) else ' ', if |s| > 5 then LowerChar(s[5]) else ' ')
  }

  lemma {:induction false} LowerDiffers(a: string, b: string)
    requires Signature(a) != Signature(b)
    ensures ToLower(a) != ToLower(b)
  {
    if |a| == |b| {
      if |a| > 0 && LowerChar(a[0]) != LowerChar(b[0]) {
        assert ToLower(a)[0] != ToLower(b)[0];
      }
      if |a| > 5 && LowerChar(a[5]) != LowerChar(b[5]) {
        assert ToLower(a)[5] != ToLower(b)[5];
      }
    }
  }

  lemma {:induction false} PagesShape()
    ensures forall i :: 0 <= i < |Pages| ==> '/' !in Pages[i] && '?' !in Pages[i] && |Pages[i]| > 0
  {
  }

  lemma {:induction false} PagesSignatures()
    ensures forall i, j :: 0 <= i < j < |Pages| ==> Signature(Pages[i]) != Signature(Pages[j])
  {
  }

  /** No two keys are equal once lower-cased. */
  lemma {:induction false} PagesDistinctLowered(i: nat, j: nat)
    requires i < |Pages| && j < |Pages| && i != j
    ensures ToLower(Pages[i]) != ToLower(Pages[j])
  {
    PagesSignatures();
    LowerDiffers(Pages[i], Pages[j]);
  }

  /** Lower-casing brings in no `/` or `?`. */
  lemma {:induction false} LowerKeepsOut(s: string, c: char)
    requires c !in s && !('a' <= c <= 'z')
    ensures c !in ToLower(s)
  {
    forall k | 0 <= k < |s| ensures ToLower(s)[k] != c {
      assert s[k] != c;
    }
  }

  lemma {:induction false} LowerIdempotent(s: string)
    ensures ToLower(ToLower(s)) == ToLower(s)
  {
    assert forall k :: 0 <= k < |s| ==> LowerChar(LowerChar(s[k])) == LowerChar(s[k]);
  }

  /** When the lower-cased keys are all different, a key's own name, in any
      of its lower-case-equal spellings, finds that key. */
  lemma {:induction false} FindUnique(keys: seq<string>, i: nat, candidate: string)
    requires i < |keys| && ToLower(candidate) == ToLower(keys[i])
    requires forall j :: 0 <= j < |keys| && j != i ==> ToLower(keys[j]) != ToLower(keys[i])
    ensures Find(keys, candidate) == Some(keys[i])
    decreases i
  {
    if i > 0 {
      FindUnique(keys[1..], i - 1, candidate);
    }
  }

  /** The text `split('/')` and `split('?')` leave for the lookup. */
  function Candidate(url: string): string {
    BeforeQuery(LastSegment(StripSlash(url)))
  }

  lemma {:induction false} BeforeQueryWhole(s: string)
    requires '?' !in s
    ensures BeforeQuery(s) == s
    decreases |s|
  {
    if s != [] {
      assert s[0] != '?';
      BeforeQueryWhole(s[1..]);
    }
  }

  lemma {:induction false} BeforeQueryStops(p: string, rest: string)
    requires '?' !in p
    ensures BeforeQuery(p + "?" + rest) == p
    decreases |p|
  {
    var s := p + "?" + rest;
    if p == [] {
      assert s[0] == '?';
    } else {
      assert s[0] == p[0];
      assert s[1..] == p[1..] + "?" + rest;
      BeforeQueryStops(p[1..], rest);
    }
  }

  lemma {:induction false} LastSegmentAfter(prefix: string, s: string)
    requires '/' !in s
    ensures LastSegment(prefix + "/" + s) == s
    decreases |s|
  {
    var u := prefix + "/" + s;
    if s == [] {
      assert u[|u| - 1] == '/';
    } else {
      var init := s[..|s| - 1];
      assert u[|u| - 1] == s[|s| - 1];
      assert u[..|u| - 1] == prefix + "/" + init;
      LastSegmentAfter(prefix, init);
      assert s == init + [s[|s| - 1]];
    }
  }

  /** `/name` leaves `name` for the lookup when it holds no `/` or `?`. */
  lemma {:induction false} PlainSegment(s: string)
    requires '/' !in s && '?' !in s && |s| > 0
    ensures Candidate("/" + s) == s
    ensures Candidate("/" + s + "/") == s
  {
    var u := "/" + s;
    assert u[|u| - 1] == s[|s| - 1];
    assert StripSlash(u + "/") == u;
    LastSegmentAfter("", s);
    assert "" + "/" + s == u;
    BeforeQueryWhole(s);
  }

  /** `/name?query` leaves `name` for the lookup. */
  lemma {:induction false} QuerySegment(p: string, q: string)
    requires '/' !in p && '?' !in p && '/' !in q
    ensures Candidate("/" + p + "?" + q) == p
  {
    var s := p + "?" + q;
    var w := "/" + p + "?" + q;
    assert w == "" + "/" + s;
    assert w[|w| - 1] != '/' by {
      if q == [] { assert w[|w| - 1] == '?'; } else { assert w[|w| - 1] == q[|q| - 1]; }
    }
    assert '/' !in s by {
      forall k | 0 <= k < |s| ensures s[k] != '/' {
        if k < |p| { assert s[k] == p[k]; } else if k > |p| { assert s[k] == q[k - |p| - 1]; }
      }
    }
    LastSegmentAfter("", s);
    BeforeQueryStops(p, q);
  }

  /** `_getCurrentPage` shows the key that the remaining text names, ignoring
      case, and the feed when it names none. */
  lemma {:induction false} CurrentPageSpec(url: string)
    ensures forall p :: p in Pages && ToLower(p) == ToLower(Candidate(url)) ==> CurrentPage(url) == p
    ensures (forall p :: p in Pages ==> ToLower(p) != ToLower(Candidate(url))) ==> CurrentPage(url) == "EventFeed"
    ensures CurrentPage(url) != "EventFeed" ==> ToLower(CurrentPage(url)) == ToLower(Candidate(url))
  {
    forall i, j | 0 <= i < |Pages| && 0 <= j < |Pages| && i != j ensures ToLower(Pages[i]) != ToLower(Pages[j]) {
      PagesDistinctLowered(i, j);
    }
    FindDistinct(Pages, Candidate(url));
  }

  /** With no two keys equal once lower-cased, the lookup finds whichever key
      matches. */
  lemma {:induction false} FindDistinct(keys: seq<string>, candidate: string)
    requires forall i, j :: 0 <= i < |keys| && 0 <= j < |keys| && i != j ==> ToLower(keys[i]) != ToLower(keys[j])
    ensures forall p :: p in keys && ToLower(p) == ToLower(candidate) ==> Find(keys, candidate) == Some(p)
  {
    forall p | p in keys && ToLower(p) == ToLower(candidate) ensures Find(keys, candidate) == Some(p) {
      var i :| 0 <= i < |keys| && keys[i] == p;
      FindUnique(keys, i, candidate);
    }
  }

  /** Every page is reached by its name and by its lower-cased name, with or
      without a trailing slash or a query. */
  lemma {:induction false} ResolvesEveryPage(p: string, q: string)
    requires p in Pages && '/' !in q
    ensures CurrentPage("/" + p) == p && CurrentPage("/" + ToLower(p)) == p
    ensures CurrentPage("/" + p + "/") == p && CurrentPage("/" + p + "?" + q) == p
  {
    PagesShape();
    PlainSegment(p);
    QuerySegment(p, q);
    var lp := ToLower(p);
    LowerKeepsOut(p, '/');
    LowerKeepsOut(p, '?');
    PlainSegment(lp);
    LowerIdempotent(p);
    CurrentPageSpec("/" + p);
    CurrentPageSpec("/" + lp);
    CurrentPageSpec("/" + p + "/");
    CurrentPageSpec("/" + p + "?" + q);
  }

  /** The root shows the feed. */
  lemma {:induction false} RootIsFeed(url: string)
    requires url == "/" || url == ""
    ensures CurrentPage(url) == "EventFeed"
  {
    assert StripSlash(url) == "";
    assert Candidate(url) == "";
    PagesShape();
    FindNothing(Pages, Candidate(url));
  }

  /** No key is empty, so the empty text finds none. */
  lemma {:induction false} FindNothing(keys: seq<string>, candidate: string)
    requires forall i :: 0 <= i < |keys| ==> |keys[i]| > 0
    requires candidate == ""
    ensures Find(keys, candidate) == None
  {
  }
}
