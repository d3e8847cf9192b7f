/** The ticker-list builder: from a directory listing, the names that end in
    "_full.csv", with that text removed, sorted. */
module Tickers {

  const Suffix: string := "_full.csv"

  /** `name.endswith(suffix)` */
  predicate EndsWith(name: string, suffix: string)
  {
    |suffix| <= |name| && name[|name| - |suffix|..] == suffix
  }

  /** `s.replace(pattern, "")`: every occurrence of `pattern` removed, scanning
      from the left and never reusing a removed character. */
  function RemoveAll(s: string, pattern: string): (r: string)
    requires |pattern| > 0
    ensures |r| <= |s|
    decreases |s|
  {
    if |s| < |pattern| then s
    else if s[..|pattern|] == pattern then RemoveAll(s[|pattern|..], pattern)
    else [s[0]] + RemoveAll(s[1..], pattern)
  }

  /** A name with no '_' in its stem: removing the suffix from stem + suffix
      gives back the stem (so "AAPL_full.csv" yields "AAPL"). */
  lemma {:induction false} StripSuffix(stem: string)
    requires '_' !in stem
    ensures RemoveAll(stem + Suffix, Suffix) == stem
    decreases |stem|
  {
    var s := stem + Suffix;
    if stem == [] {
      assert s == Suffix;
      assert s[|Suffix|..] == [];
    } else {
      assert s[0] == stem[0] != '_';
      assert s[..|Suffix|] != Suffix by {
        assert s[..|Suffix|][0] == s[0];
      }
      assert s[1..] == stem[1..] + Suffix;
      StripSuffix(stem[1..]);
      assert [stem[0]] + stem[1..] == stem;
    }
  }

  /** Every occurrence goes, not only the last: "A_full.csv_full.csv" yields "A". */
  lemma RemovesEveryOccurrence()
    ensures RemoveAll("A_full.csv_full.csv", Suffix) == "A"
  {
    var s := "A_full.csv_full.csv";
    assert s[..|Suffix|] != Suffix by {
      assert s[..|Suffix|][0] == 'A';
    }
    assert s[1..] == Suffix + Suffix;
    assert (Suffix + Suffix)[..|Suffix|] == Suffix;
    assert (Suffix + Suffix)[|Suffix|..] == Suffix;
    assert Suffix[..|Suffix|] == Suffix;
    assert Suffix[|Suffix|..] == "";
  }

  /** The tickers of `names` in listing order: the stripped names of those
      that end in the suffix. */
  function Matching(names: seq<string>): (r: seq<string>)
    ensures |r| <= |names|
  {
    if names == [] then []
    else
      var init := Matching(names[..|names| - 1]);
      var last := names[|names| - 1];
      if EndsWith(last, Suffix) then init + [RemoveAll(last, Suffix)] else init
  }

  /** Only matching names contribute, each contributes its stripped name, and
      a listing whose names all match yields one ticker per name. */
  lemma {:induction false} MatchingSound(names: seq<string>)
    ensures forall t :: t in Matching(names) ==>
      exists i :: 0 <= i < |names| && EndsWith(names[i], Suffix) && t == RemoveAll(names[i], Suffix)
    ensures (forall i :: 0 <= i < |names| ==> EndsWith(names[i], Suffix)) ==> |Matching(names)| == |names|
  {
    if names != [] {
      var init := names[..|names| - 1];
      MatchingSound(init);
      forall t | t in Matching(names)
        ensures exists i :: 0 <= i < |names| && EndsWith(names[i], Suffix) && t == RemoveAll(names[i], Suffix)
      {
        if t in Matching(init) {
          var i :| 0 <= i < |init| && EndsWith(init[i], Suffix) && t == RemoveAll(init[i], Suffix);
          assert names[i] == init[i];
        } else {
          assert EndsWith(names[|names| - 1], Suffix) && t == RemoveAll(names[|names| - 1], Suffix);
        }
      }
      if forall i :: 0 <= i < |names| ==> EndsWith(names[i], Suffix) {
        assert forall i :: 0 <= i < |init| ==> init[i] == names[i];
      }
    }
  }

  /** How many names of the listing end in the suffix. */
  function CountMatching(names: seq<string>): nat
  {
    if names == [] then 0
    else CountMatching(names[..|names| - 1]) + (if EndsWith(names[|names| - 1], Suffix) then 1 else 0)
  }

  /** One ticker per matching name, in listing order: the name at index `i`,
      when it matches, yields the ticker at the position given by the number
      of matching names before it. */
  lemma {:induction false} MatchingExact(names: seq<string>)
    ensures |Matching(names)| == CountMatching(names)
    ensures forall i :: 0 <= i < |names| && EndsWith(names[i], Suffix) ==>
      CountMatching(names[..i]) < |Matching(names)|
      && Matching(names)[CountMatching(names[..i])] == RemoveAll(names[i], Suffix)
  {
    if names != [] {
      var n := |names| - 1;
      var init := names[..n];
      MatchingExact(init);
      forall i | 0 <= i < |names| && EndsWith(names[i], Suffix)
        ensures CountMatching(names[..i]) < |Matching(names)|
        ensures Matching(names)[CountMatching(names[..i])] == RemoveAll(names[i], Suffix)
      {
        if i < n {
          assert names[..i] == init[..i];
          assert init[i] == names[i];
        } else {
          assert names[..i] == init;
        }
      }
    }
  }

  /** Every matching name contributes its ticker, whatever else the listing holds. */
  lemma MatchingComplete(names: seq<string>, i: nat)
    requires i < |names| && EndsWith(names[i], Suffix)
    ensures RemoveAll(names[i], Suffix) in Matching(names)
  {
    MatchingExact(names);
  }

  /** The loop over the listing, appending the stripped name of every match. */
  method CollectTickers(names: seq<string>) returns (tickers: seq<string>)
    ensures tickers == Matching(names)
  {
    tickers := [];
    var i := 0;
    while i < |names|
      invariant 0 <= i <= |names|
      invariant tickers == Matching(names[..i])
    {
      assert names[..i + 1][..i] == names[..i];
      var filename := names[i];
      if EndsWith(filename, Suffix) {
        var ticker := RemoveAll(filename, Suffix);
        tickers := tickers + [ticker];
      }
      i := i + 1;
    }
    assert names[..|names|] == names;
  }

  /** Python's string order: code point by code point, a proper prefix first. */
  predicate LexLe(a: string, b: string)
    decreases |a|
  {
    a == [] || (b != [] && (a[0] < b[0] || (a[0] == b[0] && LexLe(a[1..], b[1..]))))
  }

  lemma {:induction false} LexLeTotal(a: string, b: string)
    ensures LexLe(a, b) || LexLe(b, a)
    decreases |a|
  {
    if a != [] && b != [] && a[0] == b[0] {
      LexLeTotal(a[1..], b[1..]);
    }
  }

  lemma {:induction false} LexLeTransitive(a: string, b: string, c: string)
    requires LexLe(a, b) && LexLe(b, c)
    ensures LexLe(a, c)
    decreases |a|
  {
    if a != [] && a[0] == b[0] && b[0] == c[0] {
      LexLeTransitive(a[1..], b[1..], c[1..]);
    }
  }

  lemma {:induction false} LexLeReflexive(a: string)
    ensures LexLe(a, a)
    decreases |a|
  {
    if a != [] {
      LexLeReflexive(a[1..]);
    }
  }

  lemma {:induction false} LexLeAntisymmetric(a: string, b: string)
    requires LexLe(a, b) && LexLe(b, a)
    ensures a == b
    decreases |a|
  {
    if a != [] {
      LexLeAntisymmetric(a[1..], b[1..]);
      assert a == [a[0]] + a[1..] && b == [b[0]] + b[1..];
    }
  }

  predicate Sorted(s: seq<string>)
  {
    forall i, j :: 0 <= i < j < |s| ==> LexLe(s[i], s[j])
  }

  /** `x` placed before the first element it does not exceed. */
  function Insert(x: string, s: seq<string>): (r: seq<string>)
    requires Sorted(s)
    ensures Sorted(r)
    ensures multiset(r) == multiset(s) + multiset{x}
  {
    if s == [] then [x]
    else if LexLe(x, s[0]) then
      InsertFrontSorted(x, s);
      [x] + s
    else
      LexLeTotal(x, s[0]);
      var rest := Insert(x, s[1..]);
      InsertBehindSorted(s[0], rest, x, s[1..]);
      assert s == [s[0]] + s[1..];
      [s[0]] + rest
  }

  lemma InsertFrontSorted(x: string, s: seq<string>)
    requires Sorted(s) && s != [] && LexLe(x, s[0])
    ensures Sorted([x] + s)
  {
    var r := [x] + s;
    forall i, j | 0 <= i < j < |r|
      ensures LexLe(r[i], r[j])
    {
      assert r[j] == s[j - 1];
      if i == 0 {
        if j > 1 {
          assert LexLe(s[0], s[j - 1]);
          LexLeTransitive(x, s[0], s[j - 1]);
        }
      } else {
        assert r[i] == s[i - 1];
      }
    }
  }

  lemma InsertBehindSorted(h: string, rest: seq<string>, x: string, tail: seq<string>)
    requires Sorted(rest) && Sorted([h] + tail) && LexLe(h, x)
    requires multiset(rest) == multiset(tail) + multiset{x}
    ensures Sorted([h] + rest)
  {
    var r := [h] + rest;
    var t := [h] + tail;
    forall i, j | 0 <= i < j < |r|
      ensures LexLe(r[i], r[j])
    {
      assert r[j] == rest[j - 1];
      if i == 0 {
        assert rest[j - 1] in multiset(rest);
        if rest[j - 1] != x {
          assert rest[j - 1] in multiset(tail);
          var k :| 0 <= k < |tail| && tail[k] == rest[j - 1];
          assert t[0] == h && t[k + 1] == tail[k];
          assert LexLe(t[0], t[k + 1]);
        }
      } else {
        assert r[i] == rest[i - 1];
      }
    }
  }

  /** `sorted(tickers)`: the same names, in ascending order. */
  method SortTickers(tickers: seq<string>) returns (r: seq<string>)
    ensures Sorted(r)
    ensures multiset(r) == multiset(tickers)
  {
    r := [];
    var i := 0;
    while i < |tickers|
      invariant 0 <= i <= |tickers|
      invariant Sorted(r)
      invariant multiset(r) == multiset(tickers[..i])
    {
      assert tickers[..i + 1] == tickers[..i] + [tickers[i]];
      r := Insert(tickers[i], r);
      i := i + 1;
    }
    assert tickers[..|tickers|] == tickers;
  }

  /** Two sorted arrangements of the same names are the same list, so the
      result does not depend on the sorting algorithm. */
  lemma {:induction false} SortedUnique(a: seq<string>, b: seq<string>)
    requires Sorted(a) && Sorted(b) && multiset(a) == multiset(b)
    ensures a == b
    decreases |a|
  {
    if a != [] {
      assert |b| == |a| by {
        assert |multiset(a)| == |a| && |multiset(b)| == |b|;
      }
      assert b[0] in multiset(a);
      assert a[0] in multiset(b);
      var i :| 0 <= i < |a| && a[i] == b[0];
      var j :| 0 <= j < |b| && b[j] == a[0];
      assert LexLe(a[0], b[0]) by {
        if i > 0 {
          assert LexLe(a[0], a[i]);
        } else {
          LexLeReflexive(a[0]);
        }
      }
      assert LexLe(b[0], a[0]) by {
        if j > 0 {
          assert LexLe(b[0], b[j]);
        } else {
          LexLeReflexive(b[0]);
        }
      }
      LexLeAntisymmetric(a[0], b[0]);
      assert a[0] == b[0];
      assert a == [a[0]] + a[1..] && b == [b[0]] + b[1..];
      assert multiset(a) == multiset{a[0]} + multiset(a[1..]);
      assert multiset(b) == multiset{b[0]} + multiset(b[1..]);
      MultisetCancel(a[0], multiset(a[1..]), multiset(b[1..]));
      SortedUnique(a[1..], b[1..]);
    }
  }

  lemma MultisetCancel(x: string, m1: multiset<string>, m2: multiset<string>)
    requires multiset{x} + m1 == multiset{x} + m2
    ensures m1 == m2
  {
    forall y | true
      ensures m1[y] == m2[y]
    {
      assert (multiset{x} + m1)[y] == multiset{x}[y] + m1[y];
      assert (multiset{x} + m2)[y] == multiset{x}[y] + m2[y];
    }
  }

  /** The whole script: the sorted tickers of the listing. */
  method BuildTickerList(names: seq<string>) returns (r: seq<string>)
    ensures Sorted(r)
    ensures multiset(r) == multiset(Matching(names))
  {
    var tickers := CollectTickers(names);
    r := SortTickers(tickers);
  }
}
