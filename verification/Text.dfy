/** Strings as Python orders and trims them, and stable sorting by a string key. */
module Text {
  import opened Prelude

  /** Strict lexicographic order on code points. */
  predicate Before(a: string, b: string) {
    if b == "" then false
    else if a == "" then true
    else if a[0] != b[0] then a[0] < b[0]
    else Before(a[1..], b[1..])
  }

  lemma {:induction false} BeforeTotal(a: string, b: string)
    ensures Before(a, b) || a == b || Before(b, a)
    ensures !(Before(a, b) && Before(b, a))
    ensures !Before(a, a)
  {
    if a != "" && b != "" && a[0] == b[0] {
      BeforeTotal(a[1..], b[1..]);
      assert a == [a[0]] + a[1..] && b == [b[0]] + b[1..];
    } else if a != "" {
      BeforeTotal(a[1..], a[1..]);
    }
  }

  lemma {:induction false} BeforeTransitive(a: string, b: string, c: string)
    requires !Before(b, a) && !Before(c, b)
    ensures !Before(c, a)
  {
    if a != "" && b != "" && c != "" && a[0] == b[0] == c[0] {
      BeforeTransitive(a[1..], b[1..], c[1..]);
    }
  }

  // ----- Sorting by a string key -----

  function Insert<T>(x: T, xs: seq<T>, key: T -> string): seq<T> {
    if xs == [] || !Before(key(xs[0]), key(x)) then [x] + xs
    else [xs[0]] + Insert(x, xs[1..], key)
  }

  /** Python's sorted(xs, key=key): stable. */
  function Sort<T>(xs: seq<T>, key: T -> string): seq<T> {
    if xs == [] then [] else Insert(xs[0], Sort(xs[1..], key), key)
  }

  ghost predicate Sorted<T>(xs: seq<T>, key: T -> string) {
    forall i, j :: 0 <= i < j < |xs| ==> !Before(key(xs[j]), key(xs[i]))
  }

  ghost predicate StrictlySorted<T>(xs: seq<T>, key: T -> string) {
    forall i, j :: 0 <= i < j < |xs| ==> Before(key(xs[i]), key(xs[j]))
  }

  /** No two positions carry the same key, as rows read through a primary key do. */
  ghost predicate DistinctKeys<T>(xs: seq<T>, key: T -> string) {
    forall i, j :: 0 <= i < j < |xs| ==> key(xs[i]) != key(xs[j])
  }

  lemma {:induction false} InsertCorrect<T>(x: T, xs: seq<T>, key: T -> string)
    requires Sorted(xs, key)
    ensures Sorted(Insert(x, xs, key), key)
    ensures multiset(Insert(x, xs, key)) == multiset(xs) + multiset{x}
  {
    var r := Insert(x, xs, key);
    if xs == [] || !Before(key(xs[0]), key(x)) {
      assert multiset([x] + xs) == multiset{x} + multiset(xs);
      forall j | 0 < j < |r| ensures !Before(key(r[j]), key(x)) {
        if j > 1 { BeforeTransitive(key(x), key(xs[0]), key(r[j])); }
      }
    } else {
      var rest := Insert(x, xs[1..], key);
      InsertCorrect(x, xs[1..], key);
      assert xs == [xs[0]] + xs[1..];
      BeforeTotal(key(xs[0]), key(x));
      forall j | 0 < j < |r| ensures !Before(key(r[j]), key(r[0])) {
        assert r[j] in multiset(rest);
      }
    }
  }

  lemma {:induction false} SortCorrect<T>(xs: seq<T>, key: T -> string)
    ensures Sorted(Sort(xs, key), key)
    ensures multiset(Sort(xs, key)) == multiset(xs)
  {
    if xs != [] {
      SortCorrect(xs[1..], key);
      InsertCorrect(xs[0], Sort(xs[1..], key), key);
      assert xs == [xs[0]] + xs[1..];
    }
  }

  lemma {:induction false} SameElements<T>(xs: seq<T>, ys: seq<T>)
    requires multiset(xs) == multiset(ys)
    ensures |xs| == |ys| && forall x :: x in xs <==> x in ys
  {
    assert |multiset(xs)| == |multiset(ys)|;
    forall x ensures x in xs <==> x in ys {
      assert x in multiset(xs) <==> x in multiset(ys);
    }
  }

  lemma {:induction false} CountAtMostOnce<T>(xs: seq<T>, x: T)
    requires NoDup(xs)
    ensures multiset(xs)[x] <= 1
  {
    if xs != [] {
      CountAtMostOnce(xs[1..], x);
      assert xs == [xs[0]] + xs[1..];
    }
  }

  lemma CountTwice<T>(ys: seq<T>, i: nat, j: nat)
    requires i < j < |ys| && ys[i] == ys[j]
    ensures multiset(ys)[ys[i]] >= 2
  {
    assert ys == ys[..j] + [ys[j]] + ys[j + 1..];
    assert ys[i] in ys[..j];
  }

  lemma {:induction false} DistinctKeysPermuted<T>(xs: seq<T>, ys: seq<T>, key: T -> string)
    requires multiset(xs) == multiset(ys) && DistinctKeys(xs, key)
    ensures DistinctKeys(ys, key)
  {
    SameElements(xs, ys);
    forall i, j | 0 <= i < j < |ys| ensures key(ys[i]) != key(ys[j]) {
      assert ys[i] in xs && ys[j] in xs;
      CountAtMostOnce(xs, ys[i]);
      if ys[i] == ys[j] { CountTwice(ys, i, j); }
    }
  }

  /** Sorting rows with distinct keys gives a strictly increasing list of the same rows. */
  lemma {:induction false} SortStrict<T>(xs: seq<T>, key: T -> string)
    requires DistinctKeys(xs, key)
    ensures StrictlySorted(Sort(xs, key), key)
    ensures DistinctKeys(Sort(xs, key), key)
  {
    SortCorrect(xs, key);
    var ys := Sort(xs, key);
    DistinctKeysPermuted(xs, ys, key);
    forall i, j | 0 <= i < j < |ys| ensures Before(key(ys[i]), key(ys[j])) {
      BeforeTotal(key(ys[i]), key(ys[j]));
    }
  }

  lemma {:induction false} StrictIsUnique<T>(xs: seq<T>, ys: seq<T>, key: T -> string)
    requires StrictlySorted(xs, key) && StrictlySorted(ys, key)
    requires |xs| == |ys|
    requires forall x :: x in xs <==> x in ys
    ensures xs == ys
  {
    if xs != [] {
      assert xs[0] in ys;
      assert ys[0] in xs;
      BeforeTotal(key(xs[0]), key(ys[0]));
      assert xs[0] == ys[0];
      forall x ensures x in xs[1..] <==> x in ys[1..] {
        BeforeTotal(key(xs[0]), key(xs[0]));
        if x in xs[1..] { assert x in ys; }
        if x in ys[1..] { assert x in xs; }
      }
      StrictIsUnique(xs[1..], ys[1..], key);
    }
  }

  /** The sorted list depends only on which rows are given, not on their order. */
  lemma {:induction false} SortOfPermutation<T>(xs: seq<T>, ys: seq<T>, key: T -> string)
    requires DistinctKeys(xs, key)
    requires multiset(xs) == multiset(ys)
    ensures Sort(xs, key) == Sort(ys, key)
  {
    DistinctKeysPermuted(xs, ys, key);
    SortStrict(xs, key);
    SortStrict(ys, key);
    SortCorrect(xs, key);
    SortCorrect(ys, key);
    SameElements(Sort(xs, key), Sort(ys, key));
    StrictIsUnique(Sort(xs, key), Sort(ys, key), key);
  }

  /** Sorting again changes nothing. */
  lemma {:induction false} SortOfSorted<T>(xs: seq<T>, key: T -> string)
    requires Sorted(xs, key)
    ensures Sort(xs, key) == xs
  {
    hide Before;
    if xs != [] { SortOfSorted(xs[1..], key); }
  }

  // ----- Trimming -----

  function DropLeft(s: string, drop: char -> bool): string {
    if s != "" && drop(s[0]) then DropLeft(s[1..], drop) else s
  }

  function DropRight(s: string, drop: char -> bool): (r: string)
    ensures r <= s
    ensures r == "" || !drop(r[|r| - 1])
    ensures forall i :: |r| <= i < |s| ==> drop(s[i])
  {
    if s != "" && drop(s[|s| - 1]) then DropRight(s[..|s| - 1], drop) else s
  }

  /** str.strip with the given character class. */
  function Strip(s: string, drop: char -> bool): string {
    DropLeft(DropRight(s, drop), drop)
  }

  lemma {:induction false} DropLeftIsSuffix(s: string, drop: char -> bool) returns (n: nat)
    ensures n <= |s| && DropLeft(s, drop) == s[n..]
    ensures n == |s| || !drop(s[n])
    ensures forall i :: 0 <= i < n ==> drop(s[i])
  {
    if s != "" && drop(s[0]) {
      var m := DropLeftIsSuffix(s[1..], drop);
      n := m + 1;
      assert s[1..][m..] == s[n..];
    } else {
      n := 0;
    }
  }

  /** Nothing to strip at either end. */
  predicate Stripped(s: string, drop: char -> bool) {
    s == "" || (!drop(s[0]) && !drop(s[|s| - 1]))
  }

  /** Stripping keeps one stretch of the text, drops only characters of the class, and leaves nothing to strip. */
  lemma StripCorrect(s: string, drop: char -> bool) returns (from: nat, to: nat)
    ensures from <= to <= |s| && Strip(s, drop) == s[from..to]
    ensures Stripped(Strip(s, drop), drop)
    ensures forall i :: 0 <= i < |s| && !(from <= i < to) ==> drop(s[i])
  {
    to := |DropRight(s, drop)|;
    from := DropLeftIsSuffix(DropRight(s, drop), drop);
    assert s[..to] == DropRight(s, drop);
  }

  lemma TrimmedIsKept(s: string, drop: char -> bool)
    requires Stripped(s, drop)
    ensures Strip(s, drop) == s
  {
  }
}
