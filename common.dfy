/** Shared value types and the few Python built-ins the servers lean on:
    string stripping and slicing, lexicographic comparison of tuples and
    strings, and the stable descending sort behind `list.sort(key=..., reverse=True)`. */
module Common {

  datatype Option<+T> = None | Some(value: T)

  /** The outcome of an operation that raises in the source. */
  datatype Result<+T, +E> = Success(value: T) | Failure(error: E)

  // ---------------------------------------------------------------------------
  // Strings
  // ---------------------------------------------------------------------------

  /** The characters Python's `str.isspace()` accepts, which `str.strip()` removes. */
  predicate IsSpace(c: char)
  {
    c == ' ' || c == '\t' || c == '\n' || c == '\r' || c == '\U{B}' || c == '\U{C}'
    || ('\U{1C}' <= c <= '\U{1F}') || c == '\U{85}' || c == '\U{A0}' || c == '\U{1680}'
    || ('\U{2000}' <= c <= '\U{200A}') || c == '\U{2028}' || c == '\U{2029}' || c == '\U{202F}'
    || c == '\U{205F}' || c == '\U{3000}'
  }

  function TrimLeft(s: string): (r: string)
    ensures |r| <= |s| && r == s[|s| - |r|..]
    ensures r == [] || !IsSpace(r[0])
    ensures forall i :: 0 <= i < |s| - |r| ==> IsSpace(s[i])
  {
    if s != [] && IsSpace(s[0]) then TrimLeft(s[1..]) else s
  }

  function TrimRight(s: string): (r: string)
    ensures |r| <= |s| && r == s[..|r|]
    ensures r == [] || !IsSpace(r[|r| - 1])
    ensures forall i :: |r| <= i < |s| ==> IsSpace(s[i])
  {
    if s != [] && IsSpace(s[|s| - 1]) then TrimRight(s[..|s| - 1]) else s
  }

  /** Python's `s.strip()`. */
  function Strip(s: string): string
  {
    TrimRight(TrimLeft(s))
  }

  /** `not s.strip()`: the string is empty or made only of whitespace. */
  predicate IsBlank(s: string)
  {
    forall i :: 0 <= i < |s| ==> IsSpace(s[i])
  }

  lemma StripEmptyIffBlank(s: string)
    ensures Strip(s) == [] <==> IsBlank(s)
  {
    var l := TrimLeft(s);
    if Strip(s) == [] {
      forall i | 0 <= i < |s| ensures IsSpace(s[i]) {
        if i >= |s| - |l| {
          assert IsSpace(l[i - (|s| - |l|)]);
        }
      }
    }
  }

  lemma StripShape(s: string)
    ensures Strip(s) == [] || (!IsSpace(Strip(s)[0]) && !IsSpace(Strip(s)[|Strip(s)| - 1]))
  {
    var l := TrimLeft(s);
    var r := TrimRight(l);
    if r != [] {
      assert r[0] == l[0];
    }
  }

  /** A stripped string that is not empty is not blank either. */
  lemma StrippedNotBlank(s: string)
    ensures Strip(s) != [] ==> !IsBlank(Strip(s))
  {
    StripShape(s);
  }

  /** Python's `s[:n]` for `n >= 0`. */
  function Take<T>(s: seq<T>, n: nat): (r: seq<T>)
    ensures |r| == if |s| <= n then |s| else n
    ensures r == s[..|r|]
  {
    if |s| <= n then s else s[..n]
  }

  /** Python's `xs[:limit]` for any integer `limit`: a negative limit drops that many from the end. */
  function SliceTo<T>(xs: seq<T>, limit: int): (r: seq<T>)
    ensures |r| <= |xs| && r == xs[..|r|]
    ensures limit >= 0 ==> |r| == if |xs| <= limit then |xs| else limit
    ensures limit < 0 ==> |r| == if |xs| + limit <= 0 then 0 else |xs| + limit
  {
    if limit >= 0 then Take(xs, limit)
    else if |xs| + limit <= 0 then []
    else xs[..|xs| + limit]
  }

  /** `s.replace(c, "")`. */
  function RemoveChar(s: string, c: char): (r: string)
    ensures c !in r
    ensures forall d :: d != c ==> (d in r <==> d in s)
    ensures |r| <= |s|
  {
    if s == [] then [] else (if s[0] == c then [] else [s[0]]) + RemoveChar(s[1..], c)
  }

  /** `s.split(sep)[0]`: everything before the first occurrence of `sep`. */
  function BeforeFirst(s: string, sep: char): (r: string)
    ensures sep !in r
    ensures |r| <= |s| && r == s[..|r|]
    ensures |r| < |s| ==> s[|r|] == sep
  {
    if s == [] || s[0] == sep then [] else [s[0]] + BeforeFirst(s[1..], sep)
  }

  predicate StartsWith(s: string, prefix: string)
  {
    |prefix| <= |s| && s[..|prefix|] == prefix
  }

  predicate EndsWith(s: string, suffix: string)
  {
    |suffix| <= |s| && s[|s| - |suffix|..] == suffix
  }

  // ---------------------------------------------------------------------------
  // Lexicographic order (Python tuple and str comparison)
  // ---------------------------------------------------------------------------

  /** `tuple(a) < tuple(b)` for tuples of integers. */
  predicate LexLess(a: seq<int>, b: seq<int>)
  {
    if a == [] then b != []
    else b != [] && (a[0] < b[0] || (a[0] == b[0] && LexLess(a[1..], b[1..])))
  }

  lemma {:induction false} LexIrreflexive(a: seq<int>)
    ensures !LexLess(a, a)
  {
    if a != [] {
      LexIrreflexive(a[1..]);
    }
  }

  lemma {:induction false} LexTransitive(a: seq<int>, b: seq<int>, c: seq<int>)
    requires LexLess(a, b) && LexLess(b, c)
    ensures LexLess(a, c)
  {
    if a != [] && a[0] == b[0] && b[0] == c[0] {
      LexTransitive(a[1..], b[1..], c[1..]);
    }
  }

  lemma {:induction false} LexTotal(a: seq<int>, b: seq<int>)
    requires a != b
    ensures LexLess(a, b) || LexLess(b, a)
  {
    if a != [] && b != [] && a[0] == b[0] {
      assert a == [a[0]] + a[1..] && b == [b[0]] + b[1..];
      LexTotal(a[1..], b[1..]);
    }
  }

  lemma LexAsymmetric(a: seq<int>, b: seq<int>)
    requires LexLess(a, b)
    ensures !LexLess(b, a)
  {
    if LexLess(b, a) {
      LexTransitive(a, b, a);
      LexIrreflexive(a);
    }
  }

  /** The code points of a string, which is what Python compares. */
  function Codes(s: string): (r: seq<int>)
    ensures |r| == |s| && forall i :: 0 <= i < |s| ==> r[i] == s[i] as int
  {
    seq(|s|, i requires 0 <= i < |s| => s[i] as int)
  }

  lemma CodesInjective(a: string, b: string)
    requires Codes(a) == Codes(b)
    ensures a == b
  {
    assert |a| == |b|;
    forall i | 0 <= i < |a| ensures a[i] == b[i] {
      assert Codes(a)[i] == Codes(b)[i];
    }
  }

  /** `a <= b` for Python strings. */
  predicate StrLe(a: string, b: string)
  {
    a == b || LexLess(Codes(a), Codes(b))
  }

  lemma StrLeTransitive(a: string, b: string, c: string)
    requires StrLe(a, b) && StrLe(b, c)
    ensures StrLe(a, c)
  {
    if a != b && b != c {
      LexTransitive(Codes(a), Codes(b), Codes(c));
    }
  }

  lemma StrLeTotal(a: string, b: string)
    ensures StrLe(a, b) || StrLe(b, a)
  {
    if a != b {
      if Codes(a) == Codes(b) {
        CodesInjective(a, b);
      }
      LexTotal(Codes(a), Codes(b));
    }
  }

  // ---------------------------------------------------------------------------
  // Stable descending sort by a string key
  // ---------------------------------------------------------------------------

  ghost predicate SortedDesc<T>(xs: seq<T>, key: T -> string)
  {
    forall i, j :: 0 <= i < j < |xs| ==> StrLe(key(xs[j]), key(xs[i]))
  }

  /** Puts `x` after every element whose key is at least its own, so equal keys keep their order. */
  function InsertDesc<T>(x: T, xs: seq<T>, key: T -> string): (r: seq<T>)
    ensures multiset(r) == multiset(xs) + multiset{x}
    ensures |r| == |xs| + 1
  {
    if xs == [] then [x]
    else if StrLe(key(x), key(xs[0])) then
      assert xs == [xs[0]] + xs[1..];
      [xs[0]] + InsertDesc(x, xs[1..], key)
    else [x] + xs
  }

  lemma {:induction false} InsertDescSorted<T>(x: T, xs: seq<T>, key: T -> string)
    requires SortedDesc(xs, key)
    ensures SortedDesc(InsertDesc(x, xs, key), key)
    ensures InsertDesc(x, xs, key) != [] && (InsertDesc(x, xs, key)[0] == x || (xs != [] && InsertDesc(x, xs, key)[0] == xs[0]))
  {
    if xs != [] {
      if StrLe(key(x), key(xs[0])) {
        var rest := InsertDesc(x, xs[1..], key);
        InsertDescSorted(x, xs[1..], key);
        var r := [xs[0]] + rest;
        forall i, j | 0 <= i < j < |r| ensures StrLe(key(r[j]), key(r[i])) {
          if i == 0 {
            if rest[j - 1] == x {
            } else {
              assert rest[j - 1] in multiset(rest);
              assert rest[j - 1] in multiset(xs[1..]);
              var k :| 0 <= k < |xs[1..]| && xs[1..][k] == rest[j - 1];
              assert xs[k + 1] == rest[j - 1];
            }
          }
        }
      } else {
        var r := [x] + xs;
        StrLeTotal(key(x), key(xs[0]));
        forall i, j | 0 <= i < j < |r| ensures StrLe(key(r[j]), key(r[i])) {
          if i == 0 && j > 1 {
            StrLeTransitive(key(xs[j - 1]), key(xs[0]), key(x));
          }
        }
      }
    }
  }

  /** `sorted(xs, key=key, reverse=True)`, which Python keeps stable. */
  function SortDesc<T>(xs: seq<T>, key: T -> string): (r: seq<T>)
    ensures multiset(r) == multiset(xs)
    ensures |r| == |xs|
  {
    if xs == [] then []
    else
      assert xs == xs[..|xs| - 1] + [xs[|xs| - 1]];
      InsertDesc(xs[|xs| - 1], SortDesc(xs[..|xs| - 1], key), key)
  }

  lemma {:induction false} SortDescSorted<T>(xs: seq<T>, key: T -> string)
    ensures SortedDesc(SortDesc(xs, key), key)
  {
    if xs != [] {
      SortDescSorted(xs[..|xs| - 1], key);
      InsertDescSorted(xs[|xs| - 1], SortDesc(xs[..|xs| - 1], key), key);
    }
  }

  /** `sorted(xs, key=key, reverse=True)[:limit]` keeps a sorted selection of the input
      (`min(limit, |xs|)` elements for a non-negative limit), and every element it leaves
      out has a key no later than every key it keeps. */
  lemma NewestCut<T>(xs: seq<T>, key: T -> string, limit: int)
    ensures multiset(SliceTo(SortDesc(xs, key), limit)) <= multiset(xs)
    ensures limit >= 0 ==> |SliceTo(SortDesc(xs, key), limit)| == if |xs| <= limit then |xs| else limit
    ensures SortedDesc(SliceTo(SortDesc(xs, key), limit), key)
    ensures forall x, y :: x in SliceTo(SortDesc(xs, key), limit) && y in multiset(xs) - multiset(SliceTo(SortDesc(xs, key), limit))
              ==> StrLe(key(y), key(x))
  {
    var s := SortDesc(xs, key);
    SortDescSorted(xs, key);
    var r := SliceTo(s, limit);
    SliceToRest(s, limit);
    SortedSplit(s, |r|, key);
    SortedPrefix(s, |r|, key);
    assert r == s[..|r|];
  }

  /** Stated apart so that it is proved without the facts of a larger context. */
  lemma ConcatAssoc<T>(a: seq<T>, b: seq<T>, c: seq<T>)
    ensures a + (b + c) == (a + b) + c
  {
  }

  /** What a cut leaves out is the rest of the sequence. */
  lemma SliceToRest<T>(s: seq<T>, limit: int)
    ensures multiset(SliceTo(s, limit)) <= multiset(s)
    ensures multiset(s) - multiset(SliceTo(s, limit)) == multiset(s[|SliceTo(s, limit)|..])
  {
    var r := SliceTo(s, limit);
    assert s == r + s[|r|..];
  }

  lemma SortedPrefix<T>(xs: seq<T>, n: nat, key: T -> string)
    requires SortedDesc(xs, key) && n <= |xs|
    ensures SortedDesc(xs[..n], key)
  {
  }

  /** In a sorted sequence, every element after a cut has a key no later than every
      element before it. */
  lemma SortedSplit<T>(s: seq<T>, k: nat, key: T -> string)
    requires SortedDesc(s, key) && k <= |s|
    ensures forall x, y :: x in s[..k] && y in multiset(s[k..]) ==> StrLe(key(y), key(x))
  {
    forall x, y | x in s[..k] && y in multiset(s[k..]) ensures StrLe(key(y), key(x)) {
      var i :| 0 <= i < k && s[..k][i] == x;
      assert y in s[k..];
      var j :| 0 <= j < |s| - k && s[k..][j] == y;
      assert s[k + j] == y && s[i] == x;
    }
  }

  /** The elements of `xs` whose key is `k`, in order. */
  function WithKey<T>(xs: seq<T>, key: T -> string, k: string): (r: seq<T>)
    ensures |r| <= |xs|
    ensures forall x :: x in r ==> x in xs && key(x) == k
  {
    if xs == [] then [] else (if key(xs[0]) == k then [xs[0]] else []) + WithKey(xs[1..], key, k)
  }

  lemma {:induction false} WithKeyAppend<T>(a: seq<T>, b: seq<T>, key: T -> string, k: string)
    ensures WithKey(a + b, key, k) == WithKey(a, key, k) + WithKey(b, key, k)
  {
    if a == [] {
      assert a + b == b;
    } else {
      assert (a + b)[1..] == a[1..] + b;
      WithKeyAppend(a[1..], b, key, k);
    }
  }

  lemma {:induction false} WithKeyNone<T>(xs: seq<T>, key: T -> string, k: string)
    requires forall j :: 0 <= j < |xs| ==> key(xs[j]) != k
    ensures WithKey(xs, key, k) == []
  {
    if xs != [] {
      WithKeyNone(xs[1..], key, k);
    }
  }

  lemma {:induction false} InsertDescStable<T>(x: T, xs: seq<T>, key: T -> string, k: string)
    requires SortedDesc(xs, key)
    ensures WithKey(InsertDesc(x, xs, key), key, k) == WithKey(xs, key, k) + WithKey([x], key, k)
  {
    if xs == [] {
    } else if StrLe(key(x), key(xs[0])) {
      assert SortedDesc(xs[1..], key);
      InsertDescStable(x, xs[1..], key, k);
    } else {
      // every element's key is at most xs[0]'s, which is below x's: none shares x's key
      forall j | 0 <= j < |xs| ensures key(xs[j]) != key(x) {
        if j > 0 {
          assert StrLe(key(xs[j]), key(xs[0]));
        }
      }
      WithKeyAppend([x], xs, key, k);
      if key(x) == k {
        WithKeyNone(xs, key, k);
      }
    }
  }

  /** The sort is stable: for every key, the elements with that key come out in the order they went in. */
  lemma {:induction false} SortDescStable<T>(xs: seq<T>, key: T -> string, k: string)
    ensures WithKey(SortDesc(xs, key), key, k) == WithKey(xs, key, k)
  {
    if xs != [] {
      var init := xs[..|xs| - 1];
      SortDescStable(init, key, k);
      SortDescSorted(init, key);
      InsertDescStable(xs[|xs| - 1], SortDesc(init, key), key, k);
      assert xs == init + [xs[|xs| - 1]];
      WithKeyAppend(init, [xs[|xs| - 1]], key, k);
    }
  }
}
