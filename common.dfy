/** Small value types shared by every module of the model. */
module Wrappers {
  datatype Option<T> = None | Some(value: T) {
    function GetOr(default: T): T {
      match this
      case Some(v) => v
      case None => default
    }
  }

  datatype Result<T, E> = Ok(value: T) | Err(error: E)
}

/**
 * The parts of Python's `str` that the agent's modules rely on: `lower()`,
 * `split()`, `split(sep)`, `strip()`, the `in` substring test, `startswith`,
 * slicing `s[:n]`, decimal rendering of integers and the ordering `<` on strings.
 */
module PyStr {

  /** Upper-case letters that `lower()` is modelled on: Latin A-Z, Cyrillic А-Я and Ё. */
  predicate IsUpper(c: char) {
    ('A' <= c <= 'Z') || ('А' <= c <= 'Я') || c == 'Ё'
  }

  function LowerChar(c: char): (r: char)
    ensures !IsUpper(r)
    ensures !IsUpper(c) ==> r == c
  {
    if 'A' <= c <= 'Z' then (c as int + 32) as char
    else if 'А' <= c <= 'Я' then (c as int + 32) as char
    else if c == 'Ё' then 'ё'
    else c
  }

  function Lower(s: string): (r: string)
    ensures |r| == |s|
    ensures forall i :: 0 <= i < |s| ==> r[i] == LowerChar(s[i])
  {
    seq(|s|, i requires 0 <= i < |s| => LowerChar(s[i]))
  }

  /** `lower()` is idempotent, which the case-insensitive comparisons rely on. */
  lemma LowerIdempotent(s: string)
    ensures Lower(Lower(s)) == Lower(s)
  {
  }

  /** Python's `str.isspace` characters (the separators of `split()` with no argument). */
  predicate IsSpace(c: char) {
    c == ' ' || c == '\t' || c == '\n' || c == '\r' || c == '\U{B}' || c == '\U{C}'
    || ('\U{1C}' <= c <= '\U{1F}') || c == '\U{85}' || c == '\U{A0}' || c == '\U{1680}'
    || ('\U{2000}' <= c <= '\U{200A}') || c == '\U{2028}' || c == '\U{2029}' || c == '\U{202F}'
    || c == '\U{205F}' || c == '\U{3000}'
  }

  predicate NoSpace(w: string) {
    forall i :: 0 <= i < |w| ==> !IsSpace(w[i])
  }

  /** Length of the run of non-space characters that starts `s`. */
  function WordLen(s: string): (n: nat)
    ensures n <= |s|
    ensures NoSpace(s[..n])
    ensures n == |s| || IsSpace(s[n])
  {
    if s == [] || IsSpace(s[0]) then 0
    else
      var m := WordLen(s[1..]);
      assert s[..m + 1] == [s[0]] + s[1..][..m];
      m + 1
  }

  /** `s.split()`: the maximal runs of non-space characters, in order. */
  function Split(s: string): (ws: seq<string>)
    ensures forall i :: 0 <= i < |ws| ==> |ws[i]| > 0 && NoSpace(ws[i])
    decreases |s|
  {
    if s == [] then []
    else if IsSpace(s[0]) then Split(s[1..])
    else
      var n := WordLen(s);
      [s[..n]] + Split(s[n..])
  }

  /** Every word of `s.split()` is a substring of `s`. */
  lemma {:induction false} SplitWordsOccur(s: string, w: string)
    requires w in Split(s)
    ensures Contains(s, w)
    decreases |s|
  {
    if IsSpace(s[0]) {
      SplitWordsOccur(s[1..], w);
      ContainsInTail(s, w);
    } else {
      var n := WordLen(s);
      if w == s[..n] {
        assert s[0..0 + |w|] == w;
      } else {
        SplitWordsOccur(s[n..], w);
        ContainsInSuffix(s, n, w);
      }
    }
  }

  /** `needle in hay` for strings. */
  predicate Contains(hay: string, needle: string)
    decreases |hay|
  {
    StartsWith(hay, needle) || (hay != [] && Contains(hay[1..], needle))
  }

  lemma ContainsSelf(s: string)
    ensures Contains(s, s)
  {
  }

  lemma ContainsInTail(s: string, w: string)
    requires |s| > 0 && Contains(s[1..], w)
    ensures Contains(s, w)
  {
  }

  lemma {:induction false} ContainsInSuffix(s: string, n: nat, w: string)
    requires n <= |s| && Contains(s[n..], w)
    ensures Contains(s, w)
    decreases n
  {
    if n > 0 {
      assert s[1..][n - 1..] == s[n..];
      ContainsInSuffix(s[1..], n - 1, w);
    }
  }

  predicate StartsWith(s: string, prefix: string) {
    |prefix| <= |s| && s[..|prefix|] == prefix
  }

  /** `s[:n]` for a non-negative `n`. */
  function Take(s: string, n: nat): (r: string)
    ensures |r| == if n < |s| then n else |s|
    ensures StartsWith(s, r)
  {
    if n < |s| then s[..n] else s
  }

  function DropLeadingSpace(s: string): (r: string)
    ensures r == [] || !IsSpace(r[0])
    ensures |r| <= |s|
  {
    if s != [] && IsSpace(s[0]) then DropLeadingSpace(s[1..]) else s
  }

  function DropTrailingSpace(s: string): (r: string)
    ensures r == [] || !IsSpace(r[|r| - 1])
    ensures |r| <= |s|
  {
    if s != [] && IsSpace(s[|s| - 1]) then DropTrailingSpace(s[..|s| - 1]) else s
  }

  /** `s.strip()`: no leading and no trailing whitespace. */
  function Strip(s: string): (r: string)
    ensures r == [] || (!IsSpace(r[0]) && !IsSpace(r[|r| - 1]))
  {
    var t := DropLeadingSpace(s);
    var r := DropTrailingSpace(t);
    assert r != [] ==> r[0] == t[0] by {
      if r != [] { DropTrailingIsPrefix(t); }
    }
    r
  }

  lemma {:induction false} DropTrailingIsPrefix(s: string)
    ensures |DropTrailingSpace(s)| <= |s| && DropTrailingSpace(s) == s[..|DropTrailingSpace(s)|]
    decreases |s|
  {
    if s != [] && IsSpace(s[|s| - 1]) {
      DropTrailingIsPrefix(s[..|s| - 1]);
    }
  }

  /** `s.split(sep)` with a one-character separator: never empty, pieces contain no `sep`. */
  function SplitOn(s: string, sep: char): (parts: seq<string>)
    ensures |parts| >= 1
    ensures forall i :: 0 <= i < |parts| ==> sep !in parts[i]
    decreases |s|
  {
    if s == [] then [[]]
    else
      var rest := SplitOn(s[1..], sep);
      if s[0] == sep then [[]] + rest
      else [[s[0]] + rest[0]] + rest[1..]
  }

  function DigitChar(d: nat): (c: char)
    requires d < 10
  {
    ['0', '1', '2', '3', '4', '5', '6', '7', '8', '9'][d]
  }

  /** Decimal rendering of a natural number, as `str(n)` gives it. */
  function NatToString(n: nat): (s: string)
    ensures |s| >= 1
    ensures forall i :: 0 <= i < |s| ==> '0' <= s[i] <= '9'
  {
    if n < 10 then [DigitChar(n)] else NatToString(n / 10) + [DigitChar(n % 10)]
  }

  function IntToString(i: int): (s: string)
    ensures |s| >= 1
  {
    if i < 0 then "-" + NatToString(-i) else NatToString(i)
  }

  /** Python's `<` on strings: lexicographic on code points. */
  predicate StrLess(a: string, b: string) {
    if a == [] then b != []
    else if b == [] then false
    else if a[0] != b[0] then a[0] < b[0]
    else StrLess(a[1..], b[1..])
  }
}

/** Time stamps and the [0, 1] clamp that every score and level goes through. */
module Levels {

  /** `datetime.now()`, as a count of microseconds supplied by the caller. */
  type Time = int

  /** `max(0.0, min(1.0, x))`. */
  function Clamp01(x: real): (r: real)
    ensures 0.0 <= r <= 1.0
    ensures 0.0 <= x <= 1.0 ==> r == x
    ensures x < 0.0 ==> r == 0.0
    ensures x > 1.0 ==> r == 1.0
  {
    if 1.0 < x then 1.0 else if x < 0.0 then 0.0 else x
  }

  /** `min(1.0, x)`. */
  function AtMostOne(x: real): (r: real)
    ensures r <= 1.0 && r <= x
    ensures r == x || r == 1.0
    ensures x <= 1.0 ==> r == x
  {
    if x < 1.0 then x else 1.0
  }

  /** `max(0.0, x)`. */
  function AtLeastZero(x: real): (r: real)
    ensures 0.0 <= r && x <= r
    ensures r == x || r == 0.0
    ensures 0.0 <= x ==> r == x
  {
    if x < 0.0 then 0.0 else x
  }
}

/** The `lst = lst[-cap:]` truncation that keeps only the most recent entries of a log. */
module Bounded {

  function KeepLast<T>(s: seq<T>, cap: nat): (r: seq<T>)
    ensures |r| == if |s| > cap then cap else |s|
  {
    if |s| > cap then s[|s| - cap..] else s
  }

  /** Append one entry, then drop the oldest while more than `cap` remain. */
  function AppendBounded<T>(log: seq<T>, x: T, cap: nat): (r: seq<T>)
    ensures |log| < cap ==> r == log + [x]
    ensures |log| >= cap ==> |r| == cap
    ensures cap >= 1 ==> r[|r| - 1] == x
    ensures r == (log + [x])[|log| + 1 - |r|..]
  {
    KeepLast(log + [x], cap)
  }

  /** Truncating after each append keeps the same entries as truncating once at the end. */
  lemma KeepLastAppend<T>(s: seq<T>, t: seq<T>, cap: nat)
    ensures KeepLast(KeepLast(s, cap) + t, cap) == KeepLast(s + t, cap)
  {
    if |s| > cap {
      var x := s + t;
      var y := s[|s| - cap..] + t;
      assert y == x[|s| - cap..];
      if t == [] {
        assert x == s;
      } else {
        assert KeepLast(y, cap) == y[|t|..];
        assert y[|t|..] == x[|x| - cap..];
      }
    }
  }

  /** A log kept with AppendBounded never outgrows its cap. */
  lemma AppendBoundedStaysBounded<T>(log: seq<T>, x: T, cap: nat)
    requires |log| <= cap
    ensures |AppendBounded(log, x, cap)| <= cap
  {
  }
}

/**
 * Python's `sorted(..., key=k, reverse=True)` and `max`/`min` with a key, whose
 * results depend on the input order: the sort is stable and `max`/`min` keep the
 * first extreme element.
 */
module Ordering {

  predicate SortedDesc<T>(s: seq<(T, real)>) {
    forall i, j :: 0 <= i < j < |s| ==> s[i].1 >= s[j].1
  }

  /** Insert `x` after every element whose key is at least `x`'s (keeps stability). */
  function InsertDesc<T>(s: seq<(T, real)>, x: (T, real)): (r: seq<(T, real)>)
    requires SortedDesc(s)
    ensures SortedDesc(r)
    ensures multiset(r) == multiset(s) + multiset{x}
    ensures |r| == |s| + 1
  {
    if s == [] then [x]
    else if s[0].1 >= x.1 then
      var t := InsertDesc(s[1..], x);
      assert s == [s[0]] + s[1..];
      HeadBoundsInsert(s, x, t);
      ConsSorted(s[0], t);
      [s[0]] + t
    else
      ConsSorted(x, s);
      [x] + s
  }

  /** A head no smaller than anything after it keeps a sorted list sorted. */
  lemma ConsSorted<T>(h: (T, real), t: seq<(T, real)>)
    requires SortedDesc(t) && forall k :: 0 <= k < |t| ==> h.1 >= t[k].1
    ensures SortedDesc([h] + t)
  {
    var r := [h] + t;
    forall i, j | 0 <= i < j < |r| ensures r[i].1 >= r[j].1 {
      assert r[j] == t[j - 1];
      if i > 0 {
        assert r[i] == t[i - 1];
      }
    }
  }

  /** Every element of an insertion into the tail of `s` is no larger than `s`'s head. */
  lemma HeadBoundsInsert<T>(s: seq<(T, real)>, x: (T, real), t: seq<(T, real)>)
    requires SortedDesc(s) && s != [] && s[0].1 >= x.1
    requires multiset(t) == multiset(s[1..]) + multiset{x}
    ensures forall k :: 0 <= k < |t| ==> s[0].1 >= t[k].1
  {
    forall k | 0 <= k < |t| ensures s[0].1 >= t[k].1 {
      assert t[k] in multiset(t);
      if t[k] != x {
        assert t[k] in multiset(s[1..]);
        var m :| 0 <= m < |s[1..]| && s[1..][m] == t[k];
        assert s[m + 1] == t[k];
      }
    }
  }

  /** Stable sort by key, largest key first. */
  function SortDesc<T>(s: seq<(T, real)>): (r: seq<(T, real)>)
    ensures SortedDesc(r)
    ensures multiset(r) == multiset(s)
    ensures |r| == |s|
  {
    if s == [] then []
    else
      assert s == s[..|s| - 1] + [s[|s| - 1]];
      InsertDesc(SortDesc(s[..|s| - 1]), s[|s| - 1])
  }

  /** A prefix of the sorted sequence keeps the largest keys: what it leaves out is never larger than what it keeps. */
  lemma {:induction false} SortedPrefixTop<T>(s: seq<(T, real)>, n: nat)
    requires n <= |s|
    ensures var c := SortDesc(s)[..n];
      && multiset(c) <= multiset(s)
      && forall p, i :: p in multiset(s) - multiset(c) && 0 <= i < |c| ==> p.1 <= c[i].1
  {
    var sorted := SortDesc(s);
    var c := sorted[..n];
    var rest := sorted[n..];
    assert sorted == c + rest;
    assert multiset(s) == multiset(c) + multiset(rest);
    forall p, i | p in multiset(s) - multiset(c) && 0 <= i < |c|
      ensures p.1 <= c[i].1
    {
      assert p in multiset(rest);
      var k :| 0 <= k < |rest| && rest[k] == p;
      assert sorted[n + k] == p && sorted[i] == c[i];
    }
  }

  /** `[x]` when `x`'s key is `v`, else nothing. */
  function Pick<T>(x: (T, real), v: real): seq<(T, real)> {
    if x.1 == v then [x] else []
  }

  /** The elements whose key is `v`, in their order in `s`. */
  function WithKey<T>(s: seq<(T, real)>, v: real): (r: seq<(T, real)>)
    ensures |r| <= |s|
  {
    if s == [] then [] else Pick(s[0], v) + WithKey(s[1..], v)
  }

  lemma WithKeyCons<T>(h: (T, real), t: seq<(T, real)>, v: real)
    ensures WithKey([h] + t, v) == Pick(h, v) + WithKey(t, v)
  {
    assert ([h] + t)[0] == h && ([h] + t)[1..] == t;
  }

  lemma {:induction false} WithKeyConcat<T>(a: seq<(T, real)>, b: seq<(T, real)>, v: real)
    ensures WithKey(a + b, v) == WithKey(a, v) + WithKey(b, v)
  {
    if a == [] {
      assert a + b == b;
    } else {
      var rest := a[1..];
      assert a + b == [a[0]] + (rest + b);
      WithKeyCons(a[0], rest + b, v);
      WithKeyConcat(rest, b, v);
      Assoc(Pick(a[0], v), WithKey(rest, v), WithKey(b, v));
    }
  }

  /** No element with key `v` leaves nothing to pick. */
  lemma {:induction false} WithKeyNone<T>(s: seq<(T, real)>, v: real)
    requires forall i :: 0 <= i < |s| ==> s[i].1 != v
    ensures WithKey(s, v) == []
  {
    if s != [] {
      WithKeyNone(s[1..], v);
    }
  }

  /** Insertion puts `x` after every element with the same key. */
  lemma {:induction false} InsertDescStable<T>(s: seq<(T, real)>, x: (T, real), v: real)
    requires SortedDesc(s)
    ensures WithKey(InsertDesc(s, x), v) == WithKey(s, v) + Pick(x, v)
  {
    if s == [] {
      WithKeyCons(x, [], v);
      assert [x] + [] == [x];
    } else if s[0].1 >= x.1 {
      var t := InsertDesc(s[1..], x);
      assert InsertDesc(s, x) == [s[0]] + t;
      InsertDescStable(s[1..], x, v);
      WithKeyCons(s[0], t, v);
      Assoc(Pick(s[0], v), WithKey(s[1..], v), Pick(x, v));
    } else {
      assert InsertDesc(s, x) == [x] + s;
      WithKeyCons(x, s, v);
      if x.1 == v {
        WithKeyNone(s, v);
        assert Pick(x, v) + [] == [] + Pick(x, v);
      } else {
        assert [] + WithKey(s, v) == WithKey(s, v) + [];
      }
    }
  }

  lemma Assoc<T>(a: seq<T>, b: seq<T>, c: seq<T>)
    ensures a + (b + c) == (a + b) + c
  {
  }

  /** The sort is stable: elements with equal keys keep their input order. */
  lemma {:induction false} SortDescStable<T>(s: seq<(T, real)>, v: real)
    ensures WithKey(SortDesc(s), v) == WithKey(s, v)
  {
    if s != [] {
      var init := s[..|s| - 1];
      var last := s[|s| - 1];
      var sortedInit := SortDesc(init);
      assert SortDesc(s) == InsertDesc(sortedInit, last);
      SortDescStable(init, v);
      InsertDescStable(sortedInit, last, v);
      WithKeySnoc(s, v);
    }
  }

  lemma WithKeySnoc<T>(s: seq<(T, real)>, v: real)
    requires s != []
    ensures WithKey(s, v) == WithKey(s[..|s| - 1], v) + Pick(s[|s| - 1], v)
  {
    var last := s[|s| - 1];
    assert s == s[..|s| - 1] + [last];
    WithKeyConcat(s[..|s| - 1], [last], v);
    WithKeyCons(last, [], v);
    assert [last] + [] == [last] && Pick(last, v) + [] == Pick(last, v);
  }

  /**
   * Among elements with equal keys, a prefix of the sorted sequence keeps the
   * earliest ones of the input, in input order.
   */
  lemma SortedPrefixStable<T>(s: seq<(T, real)>, n: nat, v: real)
    requires n <= |s|
    ensures var k := WithKey(SortDesc(s)[..n], v);
      |k| <= |WithKey(s, v)| && k == WithKey(s, v)[..|k|]
  {
    var sorted := SortDesc(s);
    assert sorted == sorted[..n] + sorted[n..];
    WithKeyConcat(sorted[..n], sorted[n..], v);
    SortDescStable(s, v);
  }

  /** The same, for every key at once. */
  lemma SortedPrefixStableAll<T>(s: seq<(T, real)>, n: nat)
    requires n <= |s|
    ensures forall v :: var k := WithKey(SortDesc(s)[..n], v);
      |k| <= |WithKey(s, v)| && k == WithKey(s, v)[..|k|]
  {
    forall v {
      SortedPrefixStable(s, n, v);
    }
  }

  /** An element of the input that a prefix of the sorted sequence leaves out is no larger than anything kept. */
  lemma LeftOutNotLarger<T>(s: seq<(T, real)>, n: nat, p: (T, real))
    requires n <= |s| && p in s && p !in SortDesc(s)[..n]
    ensures forall i :: 0 <= i < n ==> p.1 <= SortDesc(s)[..n][i].1
  {
    SortedPrefixTop(s, n);
    var c := SortDesc(s)[..n];
    assert p in multiset(s) - multiset(c);
  }

  /** A prefix of the sorted sequence holds only elements of the input, in order, and all of them when not cut. */
  lemma SortedPrefix<T>(s: seq<(T, real)>, n: nat)
    requires n <= |s|
    ensures var c := SortDesc(s)[..n];
      && SortedDesc(c)
      && (forall i :: 0 <= i < |c| ==> c[i] in s)
      && (n == |s| ==> forall p :: p in s ==> p in c)
  {
    var sorted := SortDesc(s);
    var c := sorted[..n];
    forall i | 0 <= i < |c|
      ensures c[i] in s
    {
      assert c[i] == sorted[i];
      assert sorted[i] in multiset(sorted);
    }
    if n == |s| {
      assert c == sorted;
      forall p | p in s
        ensures p in c
      {
        assert p in multiset(s);
      }
    }
  }

  function Firsts<T>(s: seq<(T, real)>): (r: seq<T>)
    ensures |r| == |s|
    ensures forall i :: 0 <= i < |s| ==> r[i] == s[i].0
  {
    seq(|s|, i requires 0 <= i < |s| => s[i].0)
  }

  /**
   * Sorting then cutting keeps the largest keys when only the first
   * components are returned: an element whose first component is not
   * returned has a key no larger than that of any element returned.
   */
  lemma LeftOutFirstNotLarger<T>(s: seq<(T, real)>, n: nat, p: (T, real))
    requires n <= |s| && p in s && p.0 !in Firsts(SortDesc(s)[..n])
    ensures forall i :: 0 <= i < n ==> p.1 <= SortDesc(s)[..n][i].1
  {
    var c := SortDesc(s)[..n];
    assert p !in c by {
      forall k | 0 <= k < |c|
        ensures c[k] != p
      {
        assert Firsts(c)[k] == c[k].0;
      }
    }
    LeftOutNotLarger(s, n, p);
  }

  /** Index of the first maximal score: Python's `max` keeps the first of equal maxima. */
  function ArgMaxFirst(xs: seq<real>): (k: nat)
    requires |xs| > 0
    ensures k < |xs|
    ensures forall j :: 0 <= j < |xs| ==> xs[j] <= xs[k]
    ensures forall j :: 0 <= j < k ==> xs[j] < xs[k]
  {
    if |xs| == 1 then 0
    else
      var k' := ArgMaxFirst(xs[..|xs| - 1]);
      assert forall j :: 0 <= j < |xs| - 1 ==> xs[..|xs| - 1][j] == xs[j];
      if xs[|xs| - 1] > xs[k'] then |xs| - 1 else k'
  }

  /** Index of the first minimal key: Python's `min` keeps the first of equal minima. */
  function ArgMinFirst(xs: seq<int>): (k: nat)
    requires |xs| > 0
    ensures k < |xs|
    ensures forall j :: 0 <= j < |xs| ==> xs[k] <= xs[j]
    ensures forall j :: 0 <= j < k ==> xs[k] < xs[j]
  {
    if |xs| == 1 then 0
    else
      var k' := ArgMinFirst(xs[..|xs| - 1]);
      assert forall j :: 0 <= j < |xs| - 1 ==> xs[..|xs| - 1][j] == xs[j];
      if xs[|xs| - 1] < xs[k'] then |xs| - 1 else k'
  }
}

/** Python list idioms: `if x not in lst: lst.append(x)`, `lst.remove(x)`, `range(lo, hi)`. */
module Seqs {

  predicate NoDup<T(==)>(s: seq<T>) {
    forall i, j :: 0 <= i < j < |s| ==> s[i] != s[j]
  }

  /** Append `x` unless it is already present: the list never holds `x` twice. */
  function AppendUnique<T(==)>(s: seq<T>, x: T): (r: seq<T>)
    ensures x in r
    ensures forall i :: 0 <= i < |r| ==> r[i] in s || r[i] == x
    ensures forall i :: 0 <= i < |s| ==> s[i] in r
    ensures x in s <==> r == s
    ensures x !in s ==> |r| == |s| + 1 && r[..|s|] == s
    ensures NoDup(s) ==> NoDup(r)
  {
    if x in s then s else s + [x]
  }

  /** `lst.remove(x)` when present: drops the first occurrence. */
  function RemoveFirst<T(==)>(s: seq<T>, x: T): (r: seq<T>)
    ensures x in s ==> |r| == |s| - 1
    ensures x !in s ==> r == s
    ensures forall i :: 0 <= i < |r| ==> r[i] in s
    ensures NoDup(s) ==> x !in r && NoDup(r)
    ensures NoDup(s) ==> forall i :: 0 <= i < |s| && s[i] != x ==> s[i] in r
  {
    if s == [] then []
    else if s[0] == x then s[1..]
    else [s[0]] + RemoveFirst(s[1..], x)
  }

  /** Without duplicates, removing `x` leaves exactly the other elements. */
  lemma RemoveFirstMembers<T>(s: seq<T>, x: T, k: T)
    requires NoDup(s)
    ensures k in RemoveFirst(s, x) <==> k in s && k != x
  {
    if k in s && k != x {
      var p :| 0 <= p < |s| && s[p] == k;
    }
  }

  /** `list(range(lo, hi))`. */
  function Range(lo: nat, hi: nat): (r: seq<nat>)
    requires lo <= hi
    ensures |r| == hi - lo
    ensures forall i :: 0 <= i < |r| ==> r[i] == lo + i
  {
    seq(hi - lo, i requires 0 <= i < hi - lo => lo + i)
  }

  lemma RangeSnoc(lo: nat, hi: nat)
    requires lo <= hi
    ensures Range(lo, hi) + [hi] == Range(lo, hi + 1)
  {
  }

  /** `s[:limit]`: a negative `limit` counts from the end, as Python slicing does. */
  function SliceTo<T>(s: seq<T>, limit: int): (r: seq<T>)
    ensures |r| <= |s|
    ensures 0 <= limit ==> |r| == if limit < |s| then limit else |s|
    ensures limit < 0 ==> |r| == if -limit < |s| then |s| + limit else 0
    ensures r == s[..|r|]
  {
    if 0 <= limit then (if limit < |s| then s[..limit] else s)
    else if -limit < |s| then s[..|s| + limit]
    else []
  }

  function Reverse<T>(s: seq<T>): (r: seq<T>)
    ensures |r| == |s|
  {
    if s == [] then [] else Reverse(s[1..]) + [s[0]]
  }
}

/**
 * Python dictionaries whose insertion order is observable, as sequences of
 * (key, value) pairs with no repeated key.
 */
module Dicts {
  import opened Wrappers
  import opened Seqs

  function Keys<V>(d: seq<(string, V)>): seq<string> {
    seq(|d|, i requires 0 <= i < |d| => d[i].0)
  }

  /**
   * `d[key] = v` on an insertion-ordered dictionary: an existing key keeps
   * its place and gets the new value, a new key goes last.
   */
  function Assign<V>(d: seq<(string, V)>, key: string, v: V): (r: seq<(string, V)>)
    ensures Keys(r) == if key in Keys(d) then Keys(d) else Keys(d) + [key]
    ensures forall i :: 0 <= i < |d| && d[i].0 != key ==> r[i] == d[i]
    ensures |r| == |Keys(r)|
  {
    if d == [] then
      KeysCons((key, v), []);
      [(key, v)]
    else
      assert d == [d[0]] + d[1..];
      KeysCons(d[0], d[1..]);
      if d[0].0 == key then
        KeysCons((key, v), d[1..]);
        [(key, v)] + d[1..]
      else
        var rest := Assign(d[1..], key, v);
        KeysCons(d[0], rest);
        [d[0]] + rest
  }

  lemma KeysCons<V>(x: (string, V), d: seq<(string, V)>)
    ensures Keys([x] + d) == [x.0] + Keys(d)
  {
  }

  /** A list without repeats splits into a head that is not in its tail, and a tail without repeats. */
  lemma NoDupSplit<T>(s: seq<T>)
    requires NoDup(s) && s != []
    ensures NoDup(s[1..]) && s[0] !in s[1..]
  {
    forall i, j | 0 <= i < j < |s[1..]| ensures s[1..][i] != s[1..][j] {
      assert s[i + 1] != s[j + 1];
    }
    forall i | 0 <= i < |s[1..]| ensures s[1..][i] != s[0] {
      assert s[0] != s[i + 1];
    }
  }

  /** In a dictionary (no repeated key) the key is stored once, holding the new value. */
  lemma {:induction false} AssignUnique<V>(d: seq<(string, V)>, key: string, v: V)
    requires NoDup(Keys(d))
    ensures var r := Assign(d, key, v);
      NoDup(Keys(r)) && forall i :: 0 <= i < |r| && r[i].0 == key ==> r[i].1 == v
  {
    if d != [] {
      var ks := Keys(d);
      assert d == [d[0]] + d[1..];
      KeysCons(d[0], d[1..]);
      NoDupSplit(ks);
      assert ks[1..] == Keys(d[1..]);
      if d[0].0 != key {
        AssignUnique(d[1..], key, v);
        var rest := Assign(d[1..], key, v);
        KeysCons(d[0], rest);
        assert d[0].0 !in Keys(rest);
        NoDupCons(d[0].0, Keys(rest));
      } else {
        forall i | 0 < i < |d| ensures d[i].0 != key {
          assert ks[0] != ks[i];
        }
      }
    }
  }

  /** Prepending a new element to a list without repeats keeps it without repeats. */
  lemma NoDupCons<T>(x: T, s: seq<T>)
    requires NoDup(s) && x !in s
    ensures NoDup([x] + s)
  {
    forall i, j | 0 <= i < j < |[x] + s| ensures ([x] + s)[i] != ([x] + s)[j] {
      if i > 0 {
        assert ([x] + s)[i] == s[i - 1];
      }
      assert ([x] + s)[j] == s[j - 1];
    }
  }

  /** `d.get(key)`: the value stored under `key`, if any. */
  function Get<V>(d: seq<(string, V)>, key: string): (r: Option<V>)
    ensures r.Some? <==> key in Keys(d)
  {
    if d == [] then None
    else if d[0].0 == key then
      assert Keys(d)[0] == key;
      Some(d[0].1)
    else
      assert Keys(d) == [d[0].0] + Keys(d[1..]);
      Get(d[1..], key)
  }

  /** In a dictionary the key at a position reads the value at that position. */
  lemma {:induction false} GetAtPosition<V>(d: seq<(string, V)>, p: int)
    requires NoDup(Keys(d)) && 0 <= p < |d|
    ensures Get(d, d[p].0) == Some(d[p].1)
  {
    if p > 0 {
      assert Keys(d)[0] != Keys(d)[p];
      assert Keys(d[1..]) == Keys(d)[1..];
      GetAtPosition(d[1..], p - 1);
    }
  }

  /** After `d[key] = v`, `key` reads `v` and every other key reads as before. */
  lemma {:induction false} AssignThenGet<V>(d: seq<(string, V)>, key: string, v: V, other: string)
    ensures Get(Assign(d, key, v), key) == Some(v)
    ensures other != key ==> Get(Assign(d, key, v), other) == Get(d, other)
  {
    if d != [] && d[0].0 != key {
      AssignThenGet(d[1..], key, v, other);
    }
  }
  /** `d[k] = v` for each pair of `ws` in turn. */
  function AssignAll<V>(d: seq<(string, V)>, ws: seq<(string, V)>): (r: seq<(string, V)>)
    ensures forall k :: k in Keys(d) ==> k in Keys(r)
    ensures NoDup(Keys(d)) ==> NoDup(Keys(r))
  {
    if ws == [] then d
    else
      var before := AssignAll(d, ws[..|ws| - 1]);
      var w := ws[|ws| - 1];
      if NoDup(Keys(d)) then AssignUnique(before, w.0, w.1); Assign(before, w.0, w.1)
      else Assign(before, w.0, w.1)
  }

  /** The value of the last pair of `ws` with key `k`, if any. */
  function LastWrite<V>(ws: seq<(string, V)>, k: string): (r: Option<V>)
    ensures r.Some? <==> k in Keys(ws)
  {
    if ws == [] then None
    else if ws[|ws| - 1].0 == k then
      assert Keys(ws)[|ws| - 1] == k;
      Some(ws[|ws| - 1].1)
    else
      var r := LastWrite(ws[..|ws| - 1], k);
      assert Keys(ws) == Keys(ws[..|ws| - 1]) + [ws[|ws| - 1].0];
      r
  }

  /** After a series of assignments each key reads its last assigned value, or what it held before. */
  lemma {:induction false} LastWriteWins<V>(d: seq<(string, V)>, ws: seq<(string, V)>, k: string)
    ensures Get(AssignAll(d, ws), k) == if LastWrite(ws, k).Some? then LastWrite(ws, k) else Get(d, k)
  {
    if ws != [] {
      var w := ws[|ws| - 1];
      LastWriteWins(d, ws[..|ws| - 1], k);
      AssignThenGet(AssignAll(d, ws[..|ws| - 1]), w.0, w.1, k);
    }
  }
}

/** Word sets of texts, and the ratios of their sizes that similarity and relevance scores use. */
module Words {
  import opened PyStr

  /** The set of lower-cased whitespace-separated words of a text. */
  function WordSet(s: string): set<string> {
    Distinct(Split(Lower(s)))
  }

  /** `set(words)`. */
  function Distinct(ws: seq<string>): set<string> {
    if ws == [] then {} else Distinct(ws[..|ws| - 1]) + {ws[|ws| - 1]}
  }

  /** `len(set(words))` is at least one for a non-empty list and at most its length. */
  lemma {:induction false} DistinctSize(ws: seq<string>)
    ensures |Distinct(ws)| <= |ws|
    ensures ws != [] ==> |Distinct(ws)| >= 1
  {
    if ws != [] {
      DistinctSize(ws[..|ws| - 1]);
    }
  }

  lemma {:induction false} SubsetCardinality(a: set<string>, b: set<string>)
    requires a <= b
    ensures |a| <= |b|
    decreases |b|
  {
    if a != {} {
      var x :| x in a;
      SubsetCardinality(a - {x}, b - {x});
    }
  }

  /** `x / y` for counts `x <= y` with `y > 0`. */
  function Ratio(x: nat, y: nat): (r: real)
    requires x <= y && y > 0
    ensures 0.0 <= r <= 1.0
    ensures r == 1.0 <==> x == y
    ensures r > 0.0 <==> x > 0
  {
    var q := x as real / y as real;
    assert q * (y as real) == x as real;
    q
  }
}
