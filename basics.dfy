/**
  Shared vocabulary for the whole model: optional values (Java's null), the unchecked
  Java exceptions the modelled code can raise, order-preserving filtering of lists,
  decimal rendering of counts and substring search on names.
 */
module Basics {

  /** A Java reference that may be null. */
  datatype Option<+T> = None | Some(value: T)

  /** The unchecked Java exceptions that the modelled code can throw. */
  datatype JavaException =
    | NullPointer       // a method called on null
    | IndexOutOfBounds  // an array or list index outside its bounds
    | IllegalArgument   // a guard that refuses its argument
    | Arithmetic        // an integer division by zero
    | NegativeArraySize // an array created with a negative length

  /** What a Java call does: return a value or throw. */
  datatype Outcome<+T> = Returned(value: T) | Thrown(exception: JavaException)

  /** The elements of `s` that satisfy `keep`, in their original order. */
  function Filter<T>(s: seq<T>, keep: T -> bool): (r: seq<T>)
    ensures |r| <= |s|
    ensures forall x :: x in r ==> x in s && keep(x)
  {
    if s == [] then []
    else if keep(s[|s| - 1]) then Filter(s[..|s| - 1], keep) + [s[|s| - 1]]
    else Filter(s[..|s| - 1], keep)
  }

  /** Filtering distributes over concatenation, so relative order is preserved. */
  lemma {:induction false} FilterConcat<T>(a: seq<T>, b: seq<T>, keep: T -> bool)
    ensures Filter(a + b, keep) == Filter(a, keep) + Filter(b, keep)
    decreases |b|
  {
    if b == [] {
      assert a + b == a;
    } else {
      var b' := b[..|b| - 1];
      assert (a + b)[..|a + b| - 1] == a + b';
      FilterConcat(a, b', keep);
    }
  }

  /** Every element of `s` that satisfies `keep` survives the filter. */
  lemma {:induction false} FilterKeeps<T>(s: seq<T>, keep: T -> bool, x: T)
    requires x in s && keep(x)
    ensures x in Filter(s, keep)
  {
    var last := s[|s| - 1];
    if x != last {
      assert x in s[..|s| - 1] by {
        var i :| 0 <= i < |s| && s[i] == x;
        assert i < |s| - 1;
        assert s[..|s| - 1][i] == x;
      }
      FilterKeeps(s[..|s| - 1], keep, x);
    }
  }

  /** Filtering a one-element list. */
  lemma FilterSingleton<T>(x: T, keep: T -> bool)
    ensures Filter([x], keep) == if keep(x) then [x] else []
  {
    assert [x][..0] == [];
  }

  /** Appending one element to a list appends it to the filtered list iff it is kept. */
  lemma FilterSnoc<T>(s: seq<T>, x: T, keep: T -> bool)
    ensures Filter(s + [x], keep) == Filter(s, keep) + (if keep(x) then [x] else [])
  {
    FilterConcat(s, [x], keep);
    FilterSingleton(x, keep);
  }

  /** The number of occurrences of `x` in `s`. */
  function Count<T(==)>(s: seq<T>, x: T): (n: nat)
    ensures n <= |s|
    ensures n == 0 <==> x !in s
  {
    if s == [] then 0 else Count(s[..|s| - 1], x) + (if s[|s| - 1] == x then 1 else 0)
  }

  /** Counting distributes over concatenation. */
  lemma {:induction false} CountConcat<T>(a: seq<T>, b: seq<T>, x: T)
    ensures Count(a + b, x) == Count(a, x) + Count(b, x)
    decreases |b|
  {
    if b == [] {
      assert a + b == a;
    } else {
      assert (a + b)[..|a + b| - 1] == a + b[..|b| - 1];
      CountConcat(a, b[..|b| - 1], x);
    }
  }

  /** `s` holds no element twice. */
  predicate NoDuplicates<T(==)>(s: seq<T>) {
    forall i, j :: 0 <= i < j < |s| ==> s[i] != s[j]
  }

  /** The first index of `x` in `s`, or -1 (java.util.List.indexOf). */
  function IndexOf<T(==)>(s: seq<T>, x: T): (i: int)
    ensures -1 <= i < |s|
    ensures i == -1 <==> x !in s
    ensures 0 <= i ==> s[i] == x && x !in s[..i]
  {
    if s == [] then -1
    else if s[0] == x then 0
    else var j := IndexOf(s[1..], x); if j < 0 then -1 else j + 1
  }

  /** `s` with its first occurrence of `x` removed (java.util.List.remove(Object)). */
  function RemoveFirst<T(==)>(s: seq<T>, x: T): (r: seq<T>)
    ensures x !in s ==> r == s
    ensures x in s ==> r == s[..IndexOf(s, x)] + s[IndexOf(s, x) + 1..]
  {
    if x !in s then s else s[..IndexOf(s, x)] + s[IndexOf(s, x) + 1..]
  }

  /** Decimal digit `d` as a character. */
  function DigitChar(d: nat): (c: char)
    requires d < 10
    ensures '0' <= c <= '9' && c as int - '0' as int == d
  {
    (d + '0' as int) as char
  }

  /** Only decimal digits. */
  predicate AllDigits(s: string) {
    forall i :: 0 <= i < |s| ==> '0' <= s[i] <= '9'
  }

  /** The decimal rendering of `n` that Java's `"" + n` and `%d` produce. */
  function NatToString(n: nat): (r: string)
    ensures |r| >= 1 && AllDigits(r)
    ensures r[0] == '0' ==> n == 0
  {
    if n < 10 then [DigitChar(n)] else NatToString(n / 10) + [DigitChar(n % 10)]
  }

  /** The decimal rendering of an `int`, with a leading minus sign when negative. */
  function IntToString(n: int): string
  {
    if n >= 0 then NatToString(n) else "-" + NatToString(-n)
  }

  /** Reads a string of decimal digits back as a number. */
  function ParseDigits(s: string): nat
    requires AllDigits(s)
  {
    if s == [] then 0 else 10 * ParseDigits(s[..|s| - 1]) + (s[|s| - 1] as int - '0' as int)
  }

  /** Rendering a count and reading it back gives the count. */
  lemma {:induction false} NatToStringRoundTrip(n: nat)
    ensures ParseDigits(NatToString(n)) == n
  {
    if n >= 10 {
      var prefix := NatToString(n / 10);
      var r := prefix + [DigitChar(n % 10)];
      assert r[..|r| - 1] == prefix;
      NatToStringRoundTrip(n / 10);
    }
  }

  /** Rendering is injective: distinct counts give distinct strings. */
  lemma NatToStringInjective(m: nat, n: nat)
    requires NatToString(m) == NatToString(n)
    ensures m == n
  {
    NatToStringRoundTrip(m);
    NatToStringRoundTrip(n);
  }

  /** `s` begins with `prefix`. */
  predicate StartsWith(s: string, prefix: string) {
    |prefix| <= |s| && s[..|prefix|] == prefix
  }

  /** java.lang.String.contains: `pattern` occurs in `s` at some position. */
  predicate Contains(s: string, pattern: string)
    decreases |s|
  {
    StartsWith(s, pattern) || (s != [] && Contains(s[1..], pattern))
  }

  /** `pattern` occurs in `s` starting at index `k`. */
  predicate OccursAt(s: string, pattern: string, k: int) {
    0 <= k <= |s| - |pattern| && s[k..k + |pattern|] == pattern
  }

  /** `Contains` means an occurrence at some index. */
  lemma {:induction false} ContainsAt(s: string, pattern: string)
    ensures Contains(s, pattern) <==> exists k :: OccursAt(s, pattern, k)
  {
    if StartsWith(s, pattern) {
      assert OccursAt(s, pattern, 0);
    }
    if s != [] {
      ContainsAt(s[1..], pattern);
      if Contains(s[1..], pattern) {
        var k :| OccursAt(s[1..], pattern, k);
        assert OccursAt(s, pattern, k + 1);
      }
      if exists k :: OccursAt(s, pattern, k) {
        var k :| OccursAt(s, pattern, k);
        if k > 0 {
          assert OccursAt(s[1..], pattern, k - 1);
        } else {
          assert StartsWith(s, pattern);
        }
      }
    } else {
      if exists k :: OccursAt(s, pattern, k) {
        var k :| OccursAt(s, pattern, k);
        assert StartsWith(s, pattern);
      }
    }
  }

  /** A non-empty set of keys has a member to pick. */
  lemma HasKey(s: set<int>)
    requires s != {}
    ensures exists k :: k in s
  {
    if forall k :: k !in s {
      assert false;
    }
  }

  /** The map a clusterer builds from its library's clusters: the i-th cluster under key i, nothing else. */
  function KeyedByIndex<T>(lists: seq<seq<T>>): (m: map<int, seq<T>>)
    ensures forall k :: k in m <==> 0 <= k < |lists|
    ensures forall i :: 0 <= i < |lists| ==> m[i] == lists[i]
  {
    map i | 0 <= i < |lists| :: lists[i]
  }
}
