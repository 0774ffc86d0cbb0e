/**
 * String helpers the views rely on: substring search (`includes`), the
 * ordering JavaScript uses when it compares two strings, the date part of an
 * ISO timestamp, ASCII lower-casing, digit strings and their values, and an
 * order-preserving filter.
 */
module Text {

  predicate StartsWith(s: string, t: string) {
    |t| <= |s| && s[..|t|] == t
  }

  /** `s.includes(t)`. */
  predicate Contains(s: string, t: string)
    decreases |s|
  {
    StartsWith(s, t) || (|s| > 0 && Contains(s[1..], t))
  }

  /** A string that ends with `t` contains it. */
  lemma {:induction false} ContainsSuffix(p: string, t: string)
    ensures Contains(p + t, t)
    decreases |p|
  {
    if p == [] {
      assert p + t == t;
    } else {
      assert (p + t)[1..] == p[1..] + t;
      ContainsSuffix(p[1..], t);
    }
  }

  /** Text added after a string keeps every occurrence in it. */
  lemma {:induction false} ContainsExtendRight(s: string, q: string, t: string)
    requires Contains(s, t)
    ensures Contains(s + q, t)
    decreases |s|
  {
    if StartsWith(s, t) {
      assert (s + q)[..|t|] == s[..|t|];
    } else {
      assert (s + q)[1..] == s[1..] + q;
      ContainsExtendRight(s[1..], q, t);
    }
  }

  /** Text added before a string keeps every occurrence in it. */
  lemma {:induction false} ContainsExtendLeft(p: string, s: string, t: string)
    requires Contains(s, t)
    ensures Contains(p + s, t)
    decreases |p|
  {
    if p == [] {
      assert p + s == s;
    } else {
      assert (p + s)[1..] == p[1..] + s;
      ContainsExtendLeft(p[1..], s, t);
    }
  }

  /** A string lacking the first character of `t` does not contain `t`. */
  lemma {:induction false} LacksFirstChar(s: string, t: string)
    requires |t| > 0 && t[0] !in s
    ensures !Contains(s, t)
    decreases |s|
  {
    if |s| > 0 {
      assert forall k :: 0 <= k < |s[1..]| ==> s[1..][k] == s[k + 1];
      LacksFirstChar(s[1..], t);
      assert !StartsWith(s, t) by {
        if |t| <= |s| { assert s[..|t|][0] == s[0]; }
      }
    }
  }

  /** A string shorter than `t` does not contain `t`. */
  lemma {:induction false} TooShortToContain(s: string, t: string)
    requires |s| < |t|
    ensures !Contains(s, t)
    decreases |s|
  {
    if |s| > 0 {
      TooShortToContain(s[1..], t);
    }
  }

  /**
   * A prefix lacking the first character of `t`, followed by a tail too
   * short to hold `t`, does not contain `t`.
   */
  lemma {:induction false} LacksFirstCharBeforeShortTail(p: string, q: string, t: string)
    requires |t| > 0 && t[0] !in p && |q| < |t|
    ensures !Contains(p + q, t)
    decreases |p|
  {
    if p == [] {
      assert p + q == q;
      TooShortToContain(q, t);
    } else {
      assert (p + q)[1..] == p[1..] + q;
      assert forall k :: 0 <= k < |p[1..]| ==> p[1..][k] == p[k + 1];
      LacksFirstCharBeforeShortTail(p[1..], q, t);
      assert !StartsWith(p + q, t) by {
        if |t| <= |p + q| { assert (p + q)[..|t|][0] == p[0]; }
      }
    }
  }

  /** JavaScript's `a <= b` on strings: lexicographic order on characters. */
  predicate LexLe(a: string, b: string)
    decreases |a|
  {
    a == [] || (b != [] && (a[0] < b[0] || (a[0] == b[0] && LexLe(a[1..], b[1..]))))
  }

  lemma {:induction false} LexLeReflexive(a: string)
    ensures LexLe(a, a)
    decreases |a|
  {
    if a != [] { LexLeReflexive(a[1..]); }
  }

  lemma {:induction false} LexLeTotal(a: string, b: string)
    ensures LexLe(a, b) || LexLe(b, a)
    decreases |a|
  {
    if a != [] && b != [] && a[0] == b[0] { LexLeTotal(a[1..], b[1..]); }
  }

  lemma {:induction false} LexLeTransitive(a: string, b: string, c: string)
    requires LexLe(a, b) && LexLe(b, c)
    ensures LexLe(a, c)
    decreases |a|
  {
    if a != [] && a[0] == b[0] && b[0] == c[0] {
      LexLeTransitive(a[1..], b[1..], c[1..]);
    }
  }

  /** `timestamp.split('T')[0]`: everything before the first 'T'. */
  function DatePart(ts: string): (d: string)
    ensures StartsWith(ts, d) && 'T' !in d
    ensures |d| < |ts| ==> ts[|d|] == 'T'
    decreases |ts|
  {
    if ts == [] || ts[0] == 'T' then [] else [ts[0]] + DatePart(ts[1..])
  }

  /** `toLowerCase()` on the ASCII letters; other characters are kept. */
  function Lower(s: string): (r: string)
    ensures |r| == |s|
    ensures forall i :: 0 <= i < |s| ==> ('A' <= s[i] <= 'Z' <==> r[i] != s[i])
    ensures forall i :: 0 <= i < |s| ==>
      r[i] == if 'A' <= s[i] <= 'Z' then (s[i] as int + 32) as char else s[i]
    decreases |s|
  {
    if s == [] then []
    else [if 'A' <= s[0] <= 'Z' then (s[0] as int + 32) as char else s[0]] + Lower(s[1..])
  }

  /** Case-insensitive `includes`, as the search boxes use it. */
  predicate Matches(text: string, term: string) {
    Contains(Lower(text), Lower(term))
  }

  predicate IsDigit(c: char) { '0' <= c <= '9' }

  predicate AllDigits(s: string) { forall i :: 0 <= i < |s| ==> IsDigit(s[i]) }

  /** `s.replace(/[^0-9]/g, '')`. */
  function KeepDigits(s: string): (r: string)
    ensures AllDigits(r) && |r| <= |s|
    decreases |s|
  {
    if s == [] then [] else (if IsDigit(s[0]) then [s[0]] else []) + KeepDigits(s[1..])
  }

  /** `s.replace(/^0+/, '')`. */
  function StripLeadingZeros(s: string): (r: string)
    ensures |r| <= |s| && (r != [] ==> r[0] != '0')
    ensures r == s[|s| - |r|..]
    decreases |s|
  {
    if s != [] && s[0] == '0' then StripLeadingZeros(s[1..]) else s
  }

  /** The number a string of decimal digits denotes (what `parseInt` yields for it). */
  function DigitsValue(d: string): nat
    requires AllDigits(d)
    decreases |d|
  {
    if d == [] then 0 else DigitsValue(d[..|d| - 1]) * 10 + (d[|d| - 1] as int - '0' as int)
  }

  /** A leading zero does not change the value of a digit string. */
  lemma {:induction false} LeadingZeroValue(d: string)
    requires AllDigits(d)
    ensures AllDigits("0" + d) && DigitsValue("0" + d) == DigitsValue(d)
    decreases |d|
  {
    if d != [] {
      var e := "0" + d;
      assert e[..|e| - 1] == "0" + d[..|d| - 1];
      LeadingZeroValue(d[..|d| - 1]);
    }
  }

  /** The decimal digit of a value below ten. */
  function DigitChar(d: nat): (c: char)
    requires d < 10
    ensures IsDigit(c) && c as int - '0' as int == d
  {
    ('0' as int + d) as char
  }

  /** `String(n)` for a whole number: its decimal digits, without leading zeros. */
  function NatToString(n: nat): (r: string)
    ensures |r| > 0 && AllDigits(r)
    ensures DigitsValue(r) == n
    ensures r[0] == '0' ==> r == "0"
    decreases n
  {
    if n < 10 then [DigitChar(n)]
    else
      var r := NatToString(n / 10) + [DigitChar(n % 10)];
      assert r[..|r| - 1] == NatToString(n / 10);
      r
  }

  /** `String(i)` for an integer: a minus sign before the digits of a negative one. */
  function IntToString(i: int): (r: string)
    ensures i < 0 <==> (|r| > 0 && r[0] == '-')
  {
    if i < 0 then "-" + NatToString(-i) else NatToString(i)
  }

  /** `parts.join(sep)`. */
  function Join(parts: seq<string>, sep: string): string
    decreases |parts|
  {
    if parts == [] then "" else if |parts| == 1 then parts[0] else parts[0] + sep + Join(parts[1..], sep)
  }

  /** `b` is `a` with zero or more of its leading '0' characters removed. */
  predicate DropsLeadingZeros(a: string, b: string)
    decreases |a|
  {
    a == b || (a != [] && a[0] == '0' && DropsLeadingZeros(a[1..], b))
  }

  /** Keeps the elements that satisfy `p`, in order (`Array.prototype.filter`). */
  function Filter<T>(s: seq<T>, p: T -> bool): (r: seq<T>)
    ensures |r| <= |s|
    ensures forall i :: 0 <= i < |r| ==> r[i] in s && p(r[i])
    ensures forall i :: 0 <= i < |s| && p(s[i]) ==> s[i] in r
    decreases |s|
  {
    if s == [] then [] else (if p(s[0]) then [s[0]] else []) + Filter(s[1..], p)
  }

  /**
   * Filtering keeps every copy of an element that satisfies `p` and no copy
   * of one that does not.
   */
  lemma {:induction false} FilterCounts<T(!new)>(s: seq<T>, p: T -> bool)
    ensures forall x :: multiset(Filter(s, p))[x] == if p(x) then multiset(s)[x] else 0
    decreases |s|
  {
    if s != [] {
      assert s == [s[0]] + s[1..];
      FilterCounts(s[1..], p);
    }
  }

  /**
   * Filtering keeps the order: filtering a concatenation filters each part
   * and concatenates the results.
   */
  lemma {:induction false} FilterConcat<T>(a: seq<T>, b: seq<T>, p: T -> bool)
    ensures Filter(a + b, p) == Filter(a, p) + Filter(b, p)
    decreases |a|
  {
    if a == [] {
      assert a + b == b;
    } else {
      assert (a + b)[0] == a[0];
      assert (a + b)[1..] == a[1..] + b;
      FilterConcat(a[1..], b, p);
      var head := if p(a[0]) then [a[0]] else [];
      assert Filter(a + b, p) == head + (Filter(a[1..], p) + Filter(b, p));
      assert head + (Filter(a[1..], p) + Filter(b, p)) == (head + Filter(a[1..], p)) + Filter(b, p);
    }
  }

  /** `Array.prototype.some`: whether some element satisfies `p`. */
  function Any<T>(s: seq<T>, p: T -> bool): (r: bool)
    ensures r <==> exists k :: 0 <= k < |s| && p(s[k])
    decreases |s|
  {
    if s == [] then false
    else if p(s[0]) then true
    else
      var r := Any(s[1..], p);
      assert r ==> exists k :: 0 <= k < |s| && p(s[k]) by {
        if r {
          var k :| 0 <= k < |s[1..]| && p(s[1..][k]);
          assert s[k + 1] == s[1..][k];
        }
      }
      assert (exists k :: 0 <= k < |s| && p(s[k])) ==> r by {
        if exists k :: 0 <= k < |s| && p(s[k]) {
          var k :| 0 <= k < |s| && p(s[k]);
          assert k > 0 && s[1..][k - 1] == s[k];
        }
      }
      r
  }
}
