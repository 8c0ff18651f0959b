/** Helpers shared by the models: optional values, left folds over sequences
    (counting, summing, filtering), JavaScript's Math.round of a quotient, and
    the few string operations the source relies on (trim, ASCII lower-casing,
    substring search, decimal rendering). Folds peel off the LAST element, so
    that a loop that walks a sequence from the front extends them one step at a
    time, exactly like `forEach` or `reduce`. */
module Common {

  datatype Option<T> = None | Some(value: T)

  /** `o || d` for an optional value whose presence is its only falsy case. */
  function GetOr<T>(o: Option<T>, d: T): T
  {
    match o
    case Some(v) => v
    case None => d
  }

  /** `x || d` for a number that may be missing: JavaScript treats both a
      missing value and 0 as falsy. */
  function IntOr(x: Option<int>, d: int): (r: int)
    ensures r == d <==> (x == None || x.value == 0 || x.value == d)
  {
    if x.Some? && x.value != 0 then x.value else d
  }

  /** `s || d` for a string that may be missing: the empty string is falsy. */
  function StrOr(s: Option<string>, d: string): (r: string)
    ensures s.Some? && s.value != "" ==> r == s.value
    ensures (s == None || s.value == "") ==> r == d
  {
    if s.Some? && s.value != "" then s.value else d
  }

  // ---------------------------------------------------------------- folds

  /** Number of elements of `s` that satisfy `p`. */
  function Count<T>(s: seq<T>, p: T -> bool): (n: nat)
    ensures n <= |s|
    ensures n == 0 <==> forall i :: 0 <= i < |s| ==> !p(s[i])
  {
    if s == [] then 0
    else Count(s[..|s| - 1], p) + (if p(s[|s| - 1]) then 1 else 0)
  }

  lemma {:induction false} CountAppend<T>(s: seq<T>, t: seq<T>, p: T -> bool)
    ensures Count(s + t, p) == Count(s, p) + Count(t, p)
    decreases |t|
  {
    if t == [] {
      assert s + t == s;
    } else {
      var t' := t[..|t| - 1];
      assert (s + t)[..|s + t| - 1] == s + t';
      CountAppend(s, t', p);
    }
  }

  /** Counting reaches the length exactly when every element satisfies the
      predicate. */
  lemma {:induction false} CountAll<T>(s: seq<T>, p: T -> bool)
    ensures Count(s, p) == |s| <==> forall i :: 0 <= i < |s| ==> p(s[i])
  {
    if s != [] {
      CountAll(s[..|s| - 1], p);
      assert forall i :: 0 <= i < |s| - 1 ==> s[..|s| - 1][i] == s[i];
    }
  }

  /** Counting with a predicate that implies another never gives more. */
  lemma {:induction false} CountMono<T>(s: seq<T>, p: T -> bool, q: T -> bool)
    requires forall x :: p(x) ==> q(x)
    ensures Count(s, p) <= Count(s, q)
  {
    if s != [] {
      CountMono(s[..|s| - 1], p, q);
    }
  }

  /** Sum of `f` over `s`, as `s.reduce((sum, x) => sum + f(x), 0)`. */
  function SumOf<T>(s: seq<T>, f: T -> int): int
  {
    if s == [] then 0 else SumOf(s[..|s| - 1], f) + f(s[|s| - 1])
  }

  lemma {:induction false} SumOfAppend<T>(s: seq<T>, t: seq<T>, f: T -> int)
    ensures SumOf(s + t, f) == SumOf(s, f) + SumOf(t, f)
    decreases |t|
  {
    if t == [] {
      assert s + t == s;
    } else {
      var t' := t[..|t| - 1];
      assert (s + t)[..|s + t| - 1] == s + t';
      SumOfAppend(s, t', f);
    }
  }

  /** A sum of values that all lie in [lo, hi] lies in [lo * n, hi * n]. */
  lemma {:induction false} SumOfBounds<T>(s: seq<T>, f: T -> int, lo: int, hi: int)
    requires forall i :: 0 <= i < |s| ==> lo <= f(s[i]) <= hi
    ensures lo * |s| <= SumOf(s, f) <= hi * |s|
  {
    if s != [] {
      var s' := s[..|s| - 1];
      assert forall i :: 0 <= i < |s'| ==> s'[i] == s[i];
      SumOfBounds(s', f, lo, hi);
      assert lo * |s| == lo * |s'| + lo;
      assert hi * |s| == hi * |s'| + hi;
    }
  }

  /** Elements of `s` that satisfy `p`, in their original order (`s.filter(p)`). */
  function Filter<T>(s: seq<T>, p: T -> bool): (r: seq<T>)
    ensures |r| == Count(s, p)
    ensures forall i :: 0 <= i < |r| ==> p(r[i]) && r[i] in s
    ensures forall i :: 0 <= i < |s| && p(s[i]) ==> s[i] in r
  {
    if s == [] then []
    else
      var r' := Filter(s[..|s| - 1], p);
      assert forall i :: 0 <= i < |s| - 1 ==> s[..|s| - 1][i] == s[i];
      if p(s[|s| - 1]) then r' + [s[|s| - 1]] else r'
  }

  lemma {:induction false} FilterAppend<T>(s: seq<T>, t: seq<T>, p: T -> bool)
    ensures Filter(s + t, p) == Filter(s, p) + Filter(t, p)
    decreases |t|
  {
    if t == [] {
      assert s + t == s;
    } else {
      var t' := t[..|t| - 1];
      assert (s + t)[..|s + t| - 1] == s + t';
      FilterAppend(s, t', p);
    }
  }

  /** Filtering keeps exactly the multiplicity of every kept value. */
  lemma {:induction false} FilterMultiset<T>(s: seq<T>, p: T -> bool, x: T)
    ensures multiset(Filter(s, p))[x] == if p(x) then multiset(s)[x] else 0
  {
    if s != [] {
      var s' := s[..|s| - 1];
      assert s == s' + [s[|s| - 1]];
      FilterMultiset(s', p, x);
    }
  }

  // ---------------------------------------------------------- arithmetic

  /** JavaScript's `Math.round(t / n)` for a positive divisor: the integer
      nearest to t / n, halves rounded up. */
  function RoundDiv(t: int, n: int): (r: int)
    requires n > 0
    ensures n * (2 * r - 1) <= 2 * t < n * (2 * r + 1)
  {
    var q := (2 * t + n) / (2 * n);
    assert 2 * t + n == 2 * n * q + (2 * t + n) % (2 * n);
    q
  }

  lemma MulCancelLt(n: int, a: int, b: int)
    requires n > 0 && n * a < n * b
    ensures a < b
  {
  }

  /** A rounded mean of values in [lo, hi] stays in [lo, hi]. */
  lemma RoundDivBounds(t: int, n: int, lo: int, hi: int)
    requires n > 0 && lo * n <= t <= hi * n
    ensures lo <= RoundDiv(t, n) <= hi
  {
    var r := RoundDiv(t, n);
    assert n * (2 * r - 1) < n * (2 * hi + 1);
    MulCancelLt(n, 2 * r - 1, 2 * hi + 1);
    assert n * (2 * lo - 1) < n * (2 * r + 1);
    MulCancelLt(n, 2 * lo - 1, 2 * r + 1);
  }

  lemma MulMonotone(n: int, a: int, b: int)
    requires n >= 0 && a <= b
    ensures n * a <= n * b
  {
    assert n * b - n * a == n * (b - a);
  }

  /** Math.round(t / n) reaches `k` exactly when t / n is at least k - 1/2. */
  lemma RoundDivAtLeast(t: int, n: int, k: int)
    requires n > 0
    ensures RoundDiv(t, n) >= k <==> 2 * t >= n * (2 * k - 1)
  {
    var r := RoundDiv(t, n);
    if r >= k {
      MulMonotone(n, 2 * k - 1, 2 * r - 1);
    } else {
      MulMonotone(n, 2 * r + 1, 2 * k - 1);
    }
  }

  // -------------------------------------------------------------- strings

  /** The characters JavaScript's `trim()` and the regular-expression class
      `\s` treat as white space (ECMAScript WhiteSpace and LineTerminator). */
  predicate IsWhitespace(c: char)
  {
    c == ' ' || c == '\t' || c == '\n' || c == '\r' || c == '\U{000B}' || c == '\U{000C}'
    || c == '\U{00A0}' || c == '\U{1680}' || ('\U{2000}' <= c <= '\U{200A}')
    || c == '\U{2028}' || c == '\U{2029}' || c == '\U{202F}' || c == '\U{205F}'
    || c == '\U{3000}' || c == '\U{FEFF}'
  }

  function TrimStart(s: string): (r: string)
    ensures |r| <= |s| && r == s[|s| - |r|..]
    ensures r != [] ==> !IsWhitespace(r[0])
    ensures forall i :: 0 <= i < |s| - |r| ==> IsWhitespace(s[i])
  {
    if s != [] && IsWhitespace(s[0]) then TrimStart(s[1..]) else s
  }

  function TrimEnd(s: string): (r: string)
    ensures |r| <= |s| && r == s[..|r|]
    ensures r != [] ==> !IsWhitespace(r[|r| - 1])
    ensures forall i :: |r| <= i < |s| ==> IsWhitespace(s[i])
  {
    if s != [] && IsWhitespace(s[|s| - 1]) then TrimEnd(s[..|s| - 1]) else s
  }

  /** `s.trim()`: `s` without its leading and trailing white space. */
  function Trim(s: string): string
  {
    TrimEnd(TrimStart(s))
  }

  /** The trimmed text is empty exactly when every character is white space. */
  lemma TrimEmpty(s: string)
    ensures Trim(s) == [] <==> forall i :: 0 <= i < |s| ==> IsWhitespace(s[i])
  {
    var a := TrimStart(s);
    if Trim(s) == [] {
      forall i | 0 <= i < |s| ensures IsWhitespace(s[i]) {
        if i >= |s| - |a| {
          assert s[i] == a[i - (|s| - |a|)];
        }
      }
    } else {
      var c := Trim(s)[0];
      assert c == a[0];
      assert a[0] == s[|s| - |a|];
    }
  }

  function LowerChar(c: char): char
  {
    if 'A' <= c <= 'Z' then (c as int + 32) as char else c
  }

  /** `s.toLowerCase()` restricted to the ASCII letters. */
  function ToLower(s: string): (r: string)
    ensures |r| == |s|
    ensures forall i :: 0 <= i < |s| ==> r[i] == LowerChar(s[i])
  {
    if s == [] then [] else [LowerChar(s[0])] + ToLower(s[1..])
  }

  /** `needle` occurs in `hay` starting at position `i`. */
  predicate OccursAt(hay: string, needle: string, i: int)
  {
    0 <= i <= |hay| - |needle| && hay[i..i + |needle|] == needle
  }

  /** `hay.includes(needle)`. */
  predicate Contains(hay: string, needle: string)
  {
    exists i :: 0 <= i <= |hay| - |needle| && OccursAt(hay, needle, i)
  }

  function DigitChar(d: nat): (c: char)
    requires d < 10
    ensures '0' <= c <= '9'
  {
    ('0' as int + d) as char
  }

  /** Decimal rendering of a natural number, as a template literal prints it. */
  function NatToString(n: nat): (s: string)
    ensures |s| >= 1
    ensures forall i :: 0 <= i < |s| ==> '0' <= s[i] <= '9'
    ensures n >= 10 <==> |s| >= 2
  {
    if n < 10 then [DigitChar(n)] else NatToString(n / 10) + [DigitChar(n % 10)]
  }

  /** Decimal rendering of an integer, with a leading '-' when negative. */
  function IntToString(n: int): (s: string)
    ensures |s| >= 1
    ensures s[0] == '-' <==> n < 0
  {
    if n < 0 then "-" + NatToString(-n) else NatToString(n)
  }
}
