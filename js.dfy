/**
 * Models of the JavaScript value semantics the site's code relies on:
 * truthiness of optional strings, `||` on strings, integer-valued numbers
 * that can turn into NaN, the truncating `%`, `String(n)`, `slice`,
 * `filter`, `find` and the order of `<` on strings, taken over Unicode scalar
 * values (which agrees with the code-unit order inside the BMP).
 */
module Js {

  datatype Option<+T> = None | Some(value: T) {
    function GetOr(default: T): T {
      match this
      case Some(v) => v
      case None => default
    }
  }

  /** `!!s` for a value that is a string, null or undefined (None). */
  predicate Truthy(s: Option<string>) {
    s.Some? && s.value != ""
  }

  /** `a || b` on values that are strings, null or undefined. */
  function Or(a: Option<string>, b: Option<string>): Option<string> {
    if Truthy(a) then a else b
  }

  /** `a || fallback` where the fallback is a string literal. */
  function OrElse(a: Option<string>, fallback: string): string {
    if Truthy(a) then a.value else fallback
  }

  /** An integer-valued JavaScript number, or NaN. */
  datatype Num = Int(i: int) | NaN

  /** `x + k` */
  function Plus(x: Num, k: int): Num {
    match x
    case Int(i) => Int(i + k)
    case NaN => NaN
  }

  /** `k * x` */
  function Times(k: int, x: Num): Num {
    match x
    case Int(i) => Int(k * i)
    case NaN => NaN
  }

  /** `a % b` on integers: the remainder of the division truncated toward zero. */
  function RemInt(a: int, b: int): (r: int)
    requires b != 0
    ensures a >= 0 ==> r == a % b && 0 <= r < (if b > 0 then b else -b)
    ensures a < 0 ==> r == -((-a) % b) && r <= 0
  {
    if a >= 0 then a % b else -((-a) % b)
  }

  /** `x % n`: NaN when x is NaN or n is 0. */
  function Rem(x: Num, n: int): Num {
    match x
    case NaN => NaN
    case Int(i) => if n == 0 then NaN else Int(RemInt(i, n))
  }

  /** `Math.max(a, b)` on integers. */
  function Max(a: int, b: int): int {
    if a >= b then a else b
  }

  /** `Math.min(a, b)` on integers. */
  function Min(a: int, b: int): int {
    if a <= b then a else b
  }

  function DigitChar(d: int): char
    requires 0 <= d < 10
  {
    (48 + d) as char
  }

  /** The decimal numeral of a natural number, without leading zeros. */
  function NaturalString(n: nat): (s: string)
    ensures 1 <= |s|
    ensures forall i :: 0 <= i < |s| ==> '0' <= s[i] <= '9'
    decreases n
  {
    if n < 10 then [DigitChar(n)] else NaturalString(n / 10) + [DigitChar(n % 10)]
  }

  /** `String(n)` (and `${n}`) for an integer-valued number. */
  function NumberString(n: int): string {
    if n < 0 then "-" + NaturalString(-n) else NaturalString(n)
  }

  /** `s.slice(start, end)` for non-negative bounds: both are clamped to the length. */
  function Slice<T>(s: seq<T>, start: nat, end: nat): seq<T> {
    var hi := if end <= |s| then end else |s|;
    var lo := if start <= hi then start else hi;
    s[lo..hi]
  }

  /** `xs.filter(p)`: the elements satisfying p, in their original order. */
  function Filter<T>(xs: seq<T>, p: T -> bool): (r: seq<T>)
    ensures |r| <= |xs|
    ensures forall i :: 0 <= i < |r| ==> r[i] in xs && p(r[i])
    ensures forall i :: 0 <= i < |xs| && p(xs[i]) ==> xs[i] in r
  {
    if xs == [] then []
    else
      var rest := Filter(xs[1..], p);
      assert forall i :: 1 <= i < |xs| ==> xs[i] == xs[1..][i - 1];
      if p(xs[0]) then [xs[0]] + rest else rest
  }

  /** Filtering `xs + [y]` filters `xs` and then keeps y or not. */
  lemma {:induction false} FilterAppendOne<T>(xs: seq<T>, y: T, p: T -> bool)
    ensures Filter(xs + [y], p) == Filter(xs, p) + (if p(y) then [y] else [])
  {
    if xs == [] {
      assert xs + [y] == [y] && [y][1..] == [];
    } else {
      assert (xs + [y])[0] == xs[0] && (xs + [y])[1..] == xs[1..] + [y];
      FilterAppendOne(xs[1..], y, p);
    }
  }

  /** Filtering keeps the original order: it distributes over concatenation. */
  lemma {:induction false} FilterAppend<T>(xs: seq<T>, ys: seq<T>, p: T -> bool)
    ensures Filter(xs + ys, p) == Filter(xs, p) + Filter(ys, p)
  {
    if xs == [] {
      assert xs + ys == ys;
    } else {
      assert (xs + ys)[0] == xs[0] && (xs + ys)[1..] == xs[1..] + ys;
      FilterAppend(xs[1..], ys, p);
    }
  }

  /** A filter every element passes returns its input. */
  lemma {:induction false} FilterKeepsAll<T>(xs: seq<T>, p: T -> bool)
    requires forall i :: 0 <= i < |xs| ==> p(xs[i])
    ensures Filter(xs, p) == xs
  {
    if xs != [] {
      assert forall i :: 0 <= i < |xs[1..]| ==> xs[1..][i] == xs[i + 1];
      FilterKeepsAll(xs[1..], p);
      assert xs == [xs[0]] + xs[1..];
    }
  }

  /** The index `xs.findIndex(p)` returns: the first element satisfying p, or -1. */
  function FindIndex<T>(xs: seq<T>, p: T -> bool): (k: int)
    ensures -1 <= k < |xs|
    ensures k == -1 <==> forall i :: 0 <= i < |xs| ==> !p(xs[i])
    ensures 0 <= k ==> p(xs[k]) && forall j :: 0 <= j < k ==> !p(xs[j])
  {
    if xs == [] then -1
    else if p(xs[0]) then 0
    else
      var k := FindIndex(xs[1..], p);
      if k == -1 then -1 else k + 1
  }

  /** `xs.find(p)`: the first element satisfying p, or undefined. */
  function Find<T>(xs: seq<T>, p: T -> bool): Option<T> {
    var k := FindIndex(xs, p);
    if k == -1 then None else Some(xs[k])
  }

  /**
   * `a < b` on strings: lexicographic order on Unicode scalar values, a proper
   * prefix first. Inside the BMP this is the code-unit order JavaScript uses.
   */
  predicate LexLess(a: string, b: string)
    decreases |a|
  {
    if a == [] then b != []
    else if b == [] then false
    else if a[0] != b[0] then a[0] < b[0]
    else LexLess(a[1..], b[1..])
  }

  /** `a <= b` on strings, which JavaScript evaluates as `!(b < a)`. */
  predicate LexLessEq(a: string, b: string) {
    !LexLess(b, a)
  }

  /** `c.repeat(n)` for a single character. */
  function Repeat(c: char, n: nat): (s: string)
    ensures |s| == n
    ensures forall i :: 0 <= i < n ==> s[i] == c
  {
    seq(n, _ => c)
  }

  lemma ModBelow(a: int, p: int)
    requires 0 <= a < p
    ensures a % p == a
  {
  }

  lemma ModOnce(a: int, p: int)
    requires 0 < p <= a < 2 * p
    ensures a % p == a - p
  {
    assert a == p + (a - p);
  }

  /** On a ring of n positions, `(k + 1) % n` and `(k - 1 + n) % n` stay on the ring and undo each other. */
  lemma RingSteps(k: int, n: int)
    requires 0 <= k < n
    ensures 0 <= RemInt(k + 1, n) < n && 0 <= RemInt(k - 1 + n, n) < n
    ensures RemInt(RemInt(k + 1, n) - 1 + n, n) == k
    ensures RemInt(RemInt(k - 1 + n, n) + 1, n) == k
  {
    var f := if k + 1 < n then k + 1 else 0;
    var b := if k == 0 then n - 1 else k - 1;
    if k + 1 < n { ModBelow(k + 1, n); } else { ModOnce(k + 1, n); }
    assert RemInt(k + 1, n) == f;
    if k == 0 { ModBelow(n - 1, n); } else { ModOnce(k - 1 + n, n); }
    assert RemInt(k - 1 + n, n) == b;
    if f == 0 { ModBelow(n - 1, n); } else { ModOnce(f - 1 + n, n); }
    if b + 1 < n { ModBelow(b + 1, n); } else { ModOnce(b + 1, n); }
  }
}
