/** JavaScript value conventions the server relies on: a property that may be
    absent (undefined or null), the truthiness that `||` and `if` test, and the
    array operations filter, slice and split that the handlers chain. */
module Js {

  /** A property that may be absent: None stands for undefined or null. */
  datatype Option<+T> = None | Some(value: T)

  /** A query parameter value handed to the provider. */
  datatype Param = Text(s: string) | Number(n: int) | Flag(b: bool)

  /** The query `p` sends key `k` with value `v`. */
  predicate Maps(p: map<string, Param>, k: string, v: Param) {
    k in p && p[k] == v
  }

  /** A string property is truthy when present and non-empty. */
  predicate Truthy(s: Option<string>) {
    s.Some? && s.value != ""
  }

  /** A numeric property is truthy when present and non-zero (NaN is not modelled). */
  predicate TruthyInt(n: Option<int>) {
    n.Some? && n.value != 0
  }

  /** `a || b` on two optional strings: the first if truthy, else the second as it is. */
  function Or(a: Option<string>, b: Option<string>): (r: Option<string>)
    ensures Truthy(r) <==> Truthy(a) || Truthy(b)
    ensures Truthy(a) ==> r == a
    ensures !Truthy(a) ==> r == b
  {
    if Truthy(a) then a else b
  }

  /** `a || fallback` where the fallback is a plain string. */
  function OrElse(a: Option<string>, fallback: string): (r: string)
    ensures r == fallback || (Truthy(a) && r == a.value)
    ensures Truthy(a) ==> r == a.value
  {
    if Truthy(a) then a.value else fallback
  }

  /** How a template literal renders an optional string: undefined prints as "undefined". */
  function Render(s: Option<string>): string {
    if s.Some? then s.value else "undefined"
  }

  /** `s.split(c)[0]`: the text of `s` before its first occurrence of `c`,
      or all of `s` when `c` does not occur. */
  function BeforeFirst(s: string, c: char): (r: string)
    ensures r <= s
    ensures c !in r
    ensures |r| < |s| ==> s[|r|] == c
  {
    if s == [] || s[0] == c then [] else [s[0]] + BeforeFirst(s[1..], c)
  }

  /** The three properties of BeforeFirst determine it: any dash-free prefix
      that stops at the end or at the separator is that result. */
  lemma {:induction false} BeforeFirstUnique(s: string, c: char, p: string)
    requires p <= s && c !in p && (|p| < |s| ==> s[|p|] == c)
    ensures BeforeFirst(s, c) == p
  {
    if s != [] && s[0] != c {
      assert p != [] && p[0] == s[0];
      BeforeFirstUnique(s[1..], c, p[1..]);
    }
  }

  /** `xs.filter(keep)`: the elements that satisfy `keep`, in their original order. */
  function Filter<T>(xs: seq<T>, keep: T -> bool): (r: seq<T>)
    ensures |r| <= |xs|
    ensures forall k :: 0 <= k < |r| ==> keep(r[k]) && r[k] in xs
    ensures forall x :: x in xs && keep(x) ==> x in r
  {
    if xs == [] then []
    else if keep(xs[0]) then [xs[0]] + Filter(xs[1..], keep)
    else Filter(xs[1..], keep)
  }

  /** Filtering commutes with concatenation, which is what keeping the input
      order means. */
  lemma {:induction false} FilterAppend<T>(a: seq<T>, b: seq<T>, keep: T -> bool)
    ensures Filter(a + b, keep) == Filter(a, keep) + Filter(b, keep)
  {
    if a == [] {
      assert a + b == b;
    } else {
      assert (a + b)[0] == a[0] && (a + b)[1..] == a[1..] + b;
      FilterAppend(a[1..], b, keep);
    }
  }

  /** Filtering drops nothing when every element is kept. */
  lemma {:induction false} FilterAllKept<T>(xs: seq<T>, keep: T -> bool)
    requires forall k :: 0 <= k < |xs| ==> keep(xs[k])
    ensures Filter(xs, keep) == xs
  {
    if xs != [] {
      FilterAllKept(xs[1..], keep);
    }
  }

  /** `xs.slice(0, n)`. */
  function Take<T>(xs: seq<T>, n: nat): (r: seq<T>)
    ensures |r| <= n && r <= xs
    ensures |r| == n || r == xs
  {
    if |xs| <= n then xs else xs[..n]
  }
}
