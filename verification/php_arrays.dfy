/** The PHP array and string primitives the payload builder relies on: `explode`, the
    first-occurrence `unique()`, `array_flip` and `range`. */
module PhpArrays {

  /** The position of the first `c` in `s`. */
  function IndexOf(s: string, c: char): (i: nat)
    requires c in s
    ensures i < |s| && s[i] == c && c !in s[..i]
  {
    if s[0] == c then 0 else 1 + IndexOf(s[1..], c)
  }

  /** `explode(',', s)`: the pieces of `s` between commas (one piece when there is none). */
  function Explode(s: string): (parts: seq<string>)
    ensures |parts| >= 1
    ensures forall i :: 0 <= i < |parts| ==> ',' !in parts[i]
    decreases |s|
  {
    if ',' !in s then [s]
    else
      var i := IndexOf(s, ',');
      [s[..i]] + Explode(s[i + 1..])
  }

  /** `implode(',', parts)`. */
  function Implode(parts: seq<string>): string
    requires |parts| >= 1
  {
    if |parts| == 1 then parts[0] else parts[0] + "," + Implode(parts[1..])
  }

  /** Exploding and re-joining gives back the text. */
  lemma {:induction false} ImplodeExplode(s: string)
    ensures Implode(Explode(s)) == s
    decreases |s|
  {
    if ',' in s {
      var i := IndexOf(s, ',');
      var rest := Explode(s[i + 1..]);
      var parts := [s[..i]] + rest;
      assert Explode(s) == parts;
      assert parts[0] == s[..i] && parts[1..] == rest;
      ImplodeExplode(s[i + 1..]);
      assert Implode(parts) == s[..i] + "," + s[i + 1..];
      assert s == s[..i] + "," + s[i + 1..];
    }
  }

  /** The first comma of `a + "," + b` is the one after `a` when `a` has none. */
  lemma {:induction false} FirstCommaAfter(a: string, b: string)
    requires ',' !in a
    ensures ',' in a + "," + b && IndexOf(a + "," + b, ',') == |a|
  {
    var s := a + "," + b;
    assert s[|a|] == ',';
    if a != [] {
      assert s[0] == a[0];
      assert s[1..] == a[1..] + "," + b;
      FirstCommaAfter(a[1..], b);
    }
  }

  /** Joining comma-free pieces and exploding gives back the pieces. */
  lemma {:induction false} ExplodeImplode(parts: seq<string>)
    requires |parts| >= 1
    requires forall i :: 0 <= i < |parts| ==> ',' !in parts[i]
    ensures Explode(Implode(parts)) == parts
  {
    if |parts| > 1 {
      var p0, rest := parts[0], Implode(parts[1..]);
      var s := p0 + "," + rest;
      assert Implode(parts) == s;
      FirstCommaAfter(p0, rest);
      assert s[..|p0|] == p0 && s[|p0| + 1..] == rest;
      assert Explode(s) == [p0] + Explode(rest);
      ExplodeImplode(parts[1..]);
      assert parts == [p0] + parts[1..];
    }
  }

  /** Two comma-free texts joined by a comma explode into those two texts. */
  lemma ExplodePair(a: string, b: string)
    requires ',' !in a && ',' !in b
    ensures Explode(a + "," + b) == [a, b]
  {
    ExplodeImplode([a, b]);
    assert Implode([a, b]) == a + "," + Implode([b]);
  }

  predicate Distinct(xs: seq<int>)
  {
    forall i, j :: 0 <= i < j < |xs| ==> xs[i] != xs[j]
  }

  /** The position of the first occurrence of `x` in `xs`. */
  function FirstIndex(xs: seq<int>, x: int): (i: nat)
    requires x in xs
    ensures i < |xs| && xs[i] == x && x !in xs[..i]
  {
    if xs[|xs| - 1] == x && x !in xs[..|xs| - 1] then |xs| - 1
    else FirstIndex(xs[..|xs| - 1], x)
  }

  /** The collection `unique()->values()`: the distinct values of `xs` in order of first
      occurrence. */
  function Unique(xs: seq<int>): (u: seq<int>)
    ensures Distinct(u)
    ensures forall x :: x in u <==> x in xs
  {
    if xs == [] then []
    else
      var front := Unique(xs[..|xs| - 1]);
      var x := xs[|xs| - 1];
      assert forall y :: y in xs <==> y in xs[..|xs| - 1] || y == x;
      if x in front then front else front + [x]
  }

  /** `Unique` keeps first-occurrence order: an earlier value first occurs earlier. */
  lemma {:induction false} UniqueOrder(xs: seq<int>, i: nat, j: nat)
    requires i < j < |Unique(xs)|
    ensures FirstIndex(xs, Unique(xs)[i]) < FirstIndex(xs, Unique(xs)[j])
  {
    var front := xs[..|xs| - 1];
    var x := xs[|xs| - 1];
    var u := Unique(xs);
    var uf := Unique(front);
    forall y | y in front ensures FirstIndex(xs, y) == FirstIndex(front, y) {
      assert xs[FirstIndex(front, y)] == y;
    }
    if j < |uf| {
      assert u[i] == uf[i] && u[j] == uf[j];
      UniqueOrder(front, i, j);
    } else {
      assert x !in uf && u == uf + [x] && j == |uf|;
      assert x !in front;
      assert FirstIndex(xs, x) == |xs| - 1;
      assert u[i] == uf[i] && uf[i] in front;
      assert FirstIndex(front, uf[i]) < |front|;
    }
  }

  /** `array_flip(xs)`: each value mapped to its position, a later position winning. */
  function Flip(xs: seq<int>): (m: map<int, nat>)
    ensures forall x :: x in m <==> x in xs
    ensures forall x :: x in m ==> m[x] < |xs| && xs[m[x]] == x
  {
    if xs == [] then map[]
    else Flip(xs[..|xs| - 1])[xs[|xs| - 1] := |xs| - 1]
  }

  /** On distinct values the flip is the inverse of indexing: it maps `xs[i]` back to `i`, so
      it is a bijection from the values onto `0 .. |xs|-1`. */
  lemma FlipDistinct(xs: seq<int>)
    requires Distinct(xs)
    ensures forall i :: 0 <= i < |xs| ==> xs[i] in Flip(xs) && Flip(xs)[xs[i]] == i
  {
    forall i | 0 <= i < |xs| ensures Flip(xs)[xs[i]] == i {
      var k := Flip(xs)[xs[i]];
      assert xs[k] == xs[i];
    }
  }

  /** `range(lo, hi)`: counting up from `lo` to `hi`, or down when `lo > hi`. */
  function PhpRange(lo: int, hi: int): (r: seq<int>)
    ensures |r| == (if lo <= hi then hi - lo + 1 else lo - hi + 1)
    ensures r[0] == lo && r[|r| - 1] == hi
    ensures lo <= hi ==> forall i :: 0 <= i < |r| ==> r[i] == lo + i
    ensures hi < lo ==> forall i :: 0 <= i < |r| ==> r[i] == lo - i
  {
    if lo <= hi then seq(hi - lo + 1, i requires 0 <= i < hi - lo + 1 => lo + i)
    else seq(lo - hi + 1, i requires 0 <= i < lo - hi + 1 => lo - i)
  }

  /** `range(0, n - 1)` lists `0 .. n-1` when `n >= 1`, and is `[0, -1]` when `n == 0`. */
  lemma RangeToLast(n: nat)
    ensures var r := PhpRange(0, n - 1);
      n >= 1 ==> |r| == n && forall i :: 0 <= i < n ==> r[i] == i
    ensures n == 0 ==> PhpRange(0, n - 1) == [0, -1]
  {
    if n == 0 {
      var r := PhpRange(0, -1);
      assert |r| == 2 && r[0] == 0 && r[1] == -1;
    }
  }
}
