/** Python's order on strings: character by character, a proper prefix first. */
module Lexicographic {

  predicate Less(a: string, b: string) {
    if b == [] then false
    else if a == [] then true
    else if a[0] != b[0] then a[0] < b[0]
    else Less(a[1..], b[1..])
  }

  predicate LessEq(a: string, b: string) { a == b || Less(a, b) }

  /** What the order is: at the first place where the strings differ the smaller character decides, and a string comes
      before those it starts. */
  lemma {:induction false} LessIs(a: string, b: string)
    ensures Less(a, b) <==> exists k: nat :: DiffersAt(a, b, k)
  {
    if a != [] && b != [] && a[0] == b[0] {
      LessIs(a[1..], b[1..]);
      if Less(a, b) {
        var k: nat :| DiffersAt(a[1..], b[1..], k);
        assert a[..k + 1] == [a[0]] + a[1..][..k] && b[..k + 1] == [b[0]] + b[1..][..k];
        assert DiffersAt(a, b, k + 1);
      }
      if k: nat :| DiffersAt(a, b, k) {
        assert k > 0 && a[1..][..k - 1] == a[..k][1..] && b[1..][..k - 1] == b[..k][1..];
        assert DiffersAt(a[1..], b[1..], k - 1);
      }
    } else if Less(a, b) {
      assert DiffersAt(a, b, 0);
    }
  }

  /** The strings agree before k, and there the first has ended or has the smaller character. */
  predicate DiffersAt(a: string, b: string, k: nat) {
    k <= |a| && k < |b| && a[..k] == b[..k] && (k == |a| || a[k] < b[k])
  }

  lemma {:induction false} Total(a: string, b: string)
    ensures Less(a, b) || a == b || Less(b, a)
    ensures !(Less(a, b) && (a == b || Less(b, a)))
  {
    if a != [] && b != [] {
      Total(a[1..], b[1..]);
      assert a == [a[0]] + a[1..] && b == [b[0]] + b[1..];
    }
  }

  lemma {:induction false} Transitive(a: string, b: string, c: string)
    requires Less(a, b) && Less(b, c)
    ensures Less(a, c)
  {
    if a != [] && a[0] == b[0] && b[0] == c[0] { Transitive(a[1..], b[1..], c[1..]); }
  }

  predicate Increasing(xs: seq<string>) {
    forall i, j | 0 <= i < j < |xs| :: Less(xs[i], xs[j])
  }

  /** Python's sorted(set(xs)). */
  function SortedSet(xs: seq<string>): (r: seq<string>)
    ensures Increasing(r)
    ensures forall x :: x in r <==> x in xs
  {
    if xs == [] then [] else Insert(SortedSet(xs[..|xs| - 1]), xs[|xs| - 1])
  }

  function Insert(xs: seq<string>, x: string): (r: seq<string>)
    requires Increasing(xs)
    ensures Increasing(r)
    ensures forall y :: y in r <==> y == x || y in xs
  {
    if xs == [] then [x]
    else
      var last := xs[|xs| - 1];
      if last == x then xs
      else if Less(last, x) then (AppendIncreases(xs, x); xs + [x])
      else
        var front := Insert(xs[..|xs| - 1], x);
        (InsertBelow(xs, x, front); front + [last])
  }

  lemma AppendIncreases(xs: seq<string>, x: string)
    requires Increasing(xs) && (xs != [] ==> Less(xs[|xs| - 1], x))
    ensures Increasing(xs + [x])
  {
    forall i | 0 <= i < |xs|
      ensures Less(xs[i], x)
    {
      if i < |xs| - 1 { Transitive(xs[i], xs[|xs| - 1], x); }
    }
  }

  lemma InsertBelow(xs: seq<string>, x: string, front: seq<string>)
    requires xs != [] && Increasing(xs) && !Less(xs[|xs| - 1], x) && xs[|xs| - 1] != x
    requires Increasing(front) && forall y :: y in front <==> y == x || y in xs[..|xs| - 1]
    ensures Increasing(front + [xs[|xs| - 1]])
    ensures forall y :: y in front + [xs[|xs| - 1]] <==> y == x || y in xs
  {
    var last := xs[|xs| - 1];
    Total(last, x);
    forall i | 0 <= i < |front|
      ensures Less(front[i], last)
    {
      assert front[i] in front;
    }
    assert xs == xs[..|xs| - 1] + [last];
  }

  /** An increasing sequence is determined by its elements. */
  lemma {:induction false} IncreasingUnique(xs: seq<string>, ys: seq<string>)
    requires Increasing(xs) && Increasing(ys) && forall x :: x in xs <==> x in ys
    ensures xs == ys
  {
    assert xs != [] ==> xs[0] in ys;
    assert ys != [] ==> ys[0] in xs;
    if xs != [] {
      var x, y := xs[|xs| - 1], ys[|ys| - 1];
      assert x in ys && y in xs;
      Total(x, y);
      assert x == y;
      Total(x, x);
      var front, back := xs[..|xs| - 1], ys[..|ys| - 1];
      assert x !in front && x !in back;
      forall z | z in front ensures z in back { assert z in xs; }
      forall z | z in back ensures z in front { assert z in ys; }
      IncreasingUnique(front, back);
    }
  }
}
