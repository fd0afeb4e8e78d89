/**
 * The list combinators the core uses on arrays: a filtering map (the
 * parse-then-`push` loops), `filter`, and flattening (the batches).
 */
module Seqs {
  import opened Wrappers

  /** Keeps `y` for every `x` with `f(x) == Some(y)`, in order. */
  function FilterMap<A, B>(xs: seq<A>, f: A -> Option<B>): (r: seq<B>)
    ensures |r| <= |xs|
  {
    if xs == [] then []
    else (match f(xs[0]) case Some(y) => [y] case None => []) + FilterMap(xs[1..], f)
  }

  /** Mapping a concatenation maps each part: the output keeps the input's order. */
  lemma {:induction false} FilterMapAppend<A, B>(xs: seq<A>, ys: seq<A>, f: A -> Option<B>)
    ensures FilterMap(xs + ys, f) == FilterMap(xs, f) + FilterMap(ys, f)
  {
    if xs != [] {
      assert (xs + ys)[0] == xs[0];
      assert (xs + ys)[1..] == xs[1..] + ys;
      FilterMapAppend(xs[1..], ys, f);
    } else {
      assert xs + ys == ys;
    }
  }

  /** When every input is accepted, the output has one value per input, in order. */
  lemma {:induction false} FilterMapTotal<A, B>(xs: seq<A>, f: A -> Option<B>)
    requires forall k :: 0 <= k < |xs| ==> f(xs[k]).Some?
    ensures |FilterMap(xs, f)| == |xs|
    ensures forall k :: 0 <= k < |xs| ==> Some(FilterMap(xs, f)[k]) == f(xs[k])
  {
    if xs != [] {
      assert f(xs[0]).Some?;
      FilterMapTotal(xs[1..], f);
      assert FilterMap(xs, f) == [f(xs[0]).value] + FilterMap(xs[1..], f);
      forall k | 0 <= k < |xs| ensures Some(FilterMap(xs, f)[k]) == f(xs[k]) {
        if k > 0 {
          assert xs[1..][k - 1] == xs[k];
        }
      }
    }
  }

  /** An output comes from some input, and every accepted input gives an output. */
  lemma {:induction false} FilterMapMembers<A, B>(xs: seq<A>, f: A -> Option<B>, y: B)
    ensures y in FilterMap(xs, f) <==> exists x :: x in xs && f(x) == Some(y)
  {
    if xs != [] {
      FilterMapMembers(xs[1..], f, y);
      if f(xs[0]) == Some(y) {
        assert y in FilterMap(xs, f);
      }
      forall x | x in xs[1..] ensures x in xs { }
      forall x | x in xs && x != xs[0] ensures x in xs[1..] {
        var i :| 0 <= i < |xs| && xs[i] == x;
        assert xs[1..][i - 1] == x;
      }
    }
  }

  /** Keeps the elements that satisfy `p`, in order. */
  function Filter<A>(xs: seq<A>, p: A -> bool): (r: seq<A>)
    ensures |r| <= |xs|
    ensures forall k :: 0 <= k < |r| ==> p(r[k])
    ensures forall x :: x in r ==> x in xs
  {
    if xs == [] then []
    else
      var rest := Filter(xs[1..], p);
      assert forall x :: x in rest ==> x in xs by {
        forall x | x in rest ensures x in xs {
          assert x in xs[1..];
        }
      }
      (if p(xs[0]) then [xs[0]] else []) + rest
  }

  /** Filtering a concatenation filters each part: the output keeps the input's order. */
  lemma {:induction false} FilterAppend<A>(xs: seq<A>, ys: seq<A>, p: A -> bool)
    ensures Filter(xs + ys, p) == Filter(xs, p) + Filter(ys, p)
  {
    if xs != [] {
      assert (xs + ys)[0] == xs[0];
      assert (xs + ys)[1..] == xs[1..] + ys;
      FilterAppend(xs[1..], ys, p);
    } else {
      assert xs + ys == ys;
    }
  }

  /** Every element of the input that satisfies `p` is kept. */
  lemma {:induction false} FilterKeeps<A>(xs: seq<A>, p: A -> bool, x: A)
    requires x in xs && p(x)
    ensures x in Filter(xs, p)
  {
    if xs[0] != x {
      assert x in xs[1..] by {
        var i :| 0 <= i < |xs| && xs[i] == x;
        assert xs[1..][i - 1] == x;
      }
      FilterKeeps(xs[1..], p, x);
    }
  }

  /** The concatenation of a sequence of sequences. */
  function Flatten<A>(xss: seq<seq<A>>): seq<A> {
    if xss == [] then [] else xss[0] + Flatten(xss[1..])
  }

  // Steps on sequence equality, kept in lemmas of their own so that proofs
  // with many other facts in scope do not search for them.

  lemma PrefixSnoc<A>(xs: seq<A>, j: nat)
    requires j < |xs|
    ensures xs[..j + 1] == xs[..j] + [xs[j]]
  {
  }

  /** What the filter keeps from two lists joined comes from one of them. */
  lemma InFilteredAppend<A>(xs: seq<A>, ys: seq<A>, p: A -> bool, x: A)
    requires x in Filter(xs + ys, p)
    ensures x in xs || x in ys
  {
    var k :| 0 <= k < |xs + ys| && (xs + ys)[k] == x;
    if k >= |xs| {
      assert (xs + ys)[k] == ys[k - |xs|];
    }
  }

  lemma AppendAssoc<A>(a: seq<A>, b: seq<A>, c: seq<A>)
    ensures (a + b) + c == a + (b + c)
  {
  }

  lemma AppendSplit<A>(a: seq<A>, b: seq<A>)
    ensures (a + b)[..|a|] == a && (a + b)[|a|..] == b
  {
  }

  lemma SplitAt<A>(xs: seq<A>, n: nat)
    requires n <= |xs|
    ensures xs == xs[..n] + xs[n..]
  {
  }
}
