/**
 * The Cartesian product of a sequence of lists, in the order Python's
 * `itertools.product` yields it: the first list varies slowest and the
 * last fastest; the product of no lists is one empty combination.
 */
module Itertools {

  /** `x` put in front of every tail. */
  function PrependAll<T>(x: T, tails: seq<seq<T>>): seq<seq<T>>
  {
    seq(|tails|, k requires 0 <= k < |tails| => [x] + tails[k])
  }

  /** Each element of `xs` in turn, in front of every tail. */
  function Combine<T>(xs: seq<T>, tails: seq<seq<T>>): (r: seq<seq<T>>)
    ensures forall t :: t in r ==> |t| > 0 && t[1..] in tails
  {
    if |xs| == 0 then [] else PrependAll(xs[0], tails) + Combine(xs[1..], tails)
  }

  /** Every combination takes one element per list. */
  function Product<T>(lists: seq<seq<T>>): (r: seq<seq<T>>)
    ensures forall t :: t in r ==> |t| == |lists|
  {
    if |lists| == 0 then [[]] else Combine(lists[0], Product(lists[1..]))
  }

  function Lengths<T>(lists: seq<seq<T>>): seq<nat>
  {
    seq(|lists|, i requires 0 <= i < |lists| => |lists[i]|)
  }

  function ProductOf(ns: seq<nat>): nat
  {
    if |ns| == 0 then 1 else ns[0] * ProductOf(ns[1..])
  }

  /** `t` takes one element from each list, in list order. */
  ghost predicate IsCombination<T>(t: seq<T>, lists: seq<seq<T>>)
  {
    |t| == |lists| && forall i :: 0 <= i < |t| ==> t[i] in lists[i]
  }

  ghost predicate NoDuplicates<T>(s: seq<T>)
  {
    forall i, j :: 0 <= i < j < |s| ==> s[i] != s[j]
  }

  lemma {:induction false} CombineSize<T>(xs: seq<T>, tails: seq<seq<T>>)
    ensures |Combine(xs, tails)| == |xs| * |tails|
  {
    if |xs| > 0 {
      CombineSize(xs[1..], tails);
      calc {
        |Combine(xs, tails)|;
        |tails| + |Combine(xs[1..], tails)|;
        |tails| + (|xs| - 1) * |tails|;
        |xs| * |tails|;
      }
    }
  }

  /** There are as many combinations as the product of the list lengths. */
  lemma {:induction false} ProductSize<T>(lists: seq<seq<T>>)
    ensures |Product(lists)| == ProductOf(Lengths(lists))
  {
    if |lists| > 0 {
      ProductSize(lists[1..]);
      CombineSize(lists[0], Product(lists[1..]));
      assert Lengths(lists)[1..] == Lengths(lists[1..]);
    }
  }

  /** A product of lengths is zero as soon as one length is. */
  lemma {:induction false} ProductOfZero(ns: seq<nat>, i: nat)
    requires i < |ns| && ns[i] == 0
    ensures ProductOf(ns) == 0
  {
    if i > 0 {
      ProductOfZero(ns[1..], i - 1);
    }
  }

  /** An empty list leaves no combination at all. */
  lemma ProductWithEmptyList<T>(lists: seq<seq<T>>, i: nat)
    requires i < |lists| && lists[i] == []
    ensures Product(lists) == []
  {
    ProductSize(lists);
    ProductOfZero(Lengths(lists), i);
  }

  lemma PrependAllMembers<T>(x: T, tails: seq<seq<T>>, t: seq<T>)
    ensures t in PrependAll(x, tails) <==> |t| > 0 && t[0] == x && t[1..] in tails
  {
    if |t| > 0 && t[0] == x && t[1..] in tails {
      var k :| 0 <= k < |tails| && tails[k] == t[1..];
      assert PrependAll(x, tails)[k] == t;
    }
  }

  lemma {:induction false} CombineMembers<T>(xs: seq<T>, tails: seq<seq<T>>, t: seq<T>)
    ensures t in Combine(xs, tails) <==> |t| > 0 && t[0] in xs && t[1..] in tails
  {
    if |xs| > 0 {
      PrependAllMembers(xs[0], tails, t);
      CombineMembers(xs[1..], tails, t);
      assert |t| > 0 ==> (t[0] in xs <==> t[0] == xs[0] || t[0] in xs[1..]);
    }
  }

  /** The product holds exactly the combinations of one element per list. */
  lemma {:induction false} ProductMembers<T>(lists: seq<seq<T>>, t: seq<T>)
    ensures t in Product(lists) <==> IsCombination(t, lists)
  {
    if |lists| > 0 {
      CombineMembers(lists[0], Product(lists[1..]), t);
      if |t| > 0 {
        ProductMembers(lists[1..], t[1..]);
        if IsCombination(t, lists) {
          forall i | 0 <= i < |t| - 1
            ensures t[1..][i] in lists[1..][i]
          {
            assert t[i + 1] in lists[i + 1];
          }
        }
        if IsCombination(t[1..], lists[1..]) && t[0] in lists[0] {
          forall i | 0 <= i < |t|
            ensures t[i] in lists[i]
          {
            if i > 0 {
              assert t[1..][i - 1] in lists[1..][i - 1];
            }
          }
        }
      }
    }
  }

  lemma {:induction false} CombineNoDuplicates<T>(xs: seq<T>, tails: seq<seq<T>>)
    requires NoDuplicates(xs) && NoDuplicates(tails)
    ensures NoDuplicates(Combine(xs, tails))
  {
    if |xs| > 0 {
      var head, rest := PrependAll(xs[0], tails), Combine(xs[1..], tails);
      CombineNoDuplicates(xs[1..], tails);
      forall i, j | 0 <= i < j < |head|
        ensures head[i] != head[j]
      {
        assert head[i][1..] == tails[i] && head[j][1..] == tails[j];
      }
      forall i, j | 0 <= i < |head| && 0 <= j < |rest|
        ensures head[i] != rest[j]
      {
        CombineMembers(xs[1..], tails, rest[j]);
        assert rest[j][0] != xs[0];
      }
      assert Combine(xs, tails) == head + rest;
    }
  }

  /** Lists without repeated elements give each combination exactly once. */
  lemma {:induction false} ProductNoDuplicates<T>(lists: seq<seq<T>>)
    requires forall i :: 0 <= i < |lists| ==> NoDuplicates(lists[i])
    ensures NoDuplicates(Product(lists))
  {
    if |lists| > 0 {
      ProductNoDuplicates(lists[1..]);
      CombineNoDuplicates(lists[0], Product(lists[1..]));
    }
  }
}
