/**
 * List helpers: the order-preserving `if x not in acc: acc.append(x)`
 * loops that `extract_metadata` runs for sections, tags and categories,
 * and list comprehensions.
 */
module Lists {

  predicate NoDup<T(==)>(s: seq<T>) {
    forall i, j :: 0 <= i < j < |s| ==> s[i] != s[j]
  }

  /** Two duplicate-free lists with no item in common join into a duplicate-free list. */
  lemma NoDupConcat<T>(a: seq<T>, b: seq<T>)
    requires NoDup(a) && NoDup(b) && forall x :: x in a ==> x !in b
    ensures NoDup(a + b)
  {
    forall i, j | 0 <= i < j < |a + b| ensures (a + b)[i] != (a + b)[j] {
      if j < |a| {
        assert (a + b)[i] == a[i] && (a + b)[j] == a[j];
      } else if i < |a| {
        assert (a + b)[i] == a[i] && (a + b)[j] == b[j - |a|];
        assert a[i] in a;
      } else {
        assert (a + b)[i] == b[i - |a|] && (a + b)[j] == b[j - |a|];
      }
    }
  }

  /** `s.index(x)`: the position of the first occurrence of `x`. */
  function IndexOf<T(==)>(s: seq<T>, x: T): (k: nat)
    requires x in s
    ensures k < |s| && s[k] == x && x !in s[..k]
  {
    if s[0] == x then 0
    else
      var k := IndexOf(s[1..], x);
      assert s[..k + 1] == [s[0]] + s[1..][..k];
      k + 1
  }

  /** `acc` extended by each item of `xs` that it does not yet hold, in order. */
  function AppendNew<T(==)>(acc: seq<T>, xs: seq<T>): seq<T>
    decreases |xs|
  {
    if xs == [] then acc
    else AppendNew(if xs[0] in acc then acc else acc + [xs[0]], xs[1..])
  }

  /**
   * What is already collected stays first and unchanged; the items added are
   * exactly those of `xs` not yet present; nothing is added twice.
   */
  lemma {:induction false} AppendNewExtends<T>(acc: seq<T>, xs: seq<T>)
    ensures |acc| <= |AppendNew(acc, xs)| && AppendNew(acc, xs)[..|acc|] == acc
    ensures forall z :: z in AppendNew(acc, xs) ==> z in acc || z in xs
    ensures forall z :: z in acc || z in xs ==> z in AppendNew(acc, xs)
    ensures forall i :: |acc| <= i < |AppendNew(acc, xs)| ==> AppendNew(acc, xs)[i] !in acc
    ensures NoDup(acc) ==> NoDup(AppendNew(acc, xs))
    decreases |xs|
  {
    if xs != [] {
      var x := xs[0];
      var acc' := if x in acc then acc else acc + [x];
      AppendNewExtends(acc', xs[1..]);
      var r := AppendNew(acc, xs);
      assert r == AppendNew(acc', xs[1..]);
      assert acc'[..|acc|] == acc;
      assert r[..|acc|] == r[..|acc'|][..|acc|];
      forall z ensures (z in r ==> z in acc || z in xs) && (z in acc || z in xs ==> z in r) {
        assert z in xs <==> z == x || z in xs[1..] by {
          assert xs == [x] + xs[1..];
        }
      }
      forall i | |acc| <= i < |r| ensures r[i] !in acc {
        if i < |acc'| {
          assert r[i] == acc'[i] == x;
        }
      }
      if NoDup(acc) && x !in acc {
        assert NoDup(acc') by {
          forall i, j | 0 <= i < j < |acc'| ensures acc'[i] != acc'[j] {
            if j == |acc| { assert acc'[i] == acc[i]; }
          }
        }
      }
    }
  }

  /** An item past `acc` was added from `xs`. */
  lemma AppendNewAdded<T>(acc: seq<T>, xs: seq<T>, k: nat)
    requires |acc| <= k < |AppendNew(acc, xs)|
    ensures AppendNew(acc, xs)[k] !in acc && AppendNew(acc, xs)[k] in xs
  {
    AppendNewExtends(acc, xs);
    var r := AppendNew(acc, xs);
    assert r[k] in r;
  }

  lemma IndexOfTail<T>(xs: seq<T>, z: T)
    requires xs != [] && z != xs[0] && z in xs[1..]
    ensures z in xs && IndexOf(xs, z) == 1 + IndexOf(xs[1..], z)
  {
    assert xs == [xs[0]] + xs[1..];
  }

  /**
   * One pair of items added by a turn that starts with `xs[0]`: the rest
   * of the turns added them in the order of `xs[1..]`, or the first is
   * `xs[0]` itself.
   */
  lemma FirstSeenPair<T>(xs: seq<T>, acc: seq<T>, acc': seq<T>, r: seq<T>, i: nat, j: nat)
    requires xs != [] && |acc| <= i < j < |r|
    requires acc' == if xs[0] in acc then acc else acc + [xs[0]]
    requires |acc'| <= |r| && r[..|acc'|] == acc'
    requires r[j] !in acc' && r[j] in xs[1..]
    requires i >= |acc'| ==> r[i] !in acc' && r[i] in xs[1..] && IndexOf(xs[1..], r[i]) < IndexOf(xs[1..], r[j])
    ensures r[i] in xs && r[j] in xs && IndexOf(xs, r[i]) < IndexOf(xs, r[j])
  {
    IndexOfTail(xs, r[j]);
    if i < |acc'| {
      assert r[i] == acc'[i] == xs[0];
    } else {
      IndexOfTail(xs, r[i]);
    }
  }

  /** The items added keep the order in which they first occur in `xs`. */
  lemma {:induction false} AppendNewFirstSeenOrder<T>(acc: seq<T>, xs: seq<T>)
    ensures forall i, j :: |acc| <= i < j < |AppendNew(acc, xs)| ==>
      AppendNew(acc, xs)[i] in xs && AppendNew(acc, xs)[j] in xs &&
      IndexOf(xs, AppendNew(acc, xs)[i]) < IndexOf(xs, AppendNew(acc, xs)[j])
    decreases |xs|
  {
    if xs != [] {
      var x := xs[0];
      var rest := xs[1..];
      var acc' := if x in acc then acc else acc + [x];
      var r := AppendNew(acc, xs);
      assert r == AppendNew(acc', rest);
      assert x in acc' by { if x !in acc { assert acc'[|acc|] == x; } }
      AppendNewFirstSeenOrder(acc', rest);
      AppendNewExtends(acc', rest);
      forall i, j | |acc| <= i < j < |r|
        ensures r[i] in xs && r[j] in xs && IndexOf(xs, r[i]) < IndexOf(xs, r[j])
      {
        AppendNewAdded(acc', rest, j);
        if i >= |acc'| {
          AppendNewAdded(acc', rest, i);
        }
        FirstSeenPair(xs, acc, acc', r, i, j);
      }
    } else {
      assert AppendNew(acc, xs) == acc;
    }
  }

  /** The loop itself: `for x in xs: if x not in acc: acc.append(x)`. */
  method AppendMissing<T(==)>(acc: seq<T>, xs: seq<T>) returns (r: seq<T>)
    ensures r == AppendNew(acc, xs)
  {
    r := acc;
    for i := 0 to |xs|
      invariant AppendNew(r, xs[i..]) == AppendNew(acc, xs)
    {
      assert xs[i..][0] == xs[i] && xs[i..][1..] == xs[i + 1..];
      if xs[i] !in r {
        r := r + [xs[i]];
      }
    }
    assert xs[|xs|..] == [];
  }

  /** `[f(x) for x in xs]` */
  function MapAll<A, B>(xs: seq<A>, f: A --> B): (ys: seq<B>)
    requires forall i :: 0 <= i < |xs| ==> f.requires(xs[i])
    ensures |ys| == |xs|
    ensures forall i :: 0 <= i < |xs| ==> ys[i] == f(xs[i])
  {
    seq(|xs|, i requires 0 <= i < |xs| => f(xs[i]))
  }

  lemma MapAllAppend<A, B>(xs: seq<A>, ys: seq<A>, f: A --> B)
    requires forall i :: 0 <= i < |xs| ==> f.requires(xs[i])
    requires forall i :: 0 <= i < |ys| ==> f.requires(ys[i])
    ensures MapAll(xs + ys, f) == MapAll(xs, f) + MapAll(ys, f)
  {
    assert forall i :: 0 <= i < |xs| ==> (xs + ys)[i] == xs[i];
    assert forall i :: 0 <= i < |ys| ==> (xs + ys)[|xs| + i] == ys[i];
  }

  lemma MapAllSnoc<A, B>(xs: seq<A>, x: A, f: A --> B)
    requires forall i :: 0 <= i < |xs| ==> f.requires(xs[i])
    requires f.requires(x)
    ensures MapAll(xs + [x], f) == MapAll(xs, f) + [f(x)]
  {
    assert forall i :: 0 <= i < |xs| ==> (xs + [x])[i] == xs[i];
  }
}
