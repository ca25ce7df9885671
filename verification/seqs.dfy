/** Sequence helpers shared by the record pipelines. */
module Seqs {
  import opened Wrappers

  /** The successful values of a sequence of results, in order. */
  function Oks<T, E>(rs: seq<Result<T, E>>): (r: seq<T>)
    ensures |r| <= |rs|
  {
    if rs == [] then [] else (if rs[0].Ok? then [rs[0].value] else []) + Oks(rs[1..])
  }

  /** A value is kept exactly when one of the results is that value. */
  lemma {:induction false} OksMembership<T, E>(rs: seq<Result<T, E>>, x: T)
    ensures x in Oks(rs) <==> exists i :: 0 <= i < |rs| && rs[i] == Ok(x)
  {
    if rs != [] {
      OksMembership(rs[1..], x);
      if exists i :: 0 <= i < |rs| && rs[i] == Ok(x) {
        var i :| 0 <= i < |rs| && rs[i] == Ok(x);
        if i > 0 {
          assert rs[1..][i - 1] == rs[i];
        }
      }
      if x in Oks(rs[1..]) {
        var i :| 0 <= i < |rs| - 1 && rs[1..][i] == Ok(x);
        assert rs[i + 1] == rs[1..][i];
      }
    }
  }

  /** Keeping distributes over concatenation, so the kept values stay in input order. */
  lemma {:induction false} OksConcat<T, E>(a: seq<Result<T, E>>, b: seq<Result<T, E>>)
    ensures Oks(a + b) == Oks(a) + Oks(b)
  {
    if a == [] {
      assert a + b == b;
    } else {
      assert (a + b)[0] == a[0];
      assert (a + b)[1..] == a[1..] + b;
      OksConcat(a[1..], b);
      var head := if a[0].Ok? then [a[0].value] else [];
      ConcatAssociative(head, Oks(a[1..]), Oks(b));
    }
  }

  /** Every result succeeds exactly when nothing is dropped. */
  lemma {:induction false} OksAllOk<T, E>(rs: seq<Result<T, E>>)
    ensures |Oks(rs)| == |rs| <==> forall i :: 0 <= i < |rs| ==> rs[i].Ok?
  {
    if rs != [] {
      OksAllOk(rs[1..]);
      if forall i :: 0 <= i < |rs| ==> rs[i].Ok? {
        forall i | 0 <= i < |rs| - 1 ensures rs[1..][i].Ok? {
          assert rs[1..][i] == rs[i + 1];
        }
      }
      if |Oks(rs)| == |rs| {
        assert |Oks(rs[1..])| <= |rs| - 1;
        forall i | 0 <= i < |rs| ensures rs[i].Ok? {
          if i > 0 {
            assert rs[1..][i - 1] == rs[i];
          }
        }
      }
    }
  }

  /** `f` applied to every element, position by position. */
  function MapSeq<A, B>(f: A -> B, xs: seq<A>): (ys: seq<B>)
    ensures |ys| == |xs|
    ensures forall i :: 0 <= i < |xs| ==> ys[i] == f(xs[i])
  {
    seq(|xs|, i requires 0 <= i < |xs| => f(xs[i]))
  }

  /** An element's image is kept exactly when some element maps to it. */
  lemma {:induction false} KeptImages<A, T, E>(f: A -> Result<T, E>, xs: seq<A>, x: T)
    ensures x in Oks(MapSeq(f, xs)) <==> exists i :: 0 <= i < |xs| && f(xs[i]) == Ok(x)
  {
    var rs := MapSeq(f, xs);
    OksMembership(rs, x);
    if exists i :: 0 <= i < |rs| && rs[i] == Ok(x) {
      var i :| 0 <= i < |rs| && rs[i] == Ok(x);
      assert f(xs[i]) == Ok(x);
    }
  }

  /** Nothing is dropped exactly when every element maps to a success. */
  lemma {:induction false} KeptAllImages<A, T, E>(f: A -> Result<T, E>, xs: seq<A>)
    ensures |Oks(MapSeq(f, xs))| == |xs| <==> forall i :: 0 <= i < |xs| ==> f(xs[i]).Ok?
  {
    OksAllOk(MapSeq(f, xs));
  }

  /** Mapping then keeping distributes over concatenation. */
  lemma {:induction false} KeptImagesConcat<A, T, E>(f: A -> Result<T, E>, a: seq<A>, b: seq<A>)
    ensures Oks(MapSeq(f, a + b)) == Oks(MapSeq(f, a)) + Oks(MapSeq(f, b))
  {
    assert MapSeq(f, a + b) == MapSeq(f, a) + MapSeq(f, b);
    OksConcat(MapSeq(f, a), MapSeq(f, b));
  }

  lemma {:induction false} ConcatAssociative<T>(a: seq<T>, b: seq<T>, c: seq<T>)
    ensures a + (b + c) == (a + b) + c
  {
  }

  /** The elements satisfying `p`, in order (a list comprehension with a condition). */
  function Filter<T>(p: T -> bool, xs: seq<T>): (r: seq<T>)
    ensures |r| <= |xs|
  {
    if xs == [] then [] else (if p(xs[0]) then [xs[0]] else []) + Filter(p, xs[1..])
  }

  /** Filtering distributes over concatenation. */
  lemma {:induction false} FilterConcat<T>(p: T -> bool, a: seq<T>, b: seq<T>)
    ensures Filter(p, a + b) == Filter(p, a) + Filter(p, b)
  {
    if a == [] {
      assert a + b == b;
    } else {
      assert (a + b)[0] == a[0];
      assert (a + b)[1..] == a[1..] + b;
      FilterConcat(p, a[1..], b);
      var head := if p(a[0]) then [a[0]] else [];
      ConcatAssociative(head, Filter(p, a[1..]), Filter(p, b));
    }
  }

  /** Everything kept satisfies `p`, and everything satisfying `p` is kept. */
  lemma {:induction false} FilterMembership<T>(p: T -> bool, xs: seq<T>, x: T)
    ensures x in Filter(p, xs) <==> x in xs && p(x)
  {
    if xs != [] {
      FilterMembership(p, xs[1..], x);
      assert xs == [xs[0]] + xs[1..];
    }
  }

  /**
   * The position of `xs[i]` in the filtered sequence: how many elements
   * before it satisfy `p`.
   */
  function Rank<T>(p: T -> bool, xs: seq<T>, i: int): (k: nat)
    requires 0 <= i <= |xs|
    ensures k <= i
  {
    |Filter(p, xs[..i])|
  }

  /** An element satisfying `p` sits in the filtered sequence at its rank. */
  lemma {:induction false} FilterAtRank<T>(p: T -> bool, xs: seq<T>, i: int)
    requires 0 <= i < |xs| && p(xs[i])
    ensures Rank(p, xs, i) < |Filter(p, xs)| && Filter(p, xs)[Rank(p, xs, i)] == xs[i]
  {
    assert xs == xs[..i] + xs[i..];
    FilterConcat(p, xs[..i], xs[i..]);
    assert xs[i..][0] == xs[i];
    assert Filter(p, xs[i..]) == [xs[i]] + Filter(p, xs[i..][1..]);
  }

  /** Later elements satisfying `p` have larger ranks. */
  lemma {:induction false} RankIncreasing<T>(p: T -> bool, xs: seq<T>, i: int, j: int)
    requires 0 <= i < j <= |xs| && p(xs[i])
    ensures Rank(p, xs, i) < Rank(p, xs, j)
  {
    assert xs[..j] == xs[..i] + xs[i..j];
    FilterConcat(p, xs[..i], xs[i..j]);
    assert xs[i..j][0] == xs[i];
    assert Filter(p, xs[i..j]) == [xs[i]] + Filter(p, xs[i..j][1..]);
  }

  /** Every position of the filtered sequence is the rank of some element satisfying `p`. */
  lemma {:induction false} RankOnto<T>(p: T -> bool, xs: seq<T>, k: int)
    requires 0 <= k < |Filter(p, xs)|
    ensures exists i :: 0 <= i < |xs| && p(xs[i]) && Rank(p, xs, i) == k
  {
    var t := xs[1..];
    if p(xs[0]) && k == 0 {
      assert xs[..0] == [];
      assert Rank(p, xs, 0) == 0;
    } else {
      var k' := if p(xs[0]) then k - 1 else k;
      RankOnto(p, t, k');
      var i :| 0 <= i < |t| && p(t[i]) && Rank(p, t, i) == k';
      assert xs[..i + 1] == [xs[0]] + t[..i];
      FilterConcat(p, [xs[0]], t[..i]);
      assert [xs[0]][1..] == [];
      assert Filter(p, [xs[0]]) == (if p(xs[0]) then [xs[0]] else []);
      assert Rank(p, xs, i + 1) == k;
      assert xs[i + 1] == t[i];
    }
  }

  /** Filtering keeps a sequence whose every element satisfies `p`. */
  lemma {:induction false} FilterAll<T>(p: T -> bool, xs: seq<T>)
    requires forall i :: 0 <= i < |xs| ==> p(xs[i])
    ensures Filter(p, xs) == xs
  {
    if xs != [] {
      FilterAll(p, xs[1..]);
      assert xs == [xs[0]] + xs[1..];
    }
  }

  /** The first element kept is the earliest element satisfying `p`. */
  lemma {:induction false} FilterFirst<T>(p: T -> bool, xs: seq<T>)
    requires Filter(p, xs) != []
    ensures exists i :: 0 <= i < |xs| && p(xs[i]) && Filter(p, xs)[0] == xs[i]
              && forall j :: 0 <= j < i ==> !p(xs[j])
  {
    RankOnto(p, xs, 0);
    var i :| 0 <= i < |xs| && p(xs[i]) && Rank(p, xs, i) == 0;
    FilterAtRank(p, xs, i);
    forall j | 0 <= j < i ensures !p(xs[j]) {
      assert xs[..i][j] == xs[j];
      FilterMembership(p, xs[..i], xs[j]);
    }
  }
}
