/** Result types shared by the modules. */
module Basics {

  datatype Option<+T> = None | Some(value: T)

  /** A Go `(value, error)` pair: exactly one of the two is meaningful. */
  datatype Result<+T, +E> = Ok(value: T) | Err(error: E)

  function MapSeq<A, B>(f: A -> B, s: seq<A>): (r: seq<B>)
    ensures |r| == |s|
    ensures forall i :: 0 <= i < |s| ==> r[i] == f(s[i])
  {
    if s == [] then [] else [f(s[0])] + MapSeq(f, s[1..])
  }

  /** The values of `f` over the sequence, in order, leaving out the elements without one. */
  function FilterMap<A, B>(f: A -> Option<B>, s: seq<A>): seq<B> {
    if s == [] then []
    else
      var last := f(s[|s| - 1]);
      FilterMap(f, s[..|s| - 1]) + if last.None? then [] else [last.value]
  }

  lemma {:induction false} FilterMapKeepsAll<A, B>(f: A -> Option<B>, s: seq<A>, out: seq<B>)
    requires |s| == |out|
    requires forall i :: 0 <= i < |s| ==> f(s[i]) == Some(out[i])
    ensures FilterMap(f, s) == out
  {
    if s != [] {
      var n := |s| - 1;
      FilterMapKeepsAll(f, s[..n], out[..n]);
      assert out == out[..n] + [out[n]];
    }
  }

  /** What `f` gives for each element, joined in order; the first error is the error of the whole. */
  function Collect<A, B, E>(f: A -> Result<seq<B>, E>, s: seq<A>): Result<seq<B>, E> {
    if s == [] then Ok([])
    else match Collect(f, s[..|s| - 1])
         case Err(e) => Err(e)
         case Ok(done) =>
           match f(s[|s| - 1])
           case Err(e) => Err(e)
           case Ok(more) => Ok(done + more)
  }

  lemma {:induction false} CollectOnes<A, B, E>(f: A -> Result<seq<B>, E>, s: seq<A>, out: seq<B>)
    requires |s| == |out|
    requires forall i :: 0 <= i < |s| ==> f(s[i]) == Ok([out[i]])
    ensures Collect(f, s) == Ok(out)
  {
    if s != [] {
      var n := |s| - 1;
      CollectOnes(f, s[..n], out[..n]);
      assert out == out[..n] + [out[n]];
    }
  }

  lemma {:induction false} CollectFails<A, B, E>(f: A -> Result<seq<B>, E>, s: seq<A>, i: nat)
    requires i <= |s| && Collect(f, s[..i]).Err?
    ensures Collect(f, s) == Collect(f, s[..i])
  {
    if i == |s| {
      assert s[..i] == s;
    } else {
      var front := s[..|s| - 1];
      assert front[..i] == s[..i];
      CollectFails(f, front, i);
    }
  }

  /** For an `f` that gives one element at a time: the whole is accepted exactly when every element
      is, and nothing is dropped. */
  lemma {:induction false} CollectIff<A, B, E>(f: A -> Result<seq<B>, E>, s: seq<A>, out: seq<B>)
    requires forall x :: x in s && f(x).Ok? ==> |f(x).value| == 1
    ensures Collect(f, s) == Ok(out) <==> |s| == |out| && forall i :: 0 <= i < |s| ==> f(s[i]) == Ok([out[i]])
  {
    if |s| == |out| && forall i :: 0 <= i < |s| ==> f(s[i]) == Ok([out[i]]) { CollectOnes(f, s, out); }
    if Collect(f, s) == Ok(out) && s != [] {
      var n := |s| - 1;
      var front := Collect(f, s[..n]).value;
      assert s[n] in s && out == front + f(s[n]).value;
      CollectIff(f, s[..n], front);
      assert f(s[n]).value == [out[n]] && forall i :: 0 <= i < n ==> front[i] == out[i] && s[..n][i] == s[i];
    }
  }

  /** The index of the first element with the property, or the length when there is none. */
  function FirstWhere<A>(p: A -> bool, s: seq<A>): (k: nat)
    ensures k <= |s| && forall j :: 0 <= j < k ==> !p(s[j])
    ensures k < |s| ==> p(s[k])
  {
    if s == [] || p(s[0]) then 0 else 1 + FirstWhere(p, s[1..])
  }

  lemma {:induction false} FirstWhereSame<A>(p: A -> bool, a: seq<A>, b: seq<A>)
    requires |a| == |b| && forall i :: 0 <= i < |a| ==> p(a[i]) == p(b[i])
    ensures FirstWhere(p, a) == FirstWhere(p, b)
  {
    if a != [] && !p(a[0]) { FirstWhereSame(p, a[1..], b[1..]); }
  }

  /** The sequence with `f` applied to its first `n` elements. */
  function MapFirst<A>(f: A -> A, s: seq<A>, n: nat): (r: seq<A>)
    ensures |r| == |s| && forall j :: 0 <= j < |s| ==> r[j] == if j < n then f(s[j]) else s[j]
  {
    seq(|s|, j requires 0 <= j < |s| => if j < n then f(s[j]) else s[j])
  }

  lemma MapOneMore<A>(f: A -> A, s: seq<A>, n: nat)
    requires n < |s|
    ensures MapFirst(f, s, n)[n] == s[n] && MapFirst(f, s, n)[n := f(s[n])] == MapFirst(f, s, n + 1)
  {}

  lemma MapAll<A>(f: A -> A, s: seq<A>, n: nat)
    requires n >= |s|
    ensures MapFirst(f, s, n) == MapFirst(f, s, |s|)
  {}

  // ------------------------------------------------------- positions in histories

  /** The position of an element seen among the first `n`. */
  lemma Find<E>(h: seq<E>, n: nat, e: E) returns (k: nat)
    requires n <= |h| && e in h[..n]
    ensures k < n && h[k] == e
  {
    k :| 0 <= k < n && h[..n][k] == e;
  }

  lemma Seen<E>(h: seq<E>, k: nat, n: nat)
    requires k < n <= |h|
    ensures h[k] in h[..n]
  {
    assert h[..n][k] == h[k];
  }

  lemma SeenOneWay<E>(h: seq<E>, i: nat, j: nat)
    requires i < |h| && j < |h|
    ensures i < j ==> h[i] in h[..j]
    ensures j < i ==> h[j] in h[..i]
  {
    if i < j { Seen(h, i, j); }
    if j < i { Seen(h, j, i); }
  }

  // ------------------------------------------------------------- sums

  function Sum<T>(w: T -> nat, xs: seq<T>): nat {
    if xs == [] then 0 else w(xs[0]) + Sum(w, xs[1..])
  }

  lemma {:induction false} SumUpdate<T>(w: T -> nat, xs: seq<T>, i: nat, x: T)
    requires i < |xs|
    ensures Sum(w, xs[i := x]) + w(xs[i]) == Sum(w, xs) + w(x)
  {
    if i == 0 {
      assert xs[i := x][1..] == xs[1..];
    } else {
      assert xs[i := x][1..] == xs[1..][i - 1 := x];
      SumUpdate(w, xs[1..], i - 1, x);
    }
  }

  lemma {:induction false} SumAppend<T>(w: T -> nat, xs: seq<T>, x: T)
    ensures Sum(w, xs + [x]) == Sum(w, xs) + w(x)
  {
    if xs != [] {
      assert (xs + [x])[1..] == xs[1..] + [x];
      SumAppend(w, xs[1..], x);
    } else {
      assert xs + [x] == [x];
    }
  }
}
