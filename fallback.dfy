/** Ordered fallback: candidates are tried in order and the first one that
    yields a result wins, as a `for` loop that returns early does. */
module Fallback {
  import opened Wrappers

  /** The first result `f` gives on `xs`, trying the candidates in order. */
  function FirstSome<T, R>(xs: seq<T>, f: T -> Option<R>): Option<R>
  {
    if xs == [] then None
    else if f(xs[0]).Some? then f(xs[0])
    else FirstSome(xs[1..], f)
  }

  /** One step of the loop: candidate `i` either wins or hands over to the rest. */
  lemma FirstSomeStep<T, R>(xs: seq<T>, f: T -> Option<R>, i: nat)
    requires i < |xs|
    ensures FirstSome(xs[i..], f) == if f(xs[i]).Some? then f(xs[i]) else FirstSome(xs[i + 1..], f)
  {
    assert xs[i..][0] == xs[i] && xs[i..][1..] == xs[i + 1..];
  }

  /** Trying `a` and then `b` is trying `a + b`. */
  lemma {:induction false} FirstSomeAppend<T, R>(a: seq<T>, b: seq<T>, f: T -> Option<R>)
    ensures FirstSome(a + b, f) == if FirstSome(a, f).Some? then FirstSome(a, f) else FirstSome(b, f)
  {
    if a != [] {
      assert (a + b)[0] == a[0] && (a + b)[1..] == a[1..] + b;
      FirstSomeAppend(a[1..], b, f);
    } else {
      assert a + b == b;
    }
  }

  /** First success: nothing is found exactly when every candidate fails, and
      a result is that of some candidate all of whose predecessors failed. */
  lemma {:induction false} FirstSomeIsFirstSuccess<T, R>(xs: seq<T>, f: T -> Option<R>)
    ensures FirstSome(xs, f).None? <==> forall i :: 0 <= i < |xs| ==> f(xs[i]).None?
    ensures FirstSome(xs, f).Some? ==>
              exists i :: 0 <= i < |xs| && FirstSome(xs, f) == f(xs[i])
                          && forall j :: 0 <= j < i ==> f(xs[j]).None?
  {
    if xs != [] {
      FirstSomeIsFirstSuccess(xs[1..], f);
      if f(xs[0]).None? {
        assert forall i :: 1 <= i < |xs| ==> xs[i] == xs[1..][i - 1];
        if FirstSome(xs, f).Some? {
          var k :| 0 <= k < |xs[1..]| && FirstSome(xs[1..], f) == f(xs[1..][k])
                   && forall j :: 0 <= j < k ==> f(xs[1..][j]).None?;
          assert FirstSome(xs, f) == f(xs[k + 1]);
          assert forall j :: 1 <= j < k + 1 ==> xs[j] == xs[1..][j - 1];
        }
      }
    }
  }

  /** A property every candidate's result has is a property of the winner. */
  lemma {:induction false} FirstSomeKeeps<T, R>(xs: seq<T>, f: T -> Option<R>, p: R -> bool)
    requires forall x :: x in xs && f(x).Some? ==> p(f(x).value)
    ensures FirstSome(xs, f).Some? ==> p(FirstSome(xs, f).value)
  {
    if xs != [] && f(xs[0]).None? {
      FirstSomeKeeps(xs[1..], f, p);
    }
  }
}
