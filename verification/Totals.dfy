/** Sums of a weight over a sequence: how many goroutines hold something. */
module Totals {
  function Total<T>(weight: T -> nat, s: seq<T>): nat {
    if s == [] then 0 else Total(weight, s[..|s| - 1]) + weight(s[|s| - 1])
  }

  lemma {:induction false} OneMore<T>(weight: T -> nat, s: seq<T>, x: T)
    ensures Total(weight, s + [x]) == Total(weight, s) + weight(x)
  {
    assert (s + [x])[..|s|] == s;
  }

  lemma {:induction false} Changed<T>(weight: T -> nat, s: seq<T>, i: nat, x: T)
    requires i < |s|
    ensures Total(weight, s[i := x]) + weight(s[i]) == Total(weight, s) + weight(x)
  {
    var n := |s| - 1;
    if i < n {
      assert s[i := x][..n] == s[..n][i := x];
      Changed(weight, s[..n], i, x);
    } else {
      assert s[i := x][..n] == s[..n];
    }
  }

  lemma {:induction false} FirstGone<T>(weight: T -> nat, s: seq<T>)
    requires s != []
    ensures Total(weight, s) == weight(s[0]) + Total(weight, s[1..])
  {
    var n := |s| - 1;
    if n > 0 {
      FirstGone(weight, s[..n]);
      assert s[..n][1..] == s[1..][..n - 1];
    }
  }

  lemma {:induction false} Dominated<T(!new)>(light: T -> nat, heavy: T -> nat, s: seq<T>)
    requires forall x :: light(x) <= heavy(x)
    ensures Total(light, s) <= Total(heavy, s)
  {
    if s != [] {
      Dominated(light, heavy, s[..|s| - 1]);
    }
  }

  lemma {:induction false} Apart<T(!new)>(weight: T -> nat, rest: T -> nat, whole: T -> nat, s: seq<T>)
    requires forall x :: weight(x) + rest(x) == whole(x)
    ensures Total(weight, s) + Total(rest, s) == Total(whole, s)
  {
    if s != [] {
      Apart(weight, rest, whole, s[..|s| - 1]);
    }
  }
}
