/**
 * Sums of real sequences and the weight split used by the simulator.
 * Portfolio weights ("balance") are given in tenths, so an amount `d`
 * split by weight `w` gives `d * w / 10` to that slot.
 */
module Sums {

  /** The sum of a sequence of reals, folded from the back like a loop that accumulates left to right. */
  function Sum(s: seq<real>): real
  {
    if |s| == 0 then 0.0 else Sum(s[..|s| - 1]) + s[|s| - 1]
  }

  /** The part of `d` that weight `weight`, in tenths, is given. */
  function Share(d: real, weight: real): real
  {
    d * weight / 10.0
  }

  /** Shares of `d` add up like their weights. */
  lemma ShareAdds(d: real, a: real, b: real)
    ensures Share(d, a + b) == Share(d, a) + Share(d, b)
  {
  }

  /** `d` split by weights in tenths: slot `i` gets its share of `d`. */
  function Split(w: seq<real>, d: real): (r: seq<real>)
    ensures |r| == |w|
    ensures forall i :: 0 <= i < |w| ==> r[i] == Share(d, w[i])
  {
    seq(|w|, i requires 0 <= i < |w| => Share(d, w[i]))
  }

  /** Element-wise sum of two sequences of the same length. */
  function Plus(s: seq<real>, t: seq<real>): (r: seq<real>)
    requires |s| == |t|
    ensures |r| == |s|
    ensures forall i :: 0 <= i < |s| ==> r[i] == s[i] + t[i]
  {
    seq(|s|, i requires 0 <= i < |s| => s[i] + t[i])
  }

  /** `x` after a move by the multiplier `rate`. */
  function Moved(x: real, rate: real): real
  {
    x * rate
  }

  /** A sequence whose every slot is the sum of the slots of `s` and `t` is their element-wise sum. */
  lemma PlusIs(r: seq<real>, s: seq<real>, t: seq<real>)
    requires |r| == |s| == |t|
    requires forall i :: 0 <= i < |s| ==> r[i] == s[i] + t[i]
    ensures r == Plus(s, t)
  {
  }

  /** Element-wise move: slot `i` is multiplied by `rates[i]`. */
  function Scale(s: seq<real>, rates: seq<real>): (r: seq<real>)
    requires |s| == |rates|
    ensures |r| == |s|
    ensures forall i :: 0 <= i < |s| ==> r[i] == Moved(s[i], rates[i])
  {
    seq(|s|, i requires 0 <= i < |s| => Moved(s[i], rates[i]))
  }

  /** `n` copies of `x`. */
  function Fill(n: nat, x: real): (r: seq<real>)
    ensures |r| == n
    ensures forall i :: 0 <= i < n ==> r[i] == x
  {
    seq(n, _ => x)
  }

  /** Splitting `d` by weights hands out the share of `d` of the weight total. */
  lemma {:induction false} SplitSum(w: seq<real>, d: real)
    ensures Sum(Split(w, d)) == Share(d, Sum(w))
  {
    if |w| > 0 {
      var n := |w| - 1;
      assert forall i :: 0 <= i < n ==> Split(w, d)[..n][i] == Split(w[..n], d)[i];
      assert Split(w, d)[..n] == Split(w[..n], d);
      SplitSum(w[..n], d);
      ShareAdds(d, Sum(w[..n]), w[n]);
    }
  }

  /** When the weights add up to 10, a split hands out exactly the amount split. */
  lemma SplitConserves(w: seq<real>, d: real)
    requires Sum(w) == 10.0
    ensures Sum(Split(w, d)) == d
  {
    SplitSum(w, d);
    assert Share(d, 10.0) == d;
  }

  /** The sum of an element-wise sum is the sum of the sums. */
  lemma {:induction false} SumPlus(s: seq<real>, t: seq<real>)
    requires |s| == |t|
    ensures Sum(Plus(s, t)) == Sum(s) + Sum(t)
  {
    if |s| > 0 {
      var n := |s| - 1;
      assert forall i :: 0 <= i < n ==> Plus(s, t)[..n][i] == Plus(s[..n], t[..n])[i];
      assert Plus(s, t)[..n] == Plus(s[..n], t[..n]);
      SumPlus(s[..n], t[..n]);
    }
  }

  /** Multiplying every slot by 1 leaves the sequence as it was. */
  lemma ScaleByOne(s: seq<real>, rates: seq<real>)
    requires |s| == |rates|
    requires forall i :: 0 <= i < |rates| ==> rates[i] == 1.0
    ensures Scale(s, rates) == s
  {
  }

  /** Adding `n` copies of `x` to `n` copies of `y` gives `n` copies of `x + y`. */
  lemma PlusFill(n: nat, x: real, y: real)
    ensures Plus(Fill(n, x), Fill(n, y)) == Fill(n, x + y)
  {
  }

  /** The sum of `n` copies of `x` is `n * x`. */
  lemma {:induction false} SumFill(n: nat, x: real)
    ensures Sum(Fill(n, x)) == n as real * x
  {
    if n > 0 {
      assert Fill(n, x)[..n - 1] == Fill(n - 1, x);
      SumFill(n - 1, x);
    }
  }
}
