/** Small value types and sequence algebra shared by the storefront model. */
module Common {

  datatype Option<T> = None | Some(value: T)

  /** The outcome of an operation that can fail with a message (a rejected thunk, a failed lookup). */
  datatype Result<T> = Ok(value: T) | Err(error: string)

  /** A JavaScript number as this model needs it: an integer, or NaN. */
  datatype Num = Finite(n: int) | NaN {
    /** `x > 0` in JavaScript: false for NaN. */
    predicate IsPositive() {
      Finite? && n > 0
    }
  }

  /** Array.prototype.filter: the elements that `keep` accepts, in their original order. */
  function Filter<T>(s: seq<T>, keep: T -> bool): (r: seq<T>)
    ensures |r| <= |s|
    ensures forall i :: 0 <= i < |r| ==> r[i] in s && keep(r[i])
    ensures forall i :: 0 <= i < |s| && keep(s[i]) ==> s[i] in r
  {
    if s == [] then []
    else
      var init := Filter(s[..|s| - 1], keep);
      assert s == s[..|s| - 1] + [s[|s| - 1]];
      if keep(s[|s| - 1]) then init + [s[|s| - 1]] else init
  }

  /** `idx` lists, in increasing order, positions of `s` that spell out `r`. */
  ghost predicate Embeds<T>(r: seq<T>, s: seq<T>, idx: seq<nat>) {
    && |idx| == |r|
    && (forall i :: 0 <= i < |idx| ==> idx[i] < |s| && s[idx[i]] == r[i])
    && (forall i, j :: 0 <= i < j < |idx| ==> idx[i] < idx[j])
  }

  /** `r` is `s` with some elements dropped and the rest kept in order. */
  ghost predicate IsSubsequence<T>(r: seq<T>, s: seq<T>) {
    exists idx :: Embeds(r, s, idx)
  }

  /**
   * An embedding below position `k` stays one below `k + 1` when `r` and
   * `idx` either both stay or grow by the element at `k` and by `k`.
   */
  lemma EmbedsStep<T>(r0: seq<T>, s: seq<T>, idx0: seq<nat>, r: seq<T>, idx: seq<nat>, k: nat)
    requires Embeds(r0, s, idx0) && k < |s|
    requires forall i :: 0 <= i < |idx0| ==> idx0[i] < k
    requires (r == r0 + [s[k]] && idx == idx0 + [k]) || (r == r0 && idx == idx0)
    ensures Embeds(r, s, idx)
    ensures forall i :: 0 <= i < |idx| ==> idx[i] < k + 1
  {
  }

  /** The positions of `s` that Filter keeps. */
  function FilterPositions<T>(s: seq<T>, keep: T -> bool): (idx: seq<nat>)
    ensures Embeds(Filter(s, keep), s, idx)
    ensures forall i :: 0 <= i < |idx| ==> keep(s[idx[i]])
  {
    if s == [] then []
    else
      var init := FilterPositions(s[..|s| - 1], keep);
      if keep(s[|s| - 1]) then init + [|s| - 1] else init
  }

  lemma {:induction false} FilterIsSubsequence<T>(s: seq<T>, keep: T -> bool)
    ensures IsSubsequence(Filter(s, keep), s)
  {
    var idx := FilterPositions(s, keep);
  }

  lemma {:induction false} FilterKeepsAll<T>(s: seq<T>, keep: T -> bool)
    requires forall i :: 0 <= i < |s| ==> keep(s[i])
    ensures Filter(s, keep) == s
  {
    if s != [] {
      FilterKeepsAll(s[..|s| - 1], keep);
      assert s == s[..|s| - 1] + [s[|s| - 1]];
    }
  }

  lemma {:induction false} FilterConcat<T>(s: seq<T>, t: seq<T>, keep: T -> bool)
    ensures Filter(s + t, keep) == Filter(s, keep) + Filter(t, keep)
    decreases |t|
  {
    if t == [] {
      assert s + t == s;
    } else {
      var t' := t[..|t| - 1];
      assert (s + t)[..|s + t| - 1] == s + t';
      FilterConcat(s, t', keep);
    }
  }

  /** Array.prototype.reduce((total, x) => total + f(x), 0). */
  function SumOf<T>(s: seq<T>, f: T -> int): (r: int)
    ensures s == [] ==> r == 0
    ensures |s| == 1 ==> r == f(s[0])
    ensures (forall i :: 0 <= i < |s| ==> f(s[i]) >= 0) ==> r >= 0
    ensures (forall i :: 0 <= i < |s| ==> f(s[i]) <= 0) ==> r <= 0
  {
    if s == [] then 0
    else
      assert forall i :: 0 <= i < |s| - 1 ==> s[..|s| - 1][i] == s[i];
      SumOf(s[..|s| - 1], f) + f(s[|s| - 1])
  }

  lemma {:induction false} SumOfConcat<T>(s: seq<T>, t: seq<T>, f: T -> int)
    ensures SumOf(s + t, f) == SumOf(s, f) + SumOf(t, f)
    decreases |t|
  {
    if t == [] {
      assert s + t == s;
    } else {
      var t' := t[..|t| - 1];
      assert (s + t)[..|s + t| - 1] == s + t';
      SumOfConcat(s, t', f);
    }
  }

  lemma {:induction false} SumOfUpdate<T>(s: seq<T>, k: nat, x: T, f: T -> int)
    requires k < |s|
    ensures SumOf(s[k := x], f) == SumOf(s, f) - f(s[k]) + f(x)
  {
    assert s == s[..k] + [s[k]] + s[k + 1..];
    assert s[k := x] == s[..k] + [x] + s[k + 1..];
    SumOfConcat(s[..k] + [s[k]], s[k + 1..], f);
    SumOfConcat(s[..k] + [x], s[k + 1..], f);
    SumOfConcat(s[..k], [s[k]], f);
    SumOfConcat(s[..k], [x], f);
  }

  /** Splitting a sequence by a test and its negation splits the sum the same way. */
  lemma {:induction false} SumOfPartition<T>(s: seq<T>, keep: T -> bool, drop: T -> bool, f: T -> int)
    requires forall x :: drop(x) == !keep(x)
    ensures SumOf(Filter(s, keep), f) + SumOf(Filter(s, drop), f) == SumOf(s, f)
  {
    if s != [] {
      var s', last := s[..|s| - 1], s[|s| - 1];
      SumOfPartition(s', keep, drop, f);
      if keep(last) {
        SumOfConcat(Filter(s', keep), [last], f);
      } else {
        SumOfConcat(Filter(s', drop), [last], f);
      }
    }
  }
}
