/** The epsilon-greedy strategy: exploit the best mean reward unless a
    uniform draw falls at or below `Epsilon`, then explore a random arm. */
module Greedy {
  import opened Slices
  import opened Arms

  class EpsilonGreedy {
    var Epsilon: real
    var C: array<int>
    var R: array<real>

    ghost predicate Valid()
      reads this, C, R
    {
      0.0 <= Epsilon <= 1.0 && C.Length >= 2 && Wellformed(C[..], R[..])
    }

    constructor (options: int, epsilon: real)
      requires options >= 2
      requires 0.0 <= epsilon <= 1.0
      ensures Valid() && fresh(C) && fresh(R)
      ensures Epsilon == epsilon
      ensures C[..] == ZeroCounts(options) && R[..] == ZeroRewards(options)
    {
      Epsilon := epsilon;
      C := new int[options](_ => 0);
      R := new real[options](_ => 0.0);
    }

    /** `draw` stands for `rand.Float64()` and `pick` for
        `rand.Intn(len(R))`, which lies in `[0, len(R))`.  A draw above
        `Epsilon` returns an arm of maximal mean reward; otherwise the
        random arm. */
    method Select(draw: real, pick: int) returns (k: int)
      requires Valid()
      requires 0 <= pick < R.Length
      ensures 0 <= k < R.Length
      ensures draw > Epsilon ==> forall j :: 0 <= j < R.Length ==> R[j] <= R[k]
      ensures draw <= Epsilon ==> k == pick
    {
      if draw > Epsilon {
        return MaxIndex(R[..]);
      }
      return pick;
    }

    method Update(option: int, reward: real) returns (outcome: Outcome)
      requires Valid()
      modifies C, R
      ensures Valid()
      ensures Step(old(C[..]), old(R[..]), option, reward) == Transition(outcome, C[..], R[..])
    {
      outcome := UpdateArms(C, R, option, reward);
    }

    method Counts() returns (s: array<int>)
      requires Valid()
      ensures fresh(s) && s[..] == C[..]
    {
      s := Copy(C);
    }

    method Rewards() returns (s: array<real>)
      requires Valid()
      ensures fresh(s) && s[..] == R[..]
    {
      s := Copy(R);
    }
  }

  /** The validating constructor: an epsilon outside `[0, 1]` is
      `ErrEpsilon`, checked before the arm count, whose failure is
      `ErrOptions`. */
  method NewEpsilonGreedy(options: int, epsilon: real) returns (result: Result<EpsilonGreedy>)
    ensures result == Failure(ErrEpsilon) <==> epsilon < 0.0 || epsilon > 1.0
    ensures result == Failure(ErrOptions) <==> 0.0 <= epsilon <= 1.0 && options < 2
    ensures result.Success? <==> 0.0 <= epsilon <= 1.0 && options >= 2
    ensures result.Success? ==>
      && fresh(result.value) && fresh(result.value.C) && fresh(result.value.R)
      && result.value.Valid() && result.value.Epsilon == epsilon
      && result.value.C[..] == ZeroCounts(options) && result.value.R[..] == ZeroRewards(options)
  {
    if epsilon < 0.0 || epsilon > 1.0 {
      return Failure(ErrEpsilon);
    }
    if options < 2 {
      return Failure(ErrOptions);
    }
    var g := new EpsilonGreedy(options, epsilon);
    return Success(g);
  }
}
