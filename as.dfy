/** The annealing-softmax strategy's per-arm bookkeeping.  Its selection
    rule (a softmax over the mean rewards at a temperature that cools with
    the total trial count) is floating-point numerics and randomness and is
    not part of this model. */
module Annealing {
  import opened Slices
  import opened Arms

  class AnnealingSoftmax {
    var C: array<int>
    var R: array<real>

    ghost predicate Valid()
      reads this, C, R
    {
      C.Length >= 2 && Wellformed(C[..], R[..])
    }

    constructor (options: int)
      requires options >= 2
      ensures Valid() && fresh(C) && fresh(R)
      ensures C[..] == ZeroCounts(options) && R[..] == ZeroRewards(options)
    {
      C := new int[options](_ => 0);
      R := new real[options](_ => 0.0);
    }

    method Update(option: int, reward: real) returns (outcome: Outcome)
      requires Valid()
      modifies C, R
      ensures Valid()
      ensures Step(old(C[..]), old(R[..]), option, reward) == Transition(outcome, C[..], R[..])
    {
      outcome := UpdateArms(C, R, option, reward);
    }

    method Counts() returns (s: array<int>)
      requires Valid()
      ensures fresh(s) && s[..] == C[..]
    {
      s := Copy(C);
    }

    method Rewards() returns (s: array<real>)
      requires Valid()
      ensures fresh(s) && s[..] == R[..]
    {
      s := Copy(R);
    }
  }

  /** The validating constructor: fewer than two arms is `ErrOptions`. */
  method NewAnnealingSoftmax(options: int) returns (result: Result<AnnealingSoftmax>)
    ensures result.Failure? <==> options < 2
    ensures result.Failure? ==> result.error == ErrOptions
    ensures result.Success? ==>
      && fresh(result.value) && fresh(result.value.C) && fresh(result.value.R)
      && result.value.Valid()
      && result.value.C[..] == ZeroCounts(options) && result.value.R[..] == ZeroRewards(options)
  {
    if options < 2 {
      return Failure(ErrOptions);
    }
    var a := new AnnealingSoftmax(options);
    return Success(a);
  }
}
