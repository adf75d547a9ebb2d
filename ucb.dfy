/** The upper-confidence-bound (UCB1) strategy: untried arms first, then
    the arm whose mean reward plus exploration bonus is largest. */
module Ucb {
  import opened Slices
  import opened Arms

  /** The exploration bonus `sqrt(2 * ln(total / count))` as a function of
      the total number of trials and the arm's own count.  Its value is
      floating-point numerics; all the model needs is where it is defined:
      at a positive count no larger than the total, where the logarithm's
      argument is at least 1. */
  ghost predicate BonusDomain(bonus: (int, int) --> real)
  {
    forall total, count :: 0 < count <= total ==> bonus.requires(total, count)
  }

  /** Some arm has never been tried. */
  predicate HasUntried(c: seq<int>)
  {
    exists i :: 0 <= i < |c| && c[i] == 0
  }

  /** The bonused score of a tried arm `i`. */
  function Score(c: seq<int>, r: seq<real>, bonus: (int, int) --> real, i: int): real
    requires Updatable(c, r) && BonusDomain(bonus)
    requires 0 <= i < |c| && c[i] > 0
  {
    SumBoundsEach(c, i);
    r[i] + bonus(Sum(c), c[i])
  }

  class UpperConfidenceBound {
    var C: array<int>
    var R: array<real>

    ghost predicate Valid()
      reads this, C, R
    {
      C.Length >= 2 && Wellformed(C[..], R[..])
    }

    constructor (options: int)
      requires options >= 2
      ensures Valid() && fresh(C) && fresh(R)
      ensures C[..] == ZeroCounts(options) && R[..] == ZeroRewards(options)
    {
      C := new int[options](_ => 0);
      R := new real[options](_ => 0.0);
    }

    /** Forced exploration: the first arm with a zero count is returned
        outright.  Once every arm has been tried, an arm whose bonused score
        is maximal. */
    method Select(bonus: (int, int) --> real) returns (k: int)
      requires Valid() && BonusDomain(bonus)
      ensures 0 <= k < C.Length
      ensures HasUntried(C[..]) ==> C[k] == 0 && forall j :: 0 <= j < k ==> C[j] != 0
      ensures !HasUntried(C[..]) ==>
        forall j :: 0 <= j < C.Length ==> Score(C[..], R[..], bonus, j) <= Score(C[..], R[..], bonus, k)
    {
      var bonused := new real[R.Length];
      for i := 0 to C.Length
        invariant forall j :: 0 <= j < i ==> C[j] != 0 && bonused[j] == Score(C[..], R[..], bonus, j)
      {
        var count := C[i];
        if count == 0 {
          return i;
        }
        SumBoundsEach(C[..], i);
        var b := bonus(Sum(C[..]), count);
        bonused[i] := R[i] + b;
      }
      k := MaxIndex(bonused[..]);
    }

    method Update(option: int, reward: real) returns (outcome: Outcome)
      requires Valid()
      modifies C, R
      ensures Valid()
      ensures Step(old(C[..]), old(R[..]), option, reward) == Transition(outcome, C[..], R[..])
    {
      outcome := UpdateArms(C, R, option, reward);
    }

    method Counts() returns (s: array<int>)
      requires Valid()
      ensures fresh(s) && s[..] == C[..]
    {
      s := Copy(C);
    }

    method Rewards() returns (s: array<real>)
      requires Valid()
      ensures fresh(s) && s[..] == R[..]
    {
      s := Copy(R);
    }
  }

  /** The validating constructor: fewer than two arms is `ErrOptions`. */
  method NewUpperConfidenceBound(options: int) returns (result: Result<UpperConfidenceBound>)
    ensures result.Failure? <==> options < 2
    ensures result.Failure? ==> result.error == ErrOptions
    ensures result.Success? ==>
      && fresh(result.value) && fresh(result.value.C) && fresh(result.value.R)
      && result.value.Valid()
      && result.value.C[..] == ZeroCounts(options) && result.value.R[..] == ZeroRewards(options)
  {
    if options < 2 {
      return Failure(ErrOptions);
    }
    var u := new UpperConfidenceBound(options);
    return Success(u);
  }

  /** A snapshot taken by `Counts` is its own array: a later `Update`
      leaves it as it was. */
  method CountsSnapshotSurvivesUpdate(u: UpperConfidenceBound, option: int, reward: real)
    returns (snapshot: array<int>, outcome: Outcome)
    requires u.Valid()
    modifies u.C, u.R
    ensures u.Valid()
    ensures snapshot[..] == old(u.C[..])
    ensures Step(old(u.C[..]), old(u.R[..]), option, reward) == Transition(outcome, u.C[..], u.R[..])
  {
    snapshot := u.Counts();
    outcome := u.Update(option, reward);
  }
}
