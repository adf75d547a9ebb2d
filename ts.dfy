/** The Thompson-sampling strategy: every arm draws a score from a Beta
    distribution built from the trial counts, and the highest score wins. */
module Thompson {
  import opened Slices
  import opened Arms

  /** The parameters of arm `i`'s Beta distribution: its own trials plus
      one, and the other arms' trials plus one. */
  function BetaParameters(c: seq<int>, i: int): (p: (int, int))
    requires AllNonNegative(c)
    requires 0 <= i < |c|
    ensures 1 <= p.0 <= Sum(c) + 1
    ensures 1 <= p.1 <= Sum(c) + 1
  {
    SumBoundsEach(c, i);
    (c[i] + 1, Sum(c) - c[i] + 1)
  }

  /** `sample(i, a, b)` stands for the `i`-th draw of one `Select`, from
      `Beta(a, b)`; the distribution is defined for positive parameters. */
  ghost predicate BetaDomain(sample: (nat, real, real) --> real)
  {
    forall i: nat, a: real, b: real :: a > 0.0 && b > 0.0 ==> sample.requires(i, a, b)
  }

  /** The score arm `i` draws. */
  function Score(c: seq<int>, sample: (nat, real, real) --> real, i: int): real
    requires AllNonNegative(c) && BetaDomain(sample)
    requires 0 <= i < |c|
  {
    var p := BetaParameters(c, i);
    sample(i, p.0 as real, p.1 as real)
  }

  class ThompsonSampling {
    var C: array<int>
    var R: array<real>

    ghost predicate Valid()
      reads this, C, R
    {
      C.Length >= 2 && Wellformed(C[..], R[..])
    }

    constructor (options: int)
      requires options >= 2
      ensures Valid() && fresh(C) && fresh(R)
      ensures C[..] == ZeroCounts(options) && R[..] == ZeroRewards(options)
    {
      C := new int[options](_ => 0);
      R := new real[options](_ => 0.0);
    }

    /** Every draw is taken inside the Beta distribution's domain, and an
        arm with a maximal score is returned. */
    method Select(sample: (nat, real, real) --> real) returns (k: int)
      requires Valid() && BetaDomain(sample)
      ensures 0 <= k < C.Length
      ensures forall j :: 0 <= j < C.Length ==> Score(C[..], sample, j) <= Score(C[..], sample, k)
    {
      var scores := new real[C.Length];
      for i := 0 to C.Length
        invariant forall j :: 0 <= j < i ==> scores[j] == Score(C[..], sample, j)
      {
        var count := C[i];
        SumBoundsEach(C[..], i);
        var alpha := (count + 1) as real;
        var beta := (Sum(C[..]) - count + 1) as real;
        scores[i] := sample(i, alpha, beta);
      }
      k := MaxIndex(scores[..]);
    }

    /** Like the other strategies, `R[option]` keeps the running mean of the
        rewards, not their sum. */
    method Update(option: int, reward: real) returns (outcome: Outcome)
      requires Valid()
      modifies C, R
      ensures Valid()
      ensures Step(old(C[..]), old(R[..]), option, reward) == Transition(outcome, C[..], R[..])
    {
      outcome := UpdateArms(C, R, option, reward);
    }

    method Counts() returns (s: array<int>)
      requires Valid()
      ensures fresh(s) && s[..] == C[..]
    {
      s := Copy(C);
    }

    method Rewards() returns (s: array<real>)
      requires Valid()
      ensures fresh(s) && s[..] == R[..]
    {
      s := Copy(R);
    }
  }

  /** The validating constructor: fewer than two arms is `ErrOptions`. */
  method NewThompsonSampling(options: int) returns (result: Result<ThompsonSampling>)
    ensures result.Failure? <==> options < 2
    ensures result.Failure? ==> result.error == ErrOptions
    ensures result.Success? ==>
      && fresh(result.value) && fresh(result.value.C) && fresh(result.value.R)
      && result.value.Valid()
      && result.value.C[..] == ZeroCounts(options) && result.value.R[..] == ZeroRewards(options)
  {
    if options < 2 {
      return Failure(ErrOptions);
    }
    var t := new ThompsonSampling(options);
    return Success(t);
  }

  /** Two rewards 1 and 3 on arm 0 of a fresh strategy leave `R[0]` at
      their mean 2, not their sum 4. */
  lemma StoresMeanNotSum()
    ensures Replay(ZeroCounts(2), ZeroRewards(2), [Observation(0, 1.0), Observation(0, 3.0)]).rewards[0] == 2.0
  {
    var obs := [Observation(0, 1.0), Observation(0, 3.0)];
    assert obs[..1] == [Observation(0, 1.0)];
    assert obs[..1][..0] == [];
    MeanFromZero(2, obs, 0);
  }
}
