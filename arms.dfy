/** Per-arm bookkeeping shared by the four bandit strategies.

    Every strategy owns two parallel slices: `C`, the number of trials of
    each arm, and `R`, the running mean of the rewards observed on it.  The
    four `Update` bodies are the same code, so their effect is defined once
    here, as the transition `Step` on the pair of slices, and carried out in
    place on the arrays by `UpdateArms`. */
module Arms {
  import opened Slices

  /** The package's error values. */
  datatype Error = ErrEpsilon | ErrOptions | ErrIndex | ErrReward

  /** A constructor's result: the new strategy, or the error it returned. */
  datatype Result<T> = Success(value: T) | Failure(error: Error)

  /** How a call to `Update` ends: `nil`, an error value, or a run-time
      panic from indexing past the end of `C`. */
  datatype Outcome = Ok | Failed(error: Error) | IndexPanic

  /** The outcome of one `Update` with the slices it leaves behind. */
  datatype Transition = Transition(outcome: Outcome, counts: seq<int>, rewards: seq<real>)

  /** The pair of slices after a series of updates. */
  datatype State = State(counts: seq<int>, rewards: seq<real>)

  /** One host call `Update(option, reward)`. */
  datatype Observation = Observation(option: int, reward: real)

  predicate AllNonNegativeReals(r: seq<real>)
  {
    forall i :: 0 <= i < |r| ==> r[i] >= 0.0
  }

  /** What `Update` needs of the slices: parallel, and no negative count
      (a count of -1 would make the mean's divisor zero). */
  predicate Updatable(c: seq<int>, r: seq<real>)
  {
    |c| == |r| && AllNonNegative(c)
  }

  /** The invariant every strategy keeps: parallel slices, counts and
      rewards non-negative. */
  predicate Wellformed(c: seq<int>, r: seq<real>)
  {
    Updatable(c, r) && AllNonNegativeReals(r)
  }

  function ZeroCounts(n: nat): (c: seq<int>)
  {
    seq(n, _ => 0)
  }

  function ZeroRewards(n: nat): (r: seq<real>)
  {
    seq(n, _ => 0.0)
  }

  /** The new mean after the `n`-th observation `reward`, given the mean
      `mean` of the first `n - 1`. */
  function RunningMean(mean: real, n: int, reward: real): (m: real)
    requires n >= 1
    ensures m * (n as real) == mean * ((n - 1) as real) + reward
    ensures mean >= 0.0 && reward >= 0.0 ==> m >= 0.0
  {
    (mean * ((n as real) - 1.0) + reward) / (n as real)
  }

  /** `Update(option, reward)` as the code is written: the index guard
      `option < 0 || option > len(R)` first, then the reward sign check,
      then `C[option]++`, which panics when `option == len(C)`, and the
      running-mean update of `R[option]`. */
  function Step(c: seq<int>, r: seq<real>, option: int, reward: real): (t: Transition)
    requires Updatable(c, r)
    ensures |t.counts| == |c| && Updatable(t.counts, t.rewards)
    ensures t.outcome == Failed(ErrIndex) <==> option < 0 || option > |r|
    ensures t.outcome == Failed(ErrReward) <==> 0 <= option <= |r| && reward < 0.0
    ensures t.outcome == IndexPanic <==> option == |r| && reward >= 0.0
    ensures t.outcome == Ok <==> 0 <= option < |r| && reward >= 0.0
    ensures !t.outcome.Ok? ==> t.counts == c && t.rewards == r
    ensures t.outcome.Ok? ==>
      && t.counts[option] == c[option] + 1
      && t.rewards[option] * (t.counts[option] as real) == r[option] * (c[option] as real) + reward
      && forall j :: 0 <= j < |c| && j != option ==> t.counts[j] == c[j] && t.rewards[j] == r[j]
    ensures Wellformed(c, r) ==> Wellformed(t.counts, t.rewards)
  {
    if option < 0 || option > |r| then Transition(Failed(ErrIndex), c, r)
    else if reward < 0.0 then Transition(Failed(ErrReward), c, r)
    else if option == |c| then Transition(IndexPanic, c, r)
    else
      var n := c[option] + 1;
      Transition(Ok, c[option := n], r[option := RunningMean(r[option], n, reward)])
  }

  /** `Update` with the index guard written `option >= len(R)`: the index
      error is reported for every index outside the slices and no call
      panics.  It leaves the slices exactly as `Step` does and differs from
      it only in the outcome of `option == len(R)` (an index error where the
      as-written code reports a reward error or panics). */
  function GuardedStep(c: seq<int>, r: seq<real>, option: int, reward: real): (t: Transition)
    requires Updatable(c, r)
    ensures t.outcome != IndexPanic
    ensures t.outcome == Failed(ErrIndex) <==> option < 0 || option >= |r|
    ensures t.counts == Step(c, r, option, reward).counts
    ensures t.rewards == Step(c, r, option, reward).rewards
    ensures t.outcome != Step(c, r, option, reward).outcome <==> option == |r|
  {
    if option < 0 || option >= |r| then Transition(Failed(ErrIndex), c, r)
    else Step(c, r, option, reward)
  }

  /** The as-written guard lets `option == len(R)` through to the increment,
      which indexes past the end; the corrected guard rejects it. */
  lemma GuardAdmitsLength(c: seq<int>, r: seq<real>, reward: real)
    requires Updatable(c, r)
    ensures Step(c, r, |r|, reward).outcome == if reward < 0.0 then Failed(ErrReward) else IndexPanic
    ensures GuardedStep(c, r, |r|, reward).outcome == Failed(ErrIndex)
  {
  }

  /** The slices after the host's calls `obs`, in order, starting from
      `c` and `r`.  A call that fails or panics changes nothing. */
  function Replay(c: seq<int>, r: seq<real>, obs: seq<Observation>): (a: State)
    requires Updatable(c, r)
    ensures |a.counts| == |c| && Updatable(a.counts, a.rewards)
    ensures Wellformed(c, r) ==> Wellformed(a.counts, a.rewards)
    decreases |obs|
  {
    if obs == [] then State(c, r)
    else
      var p := Replay(c, r, obs[..|obs| - 1]);
      var o := obs[|obs| - 1];
      var t := Step(p.counts, p.rewards, o.option, o.reward);
      State(t.counts, t.rewards)
  }

  /** Number of calls in `obs` that succeed on `arm`. */
  function Pulls(obs: seq<Observation>, arm: int): nat
  {
    if obs == [] then 0
    else
      var o := obs[|obs| - 1];
      Pulls(obs[..|obs| - 1], arm) + (if o.option == arm && o.reward >= 0.0 then 1 else 0)
  }

  /** Total reward of the calls in `obs` that succeed on `arm`. */
  function Payout(obs: seq<Observation>, arm: int): real
  {
    if obs == [] then 0.0
    else
      var o := obs[|obs| - 1];
      Payout(obs[..|obs| - 1], arm) + (if o.option == arm && o.reward >= 0.0 then o.reward else 0.0)
  }

  /** The total reward that an arm's mean stands for: mean times trials. */
  function Mass(c: seq<int>, r: seq<real>, arm: int): real
    requires |c| == |r| && 0 <= arm < |c|
  {
    r[arm] * (c[arm] as real)
  }

  /** What one call does to the entry of `arm`: a successful call on it
      adds one trial and its reward to the arm's mass; any other call
      leaves the entry as it was. */
  lemma StepOnArm(c: seq<int>, r: seq<real>, o: Observation, arm: int)
    requires Updatable(c, r)
    requires 0 <= arm < |c|
    ensures var t := Step(c, r, o.option, o.reward);
      var hit := o.option == arm && o.reward >= 0.0;
      && t.counts[arm] == c[arm] + (if hit then 1 else 0)
      && Mass(t.counts, t.rewards, arm) == Mass(c, r, arm) + (if hit then o.reward else 0.0)
      && (!hit ==> t.rewards[arm] == r[arm])
  {
  }

  /** After any series of calls, an arm's count has grown by the number of
      successful calls on it and its mass by their total reward; an arm
      nobody updated keeps its mean. */
  lemma {:induction false} ReplayTotals(c: seq<int>, r: seq<real>, obs: seq<Observation>, arm: int)
    requires Updatable(c, r)
    requires 0 <= arm < |c|
    ensures Replay(c, r, obs).counts[arm] == c[arm] + Pulls(obs, arm)
    ensures Mass(Replay(c, r, obs).counts, Replay(c, r, obs).rewards, arm) == Mass(c, r, arm) + Payout(obs, arm)
    ensures Pulls(obs, arm) == 0 ==> Replay(c, r, obs).rewards[arm] == r[arm]
    decreases |obs|
  {
    if obs != [] {
      var prefix := obs[..|obs| - 1];
      var o := obs[|obs| - 1];
      ReplayTotals(c, r, prefix, arm);
      var p := Replay(c, r, prefix);
      var t := Step(p.counts, p.rewards, o.option, o.reward);
      assert Replay(c, r, obs) == State(t.counts, t.rewards);
      StepOnArm(p.counts, p.rewards, o, arm);
    }
  }

  /** From freshly constructed slices, an arm's count is the number of
      successful updates on it and its reward is their mean. */
  lemma MeanFromZero(n: nat, obs: seq<Observation>, arm: int)
    requires 0 <= arm < n
    requires Pulls(obs, arm) > 0
    ensures Replay(ZeroCounts(n), ZeroRewards(n), obs).counts[arm] == Pulls(obs, arm)
    ensures Replay(ZeroCounts(n), ZeroRewards(n), obs).rewards[arm]
            == Payout(obs, arm) / (Pulls(obs, arm) as real)
  {
    var a := Replay(ZeroCounts(n), ZeroRewards(n), obs);
    ReplayTotals(ZeroCounts(n), ZeroRewards(n), obs, arm);
    MeanOfMass(a.counts, a.rewards, arm, Payout(obs, arm));
  }

  /** A positive count recovers the mean from the mass. */
  lemma MeanOfMass(c: seq<int>, r: seq<real>, arm: int, total: real)
    requires |c| == |r| && 0 <= arm < |c|
    requires c[arm] > 0
    requires Mass(c, r, arm) == total
    ensures r[arm] == total / (c[arm] as real)
  {
  }

  /** `Update` carried out in place on the two arrays. */
  method UpdateArms(C: array<int>, R: array<real>, option: int, reward: real) returns (outcome: Outcome)
    requires Updatable(C[..], R[..])
    modifies C, R
    ensures Step(old(C[..]), old(R[..]), option, reward) == Transition(outcome, C[..], R[..])
  {
    if option < 0 || option > R.Length {
      return Failed(ErrIndex);
    }
    if reward < 0.0 {
      return Failed(ErrReward);
    }
    if option >= C.Length {
      // the run-time bounds check on `C[option]++`
      return IndexPanic;
    }
    ghost var t := Step(C[..], R[..], option, reward);
    C[option] := C[option] + 1;
    var n := C[option] as real;
    R[option] := (R[option] * (n - 1.0) + reward) / n;
    assert R[option] == RunningMean(old(R[option]), C[option], reward);
    assert C[..] == t.counts;
    assert R[..] == t.rewards;
    return Ok;
  }

  /** A fresh array holding the same elements (`make` then `copy`). */
  method Copy<T(0)>(a: array<T>) returns (s: array<T>)
    ensures fresh(s)
    ensures s[..] == a[..]
  {
    s := new T[a.Length];
    for i := 0 to a.Length
      invariant forall j :: 0 <= j < i ==> s[j] == a[j]
    {
      s[i] := a[i];
    }
  }
}
