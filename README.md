# Multi-armed bandit strategies: per-arm bookkeeping and selection rules

This project models the core of a Go multi-armed bandit library. Four
strategies choose one of a fixed set of arms and learn from the rewards the
host reports back: epsilon-greedy, UCB1, annealing softmax and Thompson
sampling. Each strategy object owns two parallel slices that it updates in
place:

- `C` is the number of trials of each arm.
- `R` is the running mean of each arm's rewards.

In the model, each strategy is a class with `C: array<int>` and
`R: array<real>` (and `Epsilon` for epsilon-greedy).

- `slices.dfy` (`Slices`) holds the two slice helpers the strategies use:
  `Sum`, and `MaxIndex`, which returns an index of some maximal element.
- `arms.dfy` (`Arms`) holds what the four strategies share:
  - the error values and the outcome of an `Update`;
  - `Step`, the effect of `Update` on the pair of slices, and
    `UpdateArms`, which applies it in place to the arrays;
  - `Replay`, the slices after a series of updates;
  - the lemmas that the stored value is the mean of the rewards;
  - `Copy`, the snapshot used by `Counts` and `Rewards`.
- `eg.dfy`, `ucb.dfy`, `as.dfy` and `ts.dfy` each hold one strategy class:
  - a validating factory (`NewEpsilonGreedy`, …) that returns `Success` or
    `Failure(err)`;
  - the constructor, `Update`, `Counts` and `Rewards`.
- Only `eg.dfy`, `ucb.dfy` and `ts.dfy` also hold the deterministic part of
  `Select`; the annealing-softmax selection is not modelled (see Left out).

The four Go `Update` bodies are textually identical, so every class's
`Update` is proved against the same `Step`. Every class keeps the invariant
`Valid()`:

- at least two arms;
- `len(C) == len(R)`;
- every count is `>= 0`;
- every reward is `>= 0`.

Things the model treats as inputs:

- Random numbers are parameters. Epsilon-greedy's `Select` takes the draw
  and the random index.
- UCB's bonus `sqrt(2 ln(total/count))` is a partial function parameter.
  Its domain is `0 < count <= total`. The model proves that every call is
  inside this domain.
- Thompson's Beta draw is a partial function parameter defined for
  positive parameters. The model proves that both parameters are at least
  1 (and at most the total trial count plus 1).

Two facts about the code that a reader of the strategies might not
expect. The model states both as the code has them:

- `ThompsonSampling.Update` stores a running mean, not a running sum
  (ts.go:78-79). `Thompson.StoresMeanNotSum` shows this on two concrete
  updates.
- The `Update` index guard is `option > len(R)`. It lets `option == len(R)`
  through, and `C[option]++` then indexes past the end of `C`, which is a
  Go run-time panic. In the model, this is the `IndexPanic` outcome with
  the slices unchanged, because the panic happens before any write. The
  corrected guard is modelled and proved as well; see Findings.

With `Epsilon == 0`, the Go test is `rand.Float64() > Epsilon`. A draw of
exactly `0.0` therefore still takes the random branch. The `Select`
contract states this as written.

## Model

| member | source | states |
|---|---|---|
| Slices.Sum | ucb.go:55 | the plain total of the counts (also ts.go:52); non-negative when no count is negative |
| Slices.SumBoundsEach | ts.go:50-53 | with no negative count, every arm's count lies between 0 and the total `Sum(C)` |
| Slices.MaxIndex | eg.go:58 | returns an index in range whose value is at least every other value; no tie-break is promised |
| Arms.RunningMean | eg.go:82-83 | the new mean times the new count `n` equals the old mean times `n-1` plus the reward; it is non-negative when the old mean and the reward are |
| Arms.Step | eg.go:66-86 | `ErrIndex` exactly when `option < 0` or `option > len(R)`, whatever the reward; `ErrReward` exactly when the index passes and the reward is negative; a panic exactly when `option == len(R)` and the reward is non-negative; every failure leaves both slices unchanged; success adds 1 to `C[option]` and the reward to `R[option]` times the count; no other entry and neither length changes; the invariant is preserved |
| Arms.GuardedStep | eg.go:70 | the corrected guard `option >= len(R)`: never panics, `ErrIndex` exactly for indices outside the slices, the same new slices as the as-written step, and a different outcome only at `option == len(R)` |
| Arms.GuardAdmitsLength | eg.go:70-79 | as written, `option == len(R)` gets past the index guard: it ends in a panic, or in `ErrReward` for a negative reward; the corrected guard returns `ErrIndex` |
| Arms.Replay | ucb.go:64-84 | a series of updates keeps the slices parallel, with counts and rewards non-negative |
| Arms.StepOnArm | ucb.go:77-81 | one call changes an arm's entry only when it succeeds on that arm: the count rises by one and mean times count rises by the reward |
| Arms.ReplayTotals | as.go:79-83 | after any series of calls, each arm's count has grown by the number of successful calls on it and its mean times its count by their total reward; an arm no call succeeded on keeps its mean |
| Arms.MeanFromZero | as.go:79-83 | from a fresh strategy, each arm's count is the number of successful updates on it and its reward is their mean |
| Arms.UpdateArms | ucb.go:68-83 | updates the two arrays in place exactly as `Step` says, including the panic path |
| Arms.Copy | eg.go:93-95 | returns a freshly allocated array with the same length and elements |
| Greedy.EpsilonGreedy.constructor | eg.go:45-49 | `Epsilon` is stored unchanged; `C` and `R` are fresh, of length `options`, and all zero |
| Greedy.NewEpsilonGreedy | eg.go:36-50 | `ErrEpsilon` exactly when epsilon is outside [0,1], taking precedence; otherwise `ErrOptions` exactly when `options < 2`; otherwise a zeroed strategy |
| Greedy.EpsilonGreedy.Select | eg.go:53-62 | a draw above `Epsilon` returns an arm of maximal mean reward, otherwise the supplied random index; the result is always a valid arm |
| Greedy.EpsilonGreedy.Update | eg.go:66-86 | the outcome and new slices are those of `Step`; the invariant is kept |
| Greedy.EpsilonGreedy.Counts | eg.go:89-96 | a fresh array equal to `C` |
| Greedy.EpsilonGreedy.Rewards | eg.go:99-106 | a fresh array equal to `R` |
| Ucb.UpperConfidenceBound.constructor | ucb.go:37-40 | `C` and `R` are fresh, of length `options`, and all zero |
| Ucb.NewUpperConfidenceBound | ucb.go:32-41 | `ErrOptions` exactly when `options < 2`, otherwise a zeroed strategy |
| Ucb.UpperConfidenceBound.Select | ucb.go:44-60 | if some arm has a zero count, returns the first such arm; otherwise returns an arm whose mean plus bonus is maximal, with every bonus evaluated at `0 < count <= Sum(C)`; the result is always a valid arm |
| Ucb.UpperConfidenceBound.Update | ucb.go:64-84 | the outcome and new slices are those of `Step`; the invariant is kept |
| Ucb.UpperConfidenceBound.Counts | ucb.go:87-94 | a fresh array equal to `C` |
| Ucb.UpperConfidenceBound.Rewards | ucb.go:97-104 | a fresh array equal to `R` |
| Ucb.CountsSnapshotSurvivesUpdate | ucb.go:87-94 | a `Counts` snapshot still holds the old counts after a later `Update` |
| Annealing.AnnealingSoftmax.constructor | as.go:38-41 | `C` and `R` are fresh, of length `options`, and all zero |
| Annealing.NewAnnealingSoftmax | as.go:33-42 | `ErrOptions` exactly when `options < 2`, otherwise a zeroed strategy |
| Annealing.AnnealingSoftmax.Update | as.go:66-86 | the outcome and new slices are those of `Step`; the invariant is kept |
| Annealing.AnnealingSoftmax.Counts | as.go:89-96 | a fresh array equal to `C` |
| Annealing.AnnealingSoftmax.Rewards | as.go:99-106 | a fresh array equal to `R` |
| Thompson.BetaParameters | ts.go:50-53 | both Beta parameters, `C[i]+1` and `Sum(C)-C[i]+1`, lie between 1 and `Sum(C)+1` when no count is negative |
| Thompson.ThompsonSampling.constructor | ts.go:37-40 | `C` and `R` are fresh, of length `options`, and all zero |
| Thompson.NewThompsonSampling | ts.go:32-41 | `ErrOptions` exactly when `options < 2`, otherwise a zeroed strategy |
| Thompson.ThompsonSampling.Select | ts.go:44-58 | every Beta draw is taken with positive parameters, and the returned arm's draw is maximal; the result is always a valid arm |
| Thompson.ThompsonSampling.Update | ts.go:62-82 | the outcome and new slices are those of `Step`; the invariant is kept |
| Thompson.StoresMeanNotSum | ts.go:78-79 | rewards 1 and 3 on one arm of a fresh strategy leave its reward at 2, their mean, not 4, their sum |
| Thompson.ThompsonSampling.Counts | ts.go:85-92 | a fresh array equal to `C` |
| Thompson.ThompsonSampling.Rewards | ts.go:95-102 | a fresh array equal to `R` |

## Left out

- Locking: the embedded `sync.RWMutex` and every `Lock`/`Unlock` only protect against concurrent callers. Each operation is modelled as one atomic sequential step.
- `AnnealingSoftmax.Select` (as.go:44-62) is not modelled. It is floating-point `math.Exp`/`math.Log` numerics and a random draw, through a bounded-sum search whose library is not part of this model.
- Randomness and foreign numerics are parameters: the epsilon-greedy draw and random index, the UCB bonus and the Thompson Beta draw. The gonum Beta sampler and `math.Sqrt`/`math.Log` are not part of this model.
- Float64 arithmetic: rewards and means are exact reals, so rounding, NaN and infinities are not modelled.
- Go's 64-bit `int`: counts and their sum are unbounded integers, so wrap-around after 2^63 trials is not modelled.
- The `sam` helpers are not part of this model. `Slices.MaxIndex` is used only through its contract, which promises no tie-break rule. `Slices.Sum` is a definition, the plain total of the slice, which is what `SliceInt.Sum` is taken to compute.
- The `Optimizer` interface (optimizer.go:20-26) has no behaviour. Each class offers its members directly, without a shared interface type.
- `Remove` is declared in the interface, but none of the four strategy files implements it. `Extend` and the significance test do not appear in these files. None of the three is modelled.
- The error values are declared in a file that is not part of this model. They are the constructors of `Arms.Error`.
- The fields `C`, `R` and `Epsilon` are exported in Go, so a host could break `len(C) == len(R)`. The model assumes the invariant that the constructors establish and every `Update` keeps.
- Arms.UpdateArms: the panic for `option == len(R)` is an outcome with unchanged state. Whether the caller recovers it or the program stops is not modelled.

## Findings

| source | as written | input that shows it | evidently intended | confidence | as-written member | corrected member |
|---|---|---|---|---|---|---|
| eg.go:70 (also ucb.go:68, as.go:70, ts.go:66) | the guard `option > len(R)` admits `option == len(R)`, and the next line's `C[option]++` then indexes past the end | `Update(len(R), 1.0)` on any strategy: the guard passes and the increment panics; `Update(len(R), -1.0)` returns `ErrReward` rather than `ErrIndex` | `option >= len(R)`, so that `ErrIndex` is returned for every index outside the slices | high; not executed | Arms.GuardAdmitsLength | Arms.GuardedStep |

The strategy classes keep the guard as written, so the panic path stays
visible in their `Update` contracts. `Arms.GuardedStep` is proved to leave
both slices exactly as the as-written step does on every input. So
`Replay`, `ReplayTotals` and `MeanFromZero` describe the corrected
`Update` as well.
