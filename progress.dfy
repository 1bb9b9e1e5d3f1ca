/**
  The shared progress record `progressStore` of the request wrappers and the
  pure transforms the wrappers pass to its `update`: start, one interval
  tick, completion and the delayed reset.
 */
module Progress {
  import opened Common

  /** `{isLoading, progress}` as published to every subscriber. */
  datatype ProgressState = ProgressState(isLoading: bool, progress: int)

  /** The value the store is created with. */
  const Idle: ProgressState := ProgressState(false, 0)

  /** Amount one interval tick adds, and the bound below which it adds it. */
  const TickStep: int := 10
  const TickCap: int := 90
  const Completed: int := 100

  /** `0 <= progress <= 100`. */
  predicate InRange(s: ProgressState) { 0 <= s.progress <= Completed }

  /** Start of a request: loading, progress back to 0. */
  function Start(s: ProgressState): (r: ProgressState)
    ensures r.isLoading && r.progress == 0 && InRange(r)
  {
    s.(isLoading := true, progress := 0)
  }

  /** One firing of the 100 ms interval. */
  function Tick(s: ProgressState): (r: ProgressState)
    ensures r.isLoading == s.isLoading
    ensures s.progress <= r.progress <= s.progress + TickStep
    ensures r.progress != s.progress <==> s.progress < TickCap
    ensures InRange(s) ==> InRange(r)
  {
    if s.progress < TickCap then s.(progress := s.progress + TickStep) else s
  }

  /** An ok response. */
  function Complete(s: ProgressState): (r: ProgressState)
    ensures r.isLoading == s.isLoading && r.progress == Completed && InRange(r)
  {
    s.(progress := Completed)
  }

  /** The reset scheduled 500 ms after a request settles. */
  function Reset(s: ProgressState): (r: ProgressState)
    ensures r == Idle
  {
    s.(isLoading := false, progress := 0)
  }

  /** `n` consecutive interval firings. */
  function Ticks(s: ProgressState, n: nat): ProgressState
    decreases n
  {
    if n == 0 then s else Ticks(Tick(s), n - 1)
  }

  /** From a fresh start, `n` ticks give exactly `min(10 n, 90)`. */
  lemma {:induction false} TicksFromStart(s: ProgressState, n: nat)
    ensures Ticks(Start(s), n) == ProgressState(true, Min(TickStep * n, TickCap))
  {
    TicksFromStep(true, 0, n);
  }

  /** Ticks from progress `10 k` (with `k <= 9`) climb in steps of 10 up to 90. */
  lemma {:induction false} TicksFromStep(loading: bool, k: nat, n: nat)
    requires k <= 9
    ensures Ticks(ProgressState(loading, TickStep * k), n)
         == ProgressState(loading, Min(TickStep * (k + n), TickCap))
    decreases n
  {
    if n > 0 {
      if k < 9 {
        assert Tick(ProgressState(loading, TickStep * k)) == ProgressState(loading, TickStep * (k + 1));
        TicksFromStep(loading, k + 1, n - 1);
      } else {
        TicksAtCap(ProgressState(loading, TickCap), n);
      }
    }
  }

  /** At or above 90 a tick leaves the state as it is, however many fire. */
  lemma {:induction false} TicksAtCap(s: ProgressState, n: nat)
    requires s.progress >= TickCap
    ensures Tick(s) == s
    ensures Ticks(s, n) == s
    decreases n
  {
    if n > 0 {
      TicksAtCap(s, n - 1);
    }
  }

  /**
    Ticks never lower progress, never touch `isLoading`, never lift it past
    99 from below 100, and so never reach 100 on their own; they keep the
    record in range.
   */
  lemma {:induction false} TicksBounded(s: ProgressState, n: nat)
    ensures Ticks(s, n).isLoading == s.isLoading
    ensures s.progress <= Ticks(s, n).progress <= Max(s.progress, Completed - 1)
    ensures s.progress < Completed ==> Ticks(s, n).progress < Completed
    ensures InRange(s) ==> InRange(Ticks(s, n))
    decreases n
  {
    if n > 0 {
      TicksBounded(Tick(s), n - 1);
    }
  }

  /** Ticks that fire in two stretches add up. */
  lemma {:induction false} TicksAdd(s: ProgressState, m: nat, n: nat)
    ensures Ticks(Ticks(s, m), n) == Ticks(s, m + n)
    decreases m
  {
    if m > 0 {
      TicksAdd(Tick(s), m - 1, n);
    }
  }

  /** After a start, however the ticks fall, progress is loading and at most 90. */
  lemma StartedThenTicked(s: ProgressState, m: nat, n: nat)
    ensures Ticks(Ticks(Start(s), m), n).isLoading
    ensures 0 <= Ticks(Ticks(Start(s), m), n).progress <= TickCap
  {
    TicksAdd(Start(s), m, n);
    TicksFromStart(s, m + n);
  }
}
