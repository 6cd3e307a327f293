/**
 * The countdown hook (`useCountdown`).
 *
 * `timeLeft` starts at `initialTime`; while the one-second interval is
 * installed, each firing applies the updater `time > 0 ? time - 1 : 0`.
 * Whether the interval is installed is decided when the effect runs, from
 * `shouldRun` (a boolean, or a function that is called once at that point).
 */
module Countdown {

  /** The `shouldRun` argument: either a plain boolean or a function returning one. */
  datatype ShouldRun = Flag(value: bool) | Poll(check: () -> bool)

  /** The effect's guard: the interval is installed unless the flag is false or the function returns false. */
  predicate Permits(shouldRun: ShouldRun)
  {
    match shouldRun
    case Flag(b) => b
    case Poll(check) => check()
  }

  /** The state updater applied at every firing of the interval. */
  function Decrement(time: int): (r: int)
    ensures r >= 0
    ensures time > 0 ==> r == time - 1
    ensures time >= 0 ==> r <= time
    ensures r == 0 <==> time <= 1
  {
    if time > 0 then time - 1 else 0
  }

  /** `timeLeft` after `n` firings of the interval, starting from `time`. */
  function AfterTicks(time: int, n: nat): int
    decreases n
  {
    if n == 0 then time else AfterTicks(Decrement(time), n - 1)
  }

  function Max(a: int, b: int): int
  {
    if a >= b then a else b
  }

  /** The closed form: n firings take `t` down to `t - n`, but never below zero. */
  lemma {:induction false} AfterTicksClosedForm(time: int, n: nat)
    ensures AfterTicks(time, n) == if n == 0 then time else Max(time - n, 0)
    decreases n
  {
    if n > 0 {
      AfterTicksClosedForm(Decrement(time), n - 1);
    }
  }

  /** Once the countdown has reached zero, every further firing keeps it there. */
  lemma {:induction false} ZeroIsFixed(n: nat)
    ensures AfterTicks(0, n) == 0
  {
    AfterTicksClosedForm(0, n);
  }

  /** From a non-negative value, ticking never raises the count and never makes it negative. */
  lemma {:induction false} AfterTicksBounded(time: int, n: nat)
    requires time >= 0
    ensures 0 <= AfterTicks(time, n) <= time
  {
    AfterTicksClosedForm(time, n);
  }

  /** A countdown started at `time >= 0` is over exactly from the `time`-th firing on. */
  lemma {:induction false} OverExactlyAfter(time: int, n: nat)
    requires time >= 0
    ensures AfterTicks(time, n) == 0 <==> n >= time
  {
    AfterTicksClosedForm(time, n);
  }

  /** A negative `initialTime` is lifted to zero by the first firing. */
  lemma NegativeIsLiftedToZero(time: int)
    requires time < 0
    ensures Decrement(time) == 0 && Decrement(time) > time
  {
  }

  class Timer {
    /** The `initialTime` argument of the latest render. */
    var initialTime: int
    var timeLeft: int
    /** Whether the interval is installed, as the last run of the effect decided. */
    var running: bool
    /** The value `timeLeft` was last set to, by the first render or by a reset. */
    ghost var origin: int

    /**
     * Since it was last set, `timeLeft` has only counted down: it lies in
     * `[0, origin]` when `origin` is non-negative, and a negative `origin`
     * is either still there or has been lifted to zero.
     */
    ghost predicate Valid()
      reads this
    {
      && (origin >= 0 ==> 0 <= timeLeft <= origin)
      && (origin < 0 ==> timeLeft == origin || timeLeft == 0)
    }

    /** The first render, before the effect has run. */
    constructor(initialTime: int)
      ensures Valid()
      ensures this.initialTime == initialTime && timeLeft == initialTime && !running
      ensures origin == initialTime
    {
      this.initialTime := initialTime;
      timeLeft := initialTime;
      running := false;
      origin := initialTime;
    }

    /**
     * A later render with another `initialTime`: `useState` ignores it, so
     * `timeLeft` is kept, but a later reset goes to the new value.
     */
    method Rerender(initialTime: int)
      requires Valid()
      modifies this`initialTime
      ensures Valid()
      ensures this.initialTime == initialTime
    {
      this.initialTime := initialTime;
    }

    /** The effect, run on mount and whenever `shouldRun` changes identity. */
    method ApplyShouldRun(shouldRun: ShouldRun)
      requires Valid()
      modifies this`running
      ensures Valid()
      ensures running == Permits(shouldRun)
    {
      match shouldRun
      case Flag(b) =>
        running := b;
      case Poll(check) =>
        running := check();
    }

    /** One firing of the interval; there is none when the interval is not installed. */
    method Tick()
      requires Valid()
      modifies this`timeLeft
      ensures Valid()
      ensures timeLeft == if running then Decrement(old(timeLeft)) else old(timeLeft)
    {
      if running {
        timeLeft := if timeLeft > 0 then timeLeft - 1 else 0;
      }
    }

    method ResetCountdown()
      requires Valid()
      modifies this`timeLeft, this`origin
      ensures Valid()
      ensures timeLeft == initialTime && origin == initialTime
    {
      timeLeft := initialTime;
      origin := initialTime;
    }

    /** `isCountdownOver`; `OverExactlyAfter` says after how many firings it holds. */
    function IsCountdownOver(): (over: bool)
      reads this
      ensures over <==> timeLeft == 0
    {
      timeLeft == 0
    }

    /** `integerTimeLeft`: `Math.trunc` leaves an integer count as it is. */
    function IntegerTimeLeft(): (n: int)
      reads this
      requires Valid()
      ensures n == timeLeft
      ensures origin >= 0 ==> 0 <= n <= origin
      ensures n < 0 ==> n == origin
    {
      timeLeft
    }
  }

  /** Ticks with a false guard leave the countdown untouched. */
  method TickWhenStopped(t: Timer, shouldRun: ShouldRun)
    requires t.Valid() && !Permits(shouldRun)
    modifies t
    ensures t.Valid()
    ensures t.timeLeft == old(t.timeLeft) && !t.running
  {
    t.ApplyShouldRun(shouldRun);
    t.Tick();
  }
}
