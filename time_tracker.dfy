/**
 * The elapsed-time tracker hook (`useTimeTracker`).
 *
 * The hook keeps three pieces of state (`startTime`, `elapsedTime`,
 * `isActive`) and one durable slot, the local-storage key
 * `bakutils.timeTracker`, which outlives the component.  Every callback and
 * every timer firing is one atomic transition.  The transitions are first
 * given as functions on a `World` (the hook state together with the stored
 * snapshot); the class `Tracker` below has the same fields and its methods
 * are proved to perform exactly those transitions.
 */
module TimeTracker {

  datatype Option<T> = None | Some(value: T)

  /** The hook's state; the same record is what `saveState` writes. */
  datatype TrackerState = TrackerState(startTime: Option<int>, elapsedTime: int, isActive: bool)

  /** The values the three `useState` calls start from. */
  const Idle := TrackerState(None, 0, false)

  /** The config object; an omitted field is `None` (undefined in JavaScript). */
  datatype TimeTrackerConfig = TimeTrackerConfig(useLocalStorage: Option<bool>, saveInterval: Option<int>)

  /** Used only when the hook is called with no config object at all. */
  const DefaultConfig := TimeTrackerConfig(Some(true), Some(10000))

  function ResolveConfig(passed: Option<TimeTrackerConfig>): TimeTrackerConfig
  {
    if passed.None? then DefaultConfig else passed.value
  }

  /** JavaScript truthiness of an optional boolean. */
  predicate Truthy(b: Option<bool>)
  {
    b == Some(true)
  }

  /** Whether the periodic-save interval is installed. */
  predicate SavesPeriodically(isActive: bool, config: TimeTrackerConfig)
  {
    isActive && Truthy(config.useLocalStorage)
  }

  /** The hook state together with the value stored under the storage key. */
  datatype World = World(state: TrackerState, stored: Option<TrackerState>)

  /** The invariant the transitions keep: time is never negative and a running tracker has a start time. */
  predicate Consistent(s: TrackerState)
  {
    s.elapsedTime >= 0 && (s.isActive ==> s.startTime.Some?)
  }

  predicate WorldOk(w: World)
  {
    Consistent(w.state) && (w.stored.Some? ==> Consistent(w.stored.value))
  }

  // ---------------------------------------------------------------------
  // Transitions
  // ---------------------------------------------------------------------

  /** `start`: the start time is taken from the clock only when there is none yet. */
  function StartT(w: World, now: int): (r: World)
    ensures w.state.startTime.Some? ==> r.state.startTime == w.state.startTime
    ensures w.state.startTime.None? ==> r.state.startTime == Some(now)
    ensures r.state.isActive
    ensures r.state.elapsedTime == w.state.elapsedTime && r.stored == w.stored
  {
    var s := w.state;
    World(TrackerState(if s.startTime.None? then Some(now) else s.startTime, s.elapsedTime, true), w.stored)
  }

  /** `saveState`: write the state the callback was created with. */
  function SaveStateT(w: World): (r: World)
    ensures r.state == w.state && r.stored == Some(w.state)
  {
    World(w.state, Some(w.state))
  }

  /**
   * `pause`: `setIsActive(false)` followed by `saveState()`, whose closure
   * still holds the state of the render `pause` belongs to.  The snapshot
   * is therefore the state before the pause, and it is written whatever
   * the config says.
   */
  function PauseT(w: World): (r: World)
    ensures r.stored == Some(w.state)
    ensures !r.state.isActive
    ensures r.state.startTime == w.state.startTime && r.state.elapsedTime == w.state.elapsedTime
  {
    var saved := SaveStateT(w);
    World(saved.state.(isActive := false), saved.stored)
  }

  /** `reset`: back to the initial values, and the stored snapshot is removed. */
  function ResetT(w: World): (r: World)
    ensures r.state.startTime.None? && r.state.elapsedTime == 0 && !r.state.isActive
    ensures r.stored.None?
  {
    World(Idle, None)
  }

  /** One firing of the one-second interval, which exists only while active. */
  function TickT(w: World): (r: World)
    ensures w.state.isActive ==> r.state.elapsedTime == w.state.elapsedTime + 1
    ensures !w.state.isActive ==> r == w
    ensures r.state.startTime == w.state.startTime && r.state.isActive == w.state.isActive
    ensures r.stored == w.stored
  {
    if w.state.isActive then World(w.state.(elapsedTime := w.state.elapsedTime + 1), w.stored) else w
  }

  /** One firing of the save interval, installed only while active with a truthy `useLocalStorage`. */
  function PeriodicSaveT(config: TimeTrackerConfig, w: World): (r: World)
    ensures r.state == w.state
    ensures SavesPeriodically(w.state.isActive, config) ==> r.stored == Some(w.state)
    ensures !SavesPeriodically(w.state.isActive, config) ==> r.stored == w.stored
  {
    if SavesPeriodically(w.state.isActive, config) then SaveStateT(w) else w
  }

  /** The mount effect: a stored snapshot is copied back verbatim; without one nothing changes. */
  function RehydrateT(w: World): (r: World)
    ensures r.stored == w.stored
    ensures w.stored.Some? ==> r.state == w.stored.value
    ensures w.stored.None? ==> r.state == w.state
  {
    if w.stored.Some? then World(w.stored.value, w.stored) else w
  }

  /** A reload: the component is mounted afresh over the surviving storage and rehydrates. */
  function Reload(w: World): (r: World)
    ensures r.stored == w.stored
    ensures r.state == if w.stored.Some? then w.stored.value else Idle
  {
    RehydrateT(World(Idle, w.stored))
  }

  // ---------------------------------------------------------------------
  // Traces of events
  // ---------------------------------------------------------------------

  /** One callback or timer firing; a periodic save carries the config of the render its interval belongs to. */
  datatype Event = Start(now: int) | Pause | Reset | Tick | PeriodicSave(config: TimeTrackerConfig) | Remount

  function Step(w: World, e: Event): World
  {
    match e
    case Start(now) => StartT(w, now)
    case Pause => PauseT(w)
    case Reset => ResetT(w)
    case Tick => TickT(w)
    case PeriodicSave(config) => PeriodicSaveT(config, w)
    case Remount => Reload(w)
  }

  function Run(w: World, es: seq<Event>): World
    decreases |es|
  {
    if es == [] then w else Run(Step(w, es[0]), es[1..])
  }

  function Ticks(n: nat): (es: seq<Event>)
    ensures |es| == n && forall i :: 0 <= i < n ==> es[i] == Tick
  {
    if n == 0 then [] else [Tick] + Ticks(n - 1)
  }

  // ---------------------------------------------------------------------
  // Properties
  // ---------------------------------------------------------------------

  /** Whether the periodic save runs depends on `useLocalStorage` only when a config object is passed. */
  lemma PeriodicSaveGate(isActive: bool, passed: Option<TimeTrackerConfig>)
    ensures SavesPeriodically(isActive, ResolveConfig(passed))
            <==> isActive && (passed.None? || passed.value.useLocalStorage == Some(true))
    ensures passed.Some? && passed.value.useLocalStorage.None? ==> !SavesPeriodically(isActive, ResolveConfig(passed))
  {
  }

  /** Calling `start` again never moves the start time, whatever the clock reads. */
  lemma StartIdempotent(w: World, first: int, second: int)
    ensures StartT(StartT(w, first), second) == StartT(w, first)
  {
  }

  /** Every transition keeps the invariant. */
  lemma StepKeepsConsistent(w: World, e: Event)
    requires WorldOk(w)
    ensures WorldOk(Step(w, e))
  {
  }

  lemma {:induction false} RunKeepsConsistent(w: World, es: seq<Event>)
    requires WorldOk(w)
    ensures WorldOk(Run(w, es))
    decreases |es|
  {
    if es != [] {
      StepKeepsConsistent(w, es[0]);
      RunKeepsConsistent(Step(w, es[0]), es[1..]);
    }
  }

  lemma {:induction false} RunAppend(w: World, a: seq<Event>, b: seq<Event>)
    ensures Run(w, a + b) == Run(Run(w, a), b)
    decreases |a|
  {
    if a != [] {
      assert (a + b)[0] == a[0];
      assert (a + b)[1..] == a[1..] + b;
      RunAppend(Step(w, a[0]), a[1..], b);
    } else {
      assert a + b == b;
    }
  }

  /** Neither a reset nor a reload occurs in `es`. */
  predicate NoRestart(es: seq<Event>)
  {
    forall i :: 0 <= i < |es| ==> !es[i].Reset? && !es[i].Remount?
  }

  /** Elapsed time only goes down through `reset` or a rehydration. */
  lemma {:induction false} ElapsedNeverDecreases(w: World, es: seq<Event>)
    requires NoRestart(es)
    ensures Run(w, es).state.elapsedTime >= w.state.elapsedTime
    decreases |es|
  {
    if es != [] {
      assert NoRestart(es[1..]) by {
        forall i | 0 <= i < |es[1..]| ensures !es[1..][i].Reset? && !es[1..][i].Remount? {
          assert es[1..][i] == es[i + 1];
        }
      }
      ElapsedNeverDecreases(Step(w, es[0]), es[1..]);
    }
  }

  /** Only pauses, ticks and saves occur in `es`: nothing that can start the tracker. */
  predicate NoResume(es: seq<Event>)
  {
    forall i :: 0 <= i < |es| ==> es[i].Pause? || es[i].Tick? || es[i].PeriodicSave?
  }

  /** While paused, time stands still: ticks, saves and further pauses leave the state as it is. */
  lemma {:induction false} PausedStandsStill(w: World, es: seq<Event>)
    requires !w.state.isActive && NoResume(es)
    ensures Run(w, es).state == w.state
    decreases |es|
  {
    if es != [] {
      assert NoResume(es[1..]) by {
        forall i | 0 <= i < |es[1..]| ensures es[1..][i].Pause? || es[1..][i].Tick? || es[1..][i].PeriodicSave? {
          assert es[1..][i] == es[i + 1];
        }
      }
      PausedStandsStill(Step(w, es[0]), es[1..]);
    }
  }

  /** While running, n ticks add exactly n seconds and change nothing else. */
  lemma {:induction false} TicksAddUp(w: World, n: nat)
    requires w.state.isActive
    ensures Run(w, Ticks(n)) == World(w.state.(elapsedTime := w.state.elapsedTime + n), w.stored)
    decreases n
  {
    if n > 0 {
      assert Ticks(n)[1..] == Ticks(n - 1);
      TicksAddUp(TickT(w), n - 1);
    }
  }

  /** Saving and rehydrating restores the identical triple. */
  lemma SaveRehydrateRoundTrip(w: World, other: TrackerState)
    ensures RehydrateT(World(other, SaveStateT(w).stored)).state == w.state
  {
  }

  /** With nothing stored, a freshly mounted tracker keeps the initial values. */
  lemma ReloadWithoutSnapshot(w: World)
    requires w.stored.None?
    ensures Reload(w).state == TrackerState(None, 0, false)
  {
  }

  /** After `reset` a reload finds no snapshot and starts from the initial values. */
  lemma ResetThenReload(w: World)
    ensures Run(w, [Reset, Remount]) == World(Idle, None)
  {
  }

  /**
   * Because `pause` stores the state from before the pause, a reload right
   * after a pause brings back `isActive = true`: the tracker resumes running.
   */
  lemma PauseThenReloadRestoresPrePauseState(w: World)
    ensures Run(w, [Pause, Remount]).state == w.state
    ensures w.state.isActive ==> Run(w, [Pause, Remount]).state.isActive
  {
  }

  /** Start, then five one-second ticks: five seconds have elapsed. */
  lemma StartThenFiveTicks(stored: Option<TrackerState>, now: int)
    ensures Run(World(Idle, stored), [Start(now)] + Ticks(5)).state == TrackerState(Some(now), 5, true)
  {
    var w := StartT(World(Idle, stored), now);
    RunAppend(World(Idle, stored), [Start(now)], Ticks(5));
    TicksAddUp(w, 5);
  }

  /** Start, three ticks, pause, then ten more timer firings: the count stays at three. */
  lemma PauseHoldsElapsed(stored: Option<TrackerState>, now: int)
    ensures Run(World(Idle, stored), [Start(now)] + Ticks(3) + [Pause] + Ticks(10)).state.elapsedTime == 3
  {
    var w0 := World(Idle, stored);
    var w1 := StartT(w0, now);
    RunAppend(w0, [Start(now)], Ticks(3));
    TicksAddUp(w1, 3);
    var w2 := Run(w0, [Start(now)] + Ticks(3));
    RunAppend(w0, [Start(now)] + Ticks(3), [Pause]);
    var w3 := Run(w0, [Start(now)] + Ticks(3) + [Pause]);
    assert w3 == PauseT(w2);
    RunAppend(w0, [Start(now)] + Ticks(3) + [Pause], Ticks(10));
    PausedStandsStill(w3, Ticks(10));
  }

  /** A stored snapshot with 42 seconds, not running, is what a fresh mount shows. */
  lemma RehydratesFortyTwo(start: Option<int>)
    ensures Reload(World(Idle, Some(TrackerState(start, 42, false)))).state.elapsedTime == 42
  {
  }

  // ---------------------------------------------------------------------
  // The hook as an object
  // ---------------------------------------------------------------------

  /** The browser's local storage, reduced to the one key the hook uses. */
  class Storage {
    var saved: Option<TrackerState>

    constructor(saved: Option<TrackerState>)
      ensures this.saved == saved
    {
      this.saved := saved;
    }
  }

  class Tracker {
    /** The config of the latest render; the hook reads its argument afresh on every render. */
    var config: TimeTrackerConfig
    const storage: Storage
    var startTime: Option<int>
    var elapsedTime: int
    var isActive: bool

    function State(): TrackerState
      reads this
    {
      TrackerState(startTime, elapsedTime, isActive)
    }

    function Current(): World
      reads this, storage
    {
      World(State(), storage.saved)
    }

    ghost predicate Valid()
      reads this, storage
    {
      WorldOk(Current())
    }

    /** The first render: `passed` is the config argument, absent when the caller gives none. */
    constructor(passed: Option<TimeTrackerConfig>, storage: Storage)
      ensures this.storage == storage && config == ResolveConfig(passed)
      ensures State() == Idle && storage.saved == old(storage.saved)
    {
      config := ResolveConfig(passed);
      this.storage := storage;
      startTime := None;
      elapsedTime := 0;
      isActive := false;
    }

    /** A later render with another config argument; the state and the storage are kept. */
    method Rerender(passed: Option<TimeTrackerConfig>)
      modifies this`config
      ensures config == ResolveConfig(passed)
    {
      config := ResolveConfig(passed);
    }

    method Start(now: int)
      modifies this`startTime, this`isActive
      ensures Current() == StartT(old(Current()), now)
      ensures old(Valid()) ==> Valid()
    {
      if startTime.None? {
        startTime := Some(now);
      }
      isActive := true;
    }

    method Pause()
      modifies this`isActive, storage
      ensures Current() == PauseT(old(Current()))
      ensures old(Valid()) ==> Valid()
    {
      var snapshot := State();
      isActive := false;
      storage.saved := Some(snapshot);
    }

    method Reset()
      modifies this`startTime, this`elapsedTime, this`isActive, storage
      ensures Current() == ResetT(old(Current()))
      ensures Valid()
    {
      startTime := None;
      elapsedTime := 0;
      isActive := false;
      storage.saved := None;
    }

    method Tick()
      modifies this`elapsedTime
      ensures Current() == TickT(old(Current()))
      ensures old(Valid()) ==> Valid()
    {
      if isActive {
        elapsedTime := elapsedTime + 1;
      }
    }

    method PeriodicSave()
      modifies storage
      ensures Current() == PeriodicSaveT(config, old(Current()))
      ensures old(Valid()) ==> Valid()
    {
      if isActive && Truthy(config.useLocalStorage) {
        storage.saved := Some(State());
      }
    }

    method Rehydrate()
      modifies this`startTime, this`elapsedTime, this`isActive
      ensures Current() == RehydrateT(old(Current()))
      ensures old(Valid()) ==> Valid()
    {
      if storage.saved.Some? {
        var s := storage.saved.value;
        startTime := s.startTime;
        elapsedTime := s.elapsedTime;
        isActive := s.isActive;
      }
    }

    /** `integerElapsedTime`: the raw count of seconds. */
    function IntegerElapsedTime(): (n: int)
      reads this
      requires Consistent(State())
      ensures n == elapsedTime && n >= 0
    {
      elapsedTime
    }
  }

  /** Mounting the hook over existing storage: the first render followed by the rehydration effect. */
  method Mount(passed: Option<TimeTrackerConfig>, storage: Storage) returns (t: Tracker)
    ensures fresh(t) && t.storage == storage && t.config == ResolveConfig(passed)
    ensures t.Current() == Reload(World(Idle, storage.saved))
    ensures storage.saved == old(storage.saved)
    ensures (storage.saved.Some? ==> Consistent(storage.saved.value)) ==> t.Valid()
  {
    t := new Tracker(passed, storage);
    t.Rehydrate();
  }
}
