/**
 * When telemetry reaches the disk: immediate writes, rate-limited sample writes and the
 * deferred flush task (src/mesh_telemetry.rs). Instants and durations are milliseconds.
 */
module TelemetryFlush {
  import opened Words

  const INTERVAL: nat := 5_000

  /** The locked state; `mem` and `disk` stand for the telemetry in memory and in the file. */
  datatype Core = Core(mem: int, disk: int, dirty: bool, sampleDirty: bool, retry: bool, scheduled: bool,
                       last: Option<int>)

  // ----- what the methods do, as functions; `ok` says whether the write succeeds

  function Persisted(c: Core, now: int, ok: bool): Core {
    if !ok then c.(dirty := true, retry := true)
    else
      c.(disk := c.mem, dirty := false, retry := false, sampleDirty := false,
         last := if c.sampleDirty then Some(now) else c.last)
  }

  predicate Due(c: Core, now: int) {
    c.retry || c.last.None? || now - c.last.value >= INTERVAL
  }

  /** A sample changed the memory to `mem`; the delay is that of the flush task to spawn. */
  function SampleDone(c: Core, mem: int, now: int, ok: bool): (Core, Option<int>) {
    var marked := c.(mem := mem, dirty := true, sampleDirty := true);
    if Due(c, now) then (Persisted(marked, now, ok), None)
    else if c.scheduled then (marked, None)
    else (marked.(scheduled := true), Some(Max(INTERVAL - (now - c.last.value), 0)))
  }

  function ImmediateDone(c: Core, mem: int, now: int, ok: bool): Core {
    Persisted(c.(mem := mem, dirty := true), now, ok)
  }

  /** The flush task wakes up; the delay is how long it goes back to sleep. */
  function WakeDone(c: Core, now: int, ok: bool): (Core, Option<int>) {
    if !c.dirty then (c.(scheduled := false), None)
    else if c.last.Some? && now - c.last.value < INTERVAL then (c, Some(INTERVAL - (now - c.last.value)))
    else (Persisted(c.(scheduled := false), now, ok), None)
  }

  // ----- the methods

  class TelemetryState {
    var mem: int
    var disk: int
    var dirty: bool
    var sampleDirty: bool
    var retryPersist: bool
    var flushScheduled: bool
    var lastSamplePersistAt: Option<int>

    ghost function View(): Core
      reads this
    {
      Core(mem, disk, dirty, sampleDirty, retryPersist, flushScheduled, lastSamplePersistAt)
    }

    constructor (loaded: int)
      ensures View() == Loaded(loaded)
    {
      mem, disk, dirty, sampleDirty, retryPersist, flushScheduled := loaded, loaded, false, false, false, false;
      lastSamplePersistAt := None;
    }

    /** `persist_locked`. */
    method PersistLocked(now: int, ok: bool)
      modifies this
      ensures View() == Persisted(old(View()), now, ok)
    {
      if !ok {
        dirty := true;
        retryPersist := true;
        return;
      }
      disk := mem;
      dirty := false;
      retryPersist := false;
      if sampleDirty {
        sampleDirty := false;
        lastSamplePersistAt := Some(now);
      }
    }

    /** Recording a sample, then `persist_sample_if_due`. */
    method PersistSampleIfDue(sampled: int, now: int, ok: bool) returns (delay: Option<int>)
      modifies this
      ensures (View(), delay) == SampleDone(old(View()), sampled, now, ok)
    {
      mem := sampled;
      dirty := true;
      sampleDirty := true;
      var due := retryPersist || lastSamplePersistAt.None? || now - lastSamplePersistAt.value >= INTERVAL;
      if due {
        PersistLocked(now, ok);
        return None;
      }
      if flushScheduled {
        return None;
      }
      flushScheduled := true;
      delay := Some(Max(INTERVAL - (now - lastSamplePersistAt.value), 0));
    }

    /** Any other change, then `persist_immediately`. */
    method PersistImmediately(changed: int, now: int, ok: bool)
      modifies this
      ensures View() == ImmediateDone(old(View()), changed, now, ok)
    {
      mem := changed;
      dirty := true;
      PersistLocked(now, ok);
    }

    /** One round of `flush_when_due`, after its sleep. */
    method FlushWakes(now: int, ok: bool) returns (delay: Option<int>)
      modifies this
      ensures (View(), delay) == WakeDone(old(View()), now, ok)
    {
      if !dirty {
        flushScheduled := false;
        return None;
      }
      if lastSamplePersistAt.None? {
        flushScheduled := false;
        PersistLocked(now, ok);
        return None;
      }
      var elapsed := now - lastSamplePersistAt.value;
      if elapsed < INTERVAL {
        return Some(INTERVAL - elapsed);
      }
      flushScheduled := false;
      PersistLocked(now, ok);
      return None;
    }
  }

  function Loaded(loaded: int): Core {
    Core(loaded, loaded, false, false, false, false, None)
  }

  // ----- the handle, its flush tasks and the clock

  /**
   * `tasks` holds the wake-up times of the flush tasks alive; `oldest` is when the oldest
   * sample that is not on disk was recorded.
   */
  datatype System = System(core: Core, now: int, tasks: seq<int>, oldest: Option<int>)

  datatype Event =
    | Tick(ms: nat)
    | Sample(mem: int, ok: bool)
    | Immediate(mem: int, ok: bool)
    | Wake(task: nat, ok: bool)

  predicate CanDo(s: System, e: Event) {
    match e
    case Wake(i, _) => i < |s.tasks| && s.tasks[i] <= s.now
    case _ => true
  }

  function Spawned(tasks: seq<int>, now: int, delay: Option<int>): seq<int> {
    if delay.Some? then tasks + [now + delay.value] else tasks
  }

  /** A sample stays outstanding until a write succeeds. */
  function Outstanding(oldest: Option<int>, core: Core): Option<int> {
    if core.dirty then oldest else None
  }

  function Do(s: System, e: Event): System
    requires CanDo(s, e)
  {
    match e
    case Tick(ms) => s.(now := s.now + ms)
    case Sample(mem, ok) =>
      var (core, delay) := SampleDone(s.core, mem, s.now, ok);
      var oldest := if s.oldest.None? then Some(s.now) else s.oldest;
      System(core, s.now, Spawned(s.tasks, s.now, delay), Outstanding(oldest, core))
    case Immediate(mem, ok) =>
      var core := ImmediateDone(s.core, mem, s.now, ok);
      s.(core := core, oldest := Outstanding(s.oldest, core))
    case Wake(i, ok) =>
      var (core, delay) := WakeDone(s.core, s.now, ok);
      System(core, s.now, Spawned(s.tasks[..i] + s.tasks[i + 1..], s.now, delay), Outstanding(s.oldest, core))
  }

  predicate CanRun(s: System, es: seq<Event>)
    decreases |es|, 0
  {
    es == [] || (CanRun(s, es[..|es| - 1]) && CanDo(After(s, es[..|es| - 1]), es[|es| - 1]))
  }

  function After(s: System, es: seq<Event>): System
    requires CanRun(s, es)
    decreases |es|, 1
  {
    if es == [] then s else Do(After(s, es[..|es| - 1]), es[|es| - 1])
  }

  function Start(loaded: int, now: int): System {
    System(Loaded(loaded), now, [], None)
  }

  // ----- nothing is lost

  /**
   * What is dirty will be flushed or retried; a flush is scheduled exactly when its one task is
   * alive; what is clean is on disk; and a scheduled flush follows an earlier sample write.
   */
  predicate Inv(s: System) {
    var c := s.core;
    && (c.dirty ==> c.scheduled || c.retry)
    && |s.tasks| == (if c.scheduled then 1 else 0)
    && (!c.dirty ==> c.disk == c.mem)
    && (c.scheduled ==> c.last.Some?)
    && (c.sampleDirty <==> s.oldest.Some?) && (c.sampleDirty ==> c.dirty)
    && (c.last.Some? ==> c.last.value <= s.now)
    && (c.last.Some? && s.oldest.Some? ==> c.last.value <= s.oldest.value)
    && (s.oldest.Some? ==> s.oldest.value <= s.now)
    && (c.scheduled ==> s.tasks[0] <= c.last.value + INTERVAL)
  }

  lemma StepKeepsInv(s: System, e: Event)
    requires Inv(s) && CanDo(s, e)
    ensures Inv(Do(s, e))
  {
  }

  /** In every reachable state, whatever writes fail and however late the flush wakes up. */
  lemma {:induction false} NothingIsLost(loaded: int, now: int, es: seq<Event>)
    requires CanRun(Start(loaded, now), es)
    ensures Inv(After(Start(loaded, now), es))
    decreases |es|
  {
    if es != [] {
      NothingIsLost(loaded, now, es[..|es| - 1]);
      StepKeepsInv(After(Start(loaded, now), es[..|es| - 1]), es[|es| - 1]);
    }
  }

  /** A flush task that wakes up always finds the time of the last sample write. */
  lemma MissingLastPersistIsUnreachable(loaded: int, now: int, es: seq<Event>, task: nat, ok: bool)
    requires CanRun(Start(loaded, now), es) && CanDo(After(Start(loaded, now), es), Wake(task, ok))
    ensures After(Start(loaded, now), es).core.last.Some? && task == 0
  {
    NothingIsLost(loaded, now, es);
  }

  // ----- how long a sample waits

  /** No write fails, and time does not pass a wake-up before that flush has run. */
  predicate Prompt(s: System, e: Event) {
    match e
    case Tick(ms) => forall i :: 0 <= i < |s.tasks| ==> s.now + ms <= s.tasks[i]
    case Sample(_, ok) => ok
    case Immediate(_, ok) => ok
    case Wake(_, ok) => ok
  }

  predicate AllPrompt(s: System, es: seq<Event>)
    requires CanRun(s, es)
    decreases |es|
  {
    es == [] || (AllPrompt(s, es[..|es| - 1]) && Prompt(After(s, es[..|es| - 1]), es[|es| - 1]))
  }

  predicate OnTime(s: System) {
    && !s.core.retry && (s.core.dirty ==> s.core.sampleDirty)
    && (s.core.scheduled ==> |s.tasks| > 0 && s.now <= s.tasks[0])
  }

  lemma StepKeepsOnTime(s: System, e: Event)
    requires Inv(s) && CanDo(s, e) && OnTime(s) && Prompt(s, e)
    ensures OnTime(Do(s, e))
  {
    StepKeepsInv(s, e);
  }

  /** Unless a write fails, every sample is on disk within the interval after it was recorded. */
  lemma {:induction false} SamplesAreSoonDurable(loaded: int, now: int, es: seq<Event>)
    requires CanRun(Start(loaded, now), es) && AllPrompt(Start(loaded, now), es)
    ensures var s := After(Start(loaded, now), es);
            Inv(s) && OnTime(s) && (s.oldest.Some? ==> s.now <= s.oldest.value + INTERVAL)
    decreases |es|
  {
    NothingIsLost(loaded, now, es);
    if es != [] {
      SamplesAreSoonDurable(loaded, now, es[..|es| - 1]);
      StepKeepsOnTime(After(Start(loaded, now), es[..|es| - 1]), es[|es| - 1]);
    }
  }
}
