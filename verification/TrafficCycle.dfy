/** Traffic of the current quota cycle, accumulated from readings (src/node_history.rs). */
module TrafficCycle {
  import opened TrafficSample
  import opened TrafficSeries
  import opened Words

  datatype Mode = Monthly | Unlimited

  datatype Context = Context(mode: Mode, start: int, end: int)

  datatype Accumulator = Accumulator(context: Context, up: U64, down: U64, complete: bool, since: int)

  /** The cycle window differs from the one being accumulated. */
  predicate Resets(acc: Option<Accumulator>, c: Context) {
    acc.None? || acc.value.context.start != c.start || acc.value.context.end != c.end
  }

  /** The new cycle continues the accumulated one, so nothing of it can be missing. */
  predicate Seamless(acc: Option<Accumulator>, c: Context) {
    && acc.Some? && acc.value.context.mode == c.mode
    && (c.mode.Monthly? ==> acc.value.context.end == c.start)
  }

  function Fed(acc: Accumulator, r: Reading): Accumulator {
    if r.Missing? then acc.(complete := false)
    else acc.(up := SatAdd(acc.up, r.up), down := SatAdd(acc.down, r.down))
  }

  function CycleAfter(acc: Option<Accumulator>, context: Option<Context>, r: Reading, at: int): Option<Accumulator> {
    if context.None? then acc
    else
      var c := context.value;
      Some(Fed(if Resets(acc, c) then Accumulator(c, 0, 0, Seamless(acc, c), at) else acc.value, r))
  }

  /** `update_cycle_accumulator`. */
  method UpdateCycle(acc: Option<Accumulator>, context: Option<Context>, r: Reading, at: int)
    returns (acc': Option<Accumulator>)
    ensures acc' == CycleAfter(acc, context, r, at)
  {
    acc' := acc;
    if context.None? {
      return;
    }
    var c := context.value;
    var reset := acc.None? || acc.value.context.start != c.start || acc.value.context.end != c.end;
    var changed := acc.Some? &&
                   (acc.value.context.mode != c.mode || (c.mode.Monthly? && acc.value.context.end != c.start));
    if reset {
      acc' := Some(Accumulator(c, 0, 0, acc.Some? && !changed && r.Reading?, at));
    }
    var current := acc'.value;
    if r.Reading? {
      current := current.(up := SatAdd(current.up, r.up), down := SatAdd(current.down, r.down));
    }
    current := current.(complete := current.complete && r.Reading?);
    acc' := Some(current);
  }

  // ----- over a run of samples

  /** A sample with its cycle, if it comes with one. */
  datatype Entry = Entry(context: Option<Context>, reading: Reading, at: int)

  function Accumulated(es: seq<Entry>): Option<Accumulator> {
    if es == [] then None
    else
      var e := es[|es| - 1];
      CycleAfter(Accumulated(es[..|es| - 1]), e.context, e.reading, e.at)
  }

  /** Where the accumulator was last reset. */
  function ResetAt(es: seq<Entry>): (k: nat)
    ensures Accumulated(es).Some? ==>
              k < |es| && es[k].context.Some? && Resets(Accumulated(es[..k]), es[k].context.value)
  {
    if es == [] then 0
    else
      var rest, e := es[..|es| - 1], es[|es| - 1];
      if e.context.Some? && Resets(Accumulated(rest), e.context.value) then |es| - 1
      else
        var k := ResetAt(rest);
        assert Accumulated(rest).Some? ==> rest[..k] == es[..k];
        k
  }

  /** Readings without a cycle are not accumulated. */
  function Bytes(e: Entry, d: Direction): nat {
    if e.context.None? || e.reading.Missing? then 0 else if d.Up? then e.reading.up else e.reading.down
  }

  function BytesFrom(es: seq<Entry>, k: nat, d: Direction): nat {
    if |es| <= k then 0 else BytesFrom(es[..|es| - 1], k, d) + Bytes(es[|es| - 1], d)
  }

  predicate AllRead(es: seq<Entry>, k: nat) {
    forall i :: k <= i < |es| && es[i].context.Some? ==> es[i].reading.Reading?
  }

  predicate SameWindow(es: seq<Entry>, k: nat, c: Context) {
    forall i :: k <= i < |es| && es[i].context.Some? ==>
      es[i].context.value.start == c.start && es[i].context.value.end == c.end
  }

  /** What an accumulator says about the entries since entry `k`. */
  predicate Tells(es: seq<Entry>, k: nat, acc: Accumulator) {
    && k < |es| && es[k].context == Some(acc.context) && es[k].at == acc.since && SameWindow(es, k, acc.context)
    && acc.up == Min(BytesFrom(es, k, Up), U64_MAX) && acc.down == Min(BytesFrom(es, k, Down), U64_MAX)
    && (acc.complete <==> Seamless(Accumulated(es[..k]), acc.context) && AllRead(es, k))
  }

  /**
   * After any run, the accumulator holds the saturated sum of the readings since its window
   * began, and is complete exactly when the cycle before led into it and no reading is missing.
   */
  lemma {:induction false} AccumulatorIsExact(es: seq<Entry>)
    requires Accumulated(es).Some?
    ensures Tells(es, ResetAt(es), Accumulated(es).value)
    decreases |es|
  {
    var rest, e := es[..|es| - 1], es[|es| - 1];
    var k := ResetAt(es);
    if k < |rest| {
      AccumulatorIsExact(rest);
      OneMoreEntry(es, k, Accumulated(rest).value);
    } else {
      assert BytesFrom(rest, k, Up) == 0 && BytesFrom(rest, k, Down) == 0;
    }
  }

  lemma OneMoreEntry(es: seq<Entry>, k: nat, acc: Accumulator)
    requires es != [] && Tells(es[..|es| - 1], k, acc)
    requires es[|es| - 1].context.Some? ==> !Resets(Some(acc), es[|es| - 1].context.value)
    ensures Tells(es, k, if es[|es| - 1].context.None? then acc else Fed(acc, es[|es| - 1].reading))
  {
    var rest := es[..|es| - 1];
    assert forall i :: 0 <= i < |rest| ==> rest[i] == es[i];
    assert rest[..k] == es[..k];
  }
}
