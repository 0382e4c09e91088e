/**
 * The internal idempotency ledger: persist, then publish, with expiry, a capacity limit and
 * restarts (src/internal_idempotency.rs). Instants are nanoseconds.
 */
module Idempotency {
  import opened Words

  const SECOND: int := 1_000_000_000
  const RETENTION: int := 600 * SECOND
  const MAX_ENTRIES: nat := 16_384
  const SCHEMA_VERSION: nat := 3

  datatype StoredResult = StoredResult(status: U16, body: string)

  datatype Request = Request(senderId: string, digest: string)

  /** A stamp is `None` when its text is not a timestamp; such an entry never expires. */
  datatype EntryState =
    | Pending(at: Option<int>)
    | Complete(at: Option<int>, result: StoredResult)

  datatype Entry = Entry(request: Option<Request>, state: EntryState)

  datatype Ledger = Ledger(entries: map<string, Entry>, order: seq<string>)

  datatype Verdict = New | Existing(result: StoredResult) | InFlight | Mismatch | Full

  // ----- validation

  function Utf8Length(s: string): nat {
    if s == [] then 0
    else Utf8Length(s[1..]) +
         if s[0] as int < 0x80 then 1 else if s[0] as int < 0x800 then 2
         else if s[0] as int < 0x1_0000 then 3 else 4
  }

  predicate IsWhitespace(c: char) {
    var x := c as int;
    9 <= x <= 13 || x in {0x20, 0x85, 0xA0, 0x1680, 0x2028, 0x2029, 0x202F, 0x205F, 0x3000} ||
    0x2000 <= x <= 0x200A
  }

  predicate IsName(s: string) {
    (exists i :: 0 <= i < |s| && !IsWhitespace(s[i])) && Utf8Length(s) <= 256
  }

  predicate IsHexDigit(c: char) {
    '0' <= c <= '9' || 'a' <= c <= 'f' || 'A' <= c <= 'F'
  }

  predicate ValidRequest(r: Request) {
    && IsName(r.senderId)
    && |r.digest| == 64 && forall i :: 0 <= i < 64 ==> IsHexDigit(r.digest[i])
  }

  // ----- expiry

  /** `timestamp`: whole seconds. */
  function Stamp(now: int): Option<int> {
    Some(now - now % SECOND)
  }

  predicate Expired(e: Entry, now: int) {
    e.state.at.Some? && now - e.state.at.value > RETENTION
  }

  /** `prune`: pops every id off `order`, dropping the expired ones from both structures. */
  function Pruned(l: Ledger, now: int): Ledger
    decreases |l.order|
  {
    if l.order == [] then l
    else
      var id, rest := l.order[0], l.order[1..];
      if id in l.entries && Expired(l.entries[id], now) then
        Pruned(Ledger(l.entries - {id}, rest), now)
      else
        var r := Pruned(Ledger(l.entries, rest), now);
        Ledger(r.entries, [id] + r.order)
  }

  method Prune(l: Ledger, now: int) returns (r: Ledger)
    ensures r == Pruned(l, now)
  {
    var entries, order, retained := l.entries, l.order, [];
    while order != []
      invariant var rest := Pruned(Ledger(entries, order), now);
                Pruned(l, now) == Ledger(rest.entries, retained + rest.order)
      decreases |order|
    {
      var id := order[0];
      order := order[1..];
      if id in entries && Expired(entries[id], now) {
        entries := entries - {id};
      } else {
        retained := retained + [id];
      }
    }
    r := Ledger(entries, retained);
  }

  predicate Distinct(order: seq<string>) {
    forall i, j :: 0 <= i < j < |order| ==> order[i] != order[j]
  }

  /** `order` lists every entry exactly once. */
  ghost predicate WellFormed(l: Ledger) {
    Distinct(l.order) && forall id :: id in l.order <==> id in l.entries
  }

  function Live(entries: map<string, Entry>, now: int): map<string, Entry> {
    map id | id in entries && !Expired(entries[id], now) :: entries[id]
  }

  function Keeping(order: seq<string>, ids: set<string>): (r: seq<string>)
    ensures forall id :: id in r <==> id in order && id in ids
  {
    if order == [] then []
    else if order[0] in ids then [order[0]] + Keeping(order[1..], ids)
    else Keeping(order[1..], ids)
  }

  lemma {:induction false} KeepingOnlyReads(order: seq<string>, a: set<string>, b: set<string>)
    requires forall id :: id in order ==> (id in a <==> id in b)
    ensures Keeping(order, a) == Keeping(order, b)
  {
    if order != [] {
      KeepingOnlyReads(order[1..], a, b);
    }
  }

  lemma {:induction false} KeepingTwice(order: seq<string>, a: set<string>, b: set<string>)
    requires b <= a
    ensures Keeping(Keeping(order, a), b) == Keeping(order, b)
  {
    if order != [] {
      KeepingTwice(order[1..], a, b);
    }
  }

  lemma {:induction false} KeepingStaysDistinct(order: seq<string>, ids: set<string>)
    requires Distinct(order)
    ensures Distinct(Keeping(order, ids))
  {
    if order != [] {
      KeepingStaysDistinct(order[1..], ids);
      assert order[0] !in order[1..];
    }
  }

  /** Over a duplicate-free `order`, one pass removes exactly the expired listed entries. */
  lemma {:induction false} PrunedClosedForm(l: Ledger, now: int)
    requires Distinct(l.order)
    requires forall id :: id in l.order ==> id in l.entries
    ensures Pruned(l, now).entries ==
            map id | id in l.entries && !(id in l.order && Expired(l.entries[id], now)) :: l.entries[id]
    ensures Pruned(l, now).order == Keeping(l.order, Live(l.entries, now).Keys)
    decreases |l.order|
  {
    if l.order != [] {
      var id, rest := l.order[0], l.order[1..];
      assert l.order == [id] + rest;
      assert id !in rest;
      var without := Ledger(l.entries - {id}, rest);
      if Expired(l.entries[id], now) {
        PrunedClosedForm(without, now);
        KeepingOnlyReads(rest, Live(l.entries, now).Keys, Live(without.entries, now).Keys);
      } else {
        PrunedClosedForm(Ledger(l.entries, rest), now);
      }
    }
  }

  lemma PruneOfWellFormed(l: Ledger, now: int)
    requires WellFormed(l)
    ensures Pruned(l, now) == Ledger(Live(l.entries, now), Keeping(l.order, Live(l.entries, now).Keys))
    ensures WellFormed(Pruned(l, now))
  {
    PrunedClosedForm(l, now);
    KeepingStaysDistinct(l.order, Live(l.entries, now).Keys);
  }

  lemma LiveTwice(entries: map<string, Entry>, t1: int, t2: int)
    requires t1 <= t2
    ensures Live(Live(entries, t1), t2) == Live(entries, t2)
  {
  }

  /** An earlier prune leaves no trace in a later one. */
  lemma PruneTwice(l: Ledger, t1: int, t2: int)
    requires WellFormed(l) && t1 <= t2
    ensures Pruned(Pruned(l, t1), t2) == Pruned(l, t2)
  {
    PruneOfWellFormed(l, t1);
    PruneOfWellFormed(Pruned(l, t1), t2);
    PruneOfWellFormed(l, t2);
    LiveTwice(l.entries, t1, t2);
    KeepingTwice(l.order, Live(l.entries, t1).Keys, Live(l.entries, t2).Keys);
  }

  // ----- the two operations on a pruned copy

  function Answer(entries: map<string, Entry>, id: string, req: Request): Verdict {
    if id in entries then
      if entries[id].request != Some(req) then Mismatch
      else if entries[id].state.Pending? then InFlight
      else Existing(entries[id].state.result)
    else if |entries| >= MAX_ENTRIES then Full
    else New
  }

  predicate CanFinish(entries: map<string, Entry>, id: string, req: Request) {
    if id in entries then entries[id].request == Some(req) else |entries| < MAX_ENTRIES
  }

  function PendingEntry(req: Request, now: int): Entry {
    Entry(Some(req), Pending(Stamp(now)))
  }

  function CompleteEntry(req: Request, now: int, result: StoredResult): Entry {
    Entry(Some(req), Complete(Stamp(now), result))
  }

  function Inserted(l: Ledger, id: string, e: Entry): Ledger {
    Ledger(l.entries[id := e], if id in l.order then l.order else l.order + [id])
  }

  datatype Outcome = Verdict(verdict: Verdict) | Done | Error

  class InternalIdempotencyLedger {
    var state: Ledger
    var disk: Ledger

    constructor (file: Ledger, now: int)
      ensures disk == file && state == Pruned(file, now)
    {
      disk := file;
      new;
      state := Prune(file, now);
    }

    /** `pruneAt` and `stampAt` are the two clock readings; `persisted` is the file write. */
    method Begin(id: string, req: Request, pruneAt: int, stampAt: int, persisted: bool)
      returns (r: Outcome)
      modifies this
      ensures (Node(state, disk), r) ==
              BeginStep(Node(old(state), old(disk)), id, req, pruneAt, stampAt, persisted)
    {
      if !IsName(id) || !ValidRequest(req) {
        return Error;
      }
      var next := Prune(state, pruneAt);
      if id in next.entries {
        var entry := next.entries[id];
        if entry.request != Some(req) {
          return Outcome.Verdict(Mismatch);
        }
        match entry.state
        case Pending(_) => return Outcome.Verdict(InFlight);
        case Complete(_, result) => return Outcome.Verdict(Existing(result));
      }
      if |next.entries| >= MAX_ENTRIES {
        return Outcome.Verdict(Full);
      }
      next := Ledger(next.entries[id := PendingEntry(req, stampAt)], next.order + [id]);
      if !persisted {
        return Error;
      }
      disk := next;
      state := next;
      r := Outcome.Verdict(New);
    }

    method Finish(id: string, req: Request, result: StoredResult, pruneAt: int, stampAt: int,
                  persisted: bool)
      returns (r: Outcome)
      modifies this
      ensures (Node(state, disk), r) ==
              FinishStep(Node(old(state), old(disk)), id, req, result, pruneAt, stampAt, persisted)
    {
      if !ValidRequest(req) {
        return Error;
      }
      var next := Prune(state, pruneAt);
      if id in next.entries && next.entries[id].request != Some(req) {
        return Error;
      }
      if id !in next.entries && |next.entries| >= MAX_ENTRIES {
        return Error;
      }
      var order := next.order;
      if id !in order {
        order := order + [id];
      }
      next := Ledger(next.entries[id := CompleteEntry(req, stampAt, result)], order);
      if !persisted {
        return Error;
      }
      disk := next;
      state := next;
      r := Done;
    }
  }

  // ----- whole runs

  /** What is published in memory and what the file holds. */
  datatype Node = Node(mem: Ledger, disk: Ledger)

  /**
   * A begin that finds no entry appends to `order` unconditionally. `Inserted` agrees with
   * that because a pruned well-formed ledger lists no id without an entry.
   */
  function BeginStep(n: Node, id: string, req: Request, pruneAt: int, stampAt: int, persisted: bool)
    : (Node, Outcome)
  {
    if !IsName(id) || !ValidRequest(req) then (n, Error)
    else
      var next := Pruned(n.mem, pruneAt);
      var v := Answer(next.entries, id, req);
      if v != New then (n, Outcome.Verdict(v))
      else if !persisted then (n, Error)
      else
        var l := Ledger(next.entries[id := PendingEntry(req, stampAt)], next.order + [id]);
        (Node(l, l), Outcome.Verdict(New))
  }

  function FinishStep(n: Node, id: string, req: Request, result: StoredResult, pruneAt: int,
                      stampAt: int, persisted: bool): (Node, Outcome)
  {
    var next := Pruned(n.mem, pruneAt);
    if !ValidRequest(req) || !CanFinish(next.entries, id, req) || !persisted then (n, Error)
    else
      var l := Inserted(next, id, CompleteEntry(req, stampAt, result));
      (Node(l, l), Done)
  }

  datatype Event =
    | Begin(id: string, req: Request, pruneAt: int, stampAt: int, persisted: bool)
    | Finish(id: string, req: Request, result: StoredResult, pruneAt: int, stampAt: int, persisted: bool)
    | Reload(pruneAt: int, stampAt: int)

  function Step(n: Node, e: Event): (Node, Outcome) {
    match e
    case Begin(id, req, t1, t2, ok) => BeginStep(n, id, req, t1, t2, ok)
    case Finish(id, req, result, t1, t2, ok) => FinishStep(n, id, req, result, t1, t2, ok)
    case Reload(t, _) => (Node(Pruned(n.disk, t), n.disk), Done)
  }

  /** The clock never goes back. */
  predicate Timed(clock: int, es: seq<Event>)
    decreases |es|
  {
    es == [] ||
    (clock <= es[0].pruneAt <= es[0].stampAt && Timed(es[0].stampAt, es[1..]))
  }

  function Outcomes(n: Node, es: seq<Event>): (r: seq<Outcome>)
    ensures |r| == |es|
    decreases |es|
  {
    if es == [] then [] else [Step(n, es[0]).1] + Outcomes(Step(n, es[0]).0, es[1..])
  }

  function After(n: Node, es: seq<Event>): Node
    decreases |es|
  {
    if es == [] then n else After(Step(n, es[0]).0, es[1..])
  }

  // ----- the reference: a book that is never pruned, never reloaded and never crashes

  function BookStep(book: map<string, Entry>, e: Event): (map<string, Entry>, Outcome) {
    match e
    case Begin(id, req, t1, t2, ok) =>
      if !IsName(id) || !ValidRequest(req) then (book, Error)
      else
        var v := Answer(Live(book, t1), id, req);
        if v != New then (book, Outcome.Verdict(v))
        else if !ok then (book, Error)
        else (book[id := PendingEntry(req, t2)], Outcome.Verdict(New))
    case Finish(id, req, result, t1, t2, ok) =>
      if !ValidRequest(req) || !CanFinish(Live(book, t1), id, req) || !ok then (book, Error)
      else (book[id := CompleteEntry(req, t2, result)], Done)
    case Reload(_, _) => (book, Done)
  }

  function BookOutcomes(book: map<string, Entry>, es: seq<Event>): (r: seq<Outcome>)
    ensures |r| == |es|
    decreases |es|
  {
    if es == [] then [] else [BookStep(book, es[0]).1] + BookOutcomes(BookStep(book, es[0]).0, es[1..])
  }

  function BookAfter(book: map<string, Entry>, es: seq<Event>): map<string, Entry>
    decreases |es|
  {
    if es == [] then book else BookAfter(BookStep(book, es[0]).0, es[1..])
  }

  function EndTime(clock: int, es: seq<Event>): int
    decreases |es|
  {
    if es == [] then clock else EndTime(es[0].stampAt, es[1..])
  }

  /** Memory and file agree with the book on everything that has not expired. */
  ghost predicate Agrees(n: Node, book: map<string, Entry>, clock: int) {
    && WellFormed(n.mem) && WellFormed(n.disk)
    && Live(n.mem.entries, clock) == Live(book, clock) == Live(n.disk.entries, clock)
  }

  lemma AgreesLater(n: Node, book: map<string, Entry>, clock: int, later: int)
    requires Agrees(n, book, clock) && clock <= later
    ensures Agrees(n, book, later)
  {
    LiveTwice(n.mem.entries, clock, later);
    LiveTwice(n.disk.entries, clock, later);
    LiveTwice(book, clock, later);
  }

  lemma InsertedAgrees(l: Ledger, book: map<string, Entry>, id: string, e: Entry, t1: int, t2: int)
    requires WellFormed(l) && l.entries == Live(book, t1) && t1 <= t2
    ensures var l' := Inserted(l, id, e);
            WellFormed(l') && Live(l'.entries, t2) == Live(book[id := e], t2)
  {
    var l' := Inserted(l, id, e);
    var book' := book[id := e];
    assert l'.order[..|l.order|] == l.order;
    assert forall k :: k in Live(l'.entries, t2) <==> k in Live(book', t2);
  }

  lemma InsertedAtEnd(l: Ledger, id: string, e: Entry)
    requires WellFormed(l) && id !in l.entries
    ensures Inserted(l, id, e) == Ledger(l.entries[id := e], l.order + [id])
  {
  }

  lemma PrunedMemory(n: Node, book: map<string, Entry>, clock: int, at: int)
    requires Agrees(n, book, clock) && clock <= at
    ensures WellFormed(Pruned(n.mem, at)) && Pruned(n.mem, at).entries == Live(book, at)
  {
    AgreesLater(n, book, clock, at);
    PruneOfWellFormed(n.mem, at);
  }

  lemma ReloadRefines(n: Node, book: map<string, Entry>, t1: int, t2: int, clock: int)
    requires Agrees(n, book, clock) && clock <= t1 <= t2
    ensures Agrees(Node(Pruned(n.disk, t1), n.disk), book, t2)
  {
    AgreesLater(n, book, clock, t1);
    PruneOfWellFormed(n.disk, t1);
    AgreesLater(Node(Pruned(n.disk, t1), n.disk), book, t1, t2);
  }

  lemma BeginRefines(n: Node, book: map<string, Entry>, e: Event, clock: int)
    requires e.Begin? && Agrees(n, book, clock) && clock <= e.pruneAt <= e.stampAt
    ensures Step(n, e).1 == BookStep(book, e).1
    ensures Agrees(Step(n, e).0, BookStep(book, e).0, e.stampAt)
  {
    AgreesLater(n, book, clock, e.stampAt);
    PrunedMemory(n, book, clock, e.pruneAt);
    var next, entry := Pruned(n.mem, e.pruneAt), PendingEntry(e.req, e.stampAt);
    if IsName(e.id) && ValidRequest(e.req) && Answer(next.entries, e.id, e.req) == New && e.persisted {
      InsertedAtEnd(next, e.id, entry);
      InsertedAgrees(next, book, e.id, entry, e.pruneAt, e.stampAt);
    }
  }

  lemma FinishRefines(n: Node, book: map<string, Entry>, e: Event, clock: int)
    requires e.Finish? && Agrees(n, book, clock) && clock <= e.pruneAt <= e.stampAt
    ensures Step(n, e).1 == BookStep(book, e).1
    ensures Agrees(Step(n, e).0, BookStep(book, e).0, e.stampAt)
  {
    AgreesLater(n, book, clock, e.stampAt);
    PrunedMemory(n, book, clock, e.pruneAt);
    var next, entry := Pruned(n.mem, e.pruneAt), CompleteEntry(e.req, e.stampAt, e.result);
    InsertedAgrees(next, book, e.id, entry, e.pruneAt, e.stampAt);
  }

  lemma StepRefines(n: Node, book: map<string, Entry>, e: Event, clock: int)
    requires Agrees(n, book, clock) && clock <= e.pruneAt <= e.stampAt
    ensures Step(n, e).1 == BookStep(book, e).1
    ensures Agrees(Step(n, e).0, BookStep(book, e).0, e.stampAt)
  {
    match e
    case Begin(_, _, _, _, _) => BeginRefines(n, book, e, clock);
    case Finish(_, _, _, _, _, _) => FinishRefines(n, book, e, clock);
    case Reload(t1, t2) => ReloadRefines(n, book, t1, t2, clock);
  }

  /**
   * Over every run of begins, finishes, failed writes and crash-reloads with a clock that does
   * not go back, the ledger answers exactly like the book, and never loses a live entry.
   */
  lemma {:induction false} LedgerRefinesBook(n: Node, book: map<string, Entry>, es: seq<Event>, clock: int)
    requires Agrees(n, book, clock) && Timed(clock, es)
    ensures Outcomes(n, es) == BookOutcomes(book, es)
    ensures Agrees(After(n, es), BookAfter(book, es), EndTime(clock, es))
    decreases |es|
  {
    if es != [] {
      var r, b := Step(n, es[0]), BookStep(book, es[0]);
      assert r.1 == b.1 && Agrees(r.0, b.0, es[0].stampAt) by {
        StepRefines(n, book, es[0], clock);
      }
      LedgerRefinesBook(r.0, b.0, es[1..], es[0].stampAt);
    }
  }

  // ----- consequences

  predicate Stores(e: Event, o: Outcome, id: string) {
    !e.Reload? && e.id == id && (o == Outcome.Verdict(New) || (e.Finish? && o == Done))
  }

  function StoredEntry(e: Event): Entry
    requires !e.Reload?
  {
    if e.Begin? then PendingEntry(e.req, e.stampAt) else CompleteEntry(e.req, e.stampAt, e.result)
  }

  lemma BookOutcomesTail(book: map<string, Entry>, es: seq<Event>, m: nat)
    requires m + 1 < |es|
    ensures BookOutcomes(BookStep(book, es[0]).0, es[1..])[m] == BookOutcomes(book, es)[m + 1]
  {
  }

  lemma {:induction false} BookKeepsUnstored(book: map<string, Entry>, es: seq<Event>, id: string)
    requires id in book
    requires forall m :: 0 <= m < |es| ==> !Stores(es[m], BookOutcomes(book, es)[m], id)
    ensures id in BookAfter(book, es) && BookAfter(book, es)[id] == book[id]
    decreases |es|
  {
    if es != [] {
      var b := BookStep(book, es[0]);
      assert b.1 == BookOutcomes(book, es)[0];
      assert id in b.0 && b.0[id] == book[id];
      forall m | 0 <= m < |es[1..]|
        ensures !Stores(es[1..][m], BookOutcomes(b.0, es[1..])[m], id)
      {
        BookOutcomesTail(book, es, m);
      }
      BookKeepsUnstored(b.0, es[1..], id);
    }
  }

  lemma {:induction false} BookKeepsLastStore(book: map<string, Entry>, es: seq<Event>, k: nat)
    requires k < |es| && !es[k].Reload? && Stores(es[k], BookOutcomes(book, es)[k], es[k].id)
    requires forall m :: k < m < |es| ==> !Stores(es[m], BookOutcomes(book, es)[m], es[k].id)
    ensures es[k].id in BookAfter(book, es)
    ensures BookAfter(book, es)[es[k].id] == StoredEntry(es[k])
    decreases |es|
  {
    var b := BookStep(book, es[0]);
    forall m | 0 <= m < |es[1..]|
      ensures BookOutcomes(b.0, es[1..])[m] == BookOutcomes(book, es)[m + 1]
    {
      BookOutcomesTail(book, es, m);
    }
    if k == 0 {
      BookKeepsUnstored(b.0, es[1..], es[0].id);
    } else {
      BookKeepsLastStore(b.0, es[1..], k - 1);
    }
  }

  lemma {:induction false} OutcomeAt(n: Node, es: seq<Event>, j: nat)
    requires j < |es|
    ensures Outcomes(n, es)[j] == Step(After(n, es[..j]), es[j]).1
    ensures Outcomes(n, es)[..j] == Outcomes(n, es[..j])
    decreases |es|
  {
    if j > 0 {
      OutcomeAt(Step(n, es[0]).0, es[1..], j - 1);
      assert es[..j][1..] == es[1..][..j - 1];
    }
  }

  lemma {:induction false} TimedPrefix(clock: int, es: seq<Event>, j: nat)
    requires Timed(clock, es) && j < |es|
    ensures Timed(clock, es[..j])
    ensures EndTime(clock, es[..j]) <= es[j].pruneAt <= es[j].stampAt
    decreases |es|
  {
    if j > 0 {
      TimedPrefix(es[0].stampAt, es[1..], j - 1);
      assert es[..j][1..] == es[1..][..j - 1];
    }
  }

  /**
   * The answer to a begin at position `j` when `k` is the last earlier event that stored its
   * id: the stored entry while it is within retention, a fresh start only afterwards.
   */
  lemma AnswerFollowsLastStore(n: Node, es: seq<Event>, clock: int, k: nat, j: nat)
    requires Agrees(n, n.disk.entries, clock) && Timed(clock, es)
    requires k < j < |es| && es[j].Begin? && !es[k].Reload? && es[j].id == es[k].id
    requires IsName(es[j].id) && ValidRequest(es[j].req)
    requires Stores(es[k], Outcomes(n, es)[k], es[j].id)
    requires forall m :: k < m < j ==> !Stores(es[m], Outcomes(n, es)[m], es[j].id)
    ensures var age := es[j].pruneAt - StoredEntry(es[k]).state.at.value;
            var o := Outcomes(n, es)[j];
            && (age <= RETENTION && es[j].req != es[k].req ==> o == Outcome.Verdict(Mismatch))
            && (age <= RETENTION && es[j].req == es[k].req && es[k].Begin? ==>
                  o == Outcome.Verdict(InFlight))
            && (age <= RETENTION && es[j].req == es[k].req && es[k].Finish? ==>
                  o == Outcome.Verdict(Existing(es[k].result)))
            && (age > RETENTION <==> o == Outcome.Verdict(New) || o == Outcome.Verdict(Full) || o == Error)
  {
    var book, before := n.disk.entries, es[..j];
    TimedPrefix(clock, es, j);
    OutcomeAt(n, es, j);
    LedgerRefinesBook(n, book, before, clock);
    var outs := Outcomes(n, before);
    assert forall m :: 0 <= m < j ==> outs[m] == Outcomes(n, es)[m] && before[m] == es[m];
    BookKeepsLastStore(book, before, k);
    StepRefines(After(n, before), BookAfter(book, before), es[j], EndTime(clock, before));
  }

  /** Removes the crash-reloads from a run. */
  function WithoutReloads(es: seq<Event>): seq<Event> {
    if es == [] then []
    else if es[0].Reload? then WithoutReloads(es[1..])
    else [es[0]] + WithoutReloads(es[1..])
  }

  function Answers(es: seq<Event>, outs: seq<Outcome>): seq<Outcome>
    requires |es| == |outs|
  {
    if es == [] then []
    else if es[0].Reload? then Answers(es[1..], outs[1..])
    else [outs[0]] + Answers(es[1..], outs[1..])
  }

  lemma {:induction false} BookIgnoresReloads(book: map<string, Entry>, es: seq<Event>)
    ensures Answers(es, BookOutcomes(book, es)) == BookOutcomes(book, WithoutReloads(es))
    decreases |es|
  {
    if es != [] {
      BookIgnoresReloads(BookStep(book, es[0]).0, es[1..]);
      assert BookOutcomes(book, es)[1..] == BookOutcomes(BookStep(book, es[0]).0, es[1..]);
      if !es[0].Reload? {
        assert WithoutReloads(es)[0] == es[0] && WithoutReloads(es)[1..] == WithoutReloads(es[1..]);
      }
    }
  }

  lemma {:induction false} TimedWithoutReloads(clock: int, es: seq<Event>, later: int)
    requires Timed(later, es) && clock <= later
    ensures Timed(clock, WithoutReloads(es))
    decreases |es|
  {
    if es != [] {
      TimedWithoutReloads(if es[0].Reload? then clock else es[0].stampAt, es[1..], es[0].stampAt);
      if !es[0].Reload? {
        assert WithoutReloads(es)[0] == es[0] && WithoutReloads(es)[1..] == WithoutReloads(es[1..]);
      }
    }
  }

  /** Crashing and reloading anywhere in a run changes no later answer. */
  lemma ReloadsAreInvisible(n: Node, es: seq<Event>, clock: int)
    requires Agrees(n, n.disk.entries, clock) && Timed(clock, es)
    ensures Answers(es, Outcomes(n, es)) == Outcomes(n, WithoutReloads(es))
  {
    LedgerRefinesBook(n, n.disk.entries, es, clock);
    TimedWithoutReloads(clock, es, clock);
    LedgerRefinesBook(n, n.disk.entries, WithoutReloads(es), clock);
    BookIgnoresReloads(n.disk.entries, es);
  }

  // ----- loading older files

  datatype LoadResult = Loaded(ledger: Ledger) | SchemaMismatch

  /** A schema 2 digest does not bind its id to a request, so loading drops it. */
  function Blanked(file: Ledger): Ledger {
    Ledger(map id | id in file.entries :: file.entries[id].(request := None), file.order)
  }

  function Load(schema: nat, file: Ledger, now: int): LoadResult {
    if schema !in {1, 2, SCHEMA_VERSION} then SchemaMismatch
    else if schema == 2 then Loaded(Pruned(Blanked(file), now))
    else Loaded(Pruned(file, now))
  }

  /** The loop that drops every entry's request. */
  method Blank(file: Ledger) returns (r: Ledger)
    ensures r == Blanked(file)
  {
    var entries, left := file.entries, file.entries.Keys;
    while left != {}
      invariant entries.Keys == file.entries.Keys && left <= entries.Keys
      invariant forall id :: id in left ==> entries[id] == file.entries[id]
      invariant forall id :: id in entries.Keys - left ==> entries[id] == file.entries[id].(request := None)
      decreases |left|
    {
      var id :| id in left;
      entries := entries[id := entries[id].(request := None)];
      left := left - {id};
    }
    r := Ledger(entries, file.order);
    assert r.entries == Blanked(file).entries;
  }

  /** `load`: null when the file's schema is not one this version reads. */
  method Open(schema: nat, file: Ledger, now: int) returns (l: InternalIdempotencyLedger?)
    ensures l == null <==> Load(schema, file, now).SchemaMismatch?
    ensures l != null ==> fresh(l) && l.state == Load(schema, file, now).ledger
    ensures l != null ==> l.disk == if schema == 2 then Blanked(file) else file
  {
    if schema != 1 && schema != 2 && schema != SCHEMA_VERSION {
      return null;
    }
    var readable := file;
    if schema == 2 {
      readable := Blank(file);
    }
    l := new InternalIdempotencyLedger(readable, now);
  }

  predicate Refused(e: Event, o: Outcome) {
    if e.Begin? && IsName(e.id) && ValidRequest(e.req) then o == Outcome.Verdict(Mismatch)
    else o == Error
  }

  /** An entry bound to no request refuses its id as long as it has not expired. */
  lemma UnboundRefuses(book: map<string, Entry>, e: Event)
    requires !e.Reload? && e.id in book && book[e.id].request.None? && !Expired(book[e.id], e.pruneAt)
    ensures Refused(e, BookStep(book, e).1) && BookStep(book, e).0 == book
  {
    assert e.id in Live(book, e.pruneAt);
  }

  lemma {:induction false} UnboundStays(book: map<string, Entry>, es: seq<Event>, clock: int, id: string)
    requires Timed(clock, es) && id in book && book[id].request.None?
    requires !Expired(book[id], EndTime(clock, es))
    ensures id in BookAfter(book, es) && BookAfter(book, es)[id] == book[id]
    decreases |es|
  {
    if es != [] {
      TimePasses(es[0].stampAt, es[1..]);
      if !es[0].Reload? && es[0].id == id {
        UnboundRefuses(book, es[0]);
      }
      UnboundStays(BookStep(book, es[0]).0, es[1..], es[0].stampAt, id);
    }
  }

  lemma {:induction false} TimePasses(clock: int, es: seq<Event>)
    requires Timed(clock, es)
    ensures clock <= EndTime(clock, es)
    decreases |es|
  {
    if es != [] {
      TimePasses(es[0].stampAt, es[1..]);
    }
  }

  /**
   * Over every run, an id whose entry is bound to no request is refused by every begin and
   * finish until the entry expires: retries, restarts and other ids' stores do not free it.
   */
  lemma UnboundIsRefusedWhileLive(n: Node, es: seq<Event>, clock: int, j: nat)
    requires Agrees(n, n.disk.entries, clock) && Timed(clock, es)
    requires j < |es| && !es[j].Reload? && es[j].id in n.disk.entries
    requires n.disk.entries[es[j].id].request.None?
    requires !Expired(n.disk.entries[es[j].id], es[j].pruneAt)
    ensures Refused(es[j], Outcomes(n, es)[j])
  {
    var book, before := n.disk.entries, es[..j];
    TimedPrefix(clock, es, j);
    OutcomeAt(n, es, j);
    LedgerRefinesBook(n, book, before, clock);
    UnboundStays(book, before, clock, es[j].id);
    StepRefines(After(n, before), BookAfter(book, before), es[j], EndTime(clock, before));
    UnboundRefuses(BookAfter(book, before), es[j]);
  }

  lemma BlankedStart(file: Ledger, now: int)
    requires WellFormed(file)
    ensures Agrees(Node(Load(2, file, now).ledger, Blanked(file)), Blanked(file).entries, now)
  {
    assert WellFormed(Blanked(file));
    PruneOfWellFormed(Blanked(file), now);
  }

  /**
   * A schema 2 file fails closed: in every run from its loading, restarts included, each of its
   * ids is refused until it expires. The file is the blanked one, since every load blanks it.
   */
  lemma SchemaTwoFailsClosed(file: Ledger, now: int, es: seq<Event>, j: nat)
    requires WellFormed(file) && Timed(now, es)
    requires j < |es| && !es[j].Reload? && es[j].id in file.entries
    requires !Expired(file.entries[es[j].id], es[j].pruneAt)
    ensures Refused(es[j], Outcomes(Node(Load(2, file, now).ledger, Blanked(file)), es)[j])
  {
    BlankedStart(file, now);
    UnboundIsRefusedWhileLive(Node(Load(2, file, now).ledger, Blanked(file)), es, now, j);
  }
}
