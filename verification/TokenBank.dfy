/**
 * Spending from a bank under a credit-then-cap rule, for any daily credits and caps:
 * the earliest-first replay and every other schedule it competes with.
 */
module TokenBank {
  import opened Words

  datatype Rule = Rule(credit: nat -> U64, cap: nat -> U64)

  /** Add the day's credit, then clamp to the day's cap. */
  function Rolled(r: Rule, bank: U64, day: nat): U64 {
    Min(SatAdd(bank, r.credit(day)), r.cap(day))
  }

  /** Rolling over days `lo`, ..., `hi - 1` with no spending. */
  function RollDays(r: Rule, bank: U64, lo: nat, hi: nat): U64
    decreases hi
  {
    if hi <= lo then bank else Rolled(r, RollDays(r, bank, lo, hi - 1), hi - 1)
  }

  datatype Tally = Tally(bank: U64, remaining: U64)

  /** Roll over, then spend as much as the bank allows. */
  function ReplayDay(r: Rule, t: Tally, day: nat): Tally {
    var bank := Rolled(r, t.bank, day);
    var today := Min(t.remaining, bank);
    Tally(bank - today, t.remaining - today)
  }

  function ReplayDays(r: Rule, t: Tally, lo: nat, hi: nat): Tally
    decreases hi
  {
    if hi <= lo then t else ReplayDay(r, ReplayDays(r, t, lo, hi - 1), hi - 1)
  }

  // ----- schedules

  function Sum(s: seq<nat>): nat {
    if s == [] then 0 else Sum(s[..|s| - 1]) + s[|s| - 1]
  }

  /** Day `lo + i` spends `s[i]`, never more than its bank after rollover and cap. */
  predicate Feasible(r: Rule, bank: U64, s: seq<nat>, lo: nat)
    decreases |s|, 0
  {
    s == [] ||
    (Feasible(r, bank, s[..|s| - 1], lo) &&
     s[|s| - 1] <= Rolled(r, BankAfter(r, bank, s[..|s| - 1], lo), lo + |s| - 1))
  }

  function BankAfter(r: Rule, bank: U64, s: seq<nat>, lo: nat): U64
    requires Feasible(r, bank, s, lo)
    decreases |s|, 1
  {
    if s == [] then bank
    else Rolled(r, BankAfter(r, bank, s[..|s| - 1], lo), lo + |s| - 1) - s[|s| - 1]
  }

  /** The exchange invariant: greedy is ahead in spending and in bank plus spending. */
  lemma {:induction false} GreedyStaysAhead(r: Rule, bank: U64, spend: U64, s: seq<nat>, lo: nat)
    requires Feasible(r, bank, s, lo) && Sum(s) <= spend
    ensures var t := ReplayDays(r, Tally(bank, spend), lo, lo + |s|);
            && Sum(s) <= spend - t.remaining
            && t.bank + (spend - t.remaining) >= BankAfter(r, bank, s, lo) + Sum(s)
  {
    if s != [] {
      GreedyStaysAhead(r, bank, spend, s[..|s| - 1], lo);
    }
  }

  /** What replay spends each day. */
  function GreedySchedule(r: Rule, t: Tally, lo: nat, hi: nat): seq<nat>
    decreases hi
  {
    if hi <= lo then []
    else
      var before := ReplayDays(r, t, lo, hi - 1);
      GreedySchedule(r, t, lo, hi - 1) + [Min(before.remaining, Rolled(r, before.bank, hi - 1))]
  }

  lemma {:induction false} GreedyIsFeasible(r: Rule, t: Tally, lo: nat, hi: nat, s: seq<nat>)
    requires lo <= hi && s == GreedySchedule(r, t, lo, hi)
    ensures |s| == hi - lo
    ensures Feasible(r, t.bank, s, lo)
    ensures BankAfter(r, t.bank, s, lo) == ReplayDays(r, t, lo, hi).bank
    ensures Sum(s) == t.remaining - ReplayDays(r, t, lo, hi).remaining
    decreases hi
  {
    if lo < hi {
      var rest := GreedySchedule(r, t, lo, hi - 1);
      GreedyIsFeasible(r, t, lo, hi - 1, rest);
      assert s[..|s| - 1] == rest;
    }
  }

  /** The schedule covers days `lo`, ..., `lo + n - 1` and spends everything. */
  predicate Clears(r: Rule, bank: U64, spend: U64, lo: nat, n: nat, s: seq<nat>) {
    |s| == n && Feasible(r, bank, s, lo) && Sum(s) == spend
  }

  lemma NothingLeftIfFeasible(r: Rule, bank: U64, spend: U64, lo: nat, hi: nat, s: seq<nat>)
    requires lo <= hi && Clears(r, bank, spend, lo, hi - lo, s)
    ensures ReplayDays(r, Tally(bank, spend), lo, hi).remaining == 0
  {
    assert hi == lo + |s|;
    GreedyStaysAhead(r, bank, spend, s, lo);
  }

  lemma ClearingSchedule(r: Rule, bank: U64, spend: U64, lo: nat, hi: nat) returns (s: seq<nat>)
    requires lo <= hi && ReplayDays(r, Tally(bank, spend), lo, hi).remaining == 0
    ensures Clears(r, bank, spend, lo, hi - lo, s)
  {
    s := GreedySchedule(r, Tally(bank, spend), lo, hi);
    GreedyIsFeasible(r, Tally(bank, spend), lo, hi, s);
  }

  /** Earliest-first finds a clearing schedule exactly when there is one. */
  lemma GreedyClearsIffFeasible(r: Rule, bank: U64, spend: U64, lo: nat, n: nat)
    ensures ReplayDays(r, Tally(bank, spend), lo, lo + n).remaining == 0 <==>
            exists s: seq<nat> :: Clears(r, bank, spend, lo, n, s)
  {
    var hi := lo + n;
    if s: seq<nat> :| Clears(r, bank, spend, lo, n, s) {
      NothingLeftIfFeasible(r, bank, spend, lo, hi, s);
    }
    if ReplayDays(r, Tally(bank, spend), lo, hi).remaining == 0 {
      var s := ClearingSchedule(r, bank, spend, lo, hi);
    }
  }

  // ----- composition

  lemma {:induction false} ReplayDaysCompose(r: Rule, t: Tally, lo: nat, mid: nat, hi: nat)
    requires lo <= mid <= hi
    ensures ReplayDays(r, ReplayDays(r, t, lo, mid), mid, hi) == ReplayDays(r, t, lo, hi)
    decreases hi
  {
    if mid < hi {
      ReplayDaysCompose(r, t, lo, mid, hi - 1);
    }
  }

  lemma {:induction false} IdleReplayRolls(r: Rule, bank: U64, lo: nat, hi: nat)
    ensures ReplayDays(r, Tally(bank, 0), lo, hi) == Tally(RollDays(r, bank, lo, hi), 0)
    decreases hi
  {
    if lo < hi {
      IdleReplayRolls(r, bank, lo, hi - 1);
    }
  }
}
