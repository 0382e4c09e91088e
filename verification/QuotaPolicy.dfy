/**
 * Daily quota credits, the carry cap and the replay of missed days
 * (src/quota_policy.rs).
 */
module QuotaPolicy {
  import opened Arith
  import opened TokenBank
  import opened Words

  /** The three settings every function of the file takes. */
  datatype Plan = Plan(base: U64, cycleDays: U32, carryDays: U32)

  // ----- credits and caps

  function DailyCreditBytes(p: Plan, day: nat): (r: U64)
  {
    if p.cycleDays == 0 then 0
    else
      QuotientBelow(p.base, p.cycleDays);
      p.base / p.cycleDays + if day < p.base % p.cycleDays then 1 else 0
  }

  lemma QuotientBelow(a: nat, b: nat)
    requires b > 0
    ensures a / b <= a
    ensures a % b > 0 ==> a / b + 1 <= a
  {
    DivModIdentity(a, b);
    MulMonotone(1, b, a / b);
  }

  /** Exact (unsaturated) sum of the credits of days `lo`, ..., `hi - 1`. */
  function CreditSum(p: Plan, lo: nat, hi: nat): nat
    decreases hi
  {
    if hi <= lo then 0 else CreditSum(p, lo, hi - 1) + DailyCreditBytes(p, hi - 1)
  }

  function CapStart(p: Plan, day: nat): nat {
    Max(day - Max(p.carryDays - 1, 0), 0)
  }

  /** The cap is the credit of the last `carryDays` days, cut off at the word size. */
  function Cap(p: Plan, day: nat): U64 {
    if p.carryDays == 0 || p.cycleDays == 0 then 0
    else Min(U64_MAX, CreditSum(p, CapStart(p, day), day + 1))
  }

  method CapBytesForDay(p: Plan, day: U32) returns (sum: U64)
    ensures sum == Cap(p, day)
  {
    if p.carryDays == 0 || p.cycleDays == 0 {
      return 0;
    }
    var start := CapStart(p, day);
    sum := 0;
    var i := start;
    while i <= day
      invariant start <= i <= day + 1
      invariant sum == Min(U64_MAX, CreditSum(p, start, i))
    {
      sum := SatAdd(sum, DailyCreditBytes(p, i));
      i := i + 1;
    }
  }

  /** Today's credit, clamped to the cap; the second component is the overflow. */
  function ApplyDailyRollover(p: Plan, bank: U64, day: nat): (U64, U64) {
    var next := SatAdd(bank, DailyCreditBytes(p, day));
    if next > Cap(p, day) then (Cap(p, day), next - Cap(p, day)) else (next, 0)
  }

  /** The plan's credits and caps, day by day. */
  function RuleOf(p: Plan): Rule {
    Rule((day: nat) => DailyCreditBytes(p, day), (day: nat) => Cap(p, day))
  }

  /** The bank after `ApplyDailyRollover` is the credit-then-cap rule. */
  lemma RolloverFollowsRule(p: Plan, bank: U64, day: nat)
    ensures ApplyDailyRollover(p, bank, day).0 == Rolled(RuleOf(p), bank, day)
  {
  }

  // ----- replay

  predicate Skipped(p: Plan, dayStart: nat, dayEnd: nat) {
    p.cycleDays == 0 || p.carryDays == 0 || dayStart > dayEnd
  }

  function Replay(p: Plan, bank: U64, spend: U64, dayStart: nat, dayEnd: nat): Tally {
    if Skipped(p, dayStart, dayEnd) then Tally(bank, spend)
    else ReplayDays(RuleOf(p), Tally(bank, spend), dayStart, dayEnd + 1)
  }

  /** The body of the replay loop. */
  method RollAndSpend(p: Plan, startBank: U64, toSpend: U64, day: U32, ghost rule: Rule)
    returns (bank: U64, remaining: U64)
    requires rule == RuleOf(p)
    ensures Tally(bank, remaining) == ReplayDay(rule, Tally(startBank, toSpend), day)
  {
    var cap := CapBytesForDay(p, day);
    bank, remaining := SatAdd(startBank, DailyCreditBytes(p, day)), toSpend;
    if bank > cap {
      bank := cap;
    }
    if remaining == 0 {
      return;
    }
    var spendToday := Min(remaining, bank);
    bank := SatSub(bank, spendToday);
    remaining := SatSub(remaining, spendToday);
  }

  method ReplayRolloversAndSpend(p: Plan, startingBank: U64, spend: U64, dayStart: U32, dayEnd: U32)
    returns (bank: U64, remaining: U64)
    ensures Tally(bank, remaining) == Replay(p, startingBank, spend, dayStart, dayEnd)
  {
    bank, remaining := startingBank, spend;
    if p.cycleDays == 0 || p.carryDays == 0 || dayStart > dayEnd {
      return;
    }
    bank, remaining := ReplayLoop(p, startingBank, spend, dayStart, dayEnd, RuleOf(p));
  }

  /** The loop of the replay. */
  method ReplayLoop(p: Plan, startingBank: U64, spend: U64, dayStart: U32, dayEnd: U32, ghost rule: Rule)
    returns (bank: U64, remaining: U64)
    requires dayStart <= dayEnd && rule == RuleOf(p)
    ensures Tally(bank, remaining) == ReplayDays(rule, Tally(startingBank, spend), dayStart, dayEnd + 1)
  {
    bank, remaining := startingBank, spend;
    var day := dayStart;
    while day <= dayEnd
      invariant dayStart <= day <= dayEnd + 1
      invariant Tally(bank, remaining) == ReplayDays(rule, Tally(startingBank, spend), dayStart, day)
    {
      bank, remaining := RollAndSpend(p, bank, remaining, day, rule);
      day := day + 1;
    }
  }

  // ----- replay against every other schedule

  lemma {:induction false} CaplessBankIsEmpty(p: Plan, bank: U64, s: seq<nat>, lo: nat)
    requires p.cycleDays == 0 || p.carryDays == 0
    requires Feasible(RuleOf(p), bank, s, lo)
    ensures Sum(s) == 0 && BankAfter(RuleOf(p), bank, s, lo) <= bank
  {
    if s != [] {
      CaplessBankIsEmpty(p, bank, s[..|s| - 1], lo);
    }
  }

  /** No schedule over the same days leaves less unspent or ends with more in total. */
  lemma ReplayIsOptimal(p: Plan, bank: U64, spend: U64, dayStart: nat, dayEnd: nat, s: seq<nat>)
    requires |s| == Max(dayEnd + 1 - dayStart, 0)
    requires Feasible(RuleOf(p), bank, s, dayStart) && Sum(s) <= spend
    ensures var t := Replay(p, bank, spend, dayStart, dayEnd);
            && t.remaining <= spend - Sum(s)
            && t.bank + (spend - t.remaining) >= BankAfter(RuleOf(p), bank, s, dayStart) + Sum(s)
  {
    if p.cycleDays == 0 || p.carryDays == 0 {
      CaplessBankIsEmpty(p, bank, s, dayStart);
    } else if dayStart > dayEnd {
      assert s == [];
    } else {
      assert dayStart + |s| == dayEnd + 1;
      GreedyStaysAhead(RuleOf(p), bank, spend, s, dayStart);
    }
  }

  /** "A feasible schedule is found if one exists": nothing stays unspent exactly then. */
  lemma ReplayClearsIffFeasible(p: Plan, bank: U64, spend: U64, dayStart: nat, dayEnd: nat)
    ensures var n := Max(dayEnd + 1 - dayStart, 0);
            Replay(p, bank, spend, dayStart, dayEnd).remaining == 0 <==>
            exists s: seq<nat> :: Clears(RuleOf(p), bank, spend, dayStart, n, s)
  {
    var r, n := RuleOf(p), Max(dayEnd + 1 - dayStart, 0);
    GreedyClearsIffFeasible(r, bank, spend, dayStart, n);
    if p.cycleDays == 0 || p.carryDays == 0 {
      IdleReplayRolls(r, bank, dayStart, dayStart + n);
      if s: seq<nat> :| Clears(r, bank, spend, dayStart, n, s) {
        CaplessBankIsEmpty(p, bank, s, dayStart);
      }
    }
  }

  /** Replaying a gap in two adjacent pieces is replaying it at once. */
  lemma ReplaySplits(p: Plan, bank: U64, spend: U64, dayStart: nat, mid: nat, dayEnd: nat)
    requires dayStart <= mid < dayEnd
    ensures var first := Replay(p, bank, spend, dayStart, mid);
            Replay(p, first.bank, first.remaining, mid + 1, dayEnd) ==
            Replay(p, bank, spend, dayStart, dayEnd)
  {
    ReplayDaysCompose(RuleOf(p), Tally(bank, spend), dayStart, mid + 1, dayEnd + 1);
  }

  /**
   * Replay with nothing to spend is iterated rollover, except that a plan without cycle
   * or carry days keeps a positive bank which rolling over would wipe.
   */
  lemma IdleReplayIsIteratedRollover(p: Plan, bank: U64, dayStart: nat, dayEnd: nat)
    ensures Replay(p, bank, 0, dayStart, dayEnd) ==
            Tally(RollDays(RuleOf(p), bank, dayStart, dayEnd + 1), 0)
            <==> (dayStart > dayEnd || bank == 0 || (p.cycleDays != 0 && p.carryDays != 0))
  {
    IdleReplayRolls(RuleOf(p), bank, dayStart, dayEnd + 1);
    if dayStart <= dayEnd && (p.cycleDays == 0 || p.carryDays == 0) {
      assert Cap(p, dayEnd) == 0;
    }
  }

  /** Such a plan: no carry days and 5 bytes in the bank, which replay keeps and rolling over wipes. */
  lemma IdleReplayMayKeepBank(p: Plan)
    requires p.cycleDays == 30 && p.carryDays == 0
    ensures Replay(p, 5, 0, 0, 0) == Tally(5, 0) && RollDays(RuleOf(p), 5, 0, 1) == 0
  {
    assert Cap(p, 0) == 0;
    assert RollDays(RuleOf(p), 5, 0, 0) == 5;
  }

  // ----- conservation over a cycle

  lemma CreditsNeverIncrease(p: Plan, day: nat, later: nat)
    requires day <= later
    ensures DailyCreditBytes(p, later) <= DailyCreditBytes(p, day)
  {
  }

  /** Closed form of the first `n` credits. */
  lemma {:induction false} CreditPrefix(p: Plan, n: nat)
    requires p.cycleDays > 0
    ensures CreditSum(p, 0, n) == n * (p.base / p.cycleDays) + Min(n, p.base % p.cycleDays)
  {
    if n > 0 {
      CreditPrefix(p, n - 1);
      var q := p.base / p.cycleDays;
      assert n * q == (n - 1) * q + q;
    }
  }

  lemma CycleCreditsSumToBase(p: Plan)
    requires p.cycleDays > 0
    ensures CreditSum(p, 0, p.cycleDays) == p.base
  {
    CreditPrefix(p, p.cycleDays);
    assert p.base == p.cycleDays * (p.base / p.cycleDays) + p.base % p.cycleDays;
  }

  lemma {:induction false} CreditSumSplits(p: Plan, lo: nat, mid: nat, hi: nat)
    requires lo <= mid <= hi
    ensures CreditSum(p, lo, hi) == CreditSum(p, lo, mid) + CreditSum(p, mid, hi)
    decreases hi
  {
    if mid < hi {
      CreditSumSplits(p, lo, mid, hi - 1);
    }
  }

  lemma CreditsInCycleFit(p: Plan, lo: nat, hi: nat)
    requires p.cycleDays > 0 && lo <= hi <= p.cycleDays
    ensures CreditSum(p, lo, hi) <= p.base
  {
    CycleCreditsSumToBase(p);
    CreditSumSplits(p, 0, lo, hi);
    CreditSumSplits(p, 0, hi, p.cycleDays);
  }

  /** Bytes the cap took away over the days of a feasible schedule. */
  function Overflow(p: Plan, bank: U64, s: seq<nat>, lo: nat): nat
    requires Feasible(RuleOf(p), bank, s, lo)
  {
    if s == [] then 0
    else
      var rest := s[..|s| - 1];
      Overflow(p, bank, rest, lo) +
      ApplyDailyRollover(p, BankAfter(RuleOf(p), bank, rest, lo), lo + |s| - 1).1
  }

  /**
   * From an empty bank at day 0, for any spends within the bank: every credited byte is
   * banked, spent or overflowed, the bank stays within the cap and no addition saturates.
   */
  lemma {:induction false} BankConservation(p: Plan, s: seq<nat>)
    requires p.cycleDays > 0 && |s| <= p.cycleDays
    requires Feasible(RuleOf(p), 0, s, 0)
    ensures CreditSum(p, 0, |s|) == BankAfter(RuleOf(p), 0, s, 0) + Sum(s) + Overflow(p, 0, s, 0)
    ensures s != [] ==> BankAfter(RuleOf(p), 0, s, 0) + s[|s| - 1] <= Cap(p, |s| - 1)
    ensures |s| < p.cycleDays ==>
              BankAfter(RuleOf(p), 0, s, 0) + DailyCreditBytes(p, |s|) <= p.base
    ensures s != [] && p.carryDays > 0 ==>
              Cap(p, |s| - 1) == CreditSum(p, CapStart(p, |s| - 1), |s|)
  {
    if s != [] {
      BankConservation(p, s[..|s| - 1]);
      CreditsInCycleFit(p, CapStart(p, |s| - 1), |s|);
    }
    if |s| < p.cycleDays {
      CreditsInCycleFit(p, 0, |s| + 1);
    }
  }

  /** Nothing overflows while the carry window still reaches back to day 0. */
  lemma {:induction false} NoOverflowWhileCarrying(p: Plan, s: seq<nat>)
    requires p.cycleDays > 0 && |s| <= Min(p.cycleDays, p.carryDays)
    requires Feasible(RuleOf(p), 0, s, 0)
    ensures Overflow(p, 0, s, 0) == 0
  {
    if s != [] {
      NoOverflowWhileCarrying(p, s[..|s| - 1]);
      BankConservation(p, s[..|s| - 1]);
      CreditsInCycleFit(p, 0, |s|);
    }
  }
}
