/** Facts about sequences and sets that several models use. */
module Collections {
  lemma TakeOneMore<T>(xs: seq<T>, i: nat)
    requires i < |xs|
    ensures xs[..i] + [xs[i]] == xs[..i + 1]
  {
  }

  lemma TakeAll<T>(xs: seq<T>)
    ensures xs[..|xs|] == xs
  {
  }

  lemma TakeApart<T>(xs: seq<T>, i: nat)
    requires i < |xs|
    ensures xs == xs[..i] + [xs[i]] + xs[i + 1..]
  {
  }

  lemma AppendLast<T>(a: seq<T>, b: seq<T>)
    requires b != []
    ensures a + b == a + b[..|b| - 1] + [b[|b| - 1]]
  {
  }

  lemma CountWithout<T>(xs: seq<T>, i: nat)
    requires i < |xs|
    ensures multiset(xs) == multiset(xs[..i] + xs[i + 1..]) + multiset{xs[i]}
  {
    TakeApart(xs, i);
    CountParts(xs[..i], xs[i], xs[i + 1..]);
  }

  lemma CountParts<T>(a: seq<T>, x: T, b: seq<T>)
    ensures multiset(a + [x] + b) == multiset(a + b) + multiset{x}
  {
  }

  lemma CancelOne<T>(p: multiset<T>, q: multiset<T>, x: T)
    requires p + multiset{x} == q + multiset{x}
    ensures p == q
  {
    assert p + multiset{x} - multiset{x} == p;
    assert q + multiset{x} - multiset{x} == q;
  }

  /** Removing the last of `a` from two reorderings leaves two reorderings. */
  lemma RemoveSame<T>(a: seq<T>, b: seq<T>, i: nat)
    requires a != [] && i < |b| && b[i] == a[|a| - 1] && multiset(a) == multiset(b)
    ensures multiset(a[..|a| - 1]) == multiset(b[..i] + b[i + 1..])
  {
    CountWithout(a, |a| - 1);
    CountWithout(b, i);
    assert a[..|a| - 1] + a[|a|..] == a[..|a| - 1];
    CancelOne(multiset(a[..|a| - 1]), multiset(b[..i] + b[i + 1..]), b[i]);
  }

  /** How many of `s` are true. */
  function Trues(s: seq<bool>): nat {
    if s == [] then 0 else Trues(s[..|s| - 1]) + if s[|s| - 1] then 1 else 0
  }

  lemma TruesOneMore(s: seq<bool>, n: nat)
    requires n < |s|
    ensures Trues(s[..n + 1]) == Trues(s[..n]) + if s[n] then 1 else 0
  {
    assert s[..n + 1][..n] == s[..n];
  }

  lemma {:induction false} NoneTrueIff(s: seq<bool>)
    ensures Trues(s) == 0 <==> forall x :: 0 <= x < |s| ==> !s[x]
    decreases |s|
  {
    if s != [] {
      var rest := s[..|s| - 1];
      NoneTrueIff(rest);
      assert forall x :: 0 <= x < |rest| ==> rest[x] == s[x];
    }
  }

  method AnyOf<T(==)>(xs: set<T>) returns (x: T)
    requires xs != {}
    ensures x in xs
  {
    x :| x in xs;
  }

  ghost function Choose<T>(xs: set<T>): (x: T)
    requires xs != {}
    ensures x in xs
  {
    var x :| x in xs;
    x
  }

  lemma MoveOne<T>(all: set<T>, done: set<T>, todo: set<T>, x: T)
    requires all == done + todo && x in todo
    ensures all == (done + {x}) + (todo - {x}) && todo - {x} < todo
  {
  }

  lemma AllMoved<T>(all: set<T>, done: set<T>, todo: set<T>)
    requires all == done + todo && todo == {}
    ensures all == done
  {
  }
}
