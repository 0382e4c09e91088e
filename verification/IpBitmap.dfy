/** Seven days of minutes as a byte bitmap, oldest minute first (src/inbound_ip_usage.rs). */
module IpBitmap {
  import opened Collections

  const WINDOW: nat := 10_080
  const BYTES: nat := 1_260

  type Bitmap = seq<bv8>

  // ----- bits of one byte

  function Mask(k: nat): bv8
    requires k < 8
  {
    1 << k
  }

  predicate Bit(x: bv8, k: nat)
    requires k < 8
  {
    x & Mask(k) != 0
  }

  lemma MaskValues()
    ensures Mask(0) == 1 && Mask(1) == 2 && Mask(2) == 4 && Mask(3) == 8
    ensures Mask(4) == 16 && Mask(5) == 32 && Mask(6) == 64 && Mask(7) == 128
  {
  }

  lemma MasksAreDisjoint(k: nat, j: nat)
    requires k < 8 && j < 8
    ensures Mask(k) != 0
    ensures k != j ==> Mask(k) & Mask(j) == 0
  {
    MaskValues();
  }

  lemma ByteAlgebra(x: bv8, m: bv8, n: bv8, same: bool)
    requires m != 0 && (if same then m == n else m & n == 0)
    ensures (x | m) & n != 0 <==> same || x & n != 0
    ensures (x & !m) & n != 0 <==> !same && x & n != 0
  {
  }

  function WithBit(x: bv8, k: nat, value: bool): bv8
    requires k < 8
  {
    if value then x | Mask(k) else x & !Mask(k)
  }

  lemma BitAfterSet(x: bv8, k: nat, value: bool, j: nat)
    requires k < 8 && j < 8
    ensures Bit(WithBit(x, k, value), j) == if k == j then value else Bit(x, j)
  {
    MasksAreDisjoint(k, j);
    ByteAlgebra(x, Mask(k), Mask(j), k == j);
  }

  lemma BitsDetermineByte(x: bv8, y: bv8)
    requires forall k :: 0 <= k < 8 ==> (Bit(x, k) <==> Bit(y, k))
    ensures x == y
  {
    MaskValues();
    assert Bit(x, 0) <==> Bit(y, 0);
    assert Bit(x, 1) <==> Bit(y, 1);
    assert Bit(x, 2) <==> Bit(y, 2);
    assert Bit(x, 3) <==> Bit(y, 3);
    assert Bit(x, 4) <==> Bit(y, 4);
    assert Bit(x, 5) <==> Bit(y, 5);
    assert Bit(x, 6) <==> Bit(y, 6);
    assert Bit(x, 7) <==> Bit(y, 7);
  }

  /** Some bit of `x` at position `from` or above is set. */
  predicate AnyFrom(x: bv8, from: nat) {
    exists k :: from <= k < 8 && Bit(x, k)
  }

  lemma NonzeroHasBit(x: bv8)
    ensures x != 0 <==> AnyFrom(x, 0)
  {
    if x != 0 {
      MaskValues();
      assert Bit(x, 0) || Bit(x, 1) || Bit(x, 2) || Bit(x, 3) ||
             Bit(x, 4) || Bit(x, 5) || Bit(x, 6) || Bit(x, 7);
    }
  }

  lemma MaskedBit(x: bv8, from: nat, k: nat)
    requires from < 8 && k < 8
    ensures Bit(x & !(Mask(from) - 1), k) <==> from <= k && Bit(x, k)
  {
    MaskValues();
  }

  /** Clearing the low bits with a mask keeps exactly the bits from `from` on. */
  lemma MaskedByteHasBit(x: bv8, from: nat)
    requires from < 8
    ensures x & !(Mask(from) - 1) != 0 <==> AnyFrom(x, from)
  {
    var y := x & !(Mask(from) - 1);
    forall k | 0 <= k < 8
      ensures Bit(y, k) <==> from <= k && Bit(x, k)
    {
      MaskedBit(x, from, k);
    }
    NonzeroHasBit(y);
  }

  /** The eight bits of a byte, lowest first. */
  function BitList(x: bv8): (s: seq<bool>)
    ensures |s| == 8
  {
    seq(8, k requires 0 <= k < 8 => Bit(x, k))
  }

  /** `count_ones`. */
  function CountOnes(x: bv8): nat {
    Trues(BitList(x))
  }

  /** Where `s` is true, counting from `base`. */
  function Positions(s: seq<bool>, base: nat): set<nat> {
    if s == [] then {}
    else Positions(s[..|s| - 1], base) + if s[|s| - 1] then {base + |s| - 1} else {}
  }

  lemma {:induction false} PositionsAt(s: seq<bool>, base: nat, i: nat)
    ensures i in Positions(s, base) <==> base <= i < base + |s| && s[i - base]
    decreases |s|
  {
    if s != [] {
      PositionsAt(s[..|s| - 1], base, i);
    }
  }

  lemma {:induction false} PositionsCount(s: seq<bool>, base: nat)
    ensures |Positions(s, base)| == Trues(s)
    decreases |s|
  {
    if s != [] {
      PositionsCount(s[..|s| - 1], base);
      PositionsAt(s[..|s| - 1], base, base + |s| - 1);
    }
  }

  lemma PositionsAre(s: seq<bool>, base: nat)
    ensures |Positions(s, base)| == Trues(s)
    ensures forall i :: i in Positions(s, base) <==> base <= i < base + |s| && s[i - base]
  {
    PositionsCount(s, base);
    forall i
      ensures i in Positions(s, base) <==> base <= i < base + |s| && s[i - base]
    {
      if i >= 0 {
        PositionsAt(s, base, i);
      }
    }
  }

  // ----- bits of a bitmap

  predicate GetBit(b: Bitmap, i: nat) {
    i / 8 < |b| && Bit(b[i / 8], i % 8)
  }

  /** `count_bitmap_bits`. */
  function CountBits(b: Bitmap): nat {
    if b == [] then 0 else CountBits(b[..|b| - 1]) + CountOnes(b[|b| - 1])
  }

  /** `s` is the set of indices of the set bits. */
  ghost predicate IsMarks(b: Bitmap, s: set<nat>) {
    forall i: nat {:trigger GetBit(b, i)} :: i in s <==> GetBit(b, i)
  }

  /** Where lists of eight are true, list by list, for counting. */
  function Collected(lists: seq<seq<bool>>): set<nat> {
    if lists == [] then {}
    else Collected(lists[..|lists| - 1]) + Positions(lists[|lists| - 1], 8 * (|lists| - 1))
  }

  predicate Eights(lists: seq<seq<bool>>) {
    forall n :: 0 <= n < |lists| ==> |lists[n]| == 8
  }

  lemma {:induction false} CollectedBelow(lists: seq<seq<bool>>, i: nat)
    requires Eights(lists) && i in Collected(lists)
    ensures i < 8 * |lists|
    decreases |lists|
  {
    if i in Collected(lists[..|lists| - 1]) {
      CollectedBelow(lists[..|lists| - 1], i);
    } else {
      PositionsAt(lists[|lists| - 1], 8 * (|lists| - 1), i);
    }
  }

  lemma OneListMore(lists: seq<seq<bool>>)
    requires Eights(lists) && lists != []
    ensures |Collected(lists)| == |Collected(lists[..|lists| - 1])| + Trues(lists[|lists| - 1])
  {
    var rest, base := lists[..|lists| - 1], 8 * (|lists| - 1);
    PositionsAre(lists[|lists| - 1], base);
    forall i | i in Collected(rest)
      ensures i < base
    {
      CollectedBelow(rest, i);
    }
  }

  lemma {:induction false} CollectedAt(lists: seq<seq<bool>>, n: nat, k: nat)
    requires Eights(lists) && n < |lists| && k < 8
    ensures 8 * n + k in Collected(lists) <==> lists[n][k]
    decreases |lists|
  {
    var rest, i := lists[..|lists| - 1], 8 * n + k;
    PositionsAt(lists[|lists| - 1], 8 * (|lists| - 1), i);
    if n < |lists| - 1 {
      CollectedAt(rest, n, k);
    } else if i in Collected(rest) {
      CollectedBelow(rest, i);
    }
  }

  function BitLists(b: Bitmap): (r: seq<seq<bool>>)
    ensures |r| == |b| && Eights(r)
  {
    seq(|b|, n requires 0 <= n < |b| => BitList(b[n]))
  }

  /** Byte by byte, the indices of the set bits. */
  function CollectMarks(b: Bitmap): set<nat> {
    Collected(BitLists(b))
  }

  lemma {:induction false} CollectedCount(b: Bitmap)
    ensures |CollectMarks(b)| == CountBits(b)
    decreases |b|
  {
    if b != [] {
      CollectedCount(b[..|b| - 1]);
      assert BitLists(b)[..|b| - 1] == BitLists(b[..|b| - 1]);
      OneListMore(BitLists(b));
    }
  }

  lemma CollectedAreMarks(b: Bitmap)
    ensures IsMarks(b, CollectMarks(b))
  {
    forall i: nat
      ensures i in CollectMarks(b) <==> GetBit(b, i)
    {
      var n, k := i / 8, i % 8;
      assert i == 8 * n + k;
      if n < |b| {
        CollectedAt(BitLists(b), n, k);
      } else if i in CollectMarks(b) {
        CollectedBelow(BitLists(b), i);
      }
    }
  }

  /** The indices of the set bits. */
  ghost function Marked(b: Bitmap): set<nat> {
    CollectedAreMarks(b);
    var s :| IsMarks(b, s);
    s
  }

  /** Membership in `Marked` is `get_bit`. */
  lemma MarkedIffBit(b: Bitmap, i: nat)
    ensures i in Marked(b) <==> GetBit(b, i)
  {
    CollectedAreMarks(b);
    assert IsMarks(b, Marked(b));
  }

  /** The bit count is the number of marks. */
  lemma MarkedCount(b: Bitmap)
    ensures |Marked(b)| == CountBits(b)
    ensures forall i :: i in Marked(b) ==> i < 8 * |b|
  {
    CollectedAreMarks(b);
    CollectedCount(b);
    forall i: nat
      ensures i in Marked(b) <==> i in CollectMarks(b)
      ensures i in Marked(b) ==> i < 8 * |b|
    {
      MarkedIffBit(b, i);
    }
    assert Marked(b) == CollectMarks(b);
  }

  lemma MarkedByte(b: Bitmap, n: nat, k: nat)
    requires n < |b| && k < 8
    ensures 8 * n + k in Marked(b) <==> Bit(b[n], k)
  {
    MarkedIffBit(b, 8 * n + k);
    assert (8 * n + k) / 8 == n && (8 * n + k) % 8 == k;
  }

  method TestBit(b: Bitmap, i: nat) returns (r: bool)
    ensures r <==> i in Marked(b)
  {
    MarkedIffBit(b, i);
    r := GetBit(b, i);
  }

  lemma MarkAfterPut(b: Bitmap, n: nat, k: nat, value: bool, y: bv8, m: nat, q: nat)
    requires n < |b| && k < 8 && m < |b| && q < 8
    requires Bit(y, q) == if k == q then value else Bit(b[n], q)
    ensures 8 * m + q in Marked(b[n := y]) <==>
            if n == m && k == q then value else 8 * m + q in Marked(b)
  {
    MarkedByte(b[n := y], m, q);
    MarkedByte(b, m, q);
  }

  /** Replacing a byte by one that differs in bit `k` at most changes at most one mark. */
  lemma MarkedAfterPut(b: Bitmap, n: nat, k: nat, value: bool, y: bv8)
    requires n < |b| && k < 8
    requires forall q :: 0 <= q < 8 ==> Bit(y, q) == if k == q then value else Bit(b[n], q)
    ensures Marked(b[n := y]) == if value then Marked(b) + {8 * n + k} else Marked(b) - {8 * n + k}
  {
    var r, i := b[n := y], 8 * n + k;
    forall j: nat
      ensures j in Marked(r) <==> if i == j then value else j in Marked(b)
    {
      var m, q := j / 8, j % 8;
      assert j == 8 * m + q;
      if m < |b| {
        MarkAfterPut(b, n, k, value, y, m, q);
      } else {
        MarkedCount(r);
        MarkedCount(b);
      }
    }
  }

  /** In-range writes change exactly one mark; the source ignores the others. */
  method PutBit(b: Bitmap, i: nat, value: bool) returns (r: Bitmap)
    ensures |r| == |b|
    ensures i < 8 * |b| ==> Marked(r) == if value then Marked(b) + {i} else Marked(b) - {i}
    ensures i >= 8 * |b| ==> r == b
  {
    var n, k := i / 8, i % 8;
    r := b;
    if n < |b| {
      var byte := WithBit(b[n], k, value);
      forall q | 0 <= q < 8
        ensures Bit(byte, q) == if k == q then value else Bit(b[n], q)
      {
        BitAfterSet(b[n], k, value, q);
      }
      MarkedAfterPut(b, n, k, value, byte);
      r := b[n := byte];
    }
  }

  lemma MarkedDetermines(a: Bitmap, b: Bitmap)
    requires |a| == |b| && Marked(a) == Marked(b)
    ensures a == b
  {
    forall n | 0 <= n < |a|
      ensures a[n] == b[n]
    {
      forall k | 0 <= k < 8
        ensures Bit(a[n], k) <==> Bit(b[n], k)
      {
        MarkedByte(a, n, k);
        MarkedByte(b, n, k);
      }
      BitsDetermineByte(a[n], b[n]);
    }
  }

  function Zeros(n: nat): Bitmap {
    seq(n, _ => 0)
  }

  lemma ZerosUnmarked(b: Bitmap)
    requires forall i :: 0 <= i < |b| ==> b[i] == 0
    ensures Marked(b) == {}
  {
    NonzeroHasBit(0);
    forall i: nat
      ensures i !in Marked(b)
    {
      MarkedIffBit(b, i);
    }
  }

  function Normalized(b: Bitmap): (r: Bitmap)
    ensures |r| == BYTES
  {
    if |b| < BYTES then b + Zeros(BYTES - |b|) else b[..BYTES]
  }

  lemma {:induction false} SubsetOfPrefix(s: set<nat>, n: nat)
    requires forall i :: i in s ==> i < n
    ensures |s| <= n
    decreases n
  {
    if n == 0 {
      assert s == {};
    } else {
      SubsetOfPrefix(s - {n - 1}, n - 1);
    }
  }

  // ----- shifting

  /** The minutes that stay when the oldest `shift` are dropped, renumbered. */
  function Kept(s: set<nat>, shift: nat): set<nat> {
    set i | i in s && shift <= i :: i - shift
  }

  /** `marks` is what `Kept` gives once the minutes below `index` have been copied. */
  predicate CopiedBelow(s: set<nat>, shift: nat, index: nat, marks: set<nat>) {
    && (forall i :: i in s && shift <= i < index ==> i - shift in marks)
    && (forall j :: j in marks ==> j + shift < index && j + shift in s)
  }

  lemma CopyOne(s: set<nat>, shift: nat, index: nat, marks: set<nat>)
    requires CopiedBelow(s, shift, index, marks) && shift <= index
    ensures CopiedBelow(s, shift, index + 1, if index in s then marks + {index - shift} else marks)
  {
  }

  lemma CopiedAll(s: set<nat>, shift: nat, index: nat, marks: set<nat>)
    requires CopiedBelow(s, shift, index, marks)
    requires forall i :: i in s ==> i < index
    ensures marks == Kept(s, shift)
  {
    forall j | j in marks
      ensures j in Kept(s, shift)
    {
      assert j + shift in s && j == j + shift - shift;
    }
  }

  /** The source's loop, bit by bit. */
  method CopyShifted(before: Bitmap, shift: nat) returns (r: Bitmap)
    requires |before| == BYTES && shift < WINDOW
    ensures |r| == BYTES && Marked(r) == Kept(Marked(before), shift)
  {
    r := Zeros(BYTES);
    ZerosUnmarked(r);
    MarkedCount(before);
    ghost var s := Marked(before);
    var index := shift;
    while index < WINDOW
      invariant shift <= index <= WINDOW && |r| == BYTES
      invariant CopiedBelow(s, shift, index, Marked(r))
    {
      CopyOne(s, shift, index, Marked(r));
      var present := TestBit(before, index);
      if present {
        r := PutBit(r, index - shift, true);
      }
      index := index + 1;
    }
    CopiedAll(s, shift, index, Marked(r));
  }

  /** Drops the oldest `shift` minutes and makes room for as many new ones. */
  method ShiftBitmap(bitmap: Bitmap, shift: nat) returns (r: Bitmap)
    ensures |r| == BYTES && Marked(r) == Kept(Marked(Normalized(bitmap)), shift)
  {
    r := Normalized(bitmap);
    MarkedCount(r);
    if shift == 0 {
      assert forall i :: i in Marked(r) ==> i - 0 in Kept(Marked(r), 0);
    } else if shift >= WINDOW {
      r := Zeros(BYTES);
      ZerosUnmarked(r);
    } else {
      r := CopyShifted(r, shift);
    }
  }

  /** Some minute at index `shift` or later is marked. */
  ghost predicate Survives(b: Bitmap, shift: nat) {
    exists i :: i in Marked(b) && shift <= i
  }

  /** Scans the bytes from `startByte` on, masking the low bits of the first. */
  method AnyByteFrom(bitmap: Bitmap, startByte: nat, startBit: nat) returns (any: bool)
    requires startBit < 8
    ensures any <==> Survives(bitmap, 8 * startByte + startBit)
  {
    ghost var shift := 8 * startByte + startBit;
    MarkedCount(bitmap);
    var index := startByte;
    while index < |bitmap|
      invariant startByte <= index
      invariant forall i :: i in Marked(bitmap) && shift <= i ==> 8 * index <= i
    {
      var value := bitmap[index];
      ghost var from := 0;
      if index == startByte && startBit != 0 {
        value := value & !(Mask(startBit) - 1);
        from := startBit;
        MaskedByteHasBit(bitmap[index], startBit);
      } else {
        NonzeroHasBit(value);
      }
      if value != 0 {
        ghost var k :| from <= k < 8 && Bit(bitmap[index], k);
        MarkedByte(bitmap, index, k);
        return true;
      }
      forall i | i in Marked(bitmap) && shift <= i
        ensures 8 * (index + 1) <= i
      {
        MarkedByte(bitmap, index, if i < 8 * index + 8 then i - 8 * index else 0);
      }
      index := index + 1;
    }
    return false;
  }

  /** The masked-byte test, which never shifts anything. */
  method BitmapHasAnyBitAfterShift(bitmap: Bitmap, shift: nat) returns (any: bool)
    ensures any <==> shift < WINDOW && Survives(bitmap, shift)
  {
    if shift == 0 {
      any := AnyByteFrom(bitmap, 0, 0);
    } else if shift >= WINDOW {
      any := false;
    } else {
      any := AnyByteFrom(bitmap, shift / 8, shift % 8);
    }
  }

  /**
   * The fast test agrees with shifting and counting: for a full-length bitmap and every
   * shift, something survives exactly when a shifted copy has a positive count.
   */
  lemma SurvivesIffShiftedCount(b: Bitmap, shifted: Bitmap, shift: nat)
    requires |b| == BYTES && Marked(shifted) == Kept(Marked(b), shift)
    ensures (shift < WINDOW && Survives(b, shift)) <==> CountBits(shifted) > 0
  {
    MarkedCount(b);
    MarkedCount(shifted);
    if i :| i in Marked(b) && shift <= i {
      assert i - shift in Kept(Marked(b), shift);
    }
    if CountBits(shifted) > 0 {
      var j :| j in Marked(shifted);
    }
  }
}
