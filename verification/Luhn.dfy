/** The card number checksum, and which typing errors it catches. */
module Luhn {

  type Digit = d: int | 0 <= d <= 9

  /** The contribution of a digit: every second one, counted from the right, is doubled and its digits added. */
  function Weighted(d: Digit, doubled: bool): nat {
    if !doubled then d else if 2 * d > 9 then 2 * d - 9 else 2 * d
  }

  /** Whether position i of a number of n digits is one of the doubled ones. */
  predicate Doubled(n: nat, i: nat)
    requires i < n
  {
    (n - 1 - i) % 2 == 1
  }

  /** The sum over the digits from position from on. */
  function SumFrom(ds: seq<Digit>, from: nat): nat
    requires from <= |ds|
    decreases |ds| - from
  {
    if from == |ds| then 0 else Weighted(ds[from], Doubled(|ds|, from)) + SumFrom(ds, from + 1)
  }

  predicate Accepted(ds: seq<Digit>) {
    SumFrom(ds, 0) % 10 == 0
  }

  /** Doubling and taking off nine is adding the digits of the doubled digit. */
  lemma WeightedIsDigitSum(d: Digit)
    ensures Weighted(d, true) == 2 * d / 10 + 2 * d % 10 && Weighted(d, false) == d
  {
  }

  lemma {:induction false} SumFromSnoc(ds: seq<Digit>, d: Digit, from: nat)
    requires from <= |ds|
    ensures SumFrom(ds + [d], from) == OtherSum(ds, from) + d
    decreases |ds| - from
  {
    if from < |ds| {
      SumFromSnoc(ds, d, from + 1);
    }
  }

  /** The sum of the digits before the check digit: now the last of them is doubled. */
  function OtherSum(ds: seq<Digit>, from: nat): nat
    requires from <= |ds|
    decreases |ds| - from
  {
    if from == |ds| then 0 else Weighted(ds[from], !Doubled(|ds|, from)) + OtherSum(ds, from + 1)
  }

  /** The rightmost digit is the check digit, counted once: a number without it has exactly one. */
  lemma CheckDigitIff(ds: seq<Digit>, d: Digit)
    ensures Accepted(ds + [d]) <==> d == (10 - OtherSum(ds, 0) % 10) % 10
  {
    SumFromSnoc(ds, d, 0);
  }

  /** The example of the standard: 7992739871 has the check digit 3. */
  lemma KnownNumber()
    ensures Accepted([7, 9, 9, 2, 7, 3, 9, 8, 7, 1, 3])
  {
    var ds: seq<Digit> := [7, 9, 9, 2, 7, 3, 9, 8, 7, 1, 3];
    assert SumFrom(ds, 8) == 7 + 2 + 3;
    assert SumFrom(ds, 4) == 7 + 6 + 9 + 7 + SumFrom(ds, 8);
    assert SumFrom(ds, 0) == 7 + 9 + 9 + 4 + SumFrom(ds, 4);
  }

  /** The right-to-left scan with a running sum and an alternating flag. */
  method Check(ds: seq<Digit>) returns (ok: bool)
    ensures ok <==> Accepted(ds)
  {
    var sum, alt := 0, false;
    var i := |ds|;
    while i > 0
      invariant 0 <= i <= |ds|
      invariant sum == SumFrom(ds, i)
      invariant alt <==> (|ds| - i) % 2 == 1
    {
      i := i - 1;
      var n := ds[i] as int;
      if alt {
        n := n * 2;
        if n > 9 {
          n := n - 9;
        }
      }
      sum := sum + n;
      alt := !alt;
    }
    return sum % 10 == 0;
  }

  /** The sum with the terms of positions k and k + 1 taken out. */
  lemma {:induction false} SumSplits(a: seq<Digit>, b: seq<Digit>, from: nat, k: nat)
    requires |a| == |b| && from <= k < |a|
    requires forall i | from <= i < |a| && i != k :: a[i] == b[i]
    ensures SumFrom(a, from) - Weighted(a[k], Doubled(|a|, k)) == SumFrom(b, from) - Weighted(b[k], Doubled(|b|, k))
    decreases k - from
  {
    if from == k {
      SumSame(a, b, k + 1);
    } else {
      SumSplits(a, b, from + 1, k);
    }
  }

  lemma {:induction false} SumSame(a: seq<Digit>, b: seq<Digit>, from: nat)
    requires |a| == |b| && from <= |a|
    requires forall i | from <= i < |a| :: a[i] == b[i]
    ensures SumFrom(a, from) == SumFrom(b, from)
    decreases |a| - from
  {
    if from < |a| {
      SumSame(a, b, from + 1);
    }
  }

  lemma ShiftedSum(sum: int, change: int)
    requires sum % 10 == 0
    ensures (sum + change) % 10 == 0 <==> change % 10 == 0
  {
  }

  lemma WeightedDiffers(a: Digit, b: Digit, doubled: bool)
    requires a != b
    ensures (Weighted(b, doubled) - Weighted(a, doubled)) % 10 != 0
  {
  }

  /** Changing exactly one digit of an accepted number is always detected, whatever its length. */
  lemma SingleErrorDetected(ds: seq<Digit>, k: nat, d: Digit)
    requires Accepted(ds) && k < |ds| && d != ds[k]
    ensures !Accepted(ds[k := d])
  {
    SumSplits(ds, ds[k := d], 0, k);
    var p := Doubled(|ds|, k);
    WeightedDiffers(ds[k], d, p);
    ShiftedSum(SumFrom(ds, 0), Weighted(d, p) - Weighted(ds[k], p));
  }

  function Swapped(ds: seq<Digit>, k: nat): seq<Digit>
    requires k + 1 < |ds|
  {
    ds[k := ds[k + 1]][k + 1 := ds[k]]
  }

  lemma NeighboursAlternate(n: nat, k: nat)
    requires k + 1 < n
    ensures Doubled(n, k + 1) == !Doubled(n, k)
  {
  }

  /** What swapping neighbours a and b adds to the sum, a standing in a doubled position or not. */
  function SwapChange(a: Digit, b: Digit, doubled: bool): int {
    Weighted(b, doubled) + Weighted(a, !doubled) - Weighted(a, doubled) - Weighted(b, !doubled)
  }

  lemma SwapSum(ds: seq<Digit>, k: nat)
    requires k + 1 < |ds|
    ensures SumFrom(Swapped(ds, k), 0) == SumFrom(ds, 0) + SwapChange(ds[k], ds[k + 1], Doubled(|ds|, k))
  {
    var mid := ds[k := ds[k + 1]];
    NeighboursAlternate(|ds|, k);
    SumSplits(ds, mid, 0, k);
    SumSplits(mid, Swapped(ds, k), 0, k + 1);
  }

  lemma SwapChangeIff(a: Digit, b: Digit, doubled: bool)
    requires a != b
    ensures SwapChange(a, b, doubled) % 10 == 0 <==> (a == 0 && b == 9) || (a == 9 && b == 0)
  {
  }

  /** Swapping two adjacent distinct digits of an accepted number goes unnoticed exactly for 0 and 9. */
  lemma SwapDetectedUnless09(ds: seq<Digit>, k: nat)
    requires Accepted(ds) && k + 1 < |ds| && ds[k] != ds[k + 1]
    ensures Accepted(Swapped(ds, k)) <==> (ds[k] == 0 && ds[k + 1] == 9) || (ds[k] == 9 && ds[k + 1] == 0)
  {
    SwapSum(ds, k);
    var p := Doubled(|ds|, k);
    SwapChangeIff(ds[k], ds[k + 1], p);
    ShiftedSum(SumFrom(ds, 0), SwapChange(ds[k], ds[k + 1], p));
  }
}
